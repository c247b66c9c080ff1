/** `PluginDataForm` and `ExtendedPluginDataForm` (orchestra/plugins/forms.py):
    a plugin's settings live in the JSON `data` column of its instance; the
    form shows them as declared fields and folds them back into `data`. */
module PluginForms {
  import opened Wrappers
  import opened PyValues
  import opened Forms

  /** The initial of every field after `__init__`: a declared field takes the
      instance's stored value when there is one. */
  function Initials(initial: map<string, Value>, declared: seq<string>, stored: map<string, Value>): (r: map<string, Value>)
    ensures r.Keys == initial.Keys
    ensures forall f :: f in r && f in declared && f in stored ==> r[f] == stored[f]
    ensures forall f :: f in r && !(f in declared && f in stored) ==> r[f] == initial[f]
  {
    map f | f in initial :: if f in declared && f in stored then stored[f] else initial[f]
  }

  /** The first declared field that neither the cleaned nor the submitted
      data holds: reading it raises KeyError. */
  function FirstMissing(declared: seq<string>, cleaned: map<string, Value>, raw: map<string, Value>): (r: Option<string>)
    ensures r.None? <==> forall f :: f in declared ==> f in cleaned || f in raw
    ensures r.Some? ==>
      exists i :: (0 <= i < |declared| && declared[i] == r.value
        && r.value !in cleaned && r.value !in raw
        && forall j :: 0 <= j < i ==> declared[j] in cleaned || declared[j] in raw)
  {
    if declared == [] then None
    else if declared[0] !in cleaned && declared[0] !in raw then Some(declared[0])
    else
      var r := FirstMissing(declared[1..], cleaned, raw);
      if r.Some? then
        ghost var i :| 0 <= i < |declared[1..]| && declared[1..][i] == r.value
          && r.value !in cleaned && r.value !in raw
          && forall j :: 0 <= j < i ==> declared[1..][j] in cleaned || declared[1..][j] in raw;
        assert declared[i + 1] == r.value;
        r
      else r
  }

  /** The `data` map `clean` builds: declared fields from this submission
      (cleaned value first, raw value otherwise), then every key of the old
      `data` that is not declared (cleaned value first, stored value
      otherwise). */
  function MergeData(declared: seq<string>, cleaned: map<string, Value>, raw: map<string, Value>,
                     stored: map<string, Value>): (r: Result<map<string, Value>, Exception>)
    ensures r.Err? <==> FirstMissing(declared, cleaned, raw).Some?
    ensures r.Err? ==> r.error == KeyError(FirstMissing(declared, cleaned, raw).value)
    ensures r.Ok? ==> r.value.Keys == (set f | f in declared) + stored.Keys
  {
    match FirstMissing(declared, cleaned, raw)
    case Some(f) => Err(KeyError(f))
    case None => Ok(Merged(declared, cleaned, raw, stored))
  }

  /** The merged map once every declared field is available. */
  function Merged(declared: seq<string>, cleaned: map<string, Value>, raw: map<string, Value>,
                  stored: map<string, Value>): map<string, Value>
    requires forall f :: f in declared ==> f in cleaned || f in raw
  {
    map k | k in (set f | f in declared) + stored.Keys ::
      if k in declared then (if k in cleaned then cleaned[k] else raw[k])
      else if k in cleaned then cleaned[k] else stored[k]
  }

  /** A declared field's new value wins over the one stored before. */
  lemma NewValueWins(declared: seq<string>, cleaned: map<string, Value>, raw: map<string, Value>,
                     stored: map<string, Value>, f: string)
    requires MergeData(declared, cleaned, raw, stored).Ok? && f in declared
    ensures MergeData(declared, cleaned, raw, stored).value[f] == if f in cleaned then cleaned[f] else raw[f]
  {
  }

  /** A stored key that is not declared keeps its stored value unless the
      cleaned data holds one. */
  lemma StoredValueKept(declared: seq<string>, cleaned: map<string, Value>, raw: map<string, Value>,
                        stored: map<string, Value>, k: string)
    requires MergeData(declared, cleaned, raw, stored).Ok? && k in stored && k !in declared
    ensures MergeData(declared, cleaned, raw, stored).value[k] == if k in cleaned then cleaned[k] else stored[k]
  {
  }

  class PluginDataForm {
    /** The form's error state and cleaned data. */
    const state: FormState
    /** `declared_fields`, in declaration order. */
    const declared: seq<string>
    /** The submitted data (`self.data`). */
    const raw: map<string, Value>
    /** The instance's stored `data`. */
    const stored: map<string, Value>
    /** `self.fields[f].initial` for every field. */
    var initial: map<string, Value>

    constructor (state: FormState, declared: seq<string>, raw: map<string, Value>,
                 stored: map<string, Value>, initial: map<string, Value>)
      ensures this.state == state && this.declared == declared && this.raw == raw
      ensures this.stored == stored && this.initial == initial
    {
      this.state := state;
      this.declared := declared;
      this.raw := raw;
      this.stored := stored;
      this.initial := initial;
    }

    /** The initials part of `__init__`. Every declared field is a field of
        the form. */
    method LoadInitials()
      requires forall f :: f in declared ==> f in initial
      modifies this
      ensures initial == Initials(old(initial), declared, stored)
    {
      var i := 0;
      while i < |declared|
        invariant 0 <= i <= |declared|
        invariant initial == Initials(old(initial), declared[..i], stored)
      {
        var f := declared[i];
        if f in stored {
          initial := initial[f := stored[f]];
        }
        i := i + 1;
        assert declared[..i] == declared[..i - 1] + [f];
      }
      assert declared[..i] == declared;
    }

    /** `clean`: builds the merged map with two loops and stores it as
        `cleaned_data['data']`; nothing else is written. A declared field
        missing from both the cleaned and the submitted data raises
        KeyError before anything is stored. */
    method Clean() returns (failure: Option<Exception>)
      modifies state
      ensures var merged := MergeData(declared, old(state.cleanedData), raw, stored);
        && (failure.Some? <==> merged.Err?)
        && (merged.Err? ==> failure.value == merged.error && state.cleanedData == old(state.cleanedData))
        && (merged.Ok? ==> state.cleanedData == old(state.cleanedData)["data" := VDict(merged.value)])
      ensures state.errors == old(state.errors)
    {
      var cleaned := state.cleanedData;
      var declaredPart := MergeDeclared(cleaned);
      if declaredPart.Err? {
        return Some(declaredPart.error);
      }
      var data := MergeStored(cleaned, declaredPart.value);
      state.cleanedData := state.cleanedData["data" := VDict(data)];
      failure := None;
    }

    /** The first loop of `clean`: each declared field from the cleaned
        data, else from the submitted data, stopping at the first field
        neither holds. */
    method MergeDeclared(cleaned: map<string, Value>) returns (r: Result<map<string, Value>, Exception>)
      ensures r.Err? <==> FirstMissing(declared, cleaned, raw).Some?
      ensures r.Err? ==> r.error == KeyError(FirstMissing(declared, cleaned, raw).value)
      ensures r.Ok? ==> r.value.Keys == set f | f in declared
      ensures r.Ok? ==> forall f :: f in r.value ==> r.value[f] == if f in cleaned then cleaned[f] else raw[f]
    {
      var data: map<string, Value> := map[];
      var i := 0;
      while i < |declared|
        invariant 0 <= i <= |declared|
        invariant forall j :: 0 <= j < i ==> declared[j] in cleaned || declared[j] in raw
        invariant data.Keys == set f | f in declared[..i]
        invariant forall f :: f in data ==> data[f] == if f in cleaned then cleaned[f] else raw[f]
      {
        var f := declared[i];
        assert declared[..i + 1] == declared[..i] + [f];
        if f in cleaned {
          data := data[f := cleaned[f]];
        } else if f in raw {
          data := data[f := raw[f]];
        } else {
          MissingIsFirst(declared, cleaned, raw, i);
          return Err(KeyError(f));
        }
        i := i + 1;
      }
      assert declared[..i] == declared;
      assert FirstMissing(declared, cleaned, raw).None?;
      return Ok(data);
    }

    /** The second loop of `clean`: every stored key not already present,
        from the cleaned data, else its stored value. */
    method MergeStored(cleaned: map<string, Value>, declaredPart: map<string, Value>) returns (data: map<string, Value>)
      requires forall f :: f in declared ==> f in cleaned || f in raw
      requires declaredPart.Keys == set f | f in declared
      requires forall f :: f in declaredPart ==> declaredPart[f] == if f in cleaned then cleaned[f] else raw[f]
      ensures data == Merged(declared, cleaned, raw, stored)
    {
      ghost var merged := Merged(declared, cleaned, raw, stored);
      data := declaredPart;
      var rest := stored.Keys;
      while rest != {}
        invariant rest <= stored.Keys
        invariant data.Keys == (set f | f in declared) + (stored.Keys - rest)
        invariant forall k :: k in data ==> data[k] == merged[k]
        decreases rest
      {
        var k :| k in rest;
        if k !in data {
          assert k !in declared;
          data := data[k := if k in cleaned then cleaned[k] else stored[k]];
        }
        rest := rest - {k};
      }
      assert data.Keys == merged.Keys;
    }
  }

  /** When the first `i` declared fields are all available and the next one
      is not, that one is the first missing. */
  lemma {:induction false} MissingIsFirst(declared: seq<string>, cleaned: map<string, Value>, raw: map<string, Value>, i: nat)
    requires i < |declared| && declared[i] !in cleaned && declared[i] !in raw
    requires forall j :: 0 <= j < i ==> declared[j] in cleaned || declared[j] in raw
    ensures FirstMissing(declared, cleaned, raw) == Some(declared[i])
    decreases i
  {
    if i > 0 {
      MissingIsFirst(declared[1..], cleaned, raw, i - 1);
    }
  }

  /** `ExtendedPluginDataForm.clean_username`. On creation a missing server
      is an error on `target_server`, and a new server without a username is
      an error on `username`; the cleaned username is returned. On update the
      method returns None and adds nothing. */
  method CleanUsername(state: FormState, instanceId: Option<int>, newServers: set<string>) returns (r: Value)
    requires ServerOrNone(Get(state.cleanedData, "target_server"))
    modifies state
    ensures r == if Unsaved(instanceId) then Get(old(state.cleanedData), "username") else VNone
    ensures state.errors == old(state.errors) + UsernameErrors(old(state.cleanedData), instanceId, newServers)
    ensures state.cleanedData == old(state.cleanedData) - ErrorFields(UsernameErrors(old(state.cleanedData), instanceId, newServers))
  {
    if !Unsaved(instanceId) {
      return VNone;
    }
    var server := Get(state.cleanedData, "target_server");
    var username := Get(state.cleanedData, "username");
    if server.VNone? {
      state.AddError(Some("target_server"), "choice some server");
    } else if server.server.name in newServers && !Truthy(username) {
      state.AddError(Some("username"), "SFTP user is required by new webservers");
    }
    return username;
  }

  /** The errors `clean_username` adds. */
  function UsernameErrors(cleaned: map<string, Value>, instanceId: Option<int>, newServers: set<string>): (r: seq<FormError>)
    requires ServerOrNone(Get(cleaned, "target_server"))
    ensures |r| <= 1
    ensures !Unsaved(instanceId) ==> r == []
    ensures Unsaved(instanceId) && Get(cleaned, "target_server").VNone? ==> r == [FormError(Some("target_server"), "choice some server")]
    ensures r != [] && r[0].field == Some("username") <==>
      Unsaved(instanceId) && Get(cleaned, "target_server").VServer?
      && Get(cleaned, "target_server").server.name in newServers && !Truthy(Get(cleaned, "username"))
    ensures r == [] || r == [FormError(Some("target_server"), "choice some server")]
      || r == [FormError(Some("username"), "SFTP user is required by new webservers")]
    ensures (Unsaved(instanceId) && Get(cleaned, "target_server").VServer?
      && !(Get(cleaned, "target_server").server.name in newServers && !Truthy(Get(cleaned, "username")))) ==> r == []
  {
    var server := Get(cleaned, "target_server");
    if !Unsaved(instanceId) then []
    else if server.VNone? then [FormError(Some("target_server"), "choice some server")]
    else if server.server.name in newServers && !Truthy(Get(cleaned, "username")) then
      [FormError(Some("username"), "SFTP user is required by new webservers")]
    else []
  }

  /** `ExtendedPluginDataForm.clean_password2`. */
  function CleanPassword2(cleaned: map<string, Value>): (r: Result<Value, Exception>)
    ensures r.Err? <==>
      (Truthy(Get(cleaned, "password1")) && Truthy(Get(cleaned, "password2"))
       && Get(cleaned, "password1") != Get(cleaned, "password2"))
    ensures r.Ok? ==> r.value == Get(cleaned, "password2")
  {
    Forms.CleanPassword2(Get(cleaned, "password1"), Get(cleaned, "password2"),
      "The two password fields didn't match.")
  }
}
