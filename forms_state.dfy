/** The state a bound Django form accumulates while it is cleaned: the
    errors added so far and the cleaned data. */
module Forms {
  import opened Wrappers
  import opened PyValues

  /** An error recorded by `add_error`; `field` is None for a non-field error. */
  datatype FormError = FormError(field: Option<string>, message: string)

  /** The fields that a list of errors names. */
  function ErrorFields(es: seq<FormError>): (r: set<string>)
    ensures forall i :: 0 <= i < |es| && es[i].field.Some? ==> es[i].field.value in r
    ensures forall f :: f in r ==> exists i :: 0 <= i < |es| && es[i].field == Some(f)
  {
    if es == [] then {}
    else
      var last := es[|es| - 1];
      ErrorFields(es[..|es| - 1]) + (if last.field.Some? then {last.field.value} else {})
  }

  /** `not instance.id`: the instance has not been saved yet. */
  predicate Unsaved(id: Option<int>) {
    id.None? || id.value == 0
  }

  /** What a model choice field for a server leaves in the cleaned data. */
  predicate ServerOrNone(v: Value) {
    v.VNone? || v.VServer?
  }

  /** `cleaned_data.get(key)`. */
  function Get(cleaned: map<string, Value>, key: string): (r: Value)
    ensures key in cleaned ==> r == cleaned[key]
    ensures key !in cleaned ==> r == VNone
  {
    if key in cleaned then cleaned[key] else VNone
  }

  class FormState {
    var errors: seq<FormError>
    var cleanedData: map<string, Value>

    constructor (cleaned: map<string, Value>)
      ensures errors == [] && cleanedData == cleaned
    {
      errors := [];
      cleanedData := cleaned;
    }

    /** `add_error`: records the error; an error on a field also removes that
        field from the cleaned data, as Django does. */
    method AddError(field: Option<string>, message: string)
      modifies this
      ensures errors == old(errors) + [FormError(field, message)]
      ensures cleanedData == old(cleanedData) - ErrorFields([FormError(field, message)])
    {
      errors := errors + [FormError(field, message)];
      if field.Some? {
        cleanedData := cleanedData - {field.value};
      }
    }
  }

  /** Adding errors one after the other removes the fields of all of them. */
  lemma {:induction false} ErrorFieldsAppend(es: seq<FormError>, more: seq<FormError>)
    ensures ErrorFields(es + more) == ErrorFields(es) + ErrorFields(more)
    decreases |more|
  {
    if more == [] {
      assert es + more == es;
    } else {
      var last := more[|more| - 1];
      var init := more[..|more| - 1];
      assert (es + more)[..|es + more| - 1] == es + init;
      assert init + [last] == more;
      ErrorFieldsAppend(es, init);
      assert more[..|more| - 1] == init;
    }
  }

  /** `clean_password2`, shared by the plugin form, the static webapp form
      and the two mailbox password forms: it fails only when both passwords
      are given and differ, and otherwise passes `password2` through. */
  function CleanPassword2(password1: Value, password2: Value, mismatch: string): (r: Result<Value, Exception>)
    ensures r.Err? <==> Truthy(password1) && Truthy(password2) && password1 != password2
    ensures r.Err? ==> r.error == ValidationError(mismatch)
    ensures r.Ok? ==> r.value == password2
  {
    if Truthy(password1) && Truthy(password2) && password1 != password2 then
      Err(ValidationError(mismatch))
    else Ok(password2)
  }
}
