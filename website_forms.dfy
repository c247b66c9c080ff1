/** `WebsiteAdminForm` and `WebsiteDirectiveInlineFormSet`
    (orchestra/contrib/websites/forms.py). */
module WebsiteForms {
  import opened Wrappers
  import opened PyValues
  import opened Forms
  import opened Numerals
  import SeqFilter

  // ---------------------------------------------------------------------
  // clean_target_server: every webapp mounted on the website must run on
  // the website's server.

  /** The submitted data of the inline content formset. */
  type FormData = map<string, string>

  const TotalFormsKey: string := "content_set-TOTAL_FORMS"

  function WebappKey(i: nat): string { "content_set-" + NatToString(i) + "-webapp" }
  function DeleteKey(i: nat): string { "content_set-" + NatToString(i) + "-DELETE" }

  /** `int(data['content_set-TOTAL_FORMS'])`. */
  function TotalForms(data: FormData): (r: Result<int, Exception>)
    ensures TotalFormsKey !in data ==> r == Err(KeyError(TotalFormsKey))
    ensures TotalFormsKey in data ==> (r.Ok? <==> ParseInt(data[TotalFormsKey]).Some?)
    ensures r.Ok? ==> ParseInt(data[TotalFormsKey]) == Some(r.value)
    ensures TotalFormsKey in data && ParseInt(data[TotalFormsKey]).None? ==> r.Err? && r.error.ValueError?
  {
    if TotalFormsKey !in data then Err(KeyError(TotalFormsKey))
    else match ParseInt(data[TotalFormsKey])
      case None => Err(ValueError("invalid literal for int() with base 10"))
      case Some(t) => Ok(t)
  }

  /** The webapp id slot `i` submits, if the slot counts: it has a webapp
      key, no DELETE key, and a non-empty webapp value. */
  function SlotWebapp(data: FormData, i: nat): (r: Option<string>)
    ensures r.Some? <==> WebappKey(i) in data && DeleteKey(i) !in data && data[WebappKey(i)] != ""
    ensures r.Some? ==> r.value == data[WebappKey(i)]
  {
    if WebappKey(i) in data && DeleteKey(i) !in data && data[WebappKey(i)] != "" then
      Some(data[WebappKey(i)])
    else None
  }

  /** Whether slot `i` names a webapp on another server than `serverId`;
      `webapps` maps webapp ids to their target servers, and an unknown id
      is `WebApp.DoesNotExist`. */
  function SlotDiffers(data: FormData, webapps: map<string, Server>, serverId: int, i: nat): Result<bool, Exception> {
    match SlotWebapp(data, i)
    case None => Ok(false)
    case Some(id) =>
      if id !in webapps then Err(DoesNotExist("WebApp matching query does not exist."))
      else Ok(webapps[id].id != serverId)
  }

  /** The scan over slots `i .. n-1`: the first failed lookup, or whether
      some slot differs. */
  function Scan(data: FormData, webapps: map<string, Server>, serverId: int, i: nat, n: int): Result<bool, Exception>
    decreases n - i
  {
    if i >= n then Ok(false)
    else match SlotDiffers(data, webapps, serverId, i)
      case Err(e) => Err(e)
      case Ok(b) =>
        match Scan(data, webapps, serverId, i + 1, n)
        case Err(e) => Err(e)
        case Ok(rest) => Ok(b || rest)
  }

  /** The scan succeeds iff every slot's lookup succeeds, and then reports a
      difference iff some slot names a webapp on another server. */
  lemma {:induction false} ScanMeaning(data: FormData, webapps: map<string, Server>, serverId: int, i: nat, n: int)
    ensures Scan(data, webapps, serverId, i, n).Ok? <==>
      forall k: nat :: i <= k < n ==> SlotDiffers(data, webapps, serverId, k).Ok?
    ensures Scan(data, webapps, serverId, i, n) == Ok(true) <==>
      (Scan(data, webapps, serverId, i, n).Ok?
       && exists k: nat :: i <= k < n && SlotDiffers(data, webapps, serverId, k) == Ok(true))
    decreases n - i
  {
    if i < n {
      ScanMeaning(data, webapps, serverId, i + 1, n);
    }
  }

  /** The result of a scan after the slots already seen found `different`. */
  function Carry(different: bool, rest: Result<bool, Exception>): Result<bool, Exception> {
    match rest
    case Err(e) => Err(e)
    case Ok(b) => Ok(different || b)
  }

  /** `cleaned_data['target_server']`, or the instance's server when the
      cleaned data has none. */
  function ChosenServer(cleaned: map<string, Value>, instanceServer: Server): Server
    requires "target_server" in cleaned ==> cleaned["target_server"].VServer?
  {
    if "target_server" in cleaned then cleaned["target_server"].server else instanceServer
  }

  function MismatchMessage(server: Server): string {
    "Some Webapp does not belong to the " + server.name + " server"
  }

  /** What `clean_target_server` returns: the chosen server, unless reading
      the form count or looking up a webapp raises. */
  function TargetServerOutcome(cleaned: map<string, Value>, instanceServer: Server, data: FormData,
                               webapps: map<string, Server>): Result<bool, Exception>
    requires "target_server" in cleaned ==> cleaned["target_server"].VServer?
  {
    match TotalForms(data)
    case Err(e) => Err(e)
    case Ok(total) => Scan(data, webapps, ChosenServer(cleaned, instanceServer).id, 0, total + 1)
  }

  /** The loop of `clean_target_server` over slots `0 .. n-1`: stops at the
      first webapp it cannot look up, otherwise reports whether some counted
      slot names a webapp on another server. */
  method ScanSlots(data: FormData, webapps: map<string, Server>, serverId: int, n: int)
      returns (r: Result<bool, Exception>)
    ensures r == Scan(data, webapps, serverId, 0, n)
  {
    var different := false;
    var i: nat := 0;
    while i < n
      invariant i <= (if n < 0 then 0 else n)
      invariant Scan(data, webapps, serverId, 0, n) == Carry(different, Scan(data, webapps, serverId, i, n))
    {
      assert Scan(data, webapps, serverId, i, n) ==
        match SlotDiffers(data, webapps, serverId, i)
        case Err(e) => Err(e)
        case Ok(b) => Carry(b, Scan(data, webapps, serverId, i + 1, n));
      if WebappKey(i) in data && DeleteKey(i) !in data {
        if data[WebappKey(i)] != "" {
          var id := data[WebappKey(i)];
          if id !in webapps {
            return Err(DoesNotExist("WebApp matching query does not exist."));
          }
          if webapps[id].id != serverId {
            different := true;
          }
        }
      }
      i := i + 1;
    }
    return Ok(different);
  }

  /** `clean_target_server`: scans slots 0 .. TOTAL_FORMS inclusive and adds
      one error on `target_server` when some mounted webapp runs on another
      server. */
  method CleanTargetServer(state: FormState, instanceServer: Server, data: FormData, webapps: map<string, Server>)
      returns (r: Result<Server, Exception>)
    requires "target_server" in state.cleanedData ==> state.cleanedData["target_server"].VServer?
    modifies state
    ensures var server := ChosenServer(old(state.cleanedData), instanceServer);
      var outcome := TargetServerOutcome(old(state.cleanedData), instanceServer, data, webapps);
      && (outcome.Ok? ==> r == Ok(server))
      && (outcome.Err? ==> r == Err(outcome.error))
      && state.errors == old(state.errors)
           + (if outcome == Ok(true) then [FormError(Some("target_server"), MismatchMessage(server))] else [])
      && state.cleanedData == old(state.cleanedData) - (if outcome == Ok(true) then {"target_server"} else {})
  {
    var server := ChosenServer(state.cleanedData, instanceServer);
    var total :- TotalForms(data);
    var different :- ScanSlots(data, webapps, server.id, total + 1);
    if different {
      state.AddError(Some("target_server"), MismatchMessage(server));
    }
    return Ok(server);
  }

  /** A mismatch error is added exactly when the form count parses, every
      counted slot names a known webapp, and one of them runs elsewhere. */
  lemma MismatchReported(cleaned: map<string, Value>, instanceServer: Server, data: FormData, webapps: map<string, Server>)
    requires "target_server" in cleaned ==> cleaned["target_server"].VServer?
    ensures TargetServerOutcome(cleaned, instanceServer, data, webapps) == Ok(true) <==>
      TotalForms(data).Ok?
      && (forall k: nat :: k <= TotalForms(data).value ==>
            SlotDiffers(data, webapps, ChosenServer(cleaned, instanceServer).id, k).Ok?)
      && (exists k: nat :: k <= TotalForms(data).value
            && SlotWebapp(data, k).Some? && SlotWebapp(data, k).value in webapps
            && webapps[SlotWebapp(data, k).value].id != ChosenServer(cleaned, instanceServer).id)
  {
    if TotalForms(data).Ok? {
      var total := TotalForms(data).value;
      var sid := ChosenServer(cleaned, instanceServer).id;
      ScanMeaning(data, webapps, sid, 0, total + 1);
      assert forall k: nat :: (SlotDiffers(data, webapps, sid, k) == Ok(true) <==>
        (SlotWebapp(data, k).Some? && SlotWebapp(data, k).value in webapps
         && webapps[SlotWebapp(data, k).value].id != sid));
    }
  }

  // ---------------------------------------------------------------------
  // clean: domains and protocols

  datatype Domain = Domain(id: int, name: string)

  /** The non-field errors the per-domain check adds, one per failing domain,
      in order; `validate` is `validate_domain_protocol` for this instance
      and protocol, returning the error message it raises. */
  function DomainErrors(domains: seq<Domain>, validate: Domain -> Option<string>): (r: seq<FormError>)
    ensures |r| <= |domains|
    ensures forall e :: e in r ==> e.field.None?
  {
    if domains == [] then []
    else
      (match validate(domains[0])
       case Some(msg) => [FormError(None, msg)]
       case None => [])
      + DomainErrors(domains[1..], validate)
  }

  /** Every failing domain is reported, not only the first. */
  lemma {:induction false} EveryFailureReported(domains: seq<Domain>, validate: Domain -> Option<string>, i: nat)
    requires i < |domains| && validate(domains[i]).Some?
    ensures FormError(None, validate(domains[i]).value) in DomainErrors(domains, validate)
    decreases i
  {
    if i > 0 {
      EveryFailureReported(domains[1..], validate, i - 1);
    }
  }

  /** Only failing domains are reported. */
  lemma {:induction false} OnlyFailuresReported(domains: seq<Domain>, validate: Domain -> Option<string>, e: FormError)
    requires e in DomainErrors(domains, validate)
    ensures exists i :: 0 <= i < |domains| && validate(domains[i]) == Some(e.message)
    decreases |domains|
  {
    var head := match validate(domains[0]) case Some(msg) => [FormError(None, msg)] case None => [];
    if e !in head {
      OnlyFailuresReported(domains[1..], validate, e);
      var i :| 0 <= i < |domains[1..]| && validate(domains[1..][i]) == Some(e.message);
      assert domains[i + 1] == domains[1..][i];
    }
  }

  /** The errors `clean` adds for a non-empty domain list. */
  function DomainCleanErrors(domains: seq<Domain>, validate: Domain -> Option<string>,
                             validateServerName: seq<Domain> -> Option<string>): seq<FormError> {
    DomainErrors(domains, validate)
      + match validateServerName(domains)
        case Some(msg) => [FormError(Some("domains"), msg)]
        case None => []
  }

  /** `WebsiteAdminForm.clean`: nothing happens without domains; otherwise
      every domain is checked against the protocol and all failures are
      accumulated, then the server names of the whole list are checked. */
  method Clean(state: FormState, domains: Option<seq<Domain>>, validate: Domain -> Option<string>,
               validateServerName: seq<Domain> -> Option<string>)
    modifies state
    ensures domains.None? || domains.value == [] ==> state.errors == old(state.errors) && state.cleanedData == old(state.cleanedData)
    ensures domains.Some? && domains.value != [] ==>
      var added := DomainCleanErrors(domains.value, validate, validateServerName);
      && state.errors == old(state.errors) + added
      && state.cleanedData == old(state.cleanedData) - ErrorFields(added)
  {
    if domains.None? || domains.value == [] {
      return;
    }
    var ds := domains.value;
    AddDomainErrors(state, ds, validate);
    var serverNameError := validateServerName(ds);
    if serverNameError.Some? {
      state.AddError(Some("domains"), serverNameError.value);
    }
    DomainCleanFields(ds, validate, validateServerName);
  }

  /** Only the server-name check names a field: the per-domain errors are
      non-field errors. */
  lemma DomainCleanFields(ds: seq<Domain>, validate: Domain -> Option<string>,
                          validateServerName: seq<Domain> -> Option<string>)
    ensures ErrorFields(DomainCleanErrors(ds, validate, validateServerName))
      == if validateServerName(ds).Some? then {"domains"} else {}
  {
    var before := DomainErrors(ds, validate);
    NoFieldErrors(before);
    match validateServerName(ds)
    case Some(msg) =>
      ErrorFieldsAppend(before, [FormError(Some("domains"), msg)]);
    case None =>
      assert DomainCleanErrors(ds, validate, validateServerName) == before + [];
  }

  lemma NoFieldErrors(es: seq<FormError>)
    requires forall e :: e in es ==> e.field.None?
    ensures ErrorFields(es) == {}
  {
    if f :| f in ErrorFields(es) {
      var i :| 0 <= i < |es| && es[i].field == Some(f);
      assert es[i] in es;
    }
  }

  /** The per-domain loop of `clean`: each failure is added as a non-field
      error, so no field leaves the cleaned data. */
  method AddDomainErrors(state: FormState, ds: seq<Domain>, validate: Domain -> Option<string>)
    modifies state
    ensures state.errors == old(state.errors) + DomainErrors(ds, validate)
    ensures state.cleanedData == old(state.cleanedData)
  {
    var i := 0;
    while i < |ds|
      invariant 0 <= i <= |ds|
      invariant state.errors == old(state.errors) + DomainErrors(ds[..i], validate)
      invariant state.cleanedData == old(state.cleanedData)
    {
      DomainErrorsAppend(ds[..i], ds[i], validate);
      assert ds[..i + 1] == ds[..i] + [ds[i]];
      var err := validate(ds[i]);
      if err.Some? {
        state.AddError(None, err.value);
        assert ErrorFields([FormError(None, err.value)]) == {};
      }
      i := i + 1;
    }
    assert ds[..i] == ds;
  }

  lemma {:induction false} DomainErrorsAppend(ds: seq<Domain>, d: Domain, validate: Domain -> Option<string>)
    ensures DomainErrors(ds + [d], validate) == DomainErrors(ds, validate) + DomainErrors([d], validate)
    decreases |ds|
  {
    if ds == [] {
      assert ds + [d] == [d];
    } else {
      assert (ds + [d])[1..] == ds[1..] + [d];
      DomainErrorsAppend(ds[1..], d, validate);
    }
  }

  // ---------------------------------------------------------------------
  // The directive formset: locations taken by content

  /** A content form contributes its normalised path when it is not being
      deleted and has a path. */
  predicate CountsAsLocation(form: map<string, Value>) {
    !Truthy(Get(form, "DELETE")) && !Get(form, "path").VNone?
  }

  /** The locations mounted by the content formset; `normurlpath` normalises
      a URL path. */
  function LocationsOf(forms: seq<map<string, Value>>, normurlpath: Value -> string): set<string> {
    set i | 0 <= i < |forms| && CountsAsLocation(forms[i]) :: normurlpath(Get(forms[i], "path"))
  }

  /** The first loop of `WebsiteDirectiveInlineFormSet.clean`. */
  method CollectLocations(forms: seq<map<string, Value>>, normurlpath: Value -> string) returns (locations: set<string>)
    ensures locations == LocationsOf(forms, normurlpath)
    ensures forall i :: 0 <= i < |forms| && CountsAsLocation(forms[i]) ==> normurlpath(Get(forms[i], "path")) in locations
  {
    locations := {};
    var i := 0;
    while i < |forms|
      invariant 0 <= i <= |forms|
      invariant locations == LocationsOf(forms[..i], normurlpath)
    {
      var location := Get(forms[i], "path");
      var delete := Get(forms[i], "DELETE");
      if !Truthy(delete) && !location.VNone? {
        locations := locations + {normurlpath(location)};
      }
      assert forall j :: 0 <= j < i ==> forms[..i + 1][j] == forms[..i][j];
      assert forms[..i + 1][i] == forms[i];
      i := i + 1;
    }
    assert forms[..i] == forms;
  }

  /** The directive forms whose uniqueness is checked: those with a name. */
  function NamedDirectives(directives: seq<map<string, Value>>): (r: seq<map<string, Value>>)
    ensures forall d :: d in r <==> d in directives && !Get(d, "name").VNone?
  {
    SeqFilter.Keep(directives, (d: map<string, Value>) => !Get(d, "name").VNone?)
  }

  /** Filtering keeps the directives' order: the named directives of two
      consecutive runs are those of the first followed by those of the second. */
  lemma NamedDirectivesKeepOrder(a: seq<map<string, Value>>, b: seq<map<string, Value>>)
    ensures NamedDirectives(a + b) == NamedDirectives(a) + NamedDirectives(b)
  {
    SeqFilter.KeepAppend(a, b, (d: map<string, Value>) => !Get(d, "name").VNone?);
  }
}
