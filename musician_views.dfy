/** Decisions taken by the musician portal's views
    (orchestra/contrib/musician/views.py): the mailbox quota alert, the
    address list filter, the language switch and the outcome of creating a
    mailbox. Rendering, messages and redirects are left to Django. */
module MusicianViews {
  import opened Wrappers
  import opened PyValues
  import Numerals
  import Forms
  import MusicianSettings
  import BootstrapPercent

  /** `ALLOWED_RESOURCES[profile_type]['mailbox']`. */
  function AllowedMailboxes(allowed: MusicianSettings.SettingValue, profileType: string): (r: Result<int, Exception>)
    requires allowed.Resources?
    ensures r.Ok? <==>
      MusicianSettings.ResourcesFor(allowed, profileType).Ok?
      && "mailbox" in MusicianSettings.ResourcesFor(allowed, profileType).value
    ensures r.Ok? ==> r.value == MusicianSettings.ResourcesFor(allowed, profileType).value["mailbox"]
  {
    var limits :- MusicianSettings.ResourcesFor(allowed, profileType);
    if "mailbox" !in limits then Err(KeyError("mailbox")) else Ok(limits["mailbox"])
  }

  function DangerAlert(extra: int): string {
    "<span class='text-danger'>" + Numerals.IntToString(extra) + " extra mailboxes</span>"
  }

  function WarningAlert(left: int): string {
    "<span class='text-warning'>" + Numerals.IntToString(left) + " mailbox left</span>"
  }

  /** The `data` part of the mailbox usage box. */
  datatype MailboxUsage = MailboxUsage(usage: int, total: int, alert: string, unit: string, percent: int)

  /** The usage box for `count` mailboxes out of `allowed`: a danger alert
      quoting how many are over the quota, a warning when at most one is
      left, nothing otherwise. */
  function UsageFor(allowed: int, count: nat): (r: MailboxUsage)
    ensures r.usage == count && r.total == allowed && r.unit == "mailboxes"
    ensures r.percent == BootstrapPercent.GetBootstrapedPercent(VNum(IntRat(count)), VNum(IntRat(allowed)))
    ensures allowed - count < 0 ==> r.alert == DangerAlert(count - allowed)
    ensures 0 <= allowed - count <= 1 ==> r.alert == WarningAlert(allowed - count)
    ensures allowed - count >= 2 ==> r.alert == ""
  {
    var left := allowed - count;
    var alert := if left < 0 then DangerAlert(left * -1) else if left <= 1 then WarningAlert(left) else "";
    MailboxUsage(count, allowed, alert, "mailboxes", BootstrapPercent.GetBootstrapedPercent(VNum(IntRat(count)), VNum(IntRat(allowed))))
  }

  /** `DashboardView.get_mailbox_usage`; `count` is the number of mailboxes
      the API lists. */
  function GetMailboxUsage(allowed: MusicianSettings.SettingValue, profileType: string, count: nat): (r: Result<MailboxUsage, Exception>)
    requires allowed.Resources?
    ensures r.Ok? <==> AllowedMailboxes(allowed, profileType).Ok?
    ensures r.Ok? ==> r.value == UsageFor(AllowedMailboxes(allowed, profileType).value, count)
  {
    var quota :- AllowedMailboxes(allowed, profileType);
    Ok(UsageFor(quota, count))
  }

  /** `MailboxCreateView.is_extra_mailbox`: the quota is used up. */
  function IsExtraMailbox(allowed: MusicianSettings.SettingValue, profileType: string, count: nat): (r: Result<bool, Exception>)
    requires allowed.Resources?
    ensures r.Ok? <==> AllowedMailboxes(allowed, profileType).Ok?
    ensures r.Ok? ==> (r.value <==> count >= AllowedMailboxes(allowed, profileType).value)
  {
    var quota :- AllowedMailboxes(allowed, profileType);
    Ok(count >= quota)
  }

  /** The dashboard and the create view agree: a new mailbox is an extra one
      exactly when the dashboard shows an alert quoting no mailbox left or
      some over the quota. */
  lemma ExtraMailboxAlerted(allowed: MusicianSettings.SettingValue, profileType: string, count: nat)
    requires allowed.Resources? && AllowedMailboxes(allowed, profileType).Ok?
    ensures var quota := AllowedMailboxes(allowed, profileType).value;
      var alert := GetMailboxUsage(allowed, profileType, count).value.alert;
      IsExtraMailbox(allowed, profileType, count).value <==>
        (count > quota && alert == DangerAlert(count - quota)) || (count == quota && alert == WarningAlert(0))
  {
    var quota := AllowedMailboxes(allowed, profileType).value;
    if count < quota {
      var alert := GetMailboxUsage(allowed, profileType, count).value.alert;
      assert alert == "" || alert == WarningAlert(quota - count);
      if alert == DangerAlert(count - quota) || alert == WarningAlert(0) {
        AlertsDiffer(quota - count, count - quota);
      }
    }
  }

  /** The alerts carry their number: different numbers, different texts. */
  lemma AlertsDiffer(left: int, extra: int)
    requires left >= 1
    ensures WarningAlert(left) != WarningAlert(0) && WarningAlert(left) != DangerAlert(extra) && "" != DangerAlert(extra)
    ensures "" != WarningAlert(0)
  {
    assert WarningAlert(left)[18] == 'w' && DangerAlert(extra)[18] == 'd';
    PrefixedNumbersDiffer(left, 0);
  }

  /** Two warnings with different numbers differ. */
  lemma PrefixedNumbersDiffer(a: int, b: int)
    requires a != b
    ensures WarningAlert(a) != WarningAlert(b)
  {
    var p := "<span class='text-warning'>";
    var s := " mailbox left</span>";
    if WarningAlert(a) == WarningAlert(b) {
      var x := Numerals.IntToString(a);
      var y := Numerals.IntToString(b);
      assert p + x + s == p + y + s;
      assert |x| == |y|;
      assert (p + x + s)[|p|..|p| + |x|] == x;
      assert (p + y + s)[|p|..|p| + |y|] == y;
      Numerals.IntRoundTrip(a);
      Numerals.IntRoundTrip(b);
    }
  }

  /** `MailView.get_queryfilter`: the domain parameter, when given and
      non-empty, becomes `domain=<id>`. */
  function GetQueryFilter(domain: Option<string>): (r: string)
    ensures (domain.Some? && domain.value != "") <==> r != ""
    ensures domain.Some? && domain.value != "" ==> r == "domain=" + domain.value
  {
    if domain.Some? && domain.value != "" then "domain=" + domain.value else ""
  }

  /** The responses of `profile_set_language`. */
  datatype LanguageResponse =
    | Redirect(location: string, cookie: (string, string))
    | NotFound(message: string)

  /** `profile_set_language`: a code listed first in some `LANGUAGES` entry
      is activated and stored in the language cookie; any other is a 404. */
  function ProfileSetLanguage(code: string, languages: seq<(string, string)>, cookieName: string): (r: LanguageResponse)
    ensures r.Redirect? <==> exists i :: 0 <= i < |languages| && languages[i].0 == code
    ensures r.Redirect? ==> r == Redirect("/dashboard", (cookieName, code))
    ensures r.NotFound? ==> r.message == "Languague not found"
  {
    if exists i :: 0 <= i < |languages| && languages[i].0 == code then Redirect("/dashboard", (cookieName, code))
    else NotFound("Languague not found")
  }

  /** Whether `response[:120]` can be evaluated: JSON strings and lists
      slice; a JSON object, number, boolean or null raises TypeError. The
      raw content returned for a status of 500 or more is a string. */
  predicate Sliceable(response: Value) {
    response.VStr? || response.VList?
  }

  function GenericError(status: int): string {
    "Sorry, an error occurred while processing your request (" + Numerals.IntToString(status) + ")"
  }

  /** What `MailboxCreateView.form_valid` does with the API's answer, as
      written: no error below 400; the response itself for a 400; for any
      other failure it first logs `response[:120]`, which raises TypeError
      when the decoded body cannot be sliced, and otherwise adds the generic
      message. Every error is a non-field error. */
  function CreateOutcome(status: int, response: Value): (r: Result<seq<Forms.FormError>, Exception>)
    ensures r.Err? <==> status > 400 && !Sliceable(response)
    ensures r.Err? ==> r.error.TypeError?
    ensures r.Ok? ==> (r.value == [] <==> status < 400)
    ensures r.Ok? ==> |r.value| <= 1 && forall i :: 0 <= i < |r.value| ==> r.value[i].field.None?
    ensures status == 400 ==> r == Ok([Forms.FormError(None, Str(response))])
    ensures status > 400 && Sliceable(response) ==> r == Ok([Forms.FormError(None, GenericError(status))])
  {
    if status < 400 then Ok([])
    else if status == 400 then Ok([Forms.FormError(None, Str(response))])
    else if !Sliceable(response) then Err(TypeError("response[:120] on a non-sequence"))
    else Ok([Forms.FormError(None, GenericError(status))])
  }

  /** The errors `form_valid` evidently means to add: the same as
      `CreateOutcome`, except that a failure other than 400 always gets the
      generic message, whatever shape its body has. */
  function CreateErrors(status: int, response: Value): (r: seq<Forms.FormError>)
    ensures status < 400 <==> r == []
    ensures |r| <= 1 && forall i :: 0 <= i < |r| ==> r[i].field.None?
    ensures status == 400 ==> r == [Forms.FormError(None, Str(response))]
    ensures status > 400 ==> r == [Forms.FormError(None, GenericError(status))]
  {
    if status < 400 then []
    else if status == 400 then [Forms.FormError(None, Str(response))]
    else [Forms.FormError(None, GenericError(status))]
  }

  /** The intended errors agree with the code as written wherever the
      latter does not raise, and the body's shape matters only for a 400. */
  lemma {:induction false} CreateErrorsAgree(status: int, response: Value, other: Value)
    ensures CreateOutcome(status, response).Ok? ==> CreateOutcome(status, response) == Ok(CreateErrors(status, response))
    ensures status != 400 ==> CreateErrors(status, response) == CreateErrors(status, other)
  {
  }

  /** A 403 whose decoded body is a JSON object, as Django REST framework
      sends for a refused permission: as written the view raises TypeError
      instead of showing the generic message. */
  lemma ForbiddenObjectBodyCounterexample()
    ensures CreateOutcome(403, VDict(map["detail" := VStr("You do not have permission to perform this action.")])).Err?
    ensures CreateErrors(403, VDict(map["detail" := VStr("You do not have permission to perform this action.")]))
      == [Forms.FormError(None, GenericError(403))]
  {
  }

  /** `MailboxCreateView.form_valid` after the API answered `status` with
      the decoded `response`, as written: the form stays valid below 400;
      otherwise it gets one non-field error, unless logging the body raises,
      in which case the exception escapes before the form is touched. */
  method FormValid(state: Forms.FormState, status: int, response: Value) returns (outcome: Result<bool, Exception>)
    modifies state
    ensures outcome.Err? <==> CreateOutcome(status, response).Err?
    ensures outcome.Err? ==> outcome.error == CreateOutcome(status, response).error
    ensures outcome.Ok? ==> (outcome.value <==> status < 400)
    ensures outcome.Ok? ==> state.errors == old(state.errors) + CreateOutcome(status, response).value
    ensures outcome.Err? ==> state.errors == old(state.errors)
    ensures state.cleanedData == old(state.cleanedData)
  {
    ghost var expected := CreateOutcome(status, response);
    if status >= 400 {
      if status == 400 {
        var message := Str(response);
        assert expected == Ok([Forms.FormError(None, message)]);
        state.AddError(None, message);
      } else {
        if !Sliceable(response) {
          return Err(TypeError("response[:120] on a non-sequence"));
        }
        var message := GenericError(status);
        assert expected == Ok([Forms.FormError(None, message)]);
        state.AddError(None, message);
      }
      return Ok(false);
    }
    return Ok(true);
  }
}
