/** The musician portal's forms (orchestra/contrib/musician/forms.py): the
    mail address form and the two mailbox password forms. Field cleaning by
    Django itself is taken as given; the model starts from `cleaned_data`. */
module MusicianForms {
  import opened Wrappers
  import opened PyValues
  import Forms
  import MusicianModels

  type Attrs = map<string, Value>

  /** A `(value, label)` pair of a choice field. */
  datatype Choice = Choice(value: Value, display: Value)

  /** A domain, mailbox or address offered as a choice: its URL and the
      name shown for it. */
  datatype Offered = Offered(url: Value, name: Value)

  /** The choices of a field: one `(url, name)` pair per object, in order. */
  function Choices(objs: seq<Offered>): (r: seq<Choice>)
    ensures |r| == |objs|
    ensures forall i :: 0 <= i < |objs| ==> r[i].value == objs[i].url && r[i].display == objs[i].name
  {
    seq(|objs|, i requires 0 <= i < |objs| => Choice(objs[i].url, objs[i].name))
  }

  /** What `MailForm.__init__` sets up: the initial data (the instance's
      `deserialize()`, when there is an instance) and the two choice lists. */
  datatype MailFormSetup = MailFormSetup(initial: Option<Attrs>, domainChoices: seq<Choice>, mailboxChoices: seq<Choice>)

  function MailFormInit(instance: Option<Attrs>, domains: seq<Offered>, mailboxes: seq<Offered>): (r: Result<MailFormSetup, Exception>)
    ensures instance.None? ==> r.Ok? && r.value.initial.None?
    ensures instance.Some? ==> (r.Ok? <==> MusicianModels.Deserialize(instance.value).Ok?)
    ensures instance.Some? && r.Ok? ==> r.value.initial == Some(MusicianModels.Deserialize(instance.value).value)
    ensures r.Ok? ==> r.value.domainChoices == Choices(domains) && r.value.mailboxChoices == Choices(mailboxes)
  {
    var initial :- if instance.None? then Ok(None)
                   else (var d :- MusicianModels.Deserialize(instance.value); Ok(Some(d)));
    Ok(MailFormSetup(initial, Choices(domains), Choices(mailboxes)))
  }

  const NoTargetMessage := "A mailbox or forward address should be provided."

  /** `MailForm.clean`: an address needs some mailbox or a forward. */
  function MailFormClean(cleaned: Attrs): (r: Result<Attrs, Exception>)
    ensures r.Err? <==> !Truthy(Forms.Get(cleaned, "mailboxes")) && !Truthy(Forms.Get(cleaned, "forward"))
    ensures r.Err? ==> r.error == ValidationError(NoTargetMessage)
    ensures r.Ok? ==> r.value == cleaned
  {
    if !Truthy(Forms.Get(cleaned, "mailboxes")) && !Truthy(Forms.Get(cleaned, "forward")) then
      Err(ValidationError(NoTargetMessage))
    else Ok(cleaned)
  }

  /** Each URL as a `{"url": u}` object. */
  function Wrapped(urls: seq<Value>): (r: seq<Value>)
    ensures |r| == |urls|
    ensures forall i :: 0 <= i < |urls| ==> r[i] == VDict(map["url" := urls[i]])
  {
    seq(|urls|, i requires 0 <= i < |urls| => VDict(map["url" := urls[i]]))
  }

  /** Reading the URLs back out of wrapped objects gives the URLs. */
  lemma {:induction false} UrlsOfWrapped(urls: seq<Value>)
    ensures MusicianModels.Urls(Wrapped(urls)) == Ok(urls)
    decreases |urls|
  {
    if urls != [] {
      assert Wrapped(urls)[1..] == Wrapped(urls[1..]);
      assert urls == [urls[0]] + urls[1..];
      UrlsOfWrapped(urls[1..]);
    }
  }

  /** `MailForm.serialize`; `cleaned` is None when the form was never
      validated (the `assert hasattr` case). */
  function MailFormSerialize(cleaned: Option<Attrs>): (r: Result<Attrs, Exception>)
    ensures cleaned.None? ==> r == Err(AssertionError)
    ensures r.Ok? <==>
      cleaned.Some? && {"name", "domain", "mailboxes", "forward"} <= cleaned.value.Keys
      && MusicianModels.Elements(cleaned.value["mailboxes"]).Ok?
    ensures r.Ok? ==> r.value.Keys == {"name", "domain", "mailboxes", "forward"}
    ensures r.Ok? ==> r.value["name"] == cleaned.value["name"] && r.value["forward"] == cleaned.value["forward"]
    ensures r.Ok? ==> r.value["domain"] == VDict(map["url" := cleaned.value["domain"]])
  {
    if cleaned.None? then Err(AssertionError)
    else
      var c := cleaned.value;
      var name :- MusicianModels.Field(c, "name");
      var domain :- MusicianModels.Field(c, "domain");
      var mailboxes :- MusicianModels.Field(c, "mailboxes");
      var boxes :- MusicianModels.Elements(mailboxes);
      var forward :- MusicianModels.Field(c, "forward");
      Ok(map["name" := name, "domain" := VDict(map["url" := domain]),
             "mailboxes" := VList(Wrapped(boxes)), "forward" := forward])
  }

  /** A mailbox list is serialized as one `{"url": m}` per mailbox, in order. */
  lemma SerializeMailboxes(cleaned: Attrs)
    requires MailFormSerialize(Some(cleaned)).Ok? && cleaned["mailboxes"].VList?
    ensures MailFormSerialize(Some(cleaned)).value["mailboxes"] == VList(Wrapped(cleaned["mailboxes"].items))
  {
  }

  /** The address as the API expects it back: name, `{"url": ...}` of the
      domain, one `{"url": ...}` per mailbox, forward. */
  predicate WireShaped(data: Attrs) {
    && data.Keys == {"name", "domain", "mailboxes", "forward"}
    && data["domain"].VDict? && data["domain"].entries.Keys == {"url"}
    && data["mailboxes"].VList?
    && forall i :: 0 <= i < |data["mailboxes"].items| ==>
         var m := data["mailboxes"].items[i];
         m.VDict? && m.entries.Keys == {"url"}
  }

  /** Serializing an address's `deserialize()` output, unchanged, reproduces
      its name, domain URL, mailbox URLs (in order) and forward. */
  lemma DeserializeThenSerialize(data: Attrs)
    requires MusicianModels.Deserialize(data).Ok?
    ensures var r := MailFormSerialize(Some(MusicianModels.Deserialize(data).value));
      && r.Ok? && WireShaped(r.value)
      && r.value["name"] == data["name"] && r.value["forward"] == data["forward"]
      && r.value["domain"] == VDict(map["url" := data["domain"].entries["url"]])
      && r.value["mailboxes"].VList?
      && MusicianModels.Urls(r.value["mailboxes"].items)
         == MusicianModels.Urls(MusicianModels.Elements(data["mailboxes"]).value)
  {
    var d := MusicianModels.Deserialize(data).value;
    var urls := d["mailboxes"].items;
    UrlsOfWrapped(urls);
  }

  /** An address already in the API's shape comes back unchanged. */
  lemma {:induction false} WireShapedRoundTrip(data: Attrs)
    requires WireShaped(data)
    ensures MusicianModels.Deserialize(data).Ok?
    ensures MailFormSerialize(Some(MusicianModels.Deserialize(data).value)) == Ok(data)
  {
    var boxes := data["mailboxes"].items;
    WrappedUrlsOfShaped(boxes);
    var urls := MusicianModels.Urls(boxes).value;
    assert data["domain"].entries == map["url" := data["domain"].entries["url"]];
    assert MusicianModels.Deserialize(data).Ok?;
    var d := MusicianModels.Deserialize(data).value;
    assert d["mailboxes"] == VList(urls);
    SerializeMailboxes(d);
    var r := MailFormSerialize(Some(d)).value;
    assert r["mailboxes"] == data["mailboxes"];
    assert r["domain"] == data["domain"];
    assert r.Keys == data.Keys;
    assert forall k | k in r :: r[k] == data[k];
    assert r == data;
  }

  /** A list of `{"url": u}` objects is the wrapping of its URLs. */
  lemma WrappedUrlsOfShaped(boxes: seq<Value>)
    requires forall i :: 0 <= i < |boxes| ==> boxes[i].VDict? && boxes[i].entries.Keys == {"url"}
    ensures MusicianModels.Urls(boxes).Ok?
    ensures Wrapped(MusicianModels.Urls(boxes).value) == boxes
  {
    UrlsOfShaped(boxes);
    var urls := MusicianModels.Urls(boxes).value;
    forall i | 0 <= i < |boxes|
      ensures Wrapped(urls)[i] == boxes[i]
    {
      assert boxes[i].entries == map["url" := urls[i]];
    }
  }

  lemma {:induction false} UrlsOfShaped(boxes: seq<Value>)
    requires forall i :: 0 <= i < |boxes| ==> boxes[i].VDict? && boxes[i].entries.Keys == {"url"}
    ensures MusicianModels.Urls(boxes).Ok?
    decreases |boxes|
  {
    if boxes != [] {
      assert "url" in boxes[0].entries;
      UrlsOfShaped(boxes[1..]);
    }
  }

  // ---------------------------------------------------------------------
  // Mailbox password forms

  /** The `password_mismatch` message (with a typographic apostrophe). */
  const PasswordMismatch := "The two password fields didn’t match."

  /** `clean_password2` of both the change-password and the create-mailbox
      form: a mismatch is reported only when both fields are filled in. */
  function CleanPassword2(cleaned: Attrs): (r: Result<Value, Exception>)
    ensures r.Err? <==>
      Truthy(Forms.Get(cleaned, "password")) && Truthy(Forms.Get(cleaned, "password2"))
      && Forms.Get(cleaned, "password") != Forms.Get(cleaned, "password2")
    ensures r.Err? ==> r.error == ValidationError(PasswordMismatch)
    ensures r.Ok? ==> r.value == Forms.Get(cleaned, "password2")
  {
    Forms.CleanPassword2(Forms.Get(cleaned, "password"), Forms.Get(cleaned, "password2"), PasswordMismatch)
  }

  /** `MailboxChangePasswordForm.serialize`: the confirmation is sent as the
      password; an invalid form fails its assertion. */
  function ChangePasswordSerialize(valid: bool, cleaned: Attrs): (r: Result<Attrs, Exception>)
    ensures !valid ==> r == Err(AssertionError)
    ensures valid && "password2" in cleaned ==> r == Ok(map["password" := cleaned["password2"]])
  {
    if !valid then Err(AssertionError)
    else
      var p :- MusicianModels.Field(cleaned, "password2");
      Ok(map["password" := p])
  }

  /** `MailboxCreateForm.serialize`. */
  function CreateMailboxSerialize(valid: bool, cleaned: Attrs): (r: Result<Attrs, Exception>)
    ensures !valid ==> r == Err(AssertionError)
    ensures r.Ok? ==> r.value.Keys == {"name", "password", "addresses"}
    ensures r.Ok? ==> {"name", "password2", "addresses"} <= cleaned.Keys
    ensures r.Ok? ==>
      r.value["password"] == cleaned["password2"] && r.value["name"] == cleaned["name"]
      && r.value["addresses"] == cleaned["addresses"]
    ensures valid && {"name", "password2", "addresses"} <= cleaned.Keys ==> r.Ok?
  {
    if !valid then Err(AssertionError)
    else
      var name :- MusicianModels.Field(cleaned, "name");
      var p :- MusicianModels.Field(cleaned, "password2");
      var addresses :- MusicianModels.Field(cleaned, "addresses");
      Ok(map["name" := name, "password" := p, "addresses" := addresses])
  }

  /** `MailboxUpdateForm.serialize`. */
  function UpdateMailboxSerialize(valid: bool, cleaned: Attrs): (r: Result<Attrs, Exception>)
    ensures !valid ==> r == Err(AssertionError)
    ensures valid && "addresses" in cleaned ==> r == Ok(map["addresses" := cleaned["addresses"]])
  {
    if !valid then Err(AssertionError)
    else
      var addresses :- MusicianModels.Field(cleaned, "addresses");
      Ok(map["addresses" := addresses])
  }

  /** A password form is valid for serialization only if its passwords
      agree, so the password sent is the one typed twice. */
  lemma SentPasswordWasConfirmed(cleaned: Attrs)
    requires CleanPassword2(cleaned).Ok?
    requires Truthy(Forms.Get(cleaned, "password")) && Truthy(Forms.Get(cleaned, "password2"))
    requires ChangePasswordSerialize(true, cleaned).Ok?
    ensures ChangePasswordSerialize(true, cleaned).value["password"] == cleaned["password"]
  {
  }
}
