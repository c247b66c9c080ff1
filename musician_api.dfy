/** The musician portal's client for the orchestra REST API
    (orchestra/contrib/musician/api.py): path names, request formation and
    the choice of output. The HTTP session is a parameter: `send` stands
    for the network round trip and `urljoin` for `urllib.parse.urljoin`. */
module MusicianApi {
  import opened Wrappers
  import opened PyValues
  import Numerals
  import SeqFilter

  /** The API path of each name. */
  const ApiPaths: map<string, string> := map[
    "token-auth" := "/api-token-auth/",
    "my-account" := "accounts/",
    "database-list" := "databases/",
    "domain-list" := "domains/",
    "domain-detail" := "domains/{pk}/",
    "address-list" := "addresses/",
    "address-detail" := "addresses/{pk}/",
    "mailbox-list" := "mailboxes/",
    "mailbox-detail" := "mailboxes/{pk}/",
    "mailbox-password" := "mailboxes/{pk}/set_password/",
    "mailinglist-list" := "lists/",
    "saas-list" := "saas/",
    "website-list" := "websites/",
    "bill-list" := "bills/",
    "bill-document" := "bills/{pk}/document/",
    "payment-source-list" := "payment-sources/"]

  /** The HTTP verbs `request` accepts. */
  const Verbs: set<string> := {"HEAD", "GET", "POST", "PATCH", "PUT", "DELETE"}

  /** `build_absolute_uri`: the named path resolved against the base URL. */
  function BuildAbsoluteUri(pathName: string, baseUrl: string, urljoin: (string, string) -> string): (r: Result<string, Exception>)
    ensures r.Err? <==> pathName !in ApiPaths
    ensures r.Err? ==> r.error == NoReverseMatch("Not found API path name '" + pathName + "'")
    ensures r.Ok? ==> r.value == urljoin(baseUrl, ApiPaths[pathName])
  {
    if pathName !in ApiPaths then Err(NoReverseMatch("Not found API path name '" + pathName + "'"))
    else Ok(urljoin(baseUrl, ApiPaths[pathName]))
  }

  /** `str.format_map({'pk': pk})` on a path: each `{pk}` replaced. */
  function FillPk(template: string, pk: string): string {
    if template == [] then []
    else if |template| >= 4 && template[0] == '{' && template[1] == 'p' && template[2] == 'k' && template[3] == '}' then
      pk + FillPk(template[4..], pk)
    else [template[0]] + FillPk(template[1..], pk)
  }

  /** The URL of one object: the detail path of its kind with its key. */
  function DetailUrl(pathName: string, pk: int, baseUrl: string, urljoin: (string, string) -> string): string
    requires pathName in ApiPaths
  {
    urljoin(baseUrl, FillPk(ApiPaths[pathName], Numerals.IntToString(pk)))
  }

  /** Text before the first `{pk}` is kept, the key takes its place. */
  lemma FillPkAt(prefix: string, rest: string, pk: string)
    requires '{' !in prefix
    ensures FillPk(prefix + "{pk}" + rest, pk) == prefix + pk + FillPk(rest, pk)
  {
    var s := "{pk}" + rest;
    assert prefix + "{pk}" + rest == prefix + s;
    NoBrace(prefix);
    FillPkPrefix(prefix, s, pk);
    FillPkHead(rest, pk);
  }

  /** A path without placeholders is unchanged. */
  lemma FillPkPlain(template: string, pk: string)
    requires '{' !in template
    ensures FillPk(template, pk) == template
  {
    NoBrace(template);
    FillPkPrefix(template, [], pk);
    assert template + [] == template;
  }

  lemma NoBrace(t: string)
    requires '{' !in t
    ensures forall i :: 0 <= i < |t| ==> t[i] != '{'
  {
    forall i | 0 <= i < |t|
      ensures t[i] != '{'
    {
      assert t[i] in t;
    }
  }

  /** A prefix without `{` passes through unchanged. */
  lemma {:induction false} FillPkPrefix(prefix: string, s: string, pk: string)
    requires forall i :: 0 <= i < |prefix| ==> prefix[i] != '{'
    ensures FillPk(prefix + s, pk) == prefix + FillPk(s, pk)
    decreases |prefix|
  {
    if prefix == [] {
      assert prefix + s == s;
    } else {
      var c := prefix[0];
      var cs := prefix[1..];
      assert c != '{';
      assert prefix + s == [c] + (cs + s);
      FillPkStep(c, cs + s, pk);
      FillPkPrefix(cs, s, pk);
      assert [c] + (cs + FillPk(s, pk)) == prefix + FillPk(s, pk);
    }
  }

  lemma FillPkHead(rest: string, pk: string)
    ensures FillPk("{pk}" + rest, pk) == pk + FillPk(rest, pk)
  {
    var t := "{pk}" + rest;
    assert t[0] == '{' && t[1] == 'p' && t[2] == 'k' && t[3] == '}' && t[4..] == rest;
  }

  lemma FillPkStep(c: char, u: string, pk: string)
    requires c != '{'
    ensures FillPk([c] + u, pk) == [c] + FillPk(u, pk)
  {
    assert ([c] + u)[1..] == u;
  }

  /** A mailbox's URL path holds its key. */
  lemma MailboxDetailPath(pk: string)
    ensures FillPk(ApiPaths["mailbox-detail"], pk) == "mailboxes/" + pk + "/"
  {
    MailboxDetailTemplate();
    FillPkAt("mailboxes/", "/", pk);
    FillPkPlain("/", pk);
  }

  lemma MailboxDetailTemplate()
    ensures ApiPaths["mailbox-detail"] == "mailboxes/" + "{pk}" + "/"
  {
  }

  /** The call `request` makes on the session. */
  datatype HttpCall = HttpCall(verb: string, url: string, body: Value)

  /** The part of a response `request` looks at. */
  datatype Response = Response(status: int, json: Value, content: string)

  /** The URL `request` sends to: the resource's, else the explicit URL, with
      `?querystring` appended when one is given. */
  function RequestUrl(resource: Option<string>, url: Option<string>, querystring: Option<string>,
                      baseUrl: string, urljoin: (string, string) -> string): (r: Result<string, Exception>)
    ensures resource.None? && url.None? ==> r == Err(AttributeError("Provide `resource` or `url` params"))
    ensures resource.None? && url.Some? && querystring.None? ==> r == Ok(url.value)
    ensures resource.None? && url.Some? && querystring.Some? ==> r == Ok(url.value + "?" + querystring.value)
    ensures resource.Some? ==> (r.Err? <==> resource.value !in ApiPaths)
  {
    var target :-
      if resource.Some? then BuildAbsoluteUri(resource.value, baseUrl, urljoin)
      else if url.None? then Err(AttributeError("Provide `resource` or `url` params"))
      else Ok(url.value);
    if querystring.Some? then Ok(target + "?" + querystring.value) else Ok(target)
  }

  /** The call `request` makes, or the error it fails with first. */
  function PlanRequest(verb: string, resource: Option<string>, url: Option<string>, data: Value,
                       querystring: Option<string>, baseUrl: string, urljoin: (string, string) -> string): (r: Result<HttpCall, Exception>)
    ensures verb !in Verbs ==> r == Err(AssertionError)
    ensures verb in Verbs ==> (r.Ok? <==> RequestUrl(resource, url, querystring, baseUrl, urljoin).Ok?)
    ensures r.Ok? ==> r.value == HttpCall(verb, RequestUrl(resource, url, querystring, baseUrl, urljoin).value, data)
  {
    if verb !in Verbs then Err(AssertionError)
    else
      var target :- RequestUrl(resource, url, querystring, baseUrl, urljoin);
      Ok(HttpCall(verb, target, data))
  }

  /** What `request` does with the response: `raise_for_status` (when asked),
      then parsed JSON below status 500 when JSON is asked for, else the raw
      content. */
  function Finish(response: Response, renderAs: string, raiseException: bool): (r: Result<(int, Value), Exception>)
    ensures r.Err? <==> raiseException && 400 <= response.status < 600
    ensures r.Ok? ==> r.value.0 == response.status
    ensures r.Ok? ==> (r.value.1 == response.json <== response.status < 500 && renderAs == "json")
    ensures r.Ok? && !(response.status < 500 && renderAs == "json") ==> r.value.1 == VStr(response.content)
  {
    if raiseException && 400 <= response.status < 600 then Err(HttpError(response.status))
    else if response.status < 500 && renderAs == "json" then Ok((response.status, response.json))
    else Ok((response.status, VStr(response.content)))
  }

  /** `Orchestra.request`. */
  function Request(verb: string, resource: Option<string>, url: Option<string>, data: Value, renderAs: string,
                   querystring: Option<string>, raiseException: bool,
                   baseUrl: string, urljoin: (string, string) -> string, send: HttpCall -> Response): Result<(int, Value), Exception>
  {
    var call :- PlanRequest(verb, resource, url, data, querystring, baseUrl, urljoin);
    Finish(send(call), renderAs, raiseException)
  }

  /** A request is checked before anything is sent: an unknown verb or path
      name fails whatever the network answers; with `raise_exception` an
      answer is returned only for a status below 400. */
  lemma RequestChecksFirst(verb: string, resource: Option<string>, url: Option<string>, data: Value, renderAs: string,
                           querystring: Option<string>, raiseException: bool,
                           baseUrl: string, urljoin: (string, string) -> string, send: HttpCall -> Response)
    ensures verb !in Verbs ==>
      Request(verb, resource, url, data, renderAs, querystring, raiseException, baseUrl, urljoin, send) == Err(AssertionError)
    ensures verb in Verbs && resource.Some? && resource.value !in ApiPaths ==>
      Request(verb, resource, url, data, renderAs, querystring, raiseException, baseUrl, urljoin, send)
        == Err(NoReverseMatch("Not found API path name '" + resource.value + "'"))
    ensures raiseException && Request(verb, resource, url, data, renderAs, querystring, raiseException, baseUrl, urljoin, send).Ok? ==>
      !(400 <= Request(verb, resource, url, data, renderAs, querystring, raiseException, baseUrl, urljoin, send).value.0 < 600)
  {
  }

  /** `retrieve_service_list`: the service name must have a list path; it
      is checked before anything is sent. */
  function RetrieveServiceList(serviceName: string, querystring: Option<string>,
                               baseUrl: string, urljoin: (string, string) -> string, send: HttpCall -> Response): (r: Result<Value, Exception>)
    ensures serviceName + "-list" !in ApiPaths ==> r == Err(ValueError("Unknown service " + serviceName))
  {
    var patternName := serviceName + "-list";
    if patternName !in ApiPaths then Err(ValueError("Unknown service " + serviceName))
    else
      var out :- Request("GET", Some(patternName), None, VNone, "json", querystring, true, baseUrl, urljoin, send);
      Ok(out.1)
  }

  /** An unknown service fails the same way whatever the server would
      answer: no request is made. */
  lemma UnknownServiceSendsNothing(serviceName: string, querystring: Option<string>, baseUrl: string,
                                   urljoin: (string, string) -> string, send1: HttpCall -> Response, send2: HttpCall -> Response)
    requires serviceName + "-list" !in ApiPaths
    ensures RetrieveServiceList(serviceName, querystring, baseUrl, urljoin, send1)
         == RetrieveServiceList(serviceName, querystring, baseUrl, urljoin, send2)
  {
  }

  /** A known service is fetched with one GET of its list URL. */
  lemma KnownServiceIsListed(serviceName: string, querystring: Option<string>, baseUrl: string,
                             urljoin: (string, string) -> string, send: HttpCall -> Response)
    requires serviceName + "-list" in ApiPaths
    ensures var base := urljoin(baseUrl, ApiPaths[serviceName + "-list"]);
      var target := if querystring.Some? then base + "?" + querystring.value else base;
      var response := send(HttpCall("GET", target, VNone));
      RetrieveServiceList(serviceName, querystring, baseUrl, urljoin, send)
        == (if 400 <= response.status < 600 then Err(HttpError(response.status))
            else if response.status < 500 then Ok(response.json)
            else Ok(VStr(response.content)))
  {
  }

  /** The call `delete_mailbox` plans: a PATCH marking the mailbox inactive,
      never a DELETE. */
  function DeleteMailboxCall(pk: int, baseUrl: string, urljoin: (string, string) -> string): (r: Result<HttpCall, Exception>)
    ensures r == Ok(HttpCall("PATCH", DetailUrl("mailbox-detail", pk, baseUrl, urljoin), VDict(map["is_active" := VBool(false)])))
  {
    PlanRequest("PATCH", None, Some(DetailUrl("mailbox-detail", pk, baseUrl, urljoin)),
                VDict(map["is_active" := VBool(false)]), None, baseUrl, urljoin)
  }

  /** `delete_mailbox`. */
  function DeleteMailbox(pk: int, baseUrl: string, urljoin: (string, string) -> string,
                         send: HttpCall -> Response): Result<(int, Value), Exception>
  {
    var call :- DeleteMailboxCall(pk, baseUrl, urljoin);
    Finish(send(call), "json", true)
  }

  /** Deleting a mailbox only deactivates it: one PATCH of the mailbox's
      detail URL, an error for any status from 400 to 599. */
  lemma DeleteMailboxDeactivates(pk: int, baseUrl: string, urljoin: (string, string) -> string, send: HttpCall -> Response)
    ensures var response := send(HttpCall("PATCH", DetailUrl("mailbox-detail", pk, baseUrl, urljoin),
                                          VDict(map["is_active" := VBool(false)])));
      && (DeleteMailbox(pk, baseUrl, urljoin, send).Err? <==> 400 <= response.status < 600)
      && (response.status < 400 ==> DeleteMailbox(pk, baseUrl, urljoin, send) == Ok((response.status, response.json)))
  {
  }

  // ---------------------------------------------------------------------
  // Websites of a domain

  /** A website as the portal sees it: its name and the ids of its domains. */
  datatype WebSite = WebSite(name: string, domainIds: seq<Value>)

  /** The websites one of whose domains has the id, in their order. */
  function WebsitesOfDomain(websites: seq<WebSite>, domainId: Value): seq<WebSite> {
    SeqFilter.Keep(websites, (w: WebSite) => domainId in w.domainIds)
  }

  /** `filter_websites_by_domain`. */
  method FilterWebsitesByDomain(websites: seq<WebSite>, domainId: Value) returns (matching: seq<WebSite>)
    ensures matching == WebsitesOfDomain(websites, domainId)
  {
    matching := [];
    var i := 0;
    while i < |websites|
      invariant 0 <= i <= |websites|
      invariant matching == WebsitesOfDomain(websites[..i], domainId)
    {
      SeqFilter.KeepSnoc(websites[..i], websites[i], (w: WebSite) => domainId in w.domainIds);
      assert websites[..i + 1] == websites[..i] + [websites[i]];
      if domainId in websites[i].domainIds {
        matching := matching + [websites[i]];
      }
      i := i + 1;
    }
    assert websites[..i] == websites;
  }

  /** Exactly the websites with a domain of that id are returned, and each
      website listed once appears once. */
  lemma WebsitesOfDomainExact(websites: seq<WebSite>, domainId: Value)
    ensures forall w :: w in WebsitesOfDomain(websites, domainId) <==> w in websites && domainId in w.domainIds
    ensures SeqFilter.Distinct(websites) ==> SeqFilter.Distinct(WebsitesOfDomain(websites, domainId))
  {
    if SeqFilter.Distinct(websites) {
      SeqFilter.KeepDistinct(websites, (w: WebSite) => domainId in w.domainIds);
    }
  }

  /** The querystring that selects a domain's addresses. */
  function DomainQuerystring(domainId: Value): string {
    "domain=" + Str(domainId)
  }

  /** The id of an integer-keyed domain is read back intact from its
      querystring. */
  lemma DomainQuerystringNamesDomain(id: int)
    ensures var q := DomainQuerystring(VNum(IntRat(id)));
      |q| >= 7 && q[..7] == "domain=" && Numerals.ParseInt(q[7..]) == Some(id)
  {
    var q := DomainQuerystring(VNum(IntRat(id)));
    assert q[7..] == Numerals.IntToString(id);
    Numerals.IntRoundTrip(id);
  }
}
