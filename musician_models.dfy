/** The musician portal's client-side models
    (orchestra/contrib/musician/models.py): plain objects built from the
    JSON the orchestra API returns. */
module MusicianModels {
  import opened Wrappers
  import opened PyValues
  import opened Numerals
  import MusicianSettings
  import BootstrapPercent

  /** An object's attributes, or a JSON object. */
  type Attrs = map<string, Value>

  /** A model class: its name, `api_name`, `verbose_name`, `param_defaults`,
      and whether its `__init__` also keeps the raw kwargs as `self.data`. */
  datatype ModelClass = ModelClass(name: string, apiName: Value, verboseName: Value,
                                   paramDefaults: Attrs, keepsData: bool)

  const BillingContact: ModelClass := ModelClass("BillingContact", VNone, VNone,
    map["name" := VNone, "address" := VNone, "city" := VNone, "zipcode" := VNone,
        "country" := VNone, "vat" := VNone], false)

  const UserAccount: ModelClass := ModelClass("UserAccount", VStr("accounts"), VNone,
    map["username" := VNone, "type" := VNone, "language" := VNone, "short_name" := VNone,
        "full_name" := VNone, "billing" := VDict(map[]), "last_login" := VNone], false)

  const Address: ModelClass := ModelClass("Address", VStr("address"), VStr("Mail addresses"),
    map["id" := VNone, "name" := VNone, "domain" := VNone, "mailboxes" := VList([]),
        "forward" := VNone, "url" := VNone], true)

  const MailinglistService: ModelClass := ModelClass("MailinglistService", VStr("mailinglist"), VStr("Mailing list"),
    map["name" := VNone, "is_active" := VBool(true), "admin_email" := VNone], true)

  const SaasService: ModelClass := ModelClass("SaasService", VStr("saas"), VStr("Software as a Service (SaaS)"),
    map["name" := VNone, "service" := VNone, "is_active" := VBool(true), "data" := VDict(map[])], false)

  // ---------------------------------------------------------------------
  // OrchestraModel

  /** The attributes `__init__` sets: every `param_defaults` key, from the
      keyword argument of that name when there is one. */
  function Attributes(defaults: Attrs, kwargs: Attrs): (r: Attrs)
    ensures r.Keys == defaults.Keys
    ensures forall p :: p in r && p in kwargs ==> r[p] == kwargs[p]
    ensures forall p :: p in r && p !in kwargs ==> r[p] == defaults[p]
  {
    map p | p in defaults :: if p in kwargs then kwargs[p] else defaults[p]
  }

  /** The `setattr` loop of `__init__`. */
  method InitAttributes(defaults: Attrs, kwargs: Attrs) returns (attrs: Attrs)
    ensures attrs == Attributes(defaults, kwargs)
  {
    attrs := map[];
    var todo := defaults.Keys;
    while todo != {}
      invariant todo <= defaults.Keys
      invariant attrs.Keys == defaults.Keys - todo
      invariant forall p :: p in attrs ==> attrs[p] == if p in kwargs then kwargs[p] else defaults[p]
      decreases todo
    {
      var p :| p in todo;
      attrs := attrs[p := if p in kwargs then kwargs[p] else defaults[p]];
      todo := todo - {p};
    }
  }

  /** `verbose_name`, falling back to `api_name`. */
  function VerboseName(cls: ModelClass): (r: Value)
    ensures cls.verboseName != VNone ==> r == cls.verboseName
    ensures cls.verboseName == VNone ==> r == cls.apiName
  {
    if cls.verboseName == VNone then cls.apiName else cls.verboseName
  }

  /** A model object. */
  class OrchestraObject {
    const cls: ModelClass
    var verboseName: Value
    var attrs: Attrs
    /** `self.data`, for the classes that keep their kwargs. */
    var data: Option<Attrs>
    /** `self._json`, set by `new_from_json`. */
    var json: Option<Attrs>

    constructor (cls: ModelClass, kwargs: Attrs)
      ensures this.cls == cls && verboseName == VerboseName(cls)
      ensures attrs == Attributes(cls.paramDefaults, kwargs)
      ensures data == (if cls.keepsData then Some(kwargs) else None) && json.None?
    {
      var initial := InitAttributes(cls.paramDefaults, kwargs);
      this.cls := cls;
      data := if cls.keepsData then Some(kwargs) else None;
      verboseName := VerboseName(cls);
      attrs := initial;
      json := None;
    }
  }

  /** The keyword arguments `new_from_json` passes: a copy of the JSON with
      the caller's extra values written over it. */
  function JsonKwargs(data: Attrs, kwargs: Attrs): (r: Attrs)
    ensures r.Keys == data.Keys + kwargs.Keys
    ensures forall k :: k in kwargs ==> r[k] == kwargs[k]
    ensures forall k :: k in data && k !in kwargs ==> r[k] == data[k]
  {
    data + kwargs
  }

  /** `OrchestraModel.new_from_json`: None gives a default object; otherwise
      the extra values override same-named JSON keys. The JSON map is a value
      here, so the copy the source makes cannot alias it. */
  method NewFromJson(cls: ModelClass, data: Option<Attrs>, kwargs: Attrs) returns (c: OrchestraObject)
    ensures fresh(c) && c.cls == cls && c.verboseName == VerboseName(cls)
    ensures data.None? ==> c.attrs == Attributes(cls.paramDefaults, map[]) && c.json.None?
    ensures data.Some? ==> c.attrs == Attributes(cls.paramDefaults, JsonKwargs(data.value, kwargs)) && c.json == data
  {
    if data.None? {
      c := new OrchestraObject(cls, map[]);
      return;
    }
    var jsonData := data.value;
    var todo := kwargs.Keys;
    while todo != {}
      invariant todo <= kwargs.Keys
      invariant jsonData.Keys == data.value.Keys + (kwargs.Keys - todo)
      invariant forall k :: k in jsonData && k in kwargs && k !in todo ==> jsonData[k] == kwargs[k]
      invariant forall k :: k in jsonData && !(k in kwargs && k !in todo) ==> jsonData[k] == data.value[k]
      decreases todo
    {
      var k :| k in todo;
      jsonData := jsonData[k := kwargs[k]];
      todo := todo - {k};
    }
    assert jsonData == JsonKwargs(data.value, kwargs);
    c := new OrchestraObject(cls, jsonData);
    c.json := data;
  }

  /** The value a nested object takes inside another's attributes. */
  function ObjectValue(cls: ModelClass, attrs: Attrs): Value {
    VObject(cls.name, attrs)
  }

  // ---------------------------------------------------------------------
  // UserAccount

  function LowerChar(c: char): char {
    if 'A' <= c <= 'Z' then (c as int + 32) as char else c
  }

  /** `str.lower()` on ASCII letters. */
  function Lower(s: string): (r: string)
    ensures |r| == |s| && forall i :: 0 <= i < |s| ==> r[i] == LowerChar(s[i])
    ensures forall i :: 0 <= i < |r| ==> !('A' <= r[i] <= 'Z')
  {
    seq(|s|, i requires 0 <= i < |s| => LowerChar(s[i]))
  }

  /** `BillingContact.new_from_json(data['billcontact'])` as a value. */
  function BillingFrom(v: Value): Result<Value, Exception> {
    match v
    case VNone => Ok(ObjectValue(BillingContact, Attributes(BillingContact.paramDefaults, map[])))
    case VDict(m) => Ok(ObjectValue(BillingContact, Attributes(BillingContact.paramDefaults, m)))
    case VList(_) => Err(TypeError("argument after ** must be a mapping"))
    case _ => Err(AttributeError("object has no attribute 'copy'"))
  }

  /** The three values `UserAccount.new_from_json` computes before calling
      the base class; `parseDatetime` is Django's `parse_datetime`. */
  function UserAccountKwargs(data: Attrs, parseDatetime: string -> Value): Result<Attrs, Exception> {
    var billing :- if "billcontact" in data then BillingFrom(data["billcontact"]) else Ok(VNone);
    var language :-
      if "language" !in data then Ok(VNone)
      else if data["language"].VStr? then Ok(VStr(Lower(data["language"].s)))
      else Err(AttributeError("object has no attribute 'lower'"));
    var lastLogin :-
      if "last_login" !in data || data["last_login"] == VNone then Ok(VNone)
      else if data["last_login"].VStr? then Ok(parseDatetime(data["last_login"].s))
      else Err(TypeError("expected string or bytes-like object"));
    Ok(map["billing" := billing, "language" := language, "last_login" := lastLogin])
  }

  /** The attributes of the account `UserAccount.new_from_json` builds. */
  function UserAccountAttrs(data: Attrs, parseDatetime: string -> Value): (r: Result<Attrs, Exception>)
    ensures r.Ok? ==> r.value.Keys == UserAccount.paramDefaults.Keys
  {
    var kwargs :- UserAccountKwargs(data, parseDatetime);
    Ok(Attributes(UserAccount.paramDefaults, JsonKwargs(data, kwargs)))
  }

  /** The three computed values, before they reach the object. */
  lemma UserAccountKwargsFields(data: Attrs, parseDatetime: string -> Value)
    requires UserAccountKwargs(data, parseDatetime).Ok?
    ensures var kw := UserAccountKwargs(data, parseDatetime).value;
      && kw.Keys == {"billing", "language", "last_login"}
      && ("language" in data ==> kw["language"] == VStr(Lower(data["language"].s)))
      && ("last_login" !in data || data["last_login"] == VNone ==> kw["last_login"] == VNone)
      && ("billcontact" in data ==> kw["billing"].VObject? && kw["billing"].kind == "BillingContact")
      && ("billcontact" !in data ==> kw["billing"] == VNone)
  {
  }

  /** The language is stored lower-cased; a missing or null `last_login`
      stays None; a `billcontact` key, even null, gives a billing object. */
  lemma UserAccountFields(data: Attrs, parseDatetime: string -> Value)
    requires UserAccountAttrs(data, parseDatetime).Ok?
    ensures var a := UserAccountAttrs(data, parseDatetime).value;
      && ("language" in data ==> a["language"] == VStr(Lower(data["language"].s)))
      && ("last_login" !in data || data["last_login"] == VNone ==> a["last_login"] == VNone)
      && ("billcontact" in data ==> a["billing"].VObject? && a["billing"].kind == "BillingContact")
      && ("billcontact" !in data ==> a["billing"] == VNone)
  {
    UserAccountKwargsFields(data, parseDatetime);
    var kwargs := UserAccountKwargs(data, parseDatetime).value;
    var merged := JsonKwargs(data, kwargs);
    assert UserAccountAttrs(data, parseDatetime).value == Attributes(UserAccount.paramDefaults, merged);
  }

  // ---------------------------------------------------------------------
  // Disk usage

  /** `float(v)`; a numeral string is read exactly. */
  function ToFloat(v: Value): Result<Rat, Exception> {
    match v
    case VNum(r) => Ok(r)
    case VBool(b) => Ok(IntRat(if b then 1 else 0))
    case VStr(s) =>
      (match ParseDecimal(s)
       case None => Err(ValueError("could not convert string to float"))
       case Some((n, k)) => Ok(Rat(n, Pow10(k))))
    case _ => Err(TypeError("float() argument must be a string or a number"))
  }

  /** The first resource named 'disk', or {} when there is none; a resource
      without a name is a KeyError and one that is not a dict a TypeError. */
  function DiskEntry(items: seq<Value>): (r: Result<Attrs, Exception>)
    ensures r.Err? ==> r.error.KeyError? || r.error.TypeError?
  {
    if items == [] then Ok(map[])
    else match items[0]
      case VDict(r) =>
        if "name" !in r then Err(KeyError("name"))
        else if r["name"] == VStr("disk") then Ok(r)
        else DiskEntry(items[1..])
      case _ => Err(TypeError("indices must be integers"))
  }

  /** `for r in resources`: only a list holds resources; an empty string or
      dict iterates zero times; anything else is not a list of dicts. */
  function DiskResource(resources: Value): Result<Attrs, Exception> {
    match resources
    case VList(items) => DiskEntry(items)
    case VStr(s) => if s == [] then Ok(map[]) else Err(TypeError("string indices must be integers"))
    case VDict(m) => if m == map[] then Ok(map[]) else Err(TypeError("string indices must be integers"))
    case _ => Err(TypeError("object is not iterable"))
  }

  /** The `details` dict, read in the order the source reads its keys. */
  function DiskDetails(resources: Value): Result<Attrs, Exception> {
    var disk :- DiskResource(resources);
    if "used" !in disk then Err(KeyError("used"))
    else
      var used :- ToFloat(disk["used"]);
      if "allocated" !in disk then Err(KeyError("allocated"))
      else if "unit" !in disk then Err(KeyError("unit"))
      else Ok(map["usage" := VNum(used), "total" := disk["allocated"], "unit" := disk["unit"]])
  }

  /** `except (IndexError, KeyError): return {}`. */
  predicate Swallowed(e: Exception) {
    e.KeyError? || e.IndexError?
  }

  function WithPercent(details: Attrs, usageKey: string): Result<Attrs, Exception> {
    if usageKey !in details then Err(KeyError(usageKey))
    else if "total" !in details then Err(KeyError("total"))
    else Ok(details["percent" := VNum(IntRat(
      BootstrapPercent.GetBootstrapedPercent(details[usageKey], details["total"])))])
  }

  /** `DatabaseService.get_usage`. */
  function GetUsage(data: Attrs): (r: Result<Attrs, Exception>)
    ensures "resources" !in data ==> r == Ok(map[])
  {
    var attempt := if "resources" !in data then Err(KeyError("resources")) else DiskDetails(data["resources"]);
    match attempt
    case Err(e) => if e.KeyError? then Ok(map[]) else Err(e)
    case Ok(details) => WithPercent(details, "usage")
  }

  /** The loop of `get_usage`, with its `break`. */
  method GetUsageLoop(data: Attrs) returns (r: Result<Attrs, Exception>)
    ensures r == GetUsage(data)
  {
    if "resources" !in data {
      return Ok(map[]);
    }
    var resources := data["resources"];
    if !resources.VList? {
      r := match DiskDetails(resources)
        case Err(e) => if e.KeyError? then Ok(map[]) else Err(e)
        case Ok(details) => WithPercent(details, "usage");
      return;
    }
    var items := resources.items;
    var disk: Attrs := map[];
    var i := 0;
    while i < |items|
      invariant 0 <= i <= |items|
      invariant DiskEntry(items) == DiskEntry(items[i..])
    {
      if !items[i].VDict? {
        assert DiskEntry(items) == Err(TypeError("indices must be integers"));
        return Err(TypeError("indices must be integers"));
      }
      var res := items[i].entries;
      if "name" !in res {
        return Ok(map[]);
      }
      if res["name"] == VStr("disk") {
        disk := res;
        break;
      }
      assert items[i..][1..] == items[i + 1..];
      i := i + 1;
    }
    assert DiskEntry(items) == Ok(disk);
    if "used" !in disk {
      return Ok(map[]);
    }
    var used := ToFloat(disk["used"]);
    if used.Err? {
      return Err(used.error);
    }
    if "allocated" !in disk || "unit" !in disk {
      return Ok(map[]);
    }
    var details := map["usage" := VNum(used.value), "total" := disk["allocated"], "unit" := disk["unit"]];
    r := WithPercent(details, "usage");
  }

  predicate FirstDiskAt(items: seq<Value>, i: int, r: Attrs) {
    && 0 <= i < |items| && items[i] == VDict(r) && "name" in r && r["name"] == VStr("disk")
    && forall j :: 0 <= j < i ==> items[j].VDict? && "name" in items[j].entries && items[j].entries["name"] != VStr("disk")
  }

  /** The disk entry found is the first resource named 'disk', and every
      resource before it is a named dict with another name. */
  lemma {:induction false} DiskEntryIsFirst(items: seq<Value>)
    requires DiskEntry(items).Ok? && DiskEntry(items).value != map[]
    ensures exists i :: FirstDiskAt(items, i, DiskEntry(items).value)
  {
    var r := items[0].entries;
    if r["name"] == VStr("disk") {
      assert FirstDiskAt(items, 0, DiskEntry(items).value);
    } else {
      DiskEntryIsFirst(items[1..]);
      var i :| FirstDiskAt(items[1..], i, DiskEntry(items[1..]).value);
      assert FirstDiskAt(items, i + 1, DiskEntry(items).value);
    }
  }

  /** Without a resource named 'disk' the usage is {}. */
  lemma {:induction false} NoDiskNoUsage(items: seq<Value>)
    requires forall j :: 0 <= j < |items| ==> items[j].VDict? && "name" in items[j].entries && items[j].entries["name"] != VStr("disk")
    ensures GetUsage(map["resources" := VList(items)]) == Ok(map[])
  {
    NoDiskEntry(items);
  }

  lemma {:induction false} NoDiskEntry(items: seq<Value>)
    requires forall j :: 0 <= j < |items| ==> items[j].VDict? && "name" in items[j].entries && items[j].entries["name"] != VStr("disk")
    ensures DiskEntry(items) == Ok(map[])
    decreases |items|
  {
    if items != [] {
      NoDiskEntry(items[1..]);
    }
  }

  /** With no allocation known (`allocated` is None) the percentage is 0. */
  lemma UnallocatedIsZero(data: Attrs)
    requires GetUsage(data).Ok? && GetUsage(data).value != map[]
    requires GetUsage(data).value["total"] == VNone
    ensures GetUsage(data).value["percent"] == VNum(IntRat(0))
  {
  }

  /** A database whose disk has no allocation yet reports a 0 percent bar
      next to its usage of 1.798 MiB. */
  lemma UnallocatedDatabaseExample()
    ensures var disk := map["name" := VStr("disk"), "used" := VStr("1.798"),
                            "allocated" := VNone, "unit" := VStr("MiB")];
      var usage := GetUsage(map["resources" := VList([VDict(disk)])]);
      && usage.Ok? && usage.value["usage"] == VNum(Rat(1798, 1000))
      && usage.value["percent"] == VNum(IntRat(0))
  {
    var disk := map["name" := VStr("disk"), "used" := VStr("1.798"),
                    "allocated" := VNone, "unit" := VStr("MiB")];
    var details := map["usage" := VNum(Rat(1798, 1000)), "total" := VNone, "unit" := VStr("MiB")];
    ExampleDetails(disk, details);
    var data := map["resources" := VList([VDict(disk)])];
    assert data["resources"] == VList([VDict(disk)]);
    assert GetUsage(data) == WithPercent(details, "usage");
  }

  /** The details read from the example's one disk resource. */
  lemma ExampleDetails(disk: Attrs, details: Attrs)
    requires disk == map["name" := VStr("disk"), "used" := VStr("1.798"),
                         "allocated" := VNone, "unit" := VStr("MiB")]
    requires details == map["usage" := VNum(Rat(1798, 1000)), "total" := VNone, "unit" := VStr("MiB")]
    ensures DiskDetails(VList([VDict(disk)])) == Ok(details)
  {
    assert DiskEntry([VDict(disk)]) == Ok(disk);
    assert DiskResource(VList([VDict(disk)])) == Ok(disk);
    UsedFigure();
  }

  /** `float('1.798')`. */
  lemma UsedFigure()
    ensures ToFloat(VStr("1.798")) == Ok(Rat(1798, 1000))
  {
    var t := "1.798";
    StripUnchanged(t);
    assert DotAt(t) == Some(1) by {
      assert t[0] != '.' && t[1..][0] == '.';
    }
    assert t[..1] + t[2..] == "1798";
    assert DigitsValue("1798") == 1798 by {
      assert "1798"[..3] == "179" && "179"[..2] == "17" && "17"[..1] == "1" && "1"[..0] == "";
    }
    assert UnsignedDecimal(t) == Some((1798, 3));
    assert ParseDecimal(t) == Some((1798, 3));
    assert Pow10(3) == 1000;
  }

  // ---------------------------------------------------------------------
  // Address (`self.data` is the raw kwargs)

  /** `Address.type`: 'forward' iff the forward is truthy. */
  function AddressType(data: Attrs): (r: Result<string, Exception>)
    ensures "forward" !in data <==> r == Err(KeyError("forward"))
    ensures r == Ok("forward") <==> "forward" in data && Truthy(data["forward"])
    ensures r == Ok("mailbox") <==> "forward" in data && !Truthy(data["forward"])
  {
    if "forward" !in data then Err(KeyError("forward"))
    else if Truthy(data["forward"]) then Ok("forward")
    else Ok("mailbox")
  }

  /** `v[key]` on a JSON value: KeyError when a dict lacks it, TypeError when
      the value is not a dict. */
  function Item(v: Value, key: string): Result<Value, Exception> {
    match v
    case VDict(m) => if key in m then Ok(m[key]) else Err(KeyError(key))
    case _ => Err(TypeError("object is not subscriptable"))
  }

  function Field(data: Attrs, key: string): Result<Value, Exception> {
    if key in data then Ok(data[key]) else Err(KeyError(key))
  }

  /** The elements `for x in v` visits, for a list or a string. */
  function Elements(v: Value): Result<seq<Value>, Exception>
    ensures v.VList? ==> Elements(v) == Ok(v.items)
  {
    match v
    case VList(items) => Ok(items)
    case VStr(s) => Ok(seq(|s|, i requires 0 <= i < |s| => VStr([s[i]])))
    case _ => Err(TypeError("object is not iterable"))
  }

  /** `name + '@' + domain_name` for each name, in order. */
  function Suffixed(names: seq<Value>, domainName: Value): (r: Result<seq<string>, Exception>)
    ensures r.Ok? ==> |r.value| == |names|
    ensures r.Ok? ==> forall i :: 0 <= i < |names| ==> names[i].VStr? && domainName.VStr? && r.value[i] == names[i].s + "@" + domainName.s
  {
    if names == [] then Ok([])
    else if !names[0].VStr? || !domainName.VStr? then Err(TypeError("can only concatenate str to str"))
    else
      var rest :- Suffixed(names[1..], domainName);
      Ok([names[0].s + "@" + domainName.s] + rest)
  }

  /** `Address.aliases`: every name after the first, at the domain. The
      domain is only read when there is such a name. */
  function Aliases(data: Attrs): (r: Result<seq<string>, Exception>)
  {
    var names :- Field(data, "names");
    var all :- Elements(names);
    if |all| <= 1 then Ok([])
    else if !all[1].VStr? then Err(TypeError("unsupported operand type(s) for +"))
    else
      var domain :- Field(data, "domain");
      var domainName :- Item(domain, "name");
      Suffixed(all[1..], domainName)
  }

  lemma AliasesShape(data: Attrs)
    requires Aliases(data).Ok? && "names" in data && data["names"].VList?
    ensures var names := data["names"].items;
      var r := Aliases(data).value;
      && |r| == (if |names| <= 1 then 0 else |names| - 1)
      && (|r| > 0 ==> "domain" in data && data["domain"].VDict? && "name" in data["domain"].entries)
      && forall i :: 0 <= i < |r| ==>
        var domainName := data["domain"].entries["name"];
        names[i + 1].VStr? && domainName.VStr? && r[i] == names[i + 1].s + "@" + domainName.s
  {
    var names := data["names"].items;
    if |names| > 1 {
      assert forall i :: 0 <= i < |names| - 1 ==> names[1..][i] == names[i + 1];
    }
  }

  /** The `url` of each mailbox dict, in order. */
  function Urls(mailboxes: seq<Value>): (r: Result<seq<Value>, Exception>)
    ensures r.Ok? ==> |r.value| == |mailboxes|
    ensures r.Ok? ==>
      forall i :: 0 <= i < |mailboxes| ==>
        mailboxes[i].VDict? && "url" in mailboxes[i].entries && r.value[i] == mailboxes[i].entries["url"]
  {
    if mailboxes == [] then Ok([])
    else
      var u :- Item(mailboxes[0], "url");
      var rest :- Urls(mailboxes[1..]);
      Ok([u] + rest)
  }

  /** `Address.deserialize`: the form's initial data. */
  function Deserialize(data: Attrs): (r: Result<Attrs, Exception>)
    ensures r.Ok? ==> r.value.Keys == {"name", "domain", "mailboxes", "forward"}
    ensures r.Ok? ==> "name" in data && "forward" in data && r.value["name"] == data["name"] && r.value["forward"] == data["forward"]
    ensures r.Ok? ==>
      "domain" in data && data["domain"].VDict? && "url" in data["domain"].entries
      && r.value["domain"] == data["domain"].entries["url"]
    ensures r.Ok? ==>
      "mailboxes" in data && Elements(data["mailboxes"]).Ok? && r.value["mailboxes"].VList?
      && Urls(Elements(data["mailboxes"]).value) == Ok(r.value["mailboxes"].items)
  {
    var name :- Field(data, "name");
    var domain :- Field(data, "domain");
    var domainUrl :- Item(domain, "url");
    var mailboxes :- Field(data, "mailboxes");
    var boxes :- Elements(mailboxes);
    var urls :- Urls(boxes);
    var forward :- Field(data, "forward");
    Ok(map["name" := name, "domain" := domainUrl, "mailboxes" := VList(urls), "forward" := forward])
  }

  /** `Address.full_address_name`: `name@domain-name`, read from the
      attributes. */
  function FullAddressName(attrs: Attrs): (r: Result<string, Exception>)
    requires "name" in attrs && "domain" in attrs
    ensures r.Ok? <==> attrs["domain"].VDict? && "name" in attrs["domain"].entries
    ensures r.Ok? ==> r.value == Str(attrs["name"]) + "@" + Str(attrs["domain"].entries["name"])
    ensures attrs["domain"].VDict? && "name" !in attrs["domain"].entries ==> r == Err(KeyError("name"))
    ensures !attrs["domain"].VDict? ==> r.Err? && r.error.TypeError?
  {
    var domainName :- Item(attrs["domain"], "name");
    Ok(Str(attrs["name"]) + "@" + Str(domainName))
  }

  /** An address whose name has no `@` can be read back from its full
      name: the part before the first `@` is the name and the rest is the
      domain's name. */
  lemma {:induction false} FullAddressNameSplits(attrs: Attrs)
    requires "name" in attrs && "domain" in attrs
    requires FullAddressName(attrs).Ok? && '@' !in Str(attrs["name"])
    ensures var full := FullAddressName(attrs).value;
      var k := |Str(attrs["name"])|;
      && k < |full| && full[k] == '@'
      && (forall i :: 0 <= i < k ==> full[i] != '@')
      && full[..k] == Str(attrs["name"])
      && full[k + 1..] == Str(attrs["domain"].entries["name"])
  {
    var name := Str(attrs["name"]);
    var domainName := Str(attrs["domain"].entries["name"]);
    var full := FullAddressName(attrs).value;
    assert full == name + "@" + domainName;
    forall i | 0 <= i < |name|
      ensures full[i] != '@'
    {
      assert full[i] == name[i] && name[i] in name;
    }
  }

  /** The first mailbox's resources (`data['mailboxes'][0]['resources']`). */
  function FirstMailboxResources(data: Attrs): Result<Value, Exception> {
    var mailboxes :- Field(data, "mailboxes");
    match mailboxes
    case VList(items) =>
      if items == [] then Err(IndexError("list index out of range"))
      else Item(items[0], "resources")
    case VDict(m) => Err(KeyError("0"))
    case VStr(s) => if s == "" then Err(IndexError("string index out of range")) else Err(TypeError("string indices must be integers"))
    case _ => Err(TypeError("object is not subscriptable"))
  }

  /** Reading the first mailbox's disk details, the part of the `try` block
      before the percentage; it fails only with the errors reading raises. */
  function ReadDetails(data: Attrs): (r: Result<Attrs, Exception>)
    ensures r.Err? ==> r.error.KeyError? || r.error.IndexError? || r.error.TypeError? || r.error.ValueError?
  {
    var resources :- FirstMailboxResources(data);
    DiskDetails(resources)
  }

  /** `Address.type_detail` as written: the percentage is read from a
      `'used'` key the details dict never has. */
  function TypeDetailAsWritten(data: Attrs): (r: Result<Value, Exception>)
    ensures AddressType(data).Err? ==> r == Err(KeyError("forward"))
    ensures AddressType(data) == Ok("forward") ==> r == Ok(data["forward"])
    ensures AddressType(data) == Ok("mailbox") && r.Ok? ==> r == Ok(VDict(map[]))
  {
    var kind :- AddressType(data);
    if kind == "forward" then Ok(data["forward"])
    else
      var attempt := (var details :- ReadDetails(data);
                      WithPercent(details, "used"));
      match attempt
      case Err(e) => if Swallowed(e) then Ok(VDict(map[])) else Err(e)
      case Ok(details) => Ok(VDict(details))
  }

  /** `Address.type_detail` with the percentage computed from the usage, as
      `get_usage` does. */
  function TypeDetail(data: Attrs): (r: Result<Value, Exception>)
    ensures AddressType(data).Err? ==> r == Err(KeyError("forward"))
    ensures AddressType(data) == Ok("forward") ==> r == Ok(data["forward"])
    ensures AddressType(data) == Ok("mailbox") ==>
      (r.Err? <==> ReadDetails(data).Err? && !Swallowed(ReadDetails(data).error))
    ensures AddressType(data) == Ok("mailbox") && ReadDetails(data).Err? && Swallowed(ReadDetails(data).error) ==>
      r == Ok(VDict(map[]))
    ensures AddressType(data) == Ok("mailbox") && r.Err? ==> r.error.TypeError? || r.error.ValueError?
  {
    var kind :- AddressType(data);
    if kind == "forward" then Ok(data["forward"])
    else
      var attempt := (var details :- ReadDetails(data);
                      WithPercent(details, "usage"));
      match attempt
      case Err(e) => if Swallowed(e) then Ok(VDict(map[])) else Err(e)
      case Ok(details) => Ok(VDict(details))
  }

  /** As written, a mailbox address never shows its usage: the detail is {}
      whenever the mailbox data can be read, and also when reading stops at
      a missing key or index; only a TypeError or ValueError while reading
      escapes, exactly as in the corrected version. */
  lemma TypeDetailAsWrittenIsEmpty(data: Attrs)
    requires AddressType(data) == Ok("mailbox")
    ensures var r := TypeDetailAsWritten(data);
      && (r.Err? <==> ReadDetails(data).Err? && !Swallowed(ReadDetails(data).error))
      && (r.Err? ==> r == Err(ReadDetails(data).error) && (r.error.TypeError? || r.error.ValueError?))
      && (r.Ok? ==> r == Ok(VDict(map[])))
      && (r.Err? <==> TypeDetail(data).Err?)
  {
    var read := ReadDetails(data);
    if read.Ok? {
      assert WithPercent(read.value, "used") == Err(KeyError("used"));
    }
  }

  /** A `mailboxes` value that is an empty string stops at `''[0]`, an
      IndexError the handler catches, so both versions show {}. */
  lemma EmptyMailboxStringIsEmpty()
    ensures var data := map["forward" := VNone, "mailboxes" := VStr("")];
      && TypeDetailAsWritten(data) == Ok(VDict(map[]))
      && TypeDetail(data) == Ok(VDict(map[]))
  {
    var data := map["forward" := VNone, "mailboxes" := VStr("")];
    assert FirstMailboxResources(data) == Err(IndexError("string index out of range"));
  }

  /** A mailbox using 3 of 4 units: as written the detail is {}, while the
      corrected version reports the usage with a three-quarter bar. */
  lemma TypeDetailCounterexample()
    ensures var disk := map["name" := VStr("disk"), "used" := VNum(IntRat(3)),
                            "allocated" := VNum(IntRat(4)), "unit" := VStr("MiB")];
      var data := map["forward" := VStr(""),
                      "mailboxes" := VList([VDict(map["resources" := VList([VDict(disk)])])])];
      && TypeDetailAsWritten(data) == Ok(VDict(map[]))
      && TypeDetail(data) == Ok(VDict(map["usage" := VNum(IntRat(3)), "total" := VNum(IntRat(4)),
                                          "unit" := VStr("MiB"), "percent" := VNum(IntRat(75))]))
  {
    var disk := map["name" := VStr("disk"), "used" := VNum(IntRat(3)),
                    "allocated" := VNum(IntRat(4)), "unit" := VStr("MiB")];
    var data := map["forward" := VStr(""),
                    "mailboxes" := VList([VDict(map["resources" := VList([VDict(disk)])])])];
    var details := map["usage" := VNum(IntRat(3)), "total" := VNum(IntRat(4)), "unit" := VStr("MiB")];
    CounterexampleDetails(disk, data, details);
    BootstrapPercent.ThreeQuarters();
    assert WithPercent(details, "used") == Err(KeyError("used"));
    assert WithPercent(details, "usage") == Ok(details["percent" := VNum(IntRat(75))]);
  }

  /** The details read from the counterexample's one mailbox. */
  lemma CounterexampleDetails(disk: Attrs, data: Attrs, details: Attrs)
    requires disk == map["name" := VStr("disk"), "used" := VNum(IntRat(3)),
                         "allocated" := VNum(IntRat(4)), "unit" := VStr("MiB")]
    requires data == map["forward" := VStr(""),
                         "mailboxes" := VList([VDict(map["resources" := VList([VDict(disk)])])])]
    requires details == map["usage" := VNum(IntRat(3)), "total" := VNum(IntRat(4)), "unit" := VStr("MiB")]
    ensures AddressType(data) == Ok("mailbox")
    ensures FirstMailboxResources(data) == Ok(VList([VDict(disk)]))
    ensures DiskDetails(VList([VDict(disk)])) == Ok(details)
  {
    assert DiskEntry([VDict(disk)]) == Ok(disk);
  }

  /** With the corrected detail a mailbox's usage is reported whenever its
      first mailbox has a complete disk resource. */
  lemma TypeDetailReportsUsage(data: Attrs)
    requires AddressType(data) == Ok("mailbox")
    requires FirstMailboxResources(data).Ok?
    requires DiskDetails(FirstMailboxResources(data).value).Ok?
    ensures TypeDetail(data).Ok? && TypeDetail(data).value.VDict?
    ensures var details := DiskDetails(FirstMailboxResources(data).value).value;
      var percent := BootstrapPercent.GetBootstrapedPercent(details["usage"], details["total"]);
      TypeDetail(data).value.entries == details["percent" := VNum(IntRat(percent))]
  {
  }

  // ---------------------------------------------------------------------
  // Mailing lists and SaaS

  /** `MailinglistService.address_name`: the bare name without a domain,
      otherwise `name@domain-name`. */
  function AddressName(data: Attrs): (r: Result<Value, Exception>)
    ensures "address_domain" !in data ==> r == Err(KeyError("address_domain"))
    ensures "address_domain" in data && "address_name" !in data ==> r == Err(KeyError("address_name"))
    ensures "address_domain" in data && data["address_domain"] == VNone && "address_name" in data ==>
      r == Ok(data["address_name"])
    ensures "address_domain" in data && "address_name" in data && data["address_domain"].VDict? ==>
      var domain := data["address_domain"].entries;
      && ("name" in domain ==> r == Ok(VStr(Str(data["address_name"]) + "@" + Str(domain["name"]))))
      && ("name" !in domain ==> r == Err(KeyError("name")))
    ensures ("address_domain" in data && "address_name" in data
             && data["address_domain"] != VNone && !data["address_domain"].VDict?)
      ==> r.Err? && r.error.TypeError?
  {
    var domain :- Field(data, "address_domain");
    if domain == VNone then Field(data, "address_name")
    else
      var name :- Field(data, "address_name");
      var domainName :- Item(domain, "name");
      Ok(VStr(Str(name) + "@" + Str(domainName)))
  }

  /** `SaasService.manager_url`: the configured URL of a known service,
      '#none' for any other; the three URLs are the settings values. */
  function ManagerUrl(service: Value, gitlab: Value, owncloud: Value, wordpress: Value): (r: Result<Value, Exception>)
    ensures service == VStr("gitlab") ==> r == Ok(gitlab)
    ensures service == VStr("owncloud") ==> r == Ok(owncloud)
    ensures service == VStr("wordpress") ==> r == Ok(wordpress)
    ensures service.VStr? && service.s !in {"gitlab", "owncloud", "wordpress"} ==> r == Ok(VStr("#none"))
    ensures r.Err? <==> service.VList? || service.VDict?
    ensures r.Err? ==> r.error.TypeError?
    ensures !service.VStr? && r.Ok? ==> r == Ok(VStr("#none"))
  {
    match service
    case VStr(s) =>
      if s == "gitlab" then Ok(gitlab)
      else if s == "owncloud" then Ok(owncloud)
      else if s == "wordpress" then Ok(wordpress)
      else Ok(VStr("#none"))
    case VList(_) => Err(TypeError("unhashable type: 'list'"))
    case VDict(_) => Err(TypeError("unhashable type: 'dict'"))
    case _ => Ok(VStr("#none"))
  }

  /** The Python value of a plain setting. */
  function SettingValue(s: Option<MusicianSettings.SettingValue>): Value {
    match s
    case Some(Plain(v)) => v
    case _ => VNone
  }

  /** With nothing configured, WordPress sites are managed at the built-in
      blog URL, and an unknown service has no manager. */
  lemma DefaultManagerUrls(service: string)
    ensures var url := (name: string) => SettingValue(MusicianSettings.GetSetting(map[], name));
      var r := ManagerUrl(VStr(service), url("URL_SAAS_GITLAB"), url("URL_SAAS_OWNCLOUD"), url("URL_SAAS_WORDPRESS"));
      && (service == "wordpress" ==> r == Ok(VStr("https://blog.pangea.org/")))
      && (service == "owncloud" ==> r == Ok(VStr("https://nextcloud.pangea.org/")))
      && (service !in {"gitlab", "owncloud", "wordpress"} ==> r == Ok(VStr("#none")))
  {
  }

  /** The setting each known service's manager URL comes from. */
  function ManagerSetting(service: string): string {
    if service == "gitlab" then "URL_SAAS_GITLAB"
    else if service == "owncloud" then "URL_SAAS_OWNCLOUD"
    else "URL_SAAS_WORDPRESS"
  }

  /** A known service whose URL setting is configured (and truthy) is
      managed at exactly that configured URL. */
  lemma ConfiguredManagerUrl(configured: map<string, MusicianSettings.SettingValue>, service: string)
    requires service in {"gitlab", "owncloud", "wordpress"}
    requires ManagerSetting(service) in configured && configured[ManagerSetting(service)].Plain?
    requires Truthy(configured[ManagerSetting(service)].value)
    ensures var url := (name: string) => SettingValue(MusicianSettings.GetSetting(configured, name));
      ManagerUrl(VStr(service), url("URL_SAAS_GITLAB"), url("URL_SAAS_OWNCLOUD"), url("URL_SAAS_WORDPRESS"))
        == Ok(configured[ManagerSetting(service)].value)
  {
    var key := ManagerSetting(service);
    assert MusicianSettings.SettingTruthy(configured[key]);
    assert MusicianSettings.GetSetting(configured, key) == Some(configured[key]);
  }
}
