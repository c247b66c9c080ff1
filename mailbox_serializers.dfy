/** The REST serializers of mail addresses and mailboxes
    (orchestra/contrib/mailboxes/serializers.py): validation, and how create
    and update split off the many-to-many relation and replace it. A saved
    row is a `Record` whose relation set is replaced in place. */
module MailboxSerializers {
  import opened Wrappers
  import opened PyValues
  import SeqFilter
  import MusicianForms

  type Attrs = map<string, Value>

  const NoTargetMessage := "A mailbox or forward address should be provided."

  /** `attrs.get(key, default)`. */
  function GetOr(attrs: Attrs, key: string, default: Value): (r: Value)
    ensures key in attrs ==> r == attrs[key]
    ensures key !in attrs ==> r == default
  {
    if key in attrs then attrs[key] else default
  }

  /** `AddressSerializer.validate`: an address needs a mailbox or a forward. */
  function ValidateAddress(attrs: Attrs): (r: Result<Attrs, Exception>)
    ensures r.Err? <==> !Truthy(GetOr(attrs, "mailboxes", VList([]))) && !Truthy(GetOr(attrs, "forward", VStr("")))
    ensures r.Err? ==> r.error == ValidationError(NoTargetMessage)
    ensures r.Ok? ==> r.value == attrs
  {
    if !Truthy(GetOr(attrs, "mailboxes", VList([]))) && !Truthy(GetOr(attrs, "forward", VStr(""))) then
      Err(ValidationError(NoTargetMessage))
    else Ok(attrs)
  }

  /** The portal's mail form and the API accept the same addresses: both
      refuse one with neither mailboxes nor a forward. */
  lemma PortalAndApiAgree(attrs: Attrs)
    ensures ValidateAddress(attrs).Err? <==> MusicianForms.MailFormClean(attrs).Err?
  {
  }

  /** The objects a relation is set to: `relation.set(objs)` takes any list. */
  function RelationTo(objs: Value): (r: Result<set<Value>, Exception>)
    ensures objs.VList? ==> r == Ok(set x | x in objs.items)
    ensures !objs.VList? ==> r.Err?
  {
    if objs.VList? then Ok(set x | x in objs.items) else Err(TypeError("object is not iterable"))
  }

  /** `validated_data.pop(key, [])`: the relation, and the data without it. */
  function PopRelation(validated: Attrs, key: string): (r: (Value, Attrs))
    ensures r.1 == validated - {key} && key !in r.1
    ensures r.0 == GetOr(validated, key, VList([]))
  {
    (GetOr(validated, key, VList([])), validated - {key})
  }

  /** The relation set after `create`/`update`: exactly the submitted
      objects, or none when the list was left out. */
  function NewRelation(validated: Attrs, key: string): (r: Result<set<Value>, Exception>)
    ensures key !in validated ==> r == Ok({})
    ensures key in validated && validated[key].VList? ==> r == Ok(set x | x in validated[key].items)
  {
    var objs := PopRelation(validated, key).0;
    assert objs == VList([]) ==> (set x | x in objs.items) == {};
    RelationTo(objs)
  }

  /** A saved row: its field values and its many-to-many relation (the
      mailboxes of an address, or the addresses of a mailbox). */
  class Record {
    var fields: Attrs
    var related: set<Value>
    var saved: bool

    /** `Model.objects.create(**fields)`: a saved row with an empty relation. */
    constructor (fields: Attrs)
      ensures this.fields == fields && related == {} && saved
    {
      this.fields := fields;
      related := {};
      saved := true;
    }

    /** `relation.set(objs)`: only a saved row has a relation to set. */
    method SetRelated(objs: set<Value>)
      requires saved
      modifies this
      ensures related == objs && fields == old(fields) && saved
    {
      related := objs;
    }

    /** The base serializer's `update`: each field set, then saved. */
    method UpdateFields(values: Attrs)
      modifies this
      ensures fields == old(fields) + values && related == old(related) && saved
    {
      fields := fields + values;
      saved := true;
    }
  }

  /** `create` of both writable serializers: the relation is taken out of
      the data, the row is created from the rest, and only then is its
      relation set. `key` is "mailboxes" for addresses and "addresses" for
      mailboxes. */
  method Create(validated: Attrs, key: string) returns (r: Result<Record, Exception>)
    ensures NewRelation(validated, key).Err? ==> r == Err(NewRelation(validated, key).error)
    ensures NewRelation(validated, key).Ok? ==>
      r.Ok? && fresh(r.value) && r.value.fields == validated - {key} && key !in r.value.fields
      && r.value.related == NewRelation(validated, key).value
  {
    var (objs, rest) := PopRelation(validated, key);
    var obj := new Record(rest);
    var relation := RelationTo(objs);
    if relation.Err? {
      return Err(relation.error);
    }
    obj.SetRelated(relation.value);
    r := Ok(obj);
  }

  /** `update` of both writable serializers: the relation is replaced (an
      omitted list clears it), then the other fields are updated. */
  method Update(instance: Record, validated: Attrs, key: string) returns (failure: Option<Exception>)
    requires instance.saved
    modifies instance
    ensures NewRelation(validated, key).Err? ==>
      failure == Some(NewRelation(validated, key).error)
      && instance.fields == old(instance.fields) && instance.related == old(instance.related)
    ensures NewRelation(validated, key).Ok? ==>
      failure.None? && instance.related == NewRelation(validated, key).value
      && instance.fields == old(instance.fields) + (validated - {key})
  {
    var (objs, rest) := PopRelation(validated, key);
    var relation := RelationTo(objs);
    if relation.Err? {
      return Some(relation.error);
    }
    instance.SetRelated(relation.value);
    instance.UpdateFields(rest);
    failure := None;
  }

  /** The new relation depends on the submitted list only, not on the
      other fields submitted with it. */
  lemma NewRelationIgnoresOldState(validated: Attrs, key: string, other: Attrs)
    requires key !in other
    ensures NewRelation(validated + other, key) == NewRelation(validated, key)
  {
    assert GetOr(validated + other, key, VList([])) == GetOr(validated, key, VList([]));
  }

  // ---------------------------------------------------------------------
  // Selectable addresses

  /** An address row as the relation field sees it: the object and the
      account owning it. */
  datatype OwnedAddress = OwnedAddress(address: Value, account: int)

  /** `AddressRelatedField.get_queryset`: the addresses of the serializer's
      account. */
  function SelectableAddresses(all: seq<OwnedAddress>, account: int): seq<OwnedAddress> {
    SeqFilter.Keep(all, (a: OwnedAddress) => a.account == account)
  }

  /** Only the account's own addresses can be chosen, and all of them can. */
  lemma SelectableAreOwn(all: seq<OwnedAddress>, account: int)
    ensures forall a :: a in SelectableAddresses(all, account) <==> a in all && a.account == account
    ensures |SelectableAddresses(all, account)| <= |all|
  {
  }

  /** Two accounts never share a selectable address. */
  lemma {:induction false} SelectableDisjoint(all: seq<OwnedAddress>, a1: int, a2: int)
    requires a1 != a2
    ensures multiset(SelectableAddresses(all, a1)) * multiset(SelectableAddresses(all, a2)) == multiset{}
  {
    var s1 := SelectableAddresses(all, a1);
    var s2 := SelectableAddresses(all, a2);
    forall x | x in multiset(s1)
      ensures x !in multiset(s2)
    {
      assert x in s1;
    }
  }
}
