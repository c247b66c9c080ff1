/** The admin list filters on mail addresses and mailboxes
    (orchestra/contrib/mailboxes/filters.py). A queryset is a sequence of
    rows; a filter keeps the rows passing a test, in order. */
module MailboxFilters {
  import opened Wrappers
  import SeqFilter
  import AccountFilters

  /** The lookups `HasMailboxListFilter` offers and its subclasses inherit. */
  const Lookups: seq<(string, string)> := [("True", "True"), ("False", "False")]

  /** An address row: its mailboxes, its forward and its account. */
  datatype AddressRow = AddressRow(id: int, mailboxes: set<int>, forward: string, account: int)

  /** A mailbox row: its addresses and its account. */
  datatype MailboxRow = MailboxRow(id: int, addresses: set<int>, account: int)

  /** The shape shared by the three filters: 'True' keeps the rows with the
      property, 'False' those without it, anything else keeps all. */
  function YesNo<T>(value: Option<string>, qs: seq<T>, has: T -> bool): (r: seq<T>)
    ensures value != Some("True") && value != Some("False") ==> r == qs
  {
    if value == Some("True") then SeqFilter.Keep(qs, has)
    else if value == Some("False") then SeqFilter.Keep(qs, (x: T) => !has(x))
    else qs
  }

  /** 'True' and 'False' select exactly the rows with and without the
      property, and together give back the queryset. */
  lemma {:induction false} YesNoPartition<T>(qs: seq<T>, has: T -> bool)
    ensures forall x :: x in YesNo(Some("True"), qs, has) <==> x in qs && has(x)
    ensures forall x :: x in YesNo(Some("False"), qs, has) <==> x in qs && !has(x)
    ensures multiset(YesNo(Some("True"), qs, has)) + multiset(YesNo(Some("False"), qs, has)) == multiset(qs)
  {
    SeqFilter.KeepPartition(qs, has, (x: T) => !has(x));
  }

  predicate HasMailbox(a: AddressRow) { a.mailboxes != {} }
  predicate HasForward(a: AddressRow) { a.forward != "" }
  predicate HasAddress(m: MailboxRow) { m.addresses != {} }

  /** `HasMailboxListFilter.queryset`. */
  function HasMailboxFilter(value: Option<string>, qs: seq<AddressRow>): seq<AddressRow> {
    YesNo(value, qs, HasMailbox)
  }

  /** `HasForwardListFilter.queryset`. */
  function HasForwardFilter(value: Option<string>, qs: seq<AddressRow>): seq<AddressRow> {
    YesNo(value, qs, HasForward)
  }

  /** `HasAddressListFilter.queryset`. */
  function HasAddressFilter(value: Option<string>, qs: seq<MailboxRow>): seq<MailboxRow> {
    YesNo(value, qs, HasAddress)
  }

  lemma HasMailboxSplits(qs: seq<AddressRow>)
    ensures forall a :: a in HasMailboxFilter(Some("True"), qs) <==> a in qs && |a.mailboxes| >= 1
    ensures forall a :: a in HasMailboxFilter(Some("False"), qs) <==> a in qs && a.mailboxes == {}
    ensures multiset(HasMailboxFilter(Some("True"), qs)) + multiset(HasMailboxFilter(Some("False"), qs)) == multiset(qs)
  {
    YesNoPartition(qs, HasMailbox);
  }

  lemma HasForwardSplits(qs: seq<AddressRow>)
    ensures forall a :: a in HasForwardFilter(Some("True"), qs) <==> a in qs && a.forward != ""
    ensures forall a :: a in HasForwardFilter(Some("False"), qs) <==> a in qs && a.forward == ""
    ensures multiset(HasForwardFilter(Some("True"), qs)) + multiset(HasForwardFilter(Some("False"), qs)) == multiset(qs)
  {
    YesNoPartition(qs, HasForward);
  }

  lemma HasAddressSplits(qs: seq<MailboxRow>)
    ensures forall m :: m in HasAddressFilter(Some("True"), qs) <==> m in qs && |m.addresses| >= 1
    ensures forall m :: m in HasAddressFilter(Some("False"), qs) <==> m in qs && m.addresses == {}
    ensures multiset(HasAddressFilter(Some("True"), qs)) + multiset(HasAddressFilter(Some("False"), qs)) == multiset(qs)
  {
    YesNoPartition(qs, HasAddress);
  }

  /** `HasTipeServerFilter.queryset` on addresses: those whose account owns a
      website on the selected server; no selection keeps them all. */
  function HasTipeServer(value: Option<int>, qs: seq<AddressRow>, websites: seq<AccountFilters.WebsiteRow>): (r: seq<AddressRow>)
    ensures value.None? ==> r == qs
  {
    if value.None? then qs
    else
      var owners := AccountFilters.AccountsOnServer(websites, value.value);
      SeqFilter.Keep(qs, (a: AddressRow) => a.account in owners)
  }

  lemma HasTipeServerKeepsOwned(value: int, qs: seq<AddressRow>, websites: seq<AccountFilters.WebsiteRow>)
    ensures forall a :: a in HasTipeServer(Some(value), qs, websites) <==>
      a in qs && exists w :: w in websites && w.targetServer == value && w.account == a.account
  {
  }
}
