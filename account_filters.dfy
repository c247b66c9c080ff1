/** The admin list filters on account-owned objects
    (orchestra/contrib/accounts/filters.py). A queryset is a sequence of
    rows and a filter keeps the rows passing a test, in order. */
module AccountFilters {
  import opened Wrappers
  import SeqFilter

  /** The lookups of `IsActiveListFilter`. */
  const IsActiveLookups: seq<(string, string)> :=
    [("True", "Yes"), ("False", "No"), ("account", "Account disabled"), ("object", "Object disabled")]

  /** A row of an account-owned model: whether it and its account are active. */
  datatype OwnedRow = OwnedRow(id: int, isActive: bool, accountIsActive: bool)

  predicate Enabled(r: OwnedRow) { r.isActive && r.accountIsActive }
  predicate Disabled(r: OwnedRow) { !r.isActive || !r.accountIsActive }
  predicate AccountDisabled(r: OwnedRow) { !r.accountIsActive }
  predicate ObjectDisabled(r: OwnedRow) { !r.isActive }

  /** `IsActiveListFilter.queryset` for the selected value. */
  function IsActive(value: Option<string>, qs: seq<OwnedRow>): (r: seq<OwnedRow>)
    ensures value.None? || value.value !in {"True", "False", "account", "object"} ==> r == qs
    ensures |r| <= |qs|
    ensures forall x :: x in r ==> x in qs
  {
    if value == Some("True") then SeqFilter.Keep(qs, Enabled)
    else if value == Some("False") then SeqFilter.Keep(qs, Disabled)
    else if value == Some("account") then SeqFilter.Keep(qs, AccountDisabled)
    else if value == Some("object") then SeqFilter.Keep(qs, ObjectDisabled)
    else qs
  }

  /** 'True' keeps exactly the rows active on both counts, 'False' exactly
      the others: the two split every queryset. */
  lemma ActivePartition(qs: seq<OwnedRow>)
    ensures forall x :: x in IsActive(Some("True"), qs) <==> x in qs && x.isActive && x.accountIsActive
    ensures forall x :: x in IsActive(Some("False"), qs) <==> x in qs && (!x.isActive || !x.accountIsActive)
    ensures multiset(IsActive(Some("True"), qs)) + multiset(IsActive(Some("False"), qs)) == multiset(qs)
  {
    SeqFilter.KeepPartition(qs, Enabled, Disabled);
  }

  /** A disabled account is a case of 'False'. */
  lemma AccountDisabledInFalse(qs: seq<OwnedRow>)
    ensures multiset(IsActive(Some("account"), qs)) <= multiset(IsActive(Some("False"), qs))
  {
    assert IsActive(Some("account"), qs) == SeqFilter.Keep(qs, AccountDisabled);
    assert IsActive(Some("False"), qs) == SeqFilter.Keep(qs, Disabled);
    SeqFilter.KeepMonotone(qs, AccountDisabled, Disabled);
  }

  /** A disabled object is a case of 'False'. */
  lemma ObjectDisabledInFalse(qs: seq<OwnedRow>)
    ensures multiset(IsActive(Some("object"), qs)) <= multiset(IsActive(Some("False"), qs))
  {
    assert IsActive(Some("object"), qs) == SeqFilter.Keep(qs, ObjectDisabled);
    assert IsActive(Some("False"), qs) == SeqFilter.Keep(qs, Disabled);
    SeqFilter.KeepMonotone(qs, ObjectDisabled, Disabled);
  }

  // ---------------------------------------------------------------------
  // Accounts with a website on a server

  /** A website row: the server it is deployed on and its owner's account id. */
  datatype WebsiteRow = WebsiteRow(targetServer: int, account: int)

  /** The ids of the accounts owning some website on the server. */
  function AccountsOnServer(websites: seq<WebsiteRow>, server: int): (r: set<int>)
    ensures forall a :: a in r <==> exists w :: w in websites && w.targetServer == server && w.account == a
  {
    set w | w in websites && w.targetServer == server :: w.account
  }

  /** An account row. */
  datatype AccountRow = AccountRow(id: int, isActive: bool)

  /** `HasTipeServerFilter.queryset` on accounts: those owning a website on
      the selected server; no selection keeps them all. */
  function HasTipeServer(value: Option<int>, qs: seq<AccountRow>, websites: seq<WebsiteRow>): (r: seq<AccountRow>)
    ensures value.None? ==> r == qs
  {
    if value.None? then qs
    else
      var owners := AccountsOnServer(websites, value.value);
      SeqFilter.Keep(qs, (a: AccountRow) => a.id in owners)
  }

  lemma HasTipeServerKeepsOwners(value: int, qs: seq<AccountRow>, websites: seq<WebsiteRow>)
    ensures forall a :: a in HasTipeServer(Some(value), qs, websites) <==>
      a in qs && exists w :: w in websites && w.targetServer == value && w.account == a.id
  {
  }
}
