/** The reverse index from authority members to the accounts that name them. */
module MemberIndex {

  type AccountId = nat
  type Key = nat
  type KeyAddress = nat

  datatype Authority = Authority(accounts: set<AccountId>, keys: set<Key>, addresses: set<KeyAddress>)

  datatype Account = Account(id: AccountId, owner: Authority, active: Authority, memo: Key)

  function AccountMembers(a: Account): set<AccountId> {
    a.owner.accounts + a.active.accounts
  }

  function KeyMembers(a: Account): set<Key> {
    a.owner.keys + a.active.keys + {a.memo}
  }

  /** The memo key counts as the address it converts to. */
  function AddressMembers(toAddress: Key -> KeyAddress): Account -> set<KeyAddress> {
    (a: Account) => a.owner.addresses + a.active.addresses + {toAddress(a.memo)}
  }

  // ----- One membership map -----

  type Memberships<T> = map<T, set<AccountId>>

  function MembersOf<T>(m: Memberships<T>, x: T): set<AccountId> {
    if x in m then m[x] else {}
  }

  /** Only what `items` map to changed, by adding or taking out `id`. */
  ghost predicate Changed<T(!new)>(before: Memberships<T>, after: Memberships<T>, added: set<T>, removed: set<T>,
                                   id: AccountId) {
    forall x: T :: ChangedAt(MembersOf(before, x), MembersOf(after, x), x in added, x in removed, id)
  }

  ghost predicate ChangedAt(before: set<AccountId>, after: set<AccountId>, added: bool, removed: bool, id: AccountId) {
    after == if added then before + {id} else if removed then before - {id} else before
  }

  lemma EmptyChange<T(!new)>(m: Memberships<T>, id: AccountId)
    ensures Changed(m, m, {}, {}, id)
  {
  }

  lemma InsertStep<T(!new)>(m: Memberships<T>, r: Memberships<T>, done: set<T>, id: AccountId, x: T)
    requires Changed(m, r, done, {}, id)
    ensures Changed(m, r[x := MembersOf(r, x) + {id}], done + {x}, {}, id)
  {
    assert ChangedAt(MembersOf(m, x), MembersOf(r, x), x in done, false, id);
  }

  lemma EraseStep<T(!new)>(m: Memberships<T>, r: Memberships<T>, done: set<T>, id: AccountId, x: T)
    requires Changed(m, r, {}, done, id)
    ensures Changed(m, r[x := MembersOf(r, x) - {id}], {}, done + {x}, id)
  {
    assert ChangedAt(MembersOf(m, x), MembersOf(r, x), false, x in done, id);
  }

  /** `memberships[item].insert(id)` for every item. */
  method InsertAll<T(==, !new)>(m: Memberships<T>, items: set<T>, id: AccountId) returns (r: Memberships<T>)
    ensures Changed(m, r, items, {}, id)
  {
    EmptyChange(m, id);
    hide Changed;
    r := m;
    var todo := items;
    assert items - todo == {};
    while todo != {}
      invariant todo <= items && Changed(m, r, items - todo, {}, id)
      decreases |todo|
    {
      var x :| x in todo;
      InsertStep(m, r, items - todo, id, x);
      assert items - (todo - {x}) == items - todo + {x};
      r := r[x := MembersOf(r, x) + {id}];
      todo := todo - {x};
    }
    assert items - todo == items;
  }

  /** `memberships[item].erase(id)` for every item. */
  method EraseAll<T(==, !new)>(m: Memberships<T>, items: set<T>, id: AccountId) returns (r: Memberships<T>)
    ensures Changed(m, r, {}, items, id)
  {
    EmptyChange(m, id);
    hide Changed;
    r := m;
    var todo := items;
    assert items - todo == {};
    while todo != {}
      invariant todo <= items && Changed(m, r, {}, items - todo, id)
      decreases |todo|
    {
      var x :| x in todo;
      EraseStep(m, r, items - todo, id, x);
      assert items - (todo - {x}) == items - todo + {x};
      r := r[x := MembersOf(r, x) - {id}];
      todo := todo - {x};
    }
    assert items - todo == items;
  }

  /** The three steps of `object_modified` on one map: what was removed, what was added. */
  method ApplyDifference<T(==, !new)>(m: Memberships<T>, before: set<T>, after: set<T>, id: AccountId)
    returns (r: Memberships<T>)
    ensures Changed(m, r, after - before, before - after, id)
  {
    var erased := EraseAll(m, before - after, id);
    r := InsertAll(erased, after - before, id);
  }

  /** The map is the reverse of the relation from accounts to their members. */
  ghost predicate IsReverse<T(!new)>(m: Memberships<T>, accounts: map<AccountId, Account>, members: Account -> set<T>) {
    forall x: T, i: AccountId :: i in MembersOf(m, x) <==> i in accounts && x in members(accounts[i])
  }

  lemma InsertReverses<T(!new)>(m: Memberships<T>, r: Memberships<T>, accounts: map<AccountId, Account>,
                                members: Account -> set<T>, a: Account)
    requires IsReverse(m, accounts, members) && a.id !in accounts && Changed(m, r, members(a), {}, a.id)
    ensures IsReverse(r, accounts[a.id := a], members)
  {
  }

  lemma RemoveReverses<T(!new)>(m: Memberships<T>, r: Memberships<T>, accounts: map<AccountId, Account>,
                                members: Account -> set<T>, id: AccountId)
    requires IsReverse(m, accounts, members) && id in accounts && Changed(m, r, {}, members(accounts[id]), id)
    ensures IsReverse(r, accounts - {id}, members)
  {
  }

  lemma ModifyReverses<T(!new)>(m: Memberships<T>, r: Memberships<T>, accounts: map<AccountId, Account>,
                                members: Account -> set<T>, a: Account)
    requires IsReverse(m, accounts, members) && a.id in accounts
    requires Changed(m, r, members(a) - members(accounts[a.id]), members(accounts[a.id]) - members(a), a.id)
    ensures IsReverse(r, accounts[a.id := a], members)
  {
  }

  // ----- The index beside the account table -----

  datatype Change = Insert(account: Account) | Remove(id: AccountId) | Modify(account: Account)

  predicate Keyed(accounts: map<AccountId, Account>) {
    forall i :: i in accounts ==> accounts[i].id == i
  }

  /** The table allows the change: a new id, or one it holds. */
  predicate Allowed(accounts: map<AccountId, Account>, c: Change) {
    match c
    case Insert(a) => a.id !in accounts
    case Remove(id) => id in accounts
    case Modify(a) => a.id in accounts
  }

  function After(accounts: map<AccountId, Account>, c: Change): map<AccountId, Account> {
    match c
    case Insert(a) => accounts[a.id := a]
    case Remove(id) => accounts - {id}
    case Modify(a) => accounts[a.id := a]
  }

  predicate AllAllowed(accounts: map<AccountId, Account>, cs: seq<Change>)
    decreases |cs|
  {
    cs == [] || (Allowed(accounts, cs[0]) && AllAllowed(After(accounts, cs[0]), cs[1..]))
  }

  function AfterAll(accounts: map<AccountId, Account>, cs: seq<Change>): map<AccountId, Account>
    decreases |cs|
  {
    if cs == [] then accounts else AfterAll(After(accounts, cs[0]), cs[1..])
  }

  class AccountMemberIndex {
    const toAddress: Key -> KeyAddress

    var accountToAccount: Memberships<AccountId>
    var accountToKey: Memberships<Key>
    var accountToAddress: Memberships<KeyAddress>
    var beforeAccounts: set<AccountId>
    var beforeKeys: set<Key>
    var beforeAddresses: set<KeyAddress>

    constructor (toAddress: Key -> KeyAddress)
      ensures this.toAddress == toAddress && IsIndexOf(map[])
    {
      this.toAddress := toAddress;
      accountToAccount, accountToKey, accountToAddress := map[], map[], map[];
      beforeAccounts, beforeKeys, beforeAddresses := {}, {}, {};
    }

    /** All three maps are what one would compute afresh from the accounts. */
    ghost predicate IsIndexOf(accounts: map<AccountId, Account>)
      reads this
    {
      IsReverse(accountToAccount, accounts, AccountMembers) &&
      IsReverse(accountToKey, accounts, KeyMembers) &&
      IsReverse(accountToAddress, accounts, AddressMembers(toAddress))
    }

    /** The maps answer for every account, key and address which accounts name it. */
    ghost predicate Answers(accounts: map<AccountId, Account>)
      reads this
    {
      (forall x: AccountId, i: AccountId :: i in MembersOf(accountToAccount, x) <==>
        i in accounts && (x in accounts[i].owner.accounts || x in accounts[i].active.accounts)) &&
      (forall x: Key, i: AccountId :: i in MembersOf(accountToKey, x) <==>
        i in accounts && (x in accounts[i].owner.keys || x in accounts[i].active.keys || x == accounts[i].memo)) &&
      (forall x: KeyAddress, i: AccountId :: i in MembersOf(accountToAddress, x) <==>
        i in accounts && (x in accounts[i].owner.addresses || x in accounts[i].active.addresses ||
                          x == toAddress(accounts[i].memo)))
    }

    lemma IndexAnswers(accounts: map<AccountId, Account>)
      requires IsIndexOf(accounts)
      ensures Answers(accounts)
    {
    }

    method ObjectInserted(a: Account, ghost accounts: map<AccountId, Account>)
      requires IsIndexOf(accounts) && a.id !in accounts
      modifies this
      ensures IsIndexOf(accounts[a.id := a])
    {
      hide IsReverse, Changed;
      var byAccount := InsertAll(accountToAccount, AccountMembers(a), a.id);
      var byKey := InsertAll(accountToKey, KeyMembers(a), a.id);
      var byAddress := InsertAll(accountToAddress, AddressMembers(toAddress)(a), a.id);
      InsertReverses(accountToAccount, byAccount, accounts, AccountMembers, a);
      InsertReverses(accountToKey, byKey, accounts, KeyMembers, a);
      InsertReverses(accountToAddress, byAddress, accounts, AddressMembers(toAddress), a);
      accountToAccount, accountToKey, accountToAddress := byAccount, byKey, byAddress;
    }

    method ObjectRemoved(a: Account, ghost accounts: map<AccountId, Account>)
      requires IsIndexOf(accounts) && a.id in accounts && accounts[a.id] == a
      modifies this
      ensures IsIndexOf(accounts - {a.id})
    {
      hide IsReverse, Changed;
      var byKey := EraseAll(accountToKey, KeyMembers(a), a.id);
      var byAddress := EraseAll(accountToAddress, AddressMembers(toAddress)(a), a.id);
      var byAccount := EraseAll(accountToAccount, AccountMembers(a), a.id);
      RemoveReverses(accountToAccount, byAccount, accounts, AccountMembers, a.id);
      RemoveReverses(accountToKey, byKey, accounts, KeyMembers, a.id);
      RemoveReverses(accountToAddress, byAddress, accounts, AddressMembers(toAddress), a.id);
      accountToAccount, accountToKey, accountToAddress := byAccount, byKey, byAddress;
    }

    /** What the index remembers of the account about to change. */
    predicate Remembers(a: Account)
      reads this
    {
      beforeAccounts == AccountMembers(a) && beforeKeys == KeyMembers(a) &&
      beforeAddresses == AddressMembers(toAddress)(a)
    }

    method AboutToModify(before: Account)
      modifies `beforeAccounts, `beforeKeys, `beforeAddresses
      ensures Remembers(before)
    {
      beforeKeys := KeyMembers(before);
      beforeAddresses := AddressMembers(toAddress)(before);
      beforeAccounts := AccountMembers(before);
    }

    method ObjectModified(a: Account, ghost accounts: map<AccountId, Account>)
      requires IsIndexOf(accounts) && a.id in accounts && Remembers(accounts[a.id])
      modifies this
      ensures IsIndexOf(accounts[a.id := a])
    {
      hide IsReverse, Changed;
      var byAccount := ApplyDifference(accountToAccount, beforeAccounts, AccountMembers(a), a.id);
      var byKey := ApplyDifference(accountToKey, beforeKeys, KeyMembers(a), a.id);
      var byAddress := ApplyDifference(accountToAddress, beforeAddresses, AddressMembers(toAddress)(a), a.id);
      ModifyReverses(accountToAccount, byAccount, accounts, AccountMembers, a);
      ModifyReverses(accountToKey, byKey, accounts, KeyMembers, a);
      ModifyReverses(accountToAddress, byAddress, accounts, AddressMembers(toAddress), a);
      accountToAccount, accountToKey, accountToAddress := byAccount, byKey, byAddress;
    }
  }

  /** The account table tells the index of one change. */
  method RunChange(index: AccountMemberIndex, accounts: map<AccountId, Account>, c: Change)
    requires Keyed(accounts) && Allowed(accounts, c) && index.IsIndexOf(accounts)
    modifies index
    ensures index.IsIndexOf(After(accounts, c)) && Keyed(After(accounts, c))
  {
    hide IsReverse;
    match c {
      case Insert(a) =>
        index.ObjectInserted(a, accounts);
      case Remove(id) =>
        index.ObjectRemoved(accounts[id], accounts);
      case Modify(a) =>
        index.AboutToModify(accounts[a.id]);
        index.ObjectModified(a, accounts);
    }
  }

  /** The index stays the reverse of the table over every run of changes told one at a
      time. */
  method RunChanges(index: AccountMemberIndex, start: map<AccountId, Account>, cs: seq<Change>)
    returns (accounts: map<AccountId, Account>)
    requires Keyed(start) && AllAllowed(start, cs) && index.IsIndexOf(start)
    modifies index
    ensures accounts == AfterAll(start, cs) && index.IsIndexOf(accounts) && index.Answers(accounts)
  {
    hide IsReverse, Keyed, After;
    accounts := start;
    for i := 0 to |cs|
      invariant AllAllowed(accounts, cs[i..]) && AfterAll(accounts, cs[i..]) == AfterAll(start, cs)
      invariant Keyed(accounts) && index.IsIndexOf(accounts)
    {
      assert cs[i..][1..] == cs[i + 1..];
      RunChange(index, accounts, cs[i]);
      accounts := After(accounts, cs[i]);
    }
    index.IndexAnswers(accounts);
  }
}
