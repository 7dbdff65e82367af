/**
 The index from keys, addresses and accounts to the accounts whose authorities name them
 (libraries/chain/account_object.cpp), against a plain scan of all accounts.
 */
module MemberIndexes {

  type Id = nat
  type Key = nat
  type Address = nat

  datatype Authority = Authority(accounts: set<Id>, keys: set<Key>, addresses: set<Address>)

  datatype Account = Account(owner: Authority, active: Authority, memo: Key)

  /** get_account_members, get_key_members and get_address_members */
  function AccountMembers(a: Account): set<Id> { a.owner.accounts + a.active.accounts }

  function KeyMembers(a: Account): set<Key> { a.owner.keys + a.active.keys + {a.memo} }

  function AddressMembers(a: Account, addressOf: Key -> Address): set<Address>
  {
    a.owner.addresses + a.active.addresses + {addressOf(a.memo)}
  }

  // --------------------------------------------------------------------- one map

  /** A membership map; a missing entry reads as empty. */
  type Memberships<K> = map<K, set<Id>>

  function Lookup<K>(m: Memberships<K>, k: K): set<Id> { if k in m then m[k] else {} }

  /** The same by looking at every account. */
  function Scan<K>(members: map<Id, set<K>>, k: K): set<Id> { set id | id in members && k in members[id] }

  ghost predicate Agrees<K(!new)>(m: Memberships<K>, members: map<Id, set<K>>)
  {
    forall k :: Lookup(m, k) == Scan(members, k)
  }

  ghost predicate Enters<K(!new)>(m: Memberships<K>, r: Memberships<K>, keys: set<K>, id: Id)
  {
    forall k :: Lookup(r, k) == if k in keys then Lookup(m, k) + {id} else Lookup(m, k)
  }

  ghost predicate Leaves<K(!new)>(m: Memberships<K>, r: Memberships<K>, keys: set<K>, id: Id)
  {
    forall k :: Lookup(r, k) == if k in keys then Lookup(m, k) - {id} else Lookup(m, k)
  }

  method InsertAll<K(!new, ==)>(m: Memberships<K>, keys: set<K>, id: Id) returns (r: Memberships<K>)
    ensures Enters(m, r, keys, id)
  {
    r := m;
    var rest := keys;
    while rest != {}
      invariant rest <= keys && Enters(m, r, keys - rest, id)
    {
      var k :| k in rest;
      r := r[k := Lookup(r, k) + {id}];
      rest := rest - {k};
    }
  }

  method EraseAll<K(!new, ==)>(m: Memberships<K>, keys: set<K>, id: Id) returns (r: Memberships<K>)
    ensures Leaves(m, r, keys, id)
  {
    r := m;
    var rest := keys;
    while rest != {}
      invariant rest <= keys && Leaves(m, r, keys - rest, id)
    {
      var k :| k in rest;
      r := r[k := Lookup(r, k) - {id}];
      rest := rest - {k};
    }
  }

  /** The two passes of object_modified for one map: out of what was only there before, into what is only there after. */
  method Move<K(!new, ==)>(m: Memberships<K>, before: set<K>, after: set<K>, id: Id, ghost members: map<Id, set<K>>) returns (r: Memberships<K>)
    requires id in members && members[id] == before && Agrees(m, members)
    ensures Agrees(r, members[id := after])
  {
    var left := EraseAll(m, before - after, id);
    r := InsertAll(left, after - before, id);
    forall k ensures Lookup(r, k) == Scan(members[id := after], k) {
      assert Lookup(m, k) == Scan(members, k);
    }
  }

  method Enter<K(!new, ==)>(m: Memberships<K>, keys: set<K>, id: Id, ghost members: map<Id, set<K>>) returns (r: Memberships<K>)
    requires id !in members && Agrees(m, members)
    ensures Agrees(r, members[id := keys])
  {
    r := InsertAll(m, keys, id);
    forall k ensures Lookup(r, k) == Scan(members[id := keys], k) {
      assert Lookup(m, k) == Scan(members, k);
    }
  }

  method Leave<K(!new, ==)>(m: Memberships<K>, keys: set<K>, id: Id, ghost members: map<Id, set<K>>) returns (r: Memberships<K>)
    requires id in members && members[id] == keys && Agrees(m, members)
    ensures Agrees(r, members - {id})
  {
    r := EraseAll(m, keys, id);
    forall k ensures Lookup(r, k) == Scan(members - {id}, k) {
      assert Lookup(m, k) == Scan(members, k);
    }
  }

  /** A map that is not told of an object coming back agrees with a scan exactly when the object names nobody. */
  lemma Untold<K(!new)>(m: Memberships<K>, members: map<Id, set<K>>, id: Id, keys: set<K>)
    requires id !in members && Agrees(m, members)
    ensures Agrees(m, members[id := keys]) <==> keys == {}
  {
    if keys != {} {
      var k :| k in keys;
      assert Lookup(m, k) == Scan(members, k) && id in Scan(members[id := keys], k);
    } else {
      forall k ensures Scan(members[id := keys], k) == Scan(members, k) {}
    }
  }

  // ---------------------------------------------------------------------- the index

  ghost function AccountsOf(accounts: map<Id, Account>): map<Id, set<Id>> { map id | id in accounts :: AccountMembers(accounts[id]) }

  ghost function KeysOf(accounts: map<Id, Account>): map<Id, set<Key>> { map id | id in accounts :: KeyMembers(accounts[id]) }

  ghost function AddressesOf(accounts: map<Id, Account>, addressOf: Key -> Address): map<Id, set<Address>>
  {
    map id | id in accounts :: AddressMembers(accounts[id], addressOf)
  }

  /** What a map that agrees with the scan answers: the accounts whose owner or active authority names the account, key or
      address, and for the latter two those whose memo key it is or belongs to. */
  lemma Answers(accounts: map<Id, Account>, addressOf: Key -> Address, id: Id, other: Id, key: Key, address: Address)
    ensures other in accounts ==>
              (var a := accounts[other];
               && (other in Scan(AccountsOf(accounts), id) <==> id in a.owner.accounts || id in a.active.accounts)
               && (other in Scan(KeysOf(accounts), key) <==> key in a.owner.keys || key in a.active.keys || key == a.memo)
               && (other in Scan(AddressesOf(accounts, addressOf), address) <==>
                   address in a.owner.addresses || address in a.active.addresses || address == addressOf(a.memo)))
    ensures other !in accounts ==>
              other !in Scan(AccountsOf(accounts), id) && other !in Scan(KeysOf(accounts), key) && other !in Scan(AddressesOf(accounts, addressOf), address)
  {
  }

  /** The account index with its secondary membership maps. */
  class MemberIndex {
    var accounts: map<Id, Account>
    var byAccount: Memberships<Id>
    var byKey: Memberships<Key>
    var byAddress: Memberships<Address>
    var beforeAccounts: set<Id>
    var beforeKeys: set<Key>
    var beforeAddresses: set<Address>
    const addressOf: Key -> Address

    /** All three maps agree with a scan. */
    ghost predicate Valid()
      reads this
    {
      && Agrees(byAccount, AccountsOf(accounts)) && Agrees(byKey, KeysOf(accounts))
      && Agrees(byAddress, AddressesOf(accounts, addressOf))
    }

    constructor (addressOf: Key -> Address)
      ensures Valid() && accounts == map[]
    {
      this.addressOf := addressOf;
      accounts, byAccount, byKey, byAddress := map[], map[], map[], map[];
      beforeAccounts, beforeKeys, beforeAddresses := {}, {}, {};
    }

    /** object_inserted */
    method Insert(id: Id, a: Account)
      requires Valid() && id !in accounts
      modifies this
      ensures Valid() && accounts == old(accounts)[id := a]
    {
      hide Agrees;
      Grown(accounts, id, a, addressOf);
      byAccount := Enter(byAccount, AccountMembers(a), id, AccountsOf(accounts));
      byKey := Enter(byKey, KeyMembers(a), id, KeysOf(accounts));
      byAddress := Enter(byAddress, AddressMembers(a, addressOf), id, AddressesOf(accounts, addressOf));
      accounts := accounts[id := a];
    }

    /** object_removed */
    method Remove(id: Id)
      requires Valid() && id in accounts
      modifies this
      ensures Valid() && accounts == old(accounts) - {id}
    {
      hide Agrees;
      Shrunk(accounts, id, addressOf);
      var a := accounts[id];
      byKey := Leave(byKey, KeyMembers(a), id, KeysOf(accounts));
      byAddress := Leave(byAddress, AddressMembers(a, addressOf), id, AddressesOf(accounts, addressOf));
      byAccount := Leave(byAccount, AccountMembers(a), id, AccountsOf(accounts));
      accounts := accounts - {id};
    }

    /** Undoing a removal: the object is put back into the index itself, and the membership maps are not told.  The map by
        account still agrees exactly when no account is named; the maps by key and by address never do, for the memo key. */
    method PutBack(id: Id, a: Account)
      requires Valid() && id !in accounts
      modifies this`accounts
      ensures accounts == old(accounts)[id := a] && !Valid()
      ensures Agrees(byAccount, AccountsOf(accounts)) <==> AccountMembers(a) == {}
      ensures !Agrees(byKey, KeysOf(accounts)) && !Agrees(byAddress, AddressesOf(accounts, addressOf))
    {
      hide Agrees;
      Grown(accounts, id, a, addressOf);
      Untold(byAccount, AccountsOf(accounts), id, AccountMembers(a));
      Untold(byKey, KeysOf(accounts), id, KeyMembers(a));
      Untold(byAddress, AddressesOf(accounts, addressOf), id, AddressMembers(a, addressOf));
      assert a.memo in KeyMembers(a) && addressOf(a.memo) in AddressMembers(a, addressOf);
      accounts := accounts[id := a];
    }

    /** about_to_modify */
    method AboutToModify(id: Id)
      requires id in accounts
      modifies this`beforeAccounts, this`beforeKeys, this`beforeAddresses
      ensures beforeAccounts == AccountMembers(accounts[id]) && beforeKeys == KeyMembers(accounts[id])
      ensures beforeAddresses == AddressMembers(accounts[id], addressOf)
    {
      var a := accounts[id];
      beforeKeys, beforeAddresses, beforeAccounts := KeyMembers(a), AddressMembers(a, addressOf), AccountMembers(a);
    }

    /** A modification as the index sees it: about_to_modify, the change, and object_modified. */
    method Modify(id: Id, a: Account)
      requires Valid() && id in accounts
      modifies this
      ensures Valid() && accounts == old(accounts)[id := a]
    {
      hide Agrees;
      AboutToModify(id);
      Grown(accounts, id, a, addressOf);
      byAccount := Move(byAccount, beforeAccounts, AccountMembers(a), id, AccountsOf(accounts));
      byKey := Move(byKey, beforeKeys, KeyMembers(a), id, KeysOf(accounts));
      byAddress := Move(byAddress, beforeAddresses, AddressMembers(a, addressOf), id, AddressesOf(accounts, addressOf));
      accounts := accounts[id := a];
    }
  }

  lemma Grown(accounts: map<Id, Account>, id: Id, a: Account, addressOf: Key -> Address)
    ensures AccountsOf(accounts[id := a]) == AccountsOf(accounts)[id := AccountMembers(a)]
    ensures KeysOf(accounts[id := a]) == KeysOf(accounts)[id := KeyMembers(a)]
    ensures AddressesOf(accounts[id := a], addressOf) == AddressesOf(accounts, addressOf)[id := AddressMembers(a, addressOf)]
  {
  }

  lemma Shrunk(accounts: map<Id, Account>, id: Id, addressOf: Key -> Address)
    ensures AccountsOf(accounts - {id}) == AccountsOf(accounts) - {id} && KeysOf(accounts - {id}) == KeysOf(accounts) - {id}
    ensures AddressesOf(accounts - {id}, addressOf) == AddressesOf(accounts, addressOf) - {id}
  {
  }
}
