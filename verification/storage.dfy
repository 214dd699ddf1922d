/** The in-memory cache of every known address and its metadata. */
module StorageManager {
  import opened Common
  import Strings

  /** What is remembered about one address. */
  datatype AddressMeta = AddressMeta(blacklisted: bool, whitelisted: bool, nicknames: seq<string>)

  /** A connection attempt: the textual address and the requested nickname. */
  datatype ConnectingUser = ConnectingUser(address: string, nickname: string)

  /** The address map. Java hands out the live record; here an update to a
      record is an update of the map. */
  type Store = map<string, AddressMeta>

  /** The record created for an address seen for the first time. */
  const NewMeta := AddressMeta(false, false, [])

  /** The meta handed back by a lookup and the store after the lookup. */
  datatype Lookup = Lookup(meta: AddressMeta, store: Store)

  /** The meta of `address`, created (not blacklisted, not whitelisted, no
      nicknames) when the address is unknown. */
  function AddressMetaOf(s: Store, address: string): (r: Lookup)
    ensures address in r.store && r.store[address] == r.meta
    ensures r.store.Keys == s.Keys + {address}
    ensures forall a :: a in s ==> r.store[a] == s[a]
    ensures address in s ==> r.meta == s[address] && r.store == s
    ensures address !in s ==> r.meta == NewMeta
  {
    if address in s then Lookup(s[address], s) else Lookup(NewMeta, s[address := NewMeta])
  }

  /** A second lookup of the same address returns the same record and changes nothing. */
  lemma AddressMetaIdempotent(s: Store, address: string)
    ensures var first := AddressMetaOf(s, address);
            AddressMetaOf(first.store, address) == first
  {
  }

  /** The record lists `nickname`, compared ignoring case. */
  predicate HasNickname(m: AddressMeta, nickname: string) {
    exists i :: 0 <= i < |m.nicknames| && Strings.EqualsIgnoreCase(m.nicknames[i], nickname)
  }

  /** Some stored address was used with `nickname` (ignoring case). */
  predicate KnownNickname(s: Store, nickname: string) {
    exists a :: a in s && HasNickname(s[a], nickname)
  }

  /** An address whose nickname history contains `nickname` ignoring case, or
      None when there is none. The map is visited in an unspecified order, so
      which of several matching addresses is returned is left open. */
  method LastSeenAddress(s: Store, nickname: string) returns (r: Option<string>)
    ensures r.None? <==> !KnownNickname(s, nickname)
    ensures r.Some? ==> r.value in s && HasNickname(s[r.value], nickname)
  {
    var remaining := s.Keys;
    while remaining != {}
      invariant remaining <= s.Keys
      invariant forall a :: a in s && a !in remaining ==> !HasNickname(s[a], nickname)
      decreases remaining
    {
      var a :| a in remaining;
      if HasNickname(s[a], nickname) {
        return Some(a);
      }
      remaining := remaining - {a};
    }
    return None;
  }

  /** The store after resolving a token, and the address whose meta was
      resolved (None for Java's null). */
  datatype Resolution = Resolution(store: Store, address: Option<string>)

  /** Resolves an IP address or a nickname to an address meta. An IP literal
      (as decided by `isInet`) is looked up or created and never fails; any
      other token is a nickname, resolved through LastSeenAddress without
      creating anything. */
  method ResolveAddressMeta(s: Store, value: string, isInet: string -> bool) returns (r: Resolution)
    ensures isInet(value) ==> r.address == Some(value) && r.store == AddressMetaOf(s, value).store
    ensures !isInet(value) ==> r.store == s
    ensures !isInet(value) ==> (r.address.None? <==> !KnownNickname(s, value))
    ensures !isInet(value) && r.address.Some? ==>
              r.address.value in s && HasNickname(s[r.address.value], value)
    ensures r.address.Some? ==> r.address.value in r.store
  {
    var address: Option<string>;
    if isInet(value) {
      address := Some(value);
    } else {
      address := LastSeenAddress(s, value);
    }
    if address.Some? {
      r := Resolution(AddressMetaOf(s, address.value).store, address);
    } else {
      r := Resolution(s, None);
    }
  }

  /** Records the user's nickname for the user's address: the address gets a
      record if it had none, and the nickname is appended unless the list
      already holds exactly that string (a case-sensitive test). */
  function UpdateAccounts(s: Store, user: ConnectingUser): (r: Store)
    ensures r.Keys == s.Keys + {user.address}
    ensures forall a :: a in s && a != user.address ==> r[a] == s[a]
    ensures var before := AddressMetaOf(s, user.address).meta;
            var after := r[user.address];
            && after.blacklisted == before.blacklisted
            && after.whitelisted == before.whitelisted
            && before.nicknames <= after.nicknames
            && |after.nicknames| <= |before.nicknames| + 1
            && (forall n :: n in after.nicknames <==> n in before.nicknames || n == user.nickname)
    ensures var before := AddressMetaOf(s, user.address).meta.nicknames;
            user.nickname in before ==> r[user.address].nicknames == before
    ensures var before := AddressMetaOf(s, user.address).meta.nicknames;
            user.nickname !in before ==> r[user.address].nicknames == before + [user.nickname]
  {
    var lookup := AddressMetaOf(s, user.address);
    var meta := lookup.meta;
    if user.nickname in meta.nicknames then lookup.store
    else lookup.store[user.address := meta.(nicknames := meta.nicknames + [user.nickname])]
  }

  /** Recording the same connection twice is the same as recording it once. */
  lemma UpdateAccountsIdempotent(s: Store, user: ConnectingUser)
    ensures UpdateAccounts(UpdateAccounts(s, user), user) == UpdateAccounts(s, user)
  {
  }

  /** Recording a nickname never introduces an exact duplicate into a history. */
  lemma UpdateAccountsKeepsNoDuplicates(s: Store, user: ConnectingUser)
    requires NoDuplicates(AddressMetaOf(s, user.address).meta.nicknames)
    ensures NoDuplicates(UpdateAccounts(s, user)[user.address].nicknames)
  {
    var before := AddressMetaOf(s, user.address).meta.nicknames;
    var after := UpdateAccounts(s, user)[user.address].nicknames;
    if user.nickname !in before {
      assert after == before + [user.nickname];
      forall i, j | 0 <= i < j < |after| ensures after[i] != after[j] {
        if j == |before| {
          assert after[i] == before[i];
        }
      }
    }
  }

  /** The duplicate test is case-sensitive: a nickname differing only in case
      is stored a second time, although reverse lookup treats the two alike. */
  lemma UpdateAccountsIsCaseSensitive()
    ensures var s := map["10.0.0.1" := AddressMeta(false, false, ["Steve"])];
            UpdateAccounts(s, ConnectingUser("10.0.0.1", "steve"))["10.0.0.1"].nicknames
              == ["Steve", "steve"]
    ensures Strings.EqualsIgnoreCase("Steve", "steve")
  {
  }

  /** The addresses whose meta satisfies `p`, each once, in unspecified order.
      The store is only read. */
  method ViewAddresses(s: Store, p: AddressMeta -> bool) returns (r: seq<string>)
    ensures forall a :: a in r <==> a in s && p(s[a])
    ensures NoDuplicates(r)
  {
    r := [];
    var remaining := s.Keys;
    while remaining != {}
      invariant remaining <= s.Keys
      invariant forall a :: a in r ==> a in s && a !in remaining && p(s[a])
      invariant forall a :: a in s && a !in remaining && p(s[a]) ==> a in r
      invariant NoDuplicates(r)
      decreases remaining
    {
      var a :| a in remaining;
      if p(s[a]) {
        r := r + [a];
      }
      remaining := remaining - {a};
    }
  }
}
