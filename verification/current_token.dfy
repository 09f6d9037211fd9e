/** The cross-space current-token store: which token is selected (persisted
    under `currentToken` in the `cross-space` namespace), a bounded cache of
    recently selected tokens keyed by native address, and the list of common
    tokens shown to the user (pinned tokens followed by the cache). */
module CurrentToken {
  import opened Common

  datatype Space = Core | ESpace

  /** A token record. The icon is left out; an absent `native_address`
      (the native token has none) is `None`. */
  datatype Token = Token(
    nativeAddress: Option<string>,
    mappedAddress: Option<string>,
    coreSpaceName: string,
    coreSpaceSymbol: string,
    evmSpaceName: string,
    evmSpaceSymbol: string,
    decimals: nat,
    nativeSpace: Option<Space>,
    isNative: bool,
    isInner: bool)

  /** CFX, the native token of both spaces. */
  const NativeToken: Token :=
    Token(None, None, "Conflux Network", "CFX", "Conflux Network", "CFX", 18, None, true, false)

  /** FansCoin, the inner token issued on Core; it is not native. */
  const FansCoin: Token :=
    Token(Some("cfx:achc8nxj7r451c223m18w2dwjnmhkd6rxawrvkvsy2"),
          Some("0xba2289fee4673ef00ee8d8dae260965ab543b68f"),
          "FansCoin", "FC", "FansCoin", "FC", 18, Some(Core), false, true)

  /** Number of common tokens; the cache holds one fewer. */
  const COMMON_TOKEN_COUNT: nat := 10
  const CACHE_CAPACITY: nat := COMMON_TOKEN_COUNT - 1

  /** A key of the persisted key/value storage. */
  datatype StorageKey = StorageKey(key: string, namespace: string)

  const CURRENT_TOKEN_KEY: StorageKey := StorageKey("currentToken", "cross-space")

  // ---- the recent-token cache, as a keyed sequence ----

  type Key = Option<string>

  datatype Entry = Entry(key: Key, token: Token)

  predicate DistinctKeys(es: seq<Entry>) {
    forall i, j :: 0 <= i < j < |es| ==> es[i].key != es[j].key
  }

  /** The token stored under `k`, if any. */
  function Lookup(es: seq<Entry>, k: Key): Option<Token> {
    if es == [] then None
    else if es[0].key == k then Some(es[0].token)
    else Lookup(es[1..], k)
  }

  function TokensOf(es: seq<Entry>): (ts: seq<Token>)
    ensures |ts| == |es|
    ensures forall i :: 0 <= i < |es| ==> ts[i] == es[i].token
  {
    if es == [] then [] else [es[0].token] + TokensOf(es[1..])
  }

  lemma {:induction false} LookupIn(es: seq<Entry>, k: Key)
    requires Lookup(es, k).Some?
    ensures Lookup(es, k).value in TokensOf(es)
  {
    if es[0].key != k {
      LookupIn(es[1..], k);
    }
  }

  lemma {:induction false} LookupAt(es: seq<Entry>, i: nat)
    requires i < |es| && DistinctKeys(es)
    ensures Lookup(es, es[i].key) == Some(es[i].token)
  {
    if i > 0 {
      LookupAt(es[1..], i - 1);
    }
  }

  /** The cache without the entry under `k`; every other key keeps its token. */
  function Without(es: seq<Entry>, k: Key): (r: seq<Entry>)
    requires DistinctKeys(es)
    ensures DistinctKeys(r)
    ensures Lookup(r, k) == None
    ensures forall k' :: k' != k ==> Lookup(r, k') == Lookup(es, k')
    ensures |r| == if Lookup(es, k).Some? then |es| - 1 else |es|
    ensures Lookup(es, k).None? ==> r == es
  {
    if es == [] then []
    else if es[0].key == k then
      assert forall k' :: k' != k ==> Lookup(es, k') == Lookup(es[1..], k');
      NoKey(es[1..], k);
      es[1..]
    else
      var rest := Without(es[1..], k);
      var r := [es[0]] + rest;
      NoKey(es[1..], es[0].key);
      forall j | 0 <= j < |rest| ensures rest[j].key != es[0].key {
        LookupAt(rest, j);
      }
      r
  }

  lemma {:induction false} NoKey(es: seq<Entry>, k: Key)
    requires DistinctKeys(es)
    requires forall i :: 0 <= i < |es| ==> es[i].key != k
    ensures Lookup(es, k) == None
  {
    if es != [] {
      NoKey(es[1..], k);
    }
  }

  /** The first `n` entries (all of them when there are fewer). */
  function Take(es: seq<Entry>, n: nat): seq<Entry> {
    if |es| <= n then es else es[..n]
  }

  /** Stores `t` under `k`. The new entry is kept; the cache never grows
      beyond `cap`; no key gains a token other than `t`, and no other key is
      dropped while there is room or `k` was already present. Which key is
      dropped on overflow is left to the cache's policy. */
  function Put(es: seq<Entry>, k: Key, t: Token, cap: nat): (r: seq<Entry>)
    requires cap >= 1 && |es| <= cap && DistinctKeys(es)
    ensures DistinctKeys(r) && |r| <= cap
    ensures Lookup(r, k) == Some(t)
    ensures forall k' :: k' != k && Lookup(r, k').Some? ==> Lookup(r, k') == Lookup(es, k')
    ensures |es| < cap || Lookup(es, k).Some? ==>
      forall k' :: k' != k ==> Lookup(r, k') == Lookup(es, k')
    ensures |es| <= |r| || Lookup(es, k).Some?
  {
    var rest := Without(es, k);
    var all := [Entry(k, t)] + rest;
    assert DistinctKeys(all) by {
      forall j | 0 <= j < |rest| ensures rest[j].key != k {
        LookupAt(rest, j);
      }
    }
    var r := Take(all, cap);
    TakeLookup(all, cap);
    r
  }

  lemma TakeLookup(es: seq<Entry>, n: nat)
    requires n >= 1 && DistinctKeys(es)
    ensures DistinctKeys(Take(es, n)) && |Take(es, n)| <= n
    ensures es != [] ==> Lookup(Take(es, n), es[0].key) == Some(es[0].token)
    ensures forall k :: Lookup(Take(es, n), k).Some? ==> Lookup(Take(es, n), k) == Lookup(es, k)
  {
    var r := Take(es, n);
    forall k | Lookup(r, k).Some? ensures Lookup(r, k) == Lookup(es, k) {
      TakePrefixLookup(es, n, k);
    }
  }

  lemma {:induction false} TakePrefixLookup(es: seq<Entry>, n: nat, k: Key)
    requires Lookup(Take(es, n), k).Some?
    ensures Lookup(Take(es, n), k) == Lookup(es, k)
  {
    if |es| > n {
      if es[0].key != k {
        assert n > 0;
        assert Take(es, n)[1..] == Take(es[1..], n - 1);
        TakePrefixLookup(es[1..], n - 1, k);
      }
    }
  }

  /** The recent-token cache: a keyed sequence bounded by `capacity`. Its
      own persistence is not modelled. */
  class TokenCache {
    const capacity: nat
    var entries: seq<Entry>

    ghost predicate Valid()
      reads this
    {
      capacity >= 1 && |entries| <= capacity && DistinctKeys(entries)
    }

    /** A cache restored from the entries it persisted earlier; entries that
        do not fit its shape are dropped. */
    constructor (capacity: nat, persisted: seq<Entry>)
      requires capacity >= 1
      ensures Valid() && this.capacity == capacity
      ensures |persisted| <= capacity && DistinctKeys(persisted) ==> entries == persisted
    {
      this.capacity := capacity;
      entries := if |persisted| <= capacity && DistinctKeys(persisted) then persisted else [];
    }

    method Set(k: Key, t: Token)
      requires Valid()
      modifies this
      ensures Valid()
      ensures entries == Put(old(entries), k, t, capacity)
    {
      entries := Put(entries, k, t, capacity);
    }

    /** Removes the entry under `k`; reports whether there was one. */
    method Delete(k: Key) returns (removed: bool)
      requires Valid()
      modifies this
      ensures Valid()
      ensures removed <==> Lookup(old(entries), k).Some?
      ensures entries == Without(old(entries), k)
    {
      removed := Lookup(entries, k).Some?;
      entries := Without(entries, k);
    }

    function ToArr(): (ts: seq<Token>)
      reads this
      ensures |ts| == |entries|
      ensures forall i :: 0 <= i < |ts| ==> ts[i] == entries[i].token
    {
      TokensOf(entries)
    }
  }

  /** The list shown after a change: FansCoin and the native token pinned
      in front of the cache. */
  function CommonTokens(cached: seq<Token>): (ts: seq<Token>)
    ensures |ts| == |cached| + 2 && ts[0] == FansCoin && ts[1] == NativeToken && ts[2..] == cached
  {
    [FansCoin, NativeToken] + cached
  }

  /** The zustand store, with the persisted storage it writes through. */
  class TokenStore {
    var currentToken: Token
    var commonTokens: seq<Token>
    var storage: map<StorageKey, Token>
    const cache: TokenCache

    /** The cache holds at most `CACHE_CAPACITY` tokens, so the list shows
        at most the two pinned tokens and those. */
    ghost predicate Valid()
      reads this, cache
    {
      cache.Valid() && cache.capacity == CACHE_CAPACITY && |commonTokens| <= CACHE_CAPACITY + 2
    }

    /** The store as created at start-up: the persisted current token, or
        FansCoin when none is stored; the native token then the cache, with
        FansCoin not pinned yet. */
    constructor (persisted: map<StorageKey, Token>, cache: TokenCache)
      requires cache.Valid() && cache.capacity == CACHE_CAPACITY
      ensures Valid() && this.cache == cache && storage == persisted
      ensures currentToken == (if CURRENT_TOKEN_KEY in persisted then persisted[CURRENT_TOKEN_KEY] else FansCoin)
      ensures commonTokens == [NativeToken] + cache.ToArr()
    {
      this.cache := cache;
      storage := persisted;
      currentToken := if CURRENT_TOKEN_KEY in persisted then persisted[CURRENT_TOKEN_KEY] else FansCoin;
      commonTokens := [NativeToken] + cache.ToArr();
    }

    /** Selects `t` and persists it. A token that is not native (FansCoin
        included) is stored in the cache under its native address and the
        common list is rebuilt; the native token leaves both alone. */
    method SetCurrentToken(t: Token)
      requires Valid()
      modifies this, cache
      ensures Valid() && |cache.entries| <= CACHE_CAPACITY && |commonTokens| <= CACHE_CAPACITY + 2
      ensures currentToken == t && storage == old(storage)[CURRENT_TOKEN_KEY := t]
      ensures t.isNative ==> commonTokens == old(commonTokens) && cache.entries == old(cache.entries)
      ensures !t.isNative ==>
        && cache.entries == Put(old(cache.entries), t.nativeAddress, t, cache.capacity)
        && commonTokens == CommonTokens(cache.ToArr())
        && t in commonTokens
    {
      currentToken := t;
      storage := storage[CURRENT_TOKEN_KEY := t];
      if !t.isNative {
        cache.Set(t.nativeAddress, t);
        commonTokens := [FansCoin, NativeToken] + cache.ToArr();
        LookupIn(cache.entries, t.nativeAddress);
      }
    }

    /** Removes a token from the cache. When the cache had no entry under
        its native address nothing changes; otherwise the common list is
        rebuilt. The current token is never touched. */
    method DeleteFromCommonTokens(t: Token)
      requires Valid()
      modifies this, cache
      ensures Valid() && |cache.entries| <= CACHE_CAPACITY && |commonTokens| <= CACHE_CAPACITY + 2
      ensures currentToken == old(currentToken) && storage == old(storage)
      ensures Lookup(old(cache.entries), t.nativeAddress).None? ==>
        commonTokens == old(commonTokens) && cache.entries == old(cache.entries)
      ensures Lookup(old(cache.entries), t.nativeAddress).Some? ==>
        && cache.entries == Without(old(cache.entries), t.nativeAddress)
        && |cache.entries| == |old(cache.entries)| - 1
        && commonTokens == CommonTokens(cache.ToArr())
    {
      var removed := cache.Delete(t.nativeAddress);
      if !removed {
        return;
      }
      commonTokens := [FansCoin, NativeToken] + cache.ToArr();
    }

    /** The MetaMask status subscription, which also fires once on
        subscribing: a missing MetaMask resets the selection to FansCoin and
        persists it; any other status changes nothing. */
    method OnMetaMaskStatus(status: WalletStatus)
      modifies this
      ensures commonTokens == old(commonTokens)
      ensures status == NotInstalled ==>
        currentToken == FansCoin && storage == old(storage)[CURRENT_TOKEN_KEY := FansCoin]
      ensures status != NotInstalled ==> currentToken == old(currentToken) && storage == old(storage)
    {
      if status == NotInstalled {
        currentToken := FansCoin;
        storage := storage[CURRENT_TOKEN_KEY := FansCoin];
      }
    }

    function GetCurrentToken(): (t: Token)
      reads this
      ensures t == currentToken
    {
      currentToken
    }
  }
}
