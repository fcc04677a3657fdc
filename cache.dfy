/** The balance cache and its freshness rule (`AppState` in app.js; the same methods are
    repeated verbatim on the controller in js/app-controller.js). localStorage is modelled
    by the two items the cache uses; the clock is a parameter. */
module BalanceCache {
  import opened Wrappers
  import opened Json

  /** Re-check interval, in ms, for a pair whose stored balance is non-zero. */
  const CHECK_INTERVAL: int := 5000
  /** Re-check interval, in ms, for a pair with no stored balance or a zero one. */
  const INITIAL_CHECK_INTERVAL: int := 60000

  /** One localStorage item as `loadCachedData` sees it: missing (or empty), the JSON text
      of an object, text that `JSON.parse` rejects, or the text `null`, which parses but
      makes every later property access throw. */
  datatype Item<T> = Absent | Holds(value: T) | Unparsable | HoldsNull

  /** The two items: balances by key, and the time of the last check by key. */
  datatype Store = Store(balances: Item<map<string, Json>>, timestamps: Item<map<string, int>>)

  /** What `loadCachedData` returns; `None` is a parsed `null`. */
  datatype Loaded = Loaded(balances: Option<map<string, Json>>, timestamps: Option<map<string, int>>)

  /** Which `localStorage.setItem` call throws (a full or disabled storage), if any. */
  datatype WriteFault = NoFault | BalancesWriteFails | TimestampsWriteFails

  /** The cache key `${wallet}_${tokenAddress}`. */
  function Key(wallet: string, tokenAddress: string): (k: string)
    ensures |k| == |wallet| + 1 + |tokenAddress|
    ensures k[..|wallet|] == wallet && k[|wallet|] == '_' && k[|wallet| + 1..] == tokenAddress
  {
    wallet + "_" + tokenAddress
  }

  /** The key is not injective: a wallet containing `_` shares its keys with another pair. */
  lemma SeparatorInWalletCollides(w: string, x: string, a: string)
    ensures (w + "_" + x, a) != (w, x + "_" + a)
    ensures Key(w + "_" + x, a) == Key(w, x + "_" + a)
  {
    assert |w + "_" + x| != |w|;
  }

  /** Without `_` in either wallet, the key determines the pair. */
  lemma KeyDeterminesPairWithoutSeparator(w1: string, a1: string, w2: string, a2: string)
    requires '_' !in w1 && '_' !in w2
    requires Key(w1, a1) == Key(w2, a2)
    ensures w1 == w2 && a1 == a2
  {
  }

  function ParseItem<T>(item: Item<T>, empty: T): Option<T>
    requires !item.Unparsable?
  {
    match item
    case Absent => Some(empty)
    case Holds(m) => Some(m)
    case HoldsNull => None
  }

  /** `loadCachedData`: both items are parsed inside one `try`, so a parse failure of
      either gives two empty maps. */
  function LoadCachedData(s: Store): (r: Loaded)
    ensures s.balances.Unparsable? || s.timestamps.Unparsable? ==> r == Loaded(Some(map[]), Some(map[]))
    ensures r.balances.None? <==> s.balances.HoldsNull? && !s.timestamps.Unparsable?
    ensures r.timestamps.None? <==> s.timestamps.HoldsNull? && !s.balances.Unparsable?
    ensures !s.balances.Unparsable? && !s.timestamps.Unparsable? ==>
      && (s.balances.Absent? ==> r.balances == Some(map[]))
      && (s.timestamps.Absent? ==> r.timestamps == Some(map[]))
      && (s.balances.Holds? ==> r.balances == Some(s.balances.value))
      && (s.timestamps.Holds? ==> r.timestamps == Some(s.timestamps.value))
  {
    if s.balances.Unparsable? || s.timestamps.Unparsable? then Loaded(Some(map[]), Some(map[]))
    else Loaded(ParseItem(s.balances, map[]), ParseItem(s.timestamps, map[]))
  }

  /** A parsed `null` in either item: every read of a key then throws. */
  predicate Failing(s: Store) {
    var loaded := LoadCachedData(s);
    loaded.balances.None? || loaded.timestamps.None?
  }

  /** `balance && balance !== '0'`: truthy and not the string `'0'`. Zero-ness is a string
      comparison, so `"00"` counts as a balance while the number `0` is falsy. */
  predicate NonZero(v: Json) {
    Truthy(v) && v != Str("0")
  }

  /** `getCachedBalance`: the stored balance when it is truthy, else `None` (`null`). */
  function GetCachedBalance(s: Store, wallet: string, tokenAddress: string): (r: Option<Json>)
    ensures r.Some? ==> Truthy(r.value)
    ensures r.Some? <==>
      var loaded := LoadCachedData(s);
      loaded.balances.Some? && Key(wallet, tokenAddress) in loaded.balances.value
      && Truthy(loaded.balances.value[Key(wallet, tokenAddress)])
    ensures r.Some? ==> r.value == LoadCachedData(s).balances.value[Key(wallet, tokenAddress)]
  {
    var loaded := LoadCachedData(s);
    var key := Key(wallet, tokenAddress);
    if loaded.balances.None? then None
    else if key in loaded.balances.value && Truthy(loaded.balances.value[key]) then Some(loaded.balances.value[key])
    else None
  }

  /** `timestamps[key] || 0`. */
  function LastChecked(s: Store, key: string): int
    requires !Failing(s)
  {
    var timestamps := LoadCachedData(s).timestamps.value;
    if key in timestamps then timestamps[key] else 0
  }

  /** The interval that applies to a key: short when the stored balance is non-zero. */
  function Interval(s: Store, key: string): (i: int)
    requires !Failing(s)
    ensures i == CHECK_INTERVAL || i == INITIAL_CHECK_INTERVAL
  {
    var balances := LoadCachedData(s).balances.value;
    if key in balances && NonZero(balances[key]) then CHECK_INTERVAL else INITIAL_CHECK_INTERVAL
  }

  /** `shouldCheckToken`: whether the pair is due for a network re-check at time `now`. */
  function ShouldCheckToken(s: Store, wallet: string, tokenAddress: string, now: int): (due: bool)
    ensures Failing(s) ==> due
    ensures !Failing(s) ==> (due <==> now - LastChecked(s, Key(wallet, tokenAddress)) > Interval(s, Key(wallet, tokenAddress)))
  {
    if Failing(s) then true
    else
      var key := Key(wallet, tokenAddress);
      now - LastChecked(s, key) > Interval(s, key)
  }

  /** A pair whose stored balance is non-zero is due exactly when more than 5 s have passed. */
  lemma HeldBalanceUsesShortInterval(s: Store, wallet: string, tokenAddress: string, now: int)
    requires !Failing(s)
    requires GetCachedBalance(s, wallet, tokenAddress).Some?
    requires GetCachedBalance(s, wallet, tokenAddress).value != Str("0")
    ensures ShouldCheckToken(s, wallet, tokenAddress, now) <==>
      now - LastChecked(s, Key(wallet, tokenAddress)) > CHECK_INTERVAL
  {
  }

  /** A pair with no stored balance, a falsy one or the string `'0'` is due exactly when
      more than 60 s have passed. */
  lemma ZeroOrMissingUsesLongInterval(s: Store, wallet: string, tokenAddress: string, now: int)
    requires !Failing(s)
    requires GetCachedBalance(s, wallet, tokenAddress) in {None, Some(Str("0"))}
    ensures ShouldCheckToken(s, wallet, tokenAddress, now) <==>
      now - LastChecked(s, Key(wallet, tokenAddress)) > INITIAL_CHECK_INTERVAL
  {
  }

  /** The comparison is strict: an elapsed time equal to the interval is not yet due. */
  lemma ExactIntervalIsNotDue(s: Store, wallet: string, tokenAddress: string, now: int)
    requires !Failing(s)
    requires now - LastChecked(s, Key(wallet, tokenAddress)) == Interval(s, Key(wallet, tokenAddress))
    ensures !ShouldCheckToken(s, wallet, tokenAddress, now)
  {
  }

  /** Once due, a pair stays due as the clock advances. */
  lemma DueStaysDue(s: Store, wallet: string, tokenAddress: string, now: int, later: int)
    requires now <= later
    requires ShouldCheckToken(s, wallet, tokenAddress, now)
    ensures ShouldCheckToken(s, wallet, tokenAddress, later)
  {
  }

  /** A pair never checked before is due at any wall-clock time past the long interval. */
  lemma NeverCheckedIsDue(s: Store, wallet: string, tokenAddress: string, now: int)
    requires !Failing(s) && Key(wallet, tokenAddress) !in LoadCachedData(s).timestamps.value
    requires now > INITIAL_CHECK_INTERVAL
    ensures ShouldCheckToken(s, wallet, tokenAddress, now)
  {
  }

  /** `balances[key] = balance`; an `undefined` balance is dropped by `JSON.stringify`,
      so the key disappears from the stored object. */
  function Assign(balances: map<string, Json>, key: string, balance: Option<Json>): (r: map<string, Json>)
    ensures balance.Some? ==> key in r && r[key] == balance.value
    ensures balance.None? ==> key !in r
    ensures forall k :: k != key ==> (k in r <==> k in balances) && (k in r ==> r[k] == balances[k])
  {
    if balance.Some? then balances[key := balance.value] else balances - {key}
  }

  /** localStorage after `saveTokenBalance(wallet, tokenAddress, balance)` at time `now`:
      the maps are re-read, the key is written in both, and the two items are written
      back one after the other; any error is swallowed. */
  function StoreAfterSave(s: Store, wallet: string, tokenAddress: string, balance: Option<Json>, now: int, fault: WriteFault): (r: Store)
    ensures Failing(s) || fault == BalancesWriteFails ==> r == s
    ensures fault == TimestampsWriteFails ==> r.timestamps == s.timestamps
    ensures !Failing(s) && fault == TimestampsWriteFails ==>
      r.balances == Holds(Assign(LoadCachedData(s).balances.value, Key(wallet, tokenAddress), balance))
    ensures !Failing(s) && fault == TimestampsWriteFails && !s.balances.Unparsable? && !s.timestamps.Unparsable? ==>
      && !Failing(r)
      && GetCachedBalance(r, wallet, tokenAddress) == (if balance.Some? && Truthy(balance.value) then balance else None)
      && LastChecked(r, Key(wallet, tokenAddress)) == LastChecked(s, Key(wallet, tokenAddress))
    ensures !Failing(s) && fault == NoFault ==> !Failing(r) && r.balances.Holds? && r.timestamps.Holds?
    ensures !Failing(s) && fault == NoFault ==>
      GetCachedBalance(r, wallet, tokenAddress) == (if balance.Some? && Truthy(balance.value) then balance else None)
      && LastChecked(r, Key(wallet, tokenAddress)) == now
  {
    var loaded := LoadCachedData(s);
    if loaded.balances.None? || loaded.timestamps.None? then s
    else
      var key := Key(wallet, tokenAddress);
      var balances := Assign(loaded.balances.value, key, balance);
      var timestamps := loaded.timestamps.value[key := now];
      match fault
      case NoFault => Store(Holds(balances), Holds(timestamps))
      case BalancesWriteFails => s
      case TimestampsWriteFails => Store(Holds(balances), s.timestamps)
  }

  /** A completed save of `balance` at time `t` restarts the freshness clock: afterwards
      the pair is due exactly when more than the interval chosen by the saved value has
      passed since `t`. */
  lemma SaveRestartsClock(s: Store, wallet: string, tokenAddress: string, balance: Option<Json>, t: int, now: int)
    requires !Failing(s)
    ensures var r := StoreAfterSave(s, wallet, tokenAddress, balance, t, NoFault);
      ShouldCheckToken(r, wallet, tokenAddress, now) <==>
        now - t > (if balance.Some? && NonZero(balance.value) then CHECK_INTERVAL else INITIAL_CHECK_INTERVAL)
  {
    var r := StoreAfterSave(s, wallet, tokenAddress, balance, t, NoFault);
    var key := Key(wallet, tokenAddress);
    assert balance.Some? ==> LoadCachedData(r).balances.value[key] == balance.value;
  }

  /** A save touches one key: every pair with a different key reads the same balance and
      the same due-ness afterwards. When only the timestamps write fails this still holds,
      unless the balances item was unparsable (then the rewritten balances item makes the
      old timestamps readable again). */
  lemma SaveFrame(s: Store, wallet: string, tokenAddress: string, balance: Option<Json>, now: int, fault: WriteFault,
                  otherWallet: string, otherAddress: string, when: int)
    requires Key(otherWallet, otherAddress) != Key(wallet, tokenAddress)
    requires fault != TimestampsWriteFails || !s.balances.Unparsable?
    ensures var r := StoreAfterSave(s, wallet, tokenAddress, balance, now, fault);
      GetCachedBalance(r, otherWallet, otherAddress) == GetCachedBalance(s, otherWallet, otherAddress)
      && ShouldCheckToken(r, otherWallet, otherAddress, when) == ShouldCheckToken(s, otherWallet, otherAddress, when)
  {
    var r := StoreAfterSave(s, wallet, tokenAddress, balance, now, fault);
    var k := Key(otherWallet, otherAddress);
    if Failing(s) || fault == BalancesWriteFails {
      assert r == s;
    } else if fault == TimestampsWriteFails && s.timestamps.Unparsable? {
      // both before and after, the unparsable timestamps item empties both maps
      assert LoadCachedData(r) == LoadCachedData(s);
    } else {
      var before, after := LoadCachedData(s), LoadCachedData(r);
      assert after.balances.value == Assign(before.balances.value, Key(wallet, tokenAddress), balance);
      assert !Failing(r);
      assert LastChecked(r, k) == LastChecked(s, k);
      assert Interval(r, k) == Interval(s, k);
    }
  }

  /** The latent behaviour of a failed fetch: it is saved as `'0'`, which restarts the
      clock with the long interval, so the pair is not re-checked for the next 60 s even
      if it held a balance before. */
  lemma FailedFetchSuppressesRecheck(s: Store, wallet: string, tokenAddress: string, t: int, now: int)
    requires !Failing(s)
    requires now - t <= INITIAL_CHECK_INTERVAL
    ensures !ShouldCheckToken(StoreAfterSave(s, wallet, tokenAddress, Some(Str("0")), t, NoFault), wallet, tokenAddress, now)
  {
    SaveRestartsClock(s, wallet, tokenAddress, Some(Str("0")), t, now);
  }

  /** `ensureTokenListIsArray`'s new value for a list that is not `null`: an array stays,
      otherwise its `tokens` when that is an array, otherwise `[]`. */
  function AsTokenArray(v: Json): (r: Json)
    requires v != Null
    ensures r.Arr?
    ensures v.Arr? ==> r == v
    ensures !v.Arr? && Get(v, "tokens").Some? && Get(v, "tokens").value.Arr? ==> r == Get(v, "tokens").value
    ensures !v.Arr? && !(Get(v, "tokens").Some? && Get(v, "tokens").value.Arr?) ==> r == Arr([])
  {
    if v.Arr? then v
    else
      var tokens := Get(v, "tokens");
      if tokens.Some? && tokens.value.Arr? then tokens.value else Arr([])
  }

  /** Normalising twice is normalising once. */
  lemma AsTokenArrayIdempotent(v: Json)
    requires v != Null
    ensures AsTokenArray(AsTokenArray(v)) == AsTokenArray(v)
  {
  }

  /** The app-wide state: the token list, the current wallet and the cache items. */
  class AppState {
    var tokenListData: Json
    var currentWallet: string
    /** The two localStorage items of the balance cache. */
    var store: Store

    constructor(stored: Store)
      ensures tokenListData == Arr([]) && currentWallet == "" && store == stored
    {
      tokenListData := Arr([]);
      currentWallet := "";
      store := stored;
    }

    /** `saveTokenBalance`: read both maps, write the key in each, write both back. */
    method SaveTokenBalance(wallet: string, tokenAddress: string, balance: Option<Json>, now: int, fault: WriteFault)
      modifies this
      ensures store == StoreAfterSave(old(store), wallet, tokenAddress, balance, now, fault)
      ensures tokenListData == old(tokenListData) && currentWallet == old(currentWallet)
    {
      var loaded := LoadCachedData(store);
      if loaded.balances.None? || loaded.timestamps.None? {
        // assigning a property of `null` throws; the error is swallowed
        return;
      }
      var key := Key(wallet, tokenAddress);
      var balances := Assign(loaded.balances.value, key, balance);
      var timestamps := loaded.timestamps.value[key := now];
      if fault == BalancesWriteFails {
        return;
      }
      store := store.(balances := Holds(balances));
      if fault == TimestampsWriteFails {
        return;
      }
      store := store.(timestamps := Holds(timestamps));
    }

    /** `ensureTokenListIsArray`. Reading `.tokens` of a `null` list throws to the caller
        (`threw`), leaving the list as it was. */
    method EnsureTokenListIsArray() returns (threw: bool)
      modifies this
      ensures threw <==> old(tokenListData) == Null
      ensures tokenListData == if threw then old(tokenListData) else AsTokenArray(old(tokenListData))
      ensures store == old(store) && currentWallet == old(currentWallet)
    {
      if tokenListData == Null {
        return true;
      }
      threw := false;
      if !tokenListData.Arr? {
        var tokens := Get(tokenListData, "tokens");
        tokenListData := if tokens.Some? && tokens.value.Arr? then tokens.value else Arr([]);
      }
    }
  }
}
