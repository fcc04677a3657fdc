/** The token-balance scan of `fetchTokenBalances` (app.js and js/app-controller.js),
    specified as functions: the cached pass over the token list, the choice of tokens to
    re-check, and the effect of the checks on the working set `tokensWithBalance` and on
    the cache. The controllers' loops are proved against these functions. */
module Refresh {
  import opened Wrappers
  import opened Json
  import opened BalanceCache

  /** An entry of `tokensWithBalance`: the token's own properties plus `balance`. */
  datatype Holding = Holding(token: Json, balance: Json)

  /** `token.address` (`None` for `undefined`). */
  function Address(token: Json): Option<Json> {
    if token == Null then None else Get(token, "address")
  }

  /** The address as it is spelled inside a cache key. */
  function KeyAddress(token: Json): string {
    PropertyText(Address(token))
  }

  /** The entry the cached pass makes for one token, if any: a truthy token whose cached
      balance is present and is not the string `'0'`. */
  function CachedEntry(s: Store, wallet: string, token: Json): (r: Option<Holding>)
    ensures r.Some? ==> r.value.token == token && NonZero(r.value.balance)
    ensures r.Some? <==> Truthy(token) && GetCachedBalance(s, wallet, KeyAddress(token)).Some?
                         && GetCachedBalance(s, wallet, KeyAddress(token)).value != Str("0")
    ensures r.Some? ==> GetCachedBalance(s, wallet, KeyAddress(token)) == Some(r.value.balance)
  {
    if !Truthy(token) then None
    else
      var cached := GetCachedBalance(s, wallet, KeyAddress(token));
      if cached.Some? && cached.value != Str("0") then Some(Holding(token, cached.value)) else None
  }

  /** The working set after the cached pass over `list`. */
  function CachedPass(s: Store, wallet: string, list: seq<Json>): (r: seq<Holding>)
    ensures |r| <= |list|
    ensures forall h :: h in r <==> h.token in list && CachedEntry(s, wallet, h.token) == Some(h)
  {
    if list == [] then []
    else
      var front := CachedPass(s, wallet, list[..|list| - 1]);
      var last := list[|list| - 1];
      assert list == list[..|list| - 1] + [last];
      match CachedEntry(s, wallet, last)
      case Some(h) => front + [h]
      case None => front
  }

  /** The cached pass keeps the list's order: it is a filter that maps piece by piece. */
  lemma {:induction false} CachedPassKeepsOrder(s: Store, wallet: string, a: seq<Json>, b: seq<Json>)
    ensures CachedPass(s, wallet, a + b) == CachedPass(s, wallet, a) + CachedPass(s, wallet, b)
    decreases |b|
  {
    if b == [] {
      assert a + b == a;
    } else {
      var b' := b[..|b| - 1];
      assert (a + b)[..|a + b| - 1] == a + b';
      CachedPassKeepsOrder(s, wallet, a, b');
    }
  }

  /** Every entry of the working set shows a balance that is truthy and not `'0'`. */
  predicate AllNonZero(hs: seq<Holding>) {
    forall i :: 0 <= i < |hs| ==> NonZero(hs[i].balance)
  }

  /** No two entries of the working set share an address. */
  predicate DistinctAddresses(hs: seq<Holding>) {
    forall i, j :: 0 <= i < j < |hs| ==> Address(hs[i].token) != Address(hs[j].token)
  }

  /** No two truthy tokens of the list share an address. */
  predicate DistinctListAddresses(list: seq<Json>) {
    forall i, j :: 0 <= i < j < |list| && Truthy(list[i]) && Truthy(list[j]) ==> Address(list[i]) != Address(list[j])
  }

  /** The cached pass shows only non-zero balances, and one entry per address when the
      list has no repeated address. */
  lemma {:induction false} CachedPassShape(s: Store, wallet: string, list: seq<Json>)
    ensures AllNonZero(CachedPass(s, wallet, list))
    ensures DistinctListAddresses(list) ==> DistinctAddresses(CachedPass(s, wallet, list))
  {
    var r := CachedPass(s, wallet, list);
    forall i | 0 <= i < |r|
      ensures NonZero(r[i].balance)
    {
      assert r[i] in r;
    }
    if DistinctListAddresses(list) && list != [] {
      var n := |list| - 1;
      var front := list[..n];
      assert DistinctListAddresses(front);
      CachedPassShape(s, wallet, front);
      var f := CachedPass(s, wallet, front);
      if CachedEntry(s, wallet, list[n]).Some? {
        assert r == f + [CachedEntry(s, wallet, list[n]).value];
        forall i | 0 <= i < |f|
          ensures Address(f[i].token) != Address(list[n])
        {
          assert f[i] in f;
          var j :| 0 <= j < n && front[j] == f[i].token;
        }
      }
    }
  }

  /** The tokens `filter` selects for re-checking: truthy and due. */
  function TokensToCheck(s: Store, wallet: string, list: seq<Json>, now: int): (r: seq<Json>)
    ensures |r| <= |list|
    ensures forall t :: t in r <==> t in list && Truthy(t) && ShouldCheckToken(s, wallet, KeyAddress(t), now)
  {
    if list == [] then []
    else
      var front := TokensToCheck(s, wallet, list[..|list| - 1], now);
      var last := list[|list| - 1];
      assert list == list[..|list| - 1] + [last];
      if Truthy(last) && ShouldCheckToken(s, wallet, KeyAddress(last), now) then front + [last] else front
  }

  /** The tokens to check keep the list's order, list by list. */
  lemma {:induction false} TokensToCheckKeepsOrder(s: Store, wallet: string, a: seq<Json>, b: seq<Json>, now: int)
    ensures TokensToCheck(s, wallet, a + b, now) == TokensToCheck(s, wallet, a, now) + TokensToCheck(s, wallet, b, now)
    decreases |b|
  {
    if b == [] {
      assert a + b == a;
    } else {
      var b' := b[..|b| - 1];
      assert (a + b)[..|a + b| - 1] == a + b';
      TokensToCheckKeepsOrder(s, wallet, a, b', now);
    }
  }

  /** A listed token whose cache entry is not due is not fetched again; with a healthy
      cache, one showing a non-zero balance is re-fetched once 5 s have passed since its
      last check. */
  lemma RecheckChoice(s: Store, wallet: string, list: seq<Json>, t: Json, now: int)
    requires t in list && Truthy(t)
    ensures t in TokensToCheck(s, wallet, list, now) <==> ShouldCheckToken(s, wallet, KeyAddress(t), now)
    ensures !Failing(s) && CachedEntry(s, wallet, t).Some? ==>
      (t in TokensToCheck(s, wallet, list, now) <==>
        now - LastChecked(s, Key(wallet, KeyAddress(t))) > CHECK_INTERVAL)
  {
    if !Failing(s) && CachedEntry(s, wallet, t).Some? {
      HeldBalanceUsesShortInterval(s, wallet, KeyAddress(t), now);
    }
  }

  /** What one check produced: nothing was saved because reading the reply threw, or
      `balance` (`None` for `undefined`) was saved. */
  datatype Attempt = Skipped | Saved(balance: Option<Json>)

  /** One step of the loop: the token, what its check produced, and `Date.now()` when the
      result was saved. */
  datatype Step = Step(token: Json, attempt: Attempt, time: int)

  /** Whether a step adds or updates an entry of the working set. */
  predicate Finds(step: Step) {
    step.attempt.Saved? && step.attempt.balance.Some? && NonZero(step.attempt.balance.value)
  }

  /** `findIndex(t => t.address === address)`. */
  function FindIndex(hs: seq<Holding>, address: Option<Json>): (i: int)
    ensures -1 <= i < |hs|
    ensures 0 <= i ==> Address(hs[i].token) == address
    ensures forall j :: 0 <= j < |hs| && (i < 0 || j < i) ==> Address(hs[j].token) != address
  {
    if hs == [] then -1
    else if Address(hs[0].token) == address then 0
    else
      var i := FindIndex(hs[1..], address);
      assert forall j :: 1 <= j < |hs| ==> hs[j] == hs[1..][j - 1];
      if i < 0 then -1 else i + 1
  }

  /** Whether the working set has an entry for `address` showing `balance`. */
  predicate Shows(hs: seq<Holding>, address: Option<Json>, balance: Json) {
    exists k :: 0 <= k < |hs| && Address(hs[k].token) == address && hs[k].balance == balance
  }

  /** The working set after a non-zero `balance` for `token`: the first entry with the
      same address takes the new balance in place, otherwise a new entry is appended. */
  function Upsert(hs: seq<Holding>, token: Json, balance: Json): (r: seq<Holding>)
    ensures |r| == |hs| || r == hs + [Holding(token, balance)]
    ensures |r| == |hs| + 1 <==> forall i :: 0 <= i < |hs| ==> Address(hs[i].token) != Address(token)
    ensures Shows(r, Address(token), balance)
    ensures forall i :: 0 <= i < |hs| ==> r[i].token == hs[i].token
    ensures forall i :: 0 <= i < |hs| && r[i] != hs[i] ==> Address(hs[i].token) == Address(token) && r[i].balance == balance
    ensures forall i :: 0 <= i < |hs| && r[i] != hs[i] ==>
      forall j :: 0 <= j < i ==> Address(hs[j].token) != Address(token)
    ensures forall i ::
      0 <= i < |hs| && Address(hs[i].token) == Address(token) && (forall j :: 0 <= j < i ==> Address(hs[j].token) != Address(token))
      ==> r[i] == Holding(hs[i].token, balance)
  {
    var i := FindIndex(hs, Address(token));
    if i >= 0 then
      var r := hs[i := Holding(hs[i].token, balance)];
      assert Address(r[i].token) == Address(token);
      r
    else
      var r := hs + [Holding(token, balance)];
      assert r[|hs|] == Holding(token, balance);
      r
  }

  lemma UpsertKeepsDistinct(hs: seq<Holding>, token: Json, balance: Json)
    requires DistinctAddresses(hs)
    ensures DistinctAddresses(Upsert(hs, token, balance))
  {
  }

  function StepHoldings(hs: seq<Holding>, step: Step): seq<Holding> {
    if Finds(step) then Upsert(hs, step.token, step.attempt.balance.value) else hs
  }

  /** The working set after the checks of `steps`, starting from `hs`. */
  function ScanHoldings(hs: seq<Holding>, steps: seq<Step>): seq<Holding> {
    if steps == [] then hs
    else StepHoldings(ScanHoldings(hs, steps[..|steps| - 1]), steps[|steps| - 1])
  }

  function StepStore(s: Store, wallet: string, step: Step): Store {
    if step.attempt.Saved? then StoreAfterSave(s, wallet, KeyAddress(step.token), step.attempt.balance, step.time, NoFault)
    else s
  }

  /** The cache after the checks of `steps`. */
  function ScanStore(s: Store, wallet: string, steps: seq<Step>): Store {
    if steps == [] then s
    else StepStore(ScanStore(s, wallet, steps[..|steps| - 1]), wallet, steps[|steps| - 1])
  }

  /** The checks never remove, reorder or re-key an entry; they only update balances in
      place and append, and every balance shown stays non-zero. */
  lemma {:induction false} ScanKeepsEntries(hs: seq<Holding>, steps: seq<Step>)
    ensures var r := ScanHoldings(hs, steps);
      && |hs| <= |r| <= |hs| + |steps|
      && (forall i :: 0 <= i < |hs| ==> r[i].token == hs[i].token)
      && (AllNonZero(hs) ==> AllNonZero(r))
      && (DistinctAddresses(hs) ==> DistinctAddresses(r))
  {
    if steps != [] {
      var front := steps[..|steps| - 1];
      ScanKeepsEntries(hs, front);
      var m := ScanHoldings(hs, front);
      var step := steps[|steps| - 1];
      if Finds(step) {
        if DistinctAddresses(m) {
          UpsertKeepsDistinct(m, step.token, step.attempt.balance.value);
        }
      }
    }
  }

  /** Every non-zero result shows up: after the checks, the working set has an entry for
      the token's address carrying the last non-zero balance fetched for that address. */
  lemma {:induction false} LastFoundBalanceShown(hs: seq<Holding>, steps: seq<Step>, i: nat)
    requires i < |steps| && Finds(steps[i])
    requires forall j :: i < j < |steps| && Finds(steps[j]) ==> Address(steps[j].token) != Address(steps[i].token)
    ensures Shows(ScanHoldings(hs, steps), Address(steps[i].token), steps[i].attempt.balance.value)
  {
    var front := steps[..|steps| - 1];
    var step := steps[|steps| - 1];
    if i == |steps| - 1 {
      assert step == steps[i];
      var r := ScanHoldings(hs, steps);
      assert r == Upsert(ScanHoldings(hs, front), step.token, step.attempt.balance.value);
    } else {
      LastFoundBalanceShown(hs, front, i);
      var m := ScanHoldings(hs, front);
      var k :| 0 <= k < |m| && Address(m[k].token) == Address(steps[i].token) && m[k].balance == steps[i].attempt.balance.value;
      var r := ScanHoldings(hs, steps);
      assert r == StepHoldings(m, step);
      if Finds(step) {
        assert Address(step.token) != Address(steps[i].token);
      }
      assert 0 <= k < |r| && r[k] == m[k];
      assert Address(r[k].token) == Address(steps[i].token) && r[k].balance == steps[i].attempt.balance.value;
    }
  }

  /** A failing cache (a stored `null` makes every read throw) is left untouched. */
  lemma {:induction false} ScanOnFailingCache(s: Store, wallet: string, steps: seq<Step>)
    requires Failing(s)
    ensures ScanStore(s, wallet, steps) == s
  {
    if steps != [] {
      ScanOnFailingCache(s, wallet, steps[..|steps| - 1]);
    }
  }

  /** On a healthy cache, the saves keep the cache healthy. */
  lemma {:induction false} ScanKeepsCacheHealthy(s: Store, wallet: string, steps: seq<Step>)
    requires !Failing(s)
    ensures !Failing(ScanStore(s, wallet, steps))
  {
    if steps != [] {
      ScanKeepsCacheHealthy(s, wallet, steps[..|steps| - 1]);
    }
  }

  /** Pairs none of the saved steps wrote read the same balance and the same due-ness. */
  lemma {:induction false} ScanFrame(s: Store, wallet: string, steps: seq<Step>, otherWallet: string, otherAddress: string, when: int)
    requires forall j :: 0 <= j < |steps| && steps[j].attempt.Saved? ==>
      Key(wallet, KeyAddress(steps[j].token)) != Key(otherWallet, otherAddress)
    ensures GetCachedBalance(ScanStore(s, wallet, steps), otherWallet, otherAddress) == GetCachedBalance(s, otherWallet, otherAddress)
    ensures ShouldCheckToken(ScanStore(s, wallet, steps), otherWallet, otherAddress, when) == ShouldCheckToken(s, otherWallet, otherAddress, when)
  {
    if steps != [] {
      var front := steps[..|steps| - 1];
      var step := steps[|steps| - 1];
      ScanFrame(s, wallet, front, otherWallet, otherAddress, when);
      if step.attempt.Saved? {
        SaveFrame(ScanStore(s, wallet, front), wallet, KeyAddress(step.token), step.attempt.balance, step.time, NoFault,
                  otherWallet, otherAddress, when);
      }
    }
  }

  /** On a healthy cache the last save of a key wins: the cache then holds that result
      (a falsy one reads as missing) and the pair's clock restarts from that save. */
  lemma {:induction false} LastSaveWins(s: Store, wallet: string, steps: seq<Step>, i: nat, when: int)
    requires !Failing(s)
    requires i < |steps| && steps[i].attempt.Saved?
    requires forall j :: i < j < |steps| && steps[j].attempt.Saved? ==>
      Key(wallet, KeyAddress(steps[j].token)) != Key(wallet, KeyAddress(steps[i].token))
    ensures var r := ScanStore(s, wallet, steps);
      var b := steps[i].attempt.balance;
      && GetCachedBalance(r, wallet, KeyAddress(steps[i].token)) == (if b.Some? && Truthy(b.value) then b else None)
      && (ShouldCheckToken(r, wallet, KeyAddress(steps[i].token), when) <==>
            when - steps[i].time > (if b.Some? && NonZero(b.value) then CHECK_INTERVAL else INITIAL_CHECK_INTERVAL))
  {
    var front := steps[..|steps| - 1];
    var step := steps[|steps| - 1];
    var m := ScanStore(s, wallet, front);
    ScanKeepsCacheHealthy(s, wallet, front);
    if i == |steps| - 1 {
      SaveRestartsClock(m, wallet, KeyAddress(step.token), step.attempt.balance, step.time, when);
    } else {
      LastSaveWins(s, wallet, front, i, when);
      if step.attempt.Saved? {
        SaveFrame(m, wallet, KeyAddress(step.token), step.attempt.balance, step.time, NoFault,
                  wallet, KeyAddress(steps[i].token), when);
      }
    }
  }

  /** How many 100 ms pauses the loop makes: one between consecutive checks. */
  function Pauses(n: nat): (r: nat)
    ensures n > 0 ==> r == n - 1
    ensures n == 0 ==> r == 0
  {
    if n == 0 then 0 else n - 1
  }

  /** The reply to `axios.get` of a balance: a rejection, or the parsed body. */
  datatype AxiosReply = AxiosFailed | AxiosOk(data: Json)

  /** What app.js's loop does with a reply: a rejection becomes `{ value: '0' }`, and a
      `null` body makes `response.data.value` throw before anything is saved. */
  function AxiosAttempt(reply: AxiosReply): (a: Attempt)
    ensures reply.AxiosFailed? ==> a == Saved(Some(Str("0")))
    ensures a.Skipped? <==> reply == AxiosOk(Null)
    ensures reply.AxiosOk? && reply.data != Null ==> a == Saved(Get(reply.data, "value"))
  {
    match reply
    case AxiosFailed => Saved(Some(Str("0")))
    case AxiosOk(data) => if data == Null then Skipped else Saved(Get(data, "value"))
  }

  /** The `i`-th check of app.js's loop for the `i`-th reply. */
  function AxiosAttempts(replies: nat -> AxiosReply): (f: nat -> Attempt)
    ensures forall i :: f(i) == AxiosAttempt(replies(i))
  {
    (i: nat) => AxiosAttempt(replies(i))
  }

  /** The steps of the loop over `toCheck`, with the `i`-th check's result and save time. */
  function Steps(toCheck: seq<Json>, attempts: nat -> Attempt, clock: nat -> int): (r: seq<Step>)
    ensures |r| == |toCheck|
    ensures forall i :: 0 <= i < |r| ==> r[i] == Step(toCheck[i], attempts(i), clock(i))
  {
    seq(|toCheck|, i requires 0 <= i < |toCheck| => Step(toCheck[i], attempts(i), clock(i)))
  }

  /** A failed balance request in app.js's loop is saved as `'0'`, so it neither shows an
      entry nor leaves the old balance in the cache. */
  lemma FailedRequestRecordsZero(hs: seq<Holding>, token: Json, t: int)
    ensures var step := Step(token, AxiosAttempt(AxiosFailed), t);
      !Finds(step) && StepHoldings(hs, step) == hs && step.attempt == Saved(Some(Str("0")))
  {
  }
}
