/** The body of `fetchTokenBalances`, shared by the controller of app.js and the one of
    js/app-controller.js, and `fetchTokenList`, which both have in the same form. Each
    loop is proved against the functions of `Refresh`. */
module Scan {
  import opened Wrappers
  import opened Json
  import opened BalanceCache
  import opened TokenList
  import opened Refresh

  /** `fetchTokenList` on the shared state: offline it returns `[]` and keeps the list;
      online it stores and returns the normalised reply, or `[]` on any failure. */
  method LoadTokenList(state: AppState, online: bool, reply: ListReply) returns (tokens: seq<Json>)
    modifies state
    ensures !online ==> tokens == [] && state.tokenListData == old(state.tokenListData)
    ensures online ==> tokens == ListFromReply(reply) && state.tokenListData == Arr(tokens)
    ensures state.store == old(state.store) && state.currentWallet == old(state.currentWallet)
  {
    if !online {
      return [];
    }
    match reply
    case ListFailed =>
      state.tokenListData := Arr([]);
      tokens := [];
    case ListBody(data) =>
      var normalised := NormaliseTokenList(data);
      if normalised.None? {
        // the filter read a property of a `null` value; the catch resets the list
        state.tokenListData := Arr([]);
        tokens := [];
      } else {
        state.tokenListData := Arr(normalised.value);
        tokens := normalised.value;
      }
  }

  /** The token list the scan starts from: an empty or non-array list is refetched first
      (which, offline, leaves it as it was). */
  function ListForScan(tokenListData: Json, online: bool, reply: ListReply): (r: Json)
    ensures tokenListData.Arr? && |tokenListData.items| > 0 ==> r == tokenListData
    ensures !online ==> r == tokenListData
    ensures online ==> r.Arr?
    ensures online && !(tokenListData.Arr? && |tokenListData.items| > 0) ==> r == Arr(ListFromReply(reply))
  {
    if tokenListData.Arr? && |tokenListData.items| > 0 then tokenListData
    else if !online then tokenListData
    else Arr(ListFromReply(reply))
  }

  /** The loop that displays the cached non-zero balances. */
  method CollectCached(state: AppState, wallet: string) returns (found: seq<Holding>)
    requires state.tokenListData.Arr?
    ensures found == CachedPass(state.store, wallet, state.tokenListData.items)
  {
    var items := state.tokenListData.items;
    found := [];
    for i := 0 to |items|
      invariant found == CachedPass(state.store, wallet, items[..i])
    {
      assert items[..i + 1][..i] == items[..i];
      var token := items[i];
      if Truthy(token) {
        var cached := GetCachedBalance(state.store, wallet, KeyAddress(token));
        if cached.Some? && cached.value != Str("0") {
          found := found + [Holding(token, cached.value)];
        }
      }
    }
    assert items[..|items|] == items;
  }

  /** The loop over the tokens to check: each result is saved, a non-zero one updates or
      extends the working set, and a pause separates consecutive checks. */
  method CheckTokens(state: AppState, wallet: string, steps: seq<Step>, cached: seq<Holding>)
    returns (found: seq<Holding>, pauses: nat)
    modifies state
    ensures found == ScanHoldings(cached, steps)
    ensures state.store == ScanStore(old(state.store), wallet, steps)
    ensures pauses == if |steps| == 0 then 0 else |steps| - 1
    ensures state.tokenListData == old(state.tokenListData) && state.currentWallet == old(state.currentWallet)
  {
    found := cached;
    pauses := 0;
    for i := 0 to |steps|
      invariant found == ScanHoldings(cached, steps[..i])
      invariant state.store == ScanStore(old(state.store), wallet, steps[..i])
      invariant pauses == if i == |steps| && i > 0 then i - 1 else i
      invariant state.tokenListData == old(state.tokenListData) && state.currentWallet == old(state.currentWallet)
    {
      assert steps[..i + 1][..i] == steps[..i];
      var step := steps[i];
      if step.attempt.Saved? {
        var balance := step.attempt.balance;
        state.SaveTokenBalance(wallet, KeyAddress(step.token), balance, step.time, NoFault);
        if balance.Some? && Truthy(balance.value) && balance.value != Str("0") {
          var existing := FindIndex(found, Address(step.token));
          if existing >= 0 {
            found := found[existing := Holding(found[existing].token, balance.value)];
          } else {
            found := found + [Holding(step.token, balance.value)];
          }
        }
      }
      if i < |steps| - 1 {
        pauses := pauses + 1;
      }
    }
    assert steps[..|steps|] == steps;
  }

  /** How a run of `fetchTokenBalances` ends: no wallet given, the list was `null` (the
      catch shows an error), or the final working set with the number of checks made and
      pauses taken. */
  datatype ScanOutcome = NoWallet | ListError | Finished(found: seq<Holding>, checked: nat, pauses: nat)

  /** The outcome together with the token list and the cache it leaves. */
  datatype ScanEffect = ScanEffect(outcome: ScanOutcome, tokenListData: Json, store: Store)

  /** The reference definition of a run: refetch the list if needed, coerce it to an
      array, show the cached pass, then (online) check every due token in list order. */
  function ExpectedScan(tokenListData: Json, store: Store, online: bool, wallet: string, now: int,
                        listReply: ListReply, attempts: nat -> Attempt, clock: nat -> int): (e: ScanEffect)
    ensures e.outcome.ListError? || e.outcome.Finished?
    ensures online ==> e.outcome.Finished?
    ensures e.outcome.ListError? <==> ListForScan(tokenListData, online, listReply) == Null
    ensures e.outcome.ListError? ==> e.store == store
    ensures !online ==> e.store == store
    ensures e.outcome.Finished? ==> e.tokenListData.Arr? && AllNonZero(e.outcome.found)
    ensures !online && e.outcome.Finished? ==> e.outcome == Finished(CachedPass(store, wallet, e.tokenListData.items), 0, 0)
  {
    var listed := ListForScan(tokenListData, online, listReply);
    if listed == Null then ScanEffect(ListError, Null, store)
    else
      var items := AsTokenArray(listed).items;
      var cached := CachedPass(store, wallet, items);
      var steps := if online then Steps(TokensToCheck(store, wallet, items, now), attempts, clock) else [];
      CachedPassShape(store, wallet, items);
      ScanKeepsEntries(cached, steps);
      ScanEffect(Finished(ScanHoldings(cached, steps), |steps|, Pauses(|steps|)), Arr(items), ScanStore(store, wallet, steps))
  }

  /** When the scanned list has no repeated address, neither has the final working set. */
  lemma ScanShowsDistinctAddresses(tokenListData: Json, store: Store, online: bool, wallet: string, now: int,
                                   listReply: ListReply, attempts: nat -> Attempt, clock: nat -> int)
    requires var e := ExpectedScan(tokenListData, store, online, wallet, now, listReply, attempts, clock);
      e.outcome.Finished? && DistinctListAddresses(e.tokenListData.items)
    ensures DistinctAddresses(ExpectedScan(tokenListData, store, online, wallet, now, listReply, attempts, clock).outcome.found)
  {
    var items := AsTokenArray(ListForScan(tokenListData, online, listReply)).items;
    var cached := CachedPass(store, wallet, items);
    var steps := if online then Steps(TokensToCheck(store, wallet, items, now), attempts, clock) else [];
    CachedPassShape(store, wallet, items);
    ScanKeepsEntries(cached, steps);
  }

  /** `fetchTokenBalances` after its wallet check. */
  method ScanBalances(state: AppState, online: bool, wallet: string, now: int, listReply: ListReply,
                      attempts: nat -> Attempt, clock: nat -> int) returns (outcome: ScanOutcome)
    modifies state
    ensures ScanEffect(outcome, state.tokenListData, state.store)
         == ExpectedScan(old(state.tokenListData), old(state.store), online, wallet, now, listReply, attempts, clock)
    ensures state.currentWallet == old(state.currentWallet)
  {
    var list := state.tokenListData;
    if !(list.Arr? && |list.items| > 0) {
      var _ := LoadTokenList(state, online, listReply);
    }
    var threw := state.EnsureTokenListIsArray();
    if threw {
      return ListError;
    }
    var found := CollectCached(state, wallet);
    var checked, pauses := 0, 0;
    if online {
      var toCheck := TokensToCheck(state.store, wallet, state.tokenListData.items, now);
      found, pauses := CheckTokens(state, wallet, Steps(toCheck, attempts, clock), found);
      checked := |toCheck|;
    }
    outcome := Finished(found, checked, pauses);
  }
}
