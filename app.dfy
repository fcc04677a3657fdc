/** The controller of app.js: the online flag, the loaded templates and the shared
    `AppState`, with the main-balance lookup and the token scan. */
module App {
  import opened Wrappers
  import opened Json
  import opened BalanceCache
  import opened TokenList
  import opened Templates
  import opened Refresh
  import opened Scan

  /** What `fetchBalance` leaves in the balance element. */
  datatype BalanceView =
    | ShowCached(balance: Json, symbol: Option<Json>)   // cached balance and symbol
    | ShowOffline(cached: Option<Json>)                 // `<cached> (cached)`, or `Offline`
    | ShowFetched(value: Option<Json>, symbol: Option<Json>)
    | ShowError                                         // `Error fetching balance`
    | StuckLoading                                      // the list coercion threw outside the `try`

  class AppController {
    const state: AppState
    var isOnline: bool
    var templates: map<string, string>

    constructor(online: bool, stored: Store)
      ensures fresh(state)
      ensures isOnline == online && templates == map[]
      ensures state.tokenListData == Arr([]) && state.currentWallet == "" && state.store == stored
    {
      state := new AppState(stored);
      isOnline := online;
      templates := map[];
    }

    /** `loadTemplates`: registers the page's templates, in document order. */
    method LoadTemplates(found: seq<(string, string)>)
      modifies this
      ensures templates == Registered(old(templates), found)
      ensures isOnline == old(isOnline)
    {
      for i := 0 to |found|
        invariant templates == Registered(old(templates), found[..i])
        invariant isOnline == old(isOnline)
      {
        assert found[..i + 1][..i] == found[..i];
        templates := templates[found[i].0 := found[i].1];
      }
      assert found[..|found|] == found;
    }

    /** `render(templateId, data)` over the registered templates. */
    method Render(templateId: string, data: seq<(string, Json)>) returns (html: string)
      requires forall i :: 0 <= i < |data| ==> PlainKey(data[i].0)
      ensures html == Rendered(templates, templateId, data)
    {
      html := Templates.Render(templates, templateId, data);
    }

    /** `handleOnlineStatus`. */
    method HandleOnlineStatus(online: bool)
      modifies this
      ensures isOnline == online && templates == old(templates)
    {
      isOnline := online;
    }

    method FetchTokenList(reply: ListReply) returns (tokens: seq<Json>)
      modifies state
      ensures !isOnline ==> tokens == [] && state.tokenListData == old(state.tokenListData)
      ensures isOnline ==> tokens == ListFromReply(reply) && state.tokenListData == Arr(tokens)
      ensures state.store == old(state.store) && state.currentWallet == old(state.currentWallet)
    {
      tokens := LoadTokenList(state, isOnline, reply);
    }

    /** `fetchBalance(wallet, contract)`: the cached balance when present and not due;
        offline, the cached value or `Offline`; otherwise the fetched value, which is
        saved. `now` is the time of the freshness test and `savedAt` that of the save. */
    method FetchBalance(wallet: string, contract: string, now: int, reply: AxiosReply, savedAt: int)
      returns (view: BalanceView)
      modifies state
      ensures state.currentWallet == wallet
      ensures var s := old(state.store);
        var cached := GetCachedBalance(s, wallet, contract);
        var current := cached.Some? && !ShouldCheckToken(s, wallet, contract, now);
        && (current ==> (view == StuckLoading <==> old(state.tokenListData) == Null))
        && (current && view != StuckLoading ==> view.ShowCached? && view.balance == cached.value)
        && (!current && !isOnline ==> view == ShowOffline(cached))
        && (!current && isOnline ==> view.ShowFetched? || view == ShowError)
        && (view.ShowFetched? <==>
              !current && isOnline && reply.AxiosOk? && reply.data != Null && old(state.tokenListData) != Null)
        && (view.ShowFetched? ==>
              view.value == Get(reply.data, "value")
              && state.store == StoreAfterSave(s, wallet, contract, view.value, savedAt, NoFault))
        && (!view.ShowFetched? ==> state.store == s)
        && (var list := old(state.tokenListData);
            state.tokenListData ==
              if list != Null && (current || (isOnline && reply.AxiosOk?)) then AsTokenArray(list) else list)
      ensures view.ShowCached? || view.ShowFetched? ==>
        && old(state.tokenListData) != Null
        && state.tokenListData == AsTokenArray(old(state.tokenListData))
        && view.symbol == SymbolOf(FindTokenInfo(state.tokenListData, contract), contract)
    {
      state.currentWallet := wallet;
      var cached := GetCachedBalance(state.store, wallet, contract);
      if cached.Some? && !ShouldCheckToken(state.store, wallet, contract, now) {
        var threw := state.EnsureTokenListIsArray();
        if threw {
          return StuckLoading;
        }
        return ShowCached(cached.value, SymbolOf(FindTokenInfo(state.tokenListData, contract), contract));
      }
      if !isOnline {
        return ShowOffline(cached);
      }
      match reply
      case AxiosFailed =>
        view := ShowError;
      case AxiosOk(data) =>
        var threw := state.EnsureTokenListIsArray();
        if threw {
          return ShowError;
        }
        var symbol := SymbolOf(FindTokenInfo(state.tokenListData, contract), contract);
        if data == Null {
          return ShowError;  // `response.data.value` throws before the save
        }
        var value := Get(data, "value");
        state.SaveTokenBalance(wallet, contract, value, savedAt, NoFault);
        view := ShowFetched(value, symbol);
    }

    /** `fetchTokenBalances(wallet)`: a rejected balance request counts as `'0'`. */
    method FetchTokenBalances(wallet: string, now: int, listReply: ListReply, replies: nat -> AxiosReply, clock: nat -> int)
      returns (outcome: ScanOutcome)
      modifies state
      ensures ScanEffect(outcome, state.tokenListData, state.store)
           == ExpectedScan(old(state.tokenListData), old(state.store), isOnline, wallet, now, listReply, AxiosAttempts(replies), clock)
      ensures state.currentWallet == old(state.currentWallet)
    {
      outcome := ScanBalances(state, isOnline, wallet, now, listReply, AxiosAttempts(replies), clock);
    }
  }
}
