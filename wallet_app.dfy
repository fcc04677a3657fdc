/** The controller of js/app-controller.js: the same cache and scan as app.js, with the
    balances read through `WalletService`, the wallet guard of `fetchTokenBalances`, and
    `checkBalance`. */
module WalletApp {
  import opened Wrappers
  import opened Json
  import opened BalanceCache
  import opened TokenList
  import opened Templates
  import opened Refresh
  import opened Scan
  import opened Wallet

  /** The `i`-th check of this controller's loop: `getBalance` never throws, so every
      token's result is saved. */
  function WalletAttempts(walletAddress: Option<string>, replies: nat -> BalanceReply): (f: nat -> Attempt)
    ensures forall i :: f(i) == Saved(Some(GetBalance(walletAddress, replies(i))))
  {
    (i: nat) => Saved(Some(GetBalance(walletAddress, replies(i))))
  }

  /** Every check of this controller is saved and found only if truthy and not `'0'`;
      without a connected wallet every check saves `'0'`. */
  lemma WalletChecksAlwaysSave(walletAddress: Option<string>, replies: nat -> BalanceReply, i: nat)
    ensures WalletAttempts(walletAddress, replies)(i).Saved?
    ensures !Connects(walletAddress) ==> WalletAttempts(walletAddress, replies)(i) == Saved(Some(Str("0")))
  {
  }

  /** What `checkBalance` shows. */
  datatype CheckView = NeedContract | NeedWallet | ShowBalance(balance: Json, symbol: Option<Json>)

  class WalletAppController {
    const state: AppState
    const walletService: WalletService
    var isOnline: bool
    var templates: map<string, string>

    constructor(online: bool, stored: Store, service: WalletService)
      ensures fresh(state) && walletService == service && isOnline == online && templates == map[]
      ensures state.tokenListData == Arr([]) && state.currentWallet == "" && state.store == stored
    {
      state := new AppState(stored);
      walletService := service;
      isOnline := online;
      templates := map[];
    }

    /** `loadTemplates`: registers the page's templates, in document order. */
    method LoadTemplates(found: seq<(string, string)>)
      modifies this
      ensures templates == Registered(old(templates), found)
      ensures isOnline == old(isOnline)
    {
      for i := 0 to |found|
        invariant templates == Registered(old(templates), found[..i])
        invariant isOnline == old(isOnline)
      {
        assert found[..i + 1][..i] == found[..i];
        templates := templates[found[i].0 := found[i].1];
      }
      assert found[..|found|] == found;
    }

    /** `render(templateId, data)` over the registered templates. */
    method Render(templateId: string, data: seq<(string, Json)>) returns (html: string)
      requires forall i :: 0 <= i < |data| ==> PlainKey(data[i].0)
      ensures html == Rendered(templates, templateId, data)
    {
      html := Templates.Render(templates, templateId, data);
    }

    method FetchTokenList(reply: ListReply) returns (tokens: seq<Json>)
      modifies state
      ensures !isOnline ==> tokens == [] && state.tokenListData == old(state.tokenListData)
      ensures isOnline ==> tokens == ListFromReply(reply) && state.tokenListData == Arr(tokens)
      ensures state.store == old(state.store) && state.currentWallet == old(state.currentWallet)
    {
      tokens := LoadTokenList(state, isOnline, reply);
    }

    /** `checkBalance` for the trimmed contract input. */
    method CheckBalance(contract: string, reply: BalanceReply) returns (view: CheckView)
      ensures contract == "" ==> view == NeedContract
      ensures contract != "" && !walletService.IsConnected() ==> view == NeedWallet
      ensures view.ShowBalance? <==> contract != "" && walletService.IsConnected()
      ensures view.ShowBalance? ==> view.balance == GetBalance(walletService.walletAddress, reply)
      ensures view.ShowBalance? ==> Truthy(view.balance)
      ensures view.ShowBalance? && view.balance != Str("0") ==> reply.BalanceBody?
      ensures view.ShowBalance? ==>
        view.symbol == SymbolOf(FindTokenInfo(state.tokenListData, contract), contract)
    {
      if contract == "" {
        return NeedContract;
      }
      if !walletService.IsConnected() {
        return NeedWallet;
      }
      var balance := GetBalance(walletService.walletAddress, reply);
      var info := FindTokenInfo(state.tokenListData, contract);
      view := ShowBalance(balance, SymbolOf(info, contract));
    }

    /** `fetchTokenBalances(wallet)`: nothing happens without a wallet; otherwise the
        shared scan with balances from the wallet service. The keys use `wallet`, while
        the service queries its own connected address. */
    method FetchTokenBalances(wallet: string, now: int, listReply: ListReply, replies: nat -> BalanceReply, clock: nat -> int)
      returns (outcome: ScanOutcome)
      modifies state
      ensures wallet == "" ==> outcome == NoWallet && state.tokenListData == old(state.tokenListData) && state.store == old(state.store)
      ensures wallet != "" ==>
        ScanEffect(outcome, state.tokenListData, state.store)
          == ExpectedScan(old(state.tokenListData), old(state.store), isOnline, wallet, now, listReply,
                          WalletAttempts(walletService.walletAddress, replies), clock)
      ensures state.currentWallet == old(state.currentWallet)
    {
      if wallet == "" {
        return NoWallet;
      }
      outcome := ScanBalances(state, isOnline, wallet, now, listReply, WalletAttempts(walletService.walletAddress, replies), clock);
    }
  }
}
