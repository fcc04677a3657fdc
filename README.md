# Koinos wallet balances: cache, refresh scan, wallet and extension detection

A Dafny model of the logic behind a small Koinos wallet page. It covers:

- **The balance cache** (`AppState` in app.js).
  - Two localStorage items hold maps keyed by the string `${wallet}_${tokenAddress}`: balances, and the time each pair was last checked.
  - A pair is due for a re-check when more than 5000 ms (a stored balance that is truthy and not the string `'0'`) or 60000 ms (otherwise) have passed since its last check.
  - Every read degrades on bad data.
  - The controller in js/app-controller.js repeats these methods word for word at lines 442-507, so the model has one copy, which serves both controllers.
- **Token-list normalisation.** `fetchTokenList`, `ensureTokenListIsArray`, `findTokenInfo` and the symbol fallback (`KOIN` for the native token's address, otherwise `tokens`).
- **Templates**: `loadTemplates` and the placeholder substitution of `render`.
- **The refresh scan** (`fetchTokenBalances`), in both controllers.
  - A cached pass shows the cached non-zero balances, in list order.
  - Then, when online, every due token is checked in turn:
    - its result is saved, unless (in app.js) the reply's body is `null`, which throws before the save;
    - a non-zero result updates the working set in place or is appended to it;
    - a 100 ms pause separates consecutive checks.
- **The wallet service** (js/wallet-service.js): connect, disconnect, the stored wallet, the balance query that never throws, and the shortened address.
- **The extension-detection retry machine** (js/kondor-init.js): initial detection, up to ten 500 ms ticks, listener registration and notification.

How the JavaScript is modelled:

- **Modules.**
  - `Json` models the JavaScript values involved: truthiness, property reads, and string conversion.
  - `BalanceCache` is the cache and `AppState`.
  - `TokenList` covers the list shapes and the lookup.
  - `Templates` is the template table of `loadTemplates` and the substitution of `render`.
  - `Refresh` is the scan's specification, and `Scan` holds the loops proved against it.
  - `App` is the controller of app.js, and `WalletApp` the controller of js/app-controller.js.
  - `Wallet` and `Kondor` model the other two files.
- **Inputs.**
  - Network replies are parameters: a reply or a failure. The same holds for the extension's answers.
  - `Date.now()` is a parameter. Within the scan it is a function of the check's index.
  - Each timer firing is a call of `Kondor.KondorInitializer.Tick`.
- **localStorage.** Each of the two cache items is absent, holds a parsed map, holds text that does not parse, or holds the text `null`.
  - Text that does not parse makes `loadCachedData` return two empty maps.
  - `null` parses, but every later property read on it throws. When either item holds `null` and neither item is unparsable, `shouldCheckToken` answers "due" and `saveTokenBalance` writes nothing. `getCachedBalance` answers `null` for that reason only when the balances item holds `null` and the timestamps item is not unparsable.

## Model

| member | source | states |
|---|---|---|
| BalanceCache.Key | app.js:32 | the key is the wallet, `_` and the address, concatenated |
| BalanceCache.SeparatorInWalletCollides | app.js:32 | a wallet containing `_` gives two different pairs the same key |
| BalanceCache.KeyDeterminesPairWithoutSeparator | app.js:32 | if neither wallet contains `_`, equal keys mean equal pairs |
| BalanceCache.LoadCachedData | app.js:13-26 | one unparsable item empties both maps; otherwise each item reads as its parsed map, as `{}` when absent, and as `null` exactly when it holds `null` |
| BalanceCache.GetCachedBalance | app.js:61-69 | gives a value exactly when the balances map can be read and holds a truthy value at the key, and then it is that value; it is always truthy |
| BalanceCache.ShouldCheckToken | app.js:43-59 | due when reading throws; otherwise due iff `now - lastChecked > interval`, with `lastChecked` 0 when absent |
| BalanceCache.HeldBalanceUsesShortInterval | app.js:49-54 | a stored balance that is truthy and not `'0'` uses the 5000 ms interval |
| BalanceCache.ZeroOrMissingUsesLongInterval | app.js:49-54 | a missing or `'0'` balance uses the 60000 ms interval |
| BalanceCache.ExactIntervalIsNotDue | app.js:54 | the comparison is strict: elapsed time equal to the interval is not due |
| BalanceCache.DueStaysDue | app.js:47-54 | a due pair stays due as time passes |
| BalanceCache.NeverCheckedIsDue | app.js:48-54 | a never-checked pair is due once the clock exceeds 60000 ms |
| BalanceCache.Assign | app.js:33 | sets the key to the balance, removes it for `undefined` (which `JSON.stringify` drops), and leaves every other key alone |
| BalanceCache.StoreAfterSave | app.js:28-41 | a save on a failing store, or one whose first write throws, changes nothing; when only the timestamps write throws, the balances item is already rewritten, so the pair reads the new balance with its old last check; a completed save reads back the balance (a falsy one as missing), with the save time as the last check |
| BalanceCache.SaveRestartsClock | app.js:28-54 | after a save at `t`, the pair is due iff more than the interval chosen by the saved value has passed since `t` |
| BalanceCache.SaveFrame | app.js:28-41 | a save leaves the balance and due-ness of every other key unchanged, also when a write throws (the one exception is stated) |
| BalanceCache.FailedFetchSuppressesRecheck | app.js:342-349 | a failed fetch saved as `'0'` keeps the pair from being re-checked for 60000 ms |
| BalanceCache.AsTokenArray | app.js:71-78 | the list becomes an array: unchanged if it was one, else its `tokens` if that is an array, else `[]` |
| BalanceCache.AsTokenArrayIdempotent | app.js:71-78 | coercing twice is coercing once |
| BalanceCache.AppState.constructor | app.js:3-11 | empty list, empty current wallet, the given storage |
| BalanceCache.AppState.SaveTokenBalance | app.js:28-41 | the read-modify-write leaves exactly `StoreAfterSave` and touches nothing else |
| BalanceCache.AppState.EnsureTokenListIsArray | app.js:71-78 | throws exactly on a `null` list; otherwise the list becomes `AsTokenArray` of the old one |
| TokenList.Descriptors | app.js:201-203 | keeps exactly the values that are objects with truthy `address` and `symbol` |
| TokenList.DescriptorsKeepOrder | app.js:201-203 | the filter preserves order (it distributes over concatenation) |
| TokenList.NormaliseTokenList | app.js:194-208 | an array is kept; an object's array `tokens` is taken; another object gives its descriptor values, in order (the filter throws if one value is `null`); a non-object gives `[]` |
| TokenList.NormaliseIsStable | app.js:194-208 | a normalised list normalises to itself |
| TokenList.ListFromReply | app.js:192-215 | a failed request or a throwing filter gives `[]`, otherwise the normalised list |
| TokenList.FindToken | app.js:235 | the first truthy token whose address equals the argument, or none when no token matches |
| TokenList.FindTokenInfo | js/app-controller.js:241-244 | `null` exactly for a non-array list; a found token matches and no earlier token of the list does; `undefined` only when no token matches |
| TokenList.SymbolOf | js/app-controller.js:226-228 | a listed token gives its `symbol`; otherwise the fallback is a non-empty string, and it is `KOIN` exactly for the native token's address |
| TokenList.DisplayedSymbol | js/app-controller.js:226-228 | the symbol is the listed token's symbol, else `KOIN` for the native address, else `tokens` |
| Templates.Placeholder | app.js:123 | the pattern is `{{`, then the key, then `}}` |
| Templates.ReplaceAll | app.js:123-124 | a global replacement with no occurrence leaves the text unchanged |
| Templates.ReplaceAllAtOccurrence | app.js:123-124 | the text before the first occurrence is copied, the occurrence becomes the value, and replacement goes on after it |
| Templates.Registered | app.js:111-115 | every template found is registered; a later template with the same id replaces an earlier one; ids not found keep their templates |
| Templates.Rendered | app.js:117-128 | a missing or empty template renders as `''`; empty data leaves the template as it is |
| Templates.Render | app.js:117-128 | the forEach loop computes `Rendered` |
| Templates.SubstituteWithoutPlaceholders | app.js:123-126 | a template with none of the data's placeholders is returned unchanged |
| Templates.RenderedFillsPlaceholder | app.js:117-128 | rendering one key copies the text before the key's first placeholder (other keys' placeholders included), puts the value's text (`''` when falsy) in its place, and replaces the later placeholders the same way |
| Refresh.CachedEntry | app.js:294-305 | a token gets an entry iff it is truthy and its cached balance is present and not `'0'`; the entry carries that balance |
| Refresh.CachedPass | app.js:293-317 | the working set holds exactly the list's tokens that have a cached entry, with those entries |
| Refresh.CachedPassKeepsOrder | app.js:293-317 | the cached pass keeps list order |
| Refresh.CachedPassShape | app.js:293-317 | every shown balance is non-zero; a list with distinct addresses gives distinct entries |
| Refresh.TokensToCheck | app.js:327-329 | keeps exactly the truthy tokens that are due |
| Refresh.TokensToCheckKeepsOrder | app.js:327-329 | the filter keeps list order (it distributes over concatenation) |
| Refresh.RecheckChoice | app.js:327-329 | a listed token is re-checked iff due; with a healthy cache, a token with a non-zero cached balance is re-checked once more than 5000 ms have passed |
| Refresh.FindIndex | app.js:352 | the first index with the address, or -1 when there is none |
| Refresh.Upsert | app.js:351-366 | an entry is appended exactly when none has the address; otherwise the first entry with the address takes the balance in place and no other entry changes; the result shows the balance for the address |
| Refresh.UpsertKeepsDistinct | app.js:351-366 | an upsert keeps the working set's addresses distinct |
| Refresh.ScanKeepsEntries | app.js:331-388 | the checks never remove or re-key an entry; they add at most one entry per check, and shown balances stay non-zero and addresses distinct |
| Refresh.LastFoundBalanceShown | app.js:349-366 | the last non-zero result for an address is what the working set shows for that address |
| Refresh.ScanOnFailingCache | app.js:349 | when reading the cache throws, the checks leave it untouched |
| Refresh.ScanKeepsCacheHealthy | app.js:349 | saves keep a readable cache readable |
| Refresh.ScanFrame | app.js:349 | pairs that no check saved keep their balance and due-ness |
| Refresh.LastSaveWins | app.js:348-349 | the last saved result for a key is what the cache holds, and the pair's clock restarts from that save, `'0'` included |
| Refresh.AxiosAttempt | app.js:342-348 | a rejected request is saved as `'0'`; a `null` body throws before saving; otherwise `data.value` is saved |
| Refresh.FailedRequestRecordsZero | app.js:342-351 | a failed request is saved as `'0'` and adds nothing to the working set |
| Scan.ListForScan | app.js:269-272 | a non-empty array is scanned as it is; offline the list is kept as it is; online an empty or non-array list is replaced by the list just fetched, so the scanned list is always an array |
| Scan.LoadTokenList | app.js:185-216 | offline: returns `[]` and keeps the list; online: stores and returns `ListFromReply` |
| Scan.CollectCached | app.js:293-317 | the loop computes `CachedPass` |
| Scan.CheckTokens | app.js:331-388 | the loop leaves the working set `ScanHoldings`, the cache `ScanStore`; n checks take n-1 pauses (none for no check) |
| Scan.ExpectedScan | app.js:263-414 | online the scan always finishes; a `null` list ends in the error path with the cache unchanged; offline the cache is unchanged and the result is the cached pass; shown balances are non-zero |
| Scan.ScanShowsDistinctAddresses | app.js:263-414 | if the scanned list has distinct addresses, so has the final working set |
| Scan.ScanBalances | app.js:268-389 | the scan body leaves exactly `ExpectedScan` |
| App.AppController.constructor | app.js:83-88 | a fresh state, the online flag and no templates |
| App.AppController.LoadTemplates | app.js:111-115 | the loop leaves the table `Registered` |
| App.AppController.Render | app.js:117-128 | renders from the controller's own templates, as `Rendered` |
| App.AppController.HandleOnlineStatus | app.js:179-183 | sets the online flag |
| App.AppController.FetchTokenList | app.js:185-216 | as `Scan.LoadTokenList`, with the controller's online flag |
| App.AppController.FetchBalance | app.js:218-261 | uses the cache exactly when a truthy cached balance is not due (a `null` list then leaves `Loading...`); offline shows the cached value or `Offline`; otherwise saves and shows `data.value`, or shows an error with nothing saved (a `null` body throws before the save); the list is coerced exactly when the cached or fetched branch reaches it |
| App.AppController.FetchTokenBalances | app.js:263-414 | `ExpectedScan` with app.js's handling of replies |
| WalletApp.WalletChecksAlwaysSave | js/app-controller.js:372-373 | every check saves; without a connected wallet it saves `'0'` |
| WalletApp.WalletAppController.constructor | js/app-controller.js:5-21 | a fresh state, the wallet service, the online flag and no templates |
| WalletApp.WalletAppController.LoadTemplates | js/app-controller.js:55-59 | the loop leaves the table `Registered` |
| WalletApp.WalletAppController.Render | js/app-controller.js:90-101 | renders from the controller's own templates, as `Rendered` |
| WalletApp.WalletAppController.FetchTokenList | js/app-controller.js:246-286 | as `Scan.LoadTokenList` |
| WalletApp.WalletAppController.CheckBalance | js/app-controller.js:208-239 | an empty contract asks for one; with no connected wallet it asks to connect; otherwise it shows exactly what `getBalance` returns for the connected address (always truthy) and the symbol fallback |
| WalletApp.WalletAppController.FetchTokenBalances | js/app-controller.js:288-439 | an empty wallet returns without touching list or cache; otherwise `ExpectedScan` with balances from the wallet service |
| Wallet.GetStoredWallet | js/wallet-service.js:78-85 | `null` when nothing is stored or the text does not parse |
| Wallet.StoredFor | js/wallet-service.js:69-75 | what is stored reads back as the address |
| Wallet.ConnectOutcome | js/wallet-service.js:12-33 | with no extension it fails; with no account list, or an empty one, it fails; otherwise it succeeds iff the first account is not `null`, giving that account's address |
| Wallet.GetBalance | js/wallet-service.js:36-55 | never throws; always truthy; anything but `'0'` only from a connected wallet's parsed body with that truthy `value` |
| Wallet.FormatAddress | js/wallet-service.js:97-100 | `''` for a missing or empty address; else the first 6 characters, `...`, and the last 4 (clamped to the address) |
| Wallet.WalletService.constructor | js/wallet-service.js:5-9 | the address is the stored one, so the stored item and the address agree |
| Wallet.WalletService.Connect | js/wallet-service.js:12-33 | success sets and stores the first account's address; any failure disconnects; the stored item always reads back as the address |
| Wallet.WalletService.IsConnected | js/wallet-service.js:64-66 | connected exactly when the header has a shortened address to show |
| Wallet.WalletService.Disconnect | js/wallet-service.js:58-61 | the address is cleared, the stored item removed, and the service is not connected |
| Kondor.Start | js/kondor-init.js:12-21 | ready at once, without polling, when the extension is present; otherwise polling starts |
| Kondor.TickStep | js/kondor-init.js:22-37 | a tick adds one attempt; on detection it is ready and stops; it also stops at 10 attempts |
| Kondor.Run | js/kondor-init.js:21-38 | reachable states stay reachable: at most 10 attempts, and never both ready and polling |
| Kondor.StoppedStaysStopped | js/kondor-init.js:27-32 | once stopped nothing changes, so readiness is never reset |
| Kondor.RunWhilePolling | js/kondor-init.js:22-37 | from polling, the run ends ready iff a detection falls within the remaining attempts, and is still polling iff there was neither a detection nor a last attempt |
| Kondor.DetectionOutcome | js/kondor-init.js:12-38 | ready iff detected at start or within the first 10 ticks; gives up iff all 10 ticks miss |
| Kondor.Notified | js/kondor-init.js:52-59 | one call per listener, in order, with the status, including throwing listeners |
| Kondor.KondorInitializer.constructor | js/kondor-init.js:4-10 | not ready, no attempts, no timer, no listeners |
| Kondor.KondorInitializer.Initialize | js/kondor-init.js:12-39 | moves to `Start`; on immediate detection notifies `true` and resolves `true` |
| Kondor.KondorInitializer.Tick | js/kondor-init.js:22-37 | moves by `TickStep`; when it stops, notifies the outcome once and resolves with it |
| Kondor.KondorInitializer.OnStatusChange | js/kondor-init.js:41-50 | ignores non-functions; appends a function and, once detection is decided, calls it at once with the status; its exception propagates |
| Kondor.KondorInitializer.NotifyListeners | js/kondor-init.js:52-60 | the loop makes exactly the calls of `Notified` |

## Left out

- DOM work is not modelled: element text, loaders, messages, tab switching, install prompts and animations. Each operation returns what it would display as a value instead.
- Network requests, the extension API, the clock and the timers are parameters.
  - `fetch`/`axios` replies are a reply or a failure; `kondor.getAccounts` is an account list, a non-array or a rejection.
  - `Date.now()` is a parameter.
  - The 100 ms pause is counted, not waited.
- JSON numbers are integers. Floating point, and the string form of non-integral numbers, are not modelled.
- Object and array identity is structural: `===` between two object or array addresses compares their contents here, and JavaScript compares references.
- A JSON object may hold a key twice here, and a property read takes the first; `JSON.parse` keeps the last. Only duplicate-free objects match the source.
- Wallet.FormatAddress: lengths count Unicode scalar values, while JavaScript counts UTF-16 code units; an address outside the Basic Multilingual Plane is cut differently.
- Keys such as `__proto__` and inherited `Object.prototype` properties are not modelled.
- Templates.Render: keys are limited to identifier-like names, so the key is literal inside the regular expression, and `$` replacement patterns inside substituted values are not modelled.
- Refresh.TokensToCheck: every due-ness test of one filter uses one time `now`, while the source reads the clock once per token.
- Scan.CheckTokens: the saves of the scan and of `fetchBalance` assume the storage writes succeed. Write failures are modelled on `AppState.SaveTokenBalance` alone.
- A cache item that parses to JSON other than an object or `null` (a number, a string, an array) is not modelled.
- A stored wallet that parses to something other than a string or `null` is not modelled, nor is an account address that is not a string. A `null` address and a missing one are both `None`.
- Wallet.WalletService.Connect: a `localStorage.setItem` failure in `storeWallet` is caught and discarded in the source, leaving the stored item behind the address; such a write failure is not modelled, so the stored item always reads back as the address.
- Kondor.TickStep: detection is present or absent. A `null` `window.kondor` makes the detection test throw, and that is not modelled. In the source each tick then throws after counting its attempt and before the give-up test, so the timer runs past 10 attempts, no listener is called and the promise never settles. The model's bound of 10 attempts does not hold for that input.
- Kondor.KondorInitializer.Initialize: it is only modelled as called once, on a fresh initializer, as the script does on load.
- Overlapping or re-entrant runs of the asynchronous methods (several scans at once) are not modelled; each method runs to completion.
- The `trim()` of the input fields is taken as done by the caller.
- `getMana`/`updateManaDisplay` and ui-controller's number formatting are not modelled: they are display code.
- The service workers, the crypto polyfill and the bootstrap in js/app.js are not modelled: they are browser plumbing.
- WalletApp.WalletAppController: in the source this controller keeps `tokenListData`, `currentWallet` and the cache methods as its own fields. The model gives it an `AppState` holding the same fields.
