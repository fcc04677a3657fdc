/** The wallet connection (`WalletService` in js/wallet-service.js): the connected address,
    its copy in localStorage, the balance query with its `'0'` fallbacks, and the
    shortened address shown in the page. The extension and the HTTP API are oracles. */
module Wallet {
  import opened Wrappers
  import opened Json

  /** The stored wallet item as `getStoredWallet` reads it: nothing stored, the JSON text
      of an address (`StoredAddress(None)` is the text `null`), or text that `JSON.parse`
      rejects, such as the `undefined` that storing a missing address writes. */
  datatype StoredWallet = NothingStored | StoredAddress(address: Option<string>) | StoredGarbage

  /** `getStoredWallet`: the stored address, or `None` (`null`) when nothing is stored or
      the stored text does not parse. */
  function GetStoredWallet(item: StoredWallet): (r: Option<string>)
    ensures item.NothingStored? || item.StoredGarbage? ==> r.None?
  {
    match item
    case NothingStored => None
    case StoredAddress(a) => a
    case StoredGarbage => None
  }

  /** What `storeWallet(address)` leaves in localStorage: `JSON.stringify` of a string, or
      the text `undefined` for a missing address. */
  function StoredFor(address: Option<string>): (r: StoredWallet)
    ensures GetStoredWallet(r) == address
  {
    if address.Some? then StoredAddress(address) else StoredGarbage
  }

  /** One entry of the extension's account list; `NullAccount` has no properties to read. */
  datatype Account = NullAccount | Account(address: Option<string>)

  /** The result of `kondor.getAccounts()`: it rejected, it gave something that is not an
      array, or it gave a list of accounts. */
  datatype AccountsReply = AccountsRejected | NotAnArray | AccountList(accounts: seq<Account>)

  datatype ConnectError = ExtensionNotDetected | NoAccounts | AccountsUnavailable

  /** What `connect` resolves to, or the error it throws. */
  datatype ConnectResult = Connected(address: Option<string>) | ConnectFailed(error: ConnectError)

  /** The outcome of `connect` for a given extension and account list. */
  function ConnectOutcome(kondorPresent: bool, reply: AccountsReply): (r: ConnectResult)
    ensures !kondorPresent ==> r == ConnectFailed(ExtensionNotDetected)
    ensures kondorPresent && (reply.NotAnArray? || reply == AccountList([])) ==> r == ConnectFailed(NoAccounts)
    ensures r.Connected? <==>
      kondorPresent && reply.AccountList? && |reply.accounts| > 0 && reply.accounts[0].Account?
    ensures r.Connected? ==> r.address == reply.accounts[0].address
  {
    if !kondorPresent then ConnectFailed(ExtensionNotDetected)
    else match reply
      case AccountsRejected => ConnectFailed(AccountsUnavailable)
      case NotAnArray => ConnectFailed(NoAccounts)
      case AccountList(accounts) =>
        if |accounts| == 0 then ConnectFailed(NoAccounts)
        else if accounts[0].NullAccount? then ConnectFailed(AccountsUnavailable)  // reading `.address` of it throws
        else Connected(accounts[0].address)
  }

  /** The balance request as `getBalance` sees it: the request rejected, the status was not
      ok, the body did not parse, or the parsed body. */
  datatype BalanceReply = BalanceRequestFailed | BalanceNotOk | BalanceUnparsable | BalanceBody(data: Json)

  /** `!!walletAddress`. */
  predicate Connects(walletAddress: Option<string>) {
    walletAddress.Some? && walletAddress.value != ""
  }

  /** `getBalance`: never throws; the body's `value` when a wallet is connected, the
      request succeeded and the value is truthy, otherwise `'0'`. */
  function GetBalance(walletAddress: Option<string>, reply: BalanceReply): (r: Json)
    ensures Truthy(r)
    ensures r != Str("0") ==>
      Connects(walletAddress) && reply.BalanceBody? && reply.data != Null && Get(reply.data, "value") == Some(r)
    ensures !Connects(walletAddress) || !reply.BalanceBody? || reply.data == Null ==> r == Str("0")
    ensures Connects(walletAddress) && reply.BalanceBody? && reply.data != Null ==>
      (var v := Get(reply.data, "value"); r == if v.Some? && Truthy(v.value) then v.value else Str("0"))
  {
    if !Connects(walletAddress) then Str("0")
    else match reply
      case BalanceBody(data) =>
        if data == Null then Str("0")  // `null.value` throws; the catch returns '0'
        else
          var v := Get(data, "value");
          if v.Some? && Truthy(v.value) then v.value else Str("0")
      case _ => Str("0")
  }

  function Min(a: int, b: int): int {
    if a < b then a else b
  }

  /** `formatAddress`: `''` for a missing or empty address, otherwise the first six
      characters, `...`, and the last four (`substring` and `slice(-4)` clamp to the
      string, so a short address appears whole on both sides). */
  function FormatAddress(address: Option<string>): (r: string)
    ensures !Connects(address) ==> r == ""
    ensures Connects(address) ==>
      var a := address.value;
      var head, tail := Min(6, |a|), Min(4, |a|);
      |r| == head + 3 + tail && r[..head] == a[..head] && r[head..head + 3] == "..." && r[head + 3..] == a[|a| - tail..]
  {
    if !Connects(address) then ""
    else
      var a := address.value;
      a[..Min(6, |a|)] + "..." + a[|a| - Min(4, |a|)..]
  }

  class WalletService {
    /** Whether `window.kondor` was present when the service was created. */
    const kondorPresent: bool
    var walletAddress: Option<string>
    /** The wallet item of localStorage. */
    var storedWallet: StoredWallet

    /** The stored item always reads back as the current address, so a reload restores
        the connection exactly. */
    ghost predicate Valid()
      reads this
    {
      GetStoredWallet(storedWallet) == walletAddress
    }

    constructor(kondor: bool, stored: StoredWallet)
      ensures Valid()
      ensures kondorPresent == kondor && storedWallet == stored && walletAddress == GetStoredWallet(stored)
    {
      kondorPresent := kondor;
      storedWallet := stored;
      walletAddress := GetStoredWallet(stored);
    }

    /** `isConnected`: a wallet is connected exactly when the header has an address to show. */
    function IsConnected(): (connected: bool)
      reads this
      ensures connected <==> FormatAddress(walletAddress) != ""
    {
      Connects(walletAddress)
    }

    /** `connect`: on success the first account's address becomes the wallet and is
        stored; on any failure the service is disconnected and the error is raised. */
    method Connect(reply: AccountsReply) returns (r: ConnectResult)
      modifies this
      ensures Valid()
      ensures r == ConnectOutcome(kondorPresent, reply)
      ensures walletAddress == if r.Connected? then r.address else None
      ensures storedWallet == if r.Connected? then StoredFor(r.address) else NothingStored
    {
      r := ConnectOutcome(kondorPresent, reply);
      if r.Connected? {
        walletAddress := r.address;
        storedWallet := StoredFor(walletAddress);
      } else {
        Disconnect();
      }
    }

    /** `disconnect`: forget the address and remove the stored item. */
    method Disconnect()
      modifies this
      ensures Valid() && !IsConnected()
      ensures walletAddress == None && storedWallet == NothingStored
    {
      walletAddress := None;
      storedWallet := NothingStored;
    }
  }
}
