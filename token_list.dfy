/** Token-list normalisation and lookup (the body of `fetchTokenList`, `findTokenInfo` and
    the symbol fallback shared by app.js and js/app-controller.js). */
module TokenList {
  import opened Wrappers
  import opened Json

  /** The address of the chain's native token, shown as `KOIN` when the list lacks it. */
  const KOIN_ADDRESS := "15DJN4a8SgrbGhhGksSBASiSYjGnMU8dGL"

  /** The token-list request as the app sees it: it failed (network error, non-ok status,
      or a body that is not JSON; all of them throw into the same `catch`), or it gave a
      parsed body. */
  datatype ListReply = ListFailed | ListBody(data: Json)

  /** The filter `typeof item === 'object' && item.address && item.symbol` for an item
      that is not `null`. */
  predicate IsDescriptor(item: Json) {
    item.Obj?
    && var address, symbol := Get(item, "address"), Get(item, "symbol");
    address.Some? && Truthy(address.value) && symbol.Some? && Truthy(symbol.value)
  }

  /** `values.filter(...)` over values none of which is `null`. */
  function Descriptors(values: seq<Json>): (r: seq<Json>)
    ensures |r| <= |values|
    ensures forall x :: x in r <==> x in values && IsDescriptor(x)
  {
    if values == [] then []
    else
      var last := values[|values| - 1];
      assert values == values[..|values| - 1] + [last];
      Descriptors(values[..|values| - 1]) + (if IsDescriptor(last) then [last] else [])
  }

  /** The filter keeps list order: it distributes over concatenation. */
  lemma {:induction false} DescriptorsKeepOrder(a: seq<Json>, b: seq<Json>)
    ensures Descriptors(a + b) == Descriptors(a) + Descriptors(b)
    decreases |b|
  {
    if b != [] {
      var last := b[|b| - 1];
      assert (a + b)[..|a + b| - 1] == a + b[..|b| - 1];
      DescriptorsKeepOrder(a, b[..|b| - 1]);
    } else {
      assert a + b == a;
    }
  }

  /** The token list `fetchTokenList` derives from a parsed body, or `None` when the
      filter throws (reading `.address` of a `null` value); the caller then resets the
      list to `[]`. */
  function NormaliseTokenList(data: Json): (r: Option<seq<Json>>)
    ensures data.Arr? ==> r == Some(data.items)
    ensures data.Obj? && Get(data, "tokens").Some? && Get(data, "tokens").value.Arr? ==> r == Some(Get(data, "tokens").value.items)
    ensures !Truthy(data) || !IsObjectType(data) ==> r == Some([])
    ensures r.None? <==> data.Obj? && !(Get(data, "tokens").Some? && Get(data, "tokens").value.Arr?) && Null in Values(data.entries)
    ensures r.Some? && data.Obj? && !(Get(data, "tokens").Some? && Get(data, "tokens").value.Arr?) ==>
      forall x :: x in r.value <==> x in Values(data.entries) && IsDescriptor(x)
    ensures r.Some? && data.Obj? && !(Get(data, "tokens").Some? && Get(data, "tokens").value.Arr?) ==>
      r.value == Descriptors(Values(data.entries))
  {
    if !Truthy(data) || !IsObjectType(data) then Some([])
    else if data.Arr? then Some(data.items)
    else
      var tokens := Get(data, "tokens");
      if tokens.Some? && tokens.value.Arr? then Some(tokens.value.items)
      else if Null in Values(data.entries) then None
      else Some(Descriptors(Values(data.entries)))
  }

  /** A normalised list is stable: fed back as a bare array it normalises to itself. */
  lemma NormaliseIsStable(data: Json)
    requires NormaliseTokenList(data).Some?
    ensures NormaliseTokenList(Arr(NormaliseTokenList(data).value)) == NormaliseTokenList(data)
  {
  }

  /** The list `fetchTokenList` stores after an online request: the normalised list, or
      `[]` when the request failed or the filter threw. */
  function ListFromReply(reply: ListReply): (r: seq<Json>)
    ensures reply.ListFailed? ==> r == []
    ensures reply.ListBody? ==> r == match NormaliseTokenList(reply.data) case Some(xs) => xs case None => []
  {
    match reply
    case ListFailed => []
    case ListBody(data) =>
      match NormaliseTokenList(data)
      case Some(xs) => xs
      case None => []
  }

  /** The `find` predicate `token && token.address === contractAddress`. */
  predicate Matches(token: Json, contractAddress: string) {
    Truthy(token) && Get(token, "address") == Some(Str(contractAddress))
  }

  /** `items.find(...)`: the first matching token, or `None` (`undefined`). */
  function FindToken(items: seq<Json>, contractAddress: string): (r: Option<Json>)
    ensures r.Some? ==>
      exists i :: 0 <= i < |items| && items[i] == r.value && Matches(items[i], contractAddress)
        && forall j :: 0 <= j < i ==> !Matches(items[j], contractAddress)
    ensures r.None? <==> forall i :: 0 <= i < |items| ==> !Matches(items[i], contractAddress)
  {
    if items == [] then None
    else if Matches(items[0], contractAddress) then Some(items[0])
    else
      var r := FindToken(items[1..], contractAddress);
      assert forall i :: 1 <= i < |items| ==> items[i] == items[1..][i - 1];
      r
  }

  /** What `findTokenInfo` returns: `null` for a list that is not an array, `undefined`
      when no token matches, or the token. */
  datatype TokenInfo = NullInfo | Undefined | Found(token: Json)

  function FindTokenInfo(tokenListData: Json, contractAddress: string): (r: TokenInfo)
    ensures !tokenListData.Arr? <==> r == NullInfo
    ensures r.Found? ==> Matches(r.token, contractAddress) && r.token in tokenListData.items
    ensures r.Found? ==>
      exists i :: 0 <= i < |tokenListData.items| && tokenListData.items[i] == r.token
        && forall j :: 0 <= j < i ==> !Matches(tokenListData.items[j], contractAddress)
    ensures r == Undefined ==> forall t :: t in tokenListData.items ==> !Matches(t, contractAddress)
  {
    if !tokenListData.Arr? then NullInfo
    else
      match FindToken(tokenListData.items, contractAddress)
      case Some(t) => Found(t)
      case None => Undefined
  }

  /** `tokenInfo ? tokenInfo.symbol : (address === KOIN ? 'KOIN' : 'tokens')`. */
  function SymbolOf(info: TokenInfo, contractAddress: string): (r: Option<Json>)
    requires info.Found? ==> Truthy(info.token)
    ensures info.Found? ==> r == Get(info.token, "symbol")
    ensures !info.Found? ==> r.Some? && r.value.Str? && Truthy(r.value)
    ensures !info.Found? ==> (r == Some(Str("KOIN")) <==> contractAddress == KOIN_ADDRESS)
  {
    if info.Found? then Get(info.token, "symbol")
    else if contractAddress == KOIN_ADDRESS then Some(Str("KOIN"))
    else Some(Str("tokens"))
  }

  /** The symbol shown beside a balance: the list's symbol when the token is listed, else
      `KOIN` for the native token's address, else `tokens`. */
  lemma DisplayedSymbol(tokenListData: Json, contractAddress: string)
    ensures var info := FindTokenInfo(tokenListData, contractAddress);
      var symbol := SymbolOf(info, contractAddress);
      && (info.Found? ==> exists t :: t in tokenListData.items && Matches(t, contractAddress) && symbol == Get(t, "symbol"))
      && (!info.Found? && contractAddress == KOIN_ADDRESS ==> symbol == Some(Str("KOIN")))
      && (!info.Found? && contractAddress != KOIN_ADDRESS ==> symbol == Some(Str("tokens")))
      && (!info.Found? ==> forall t :: tokenListData.Arr? && t in tokenListData.items ==> !Matches(t, contractAddress))
  {
  }
}
