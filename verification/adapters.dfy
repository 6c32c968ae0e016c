/**
 The decision logic of the seven balance adapters (bot.py:144-279), with the network taken out.

 An adapter is a pure function from the provider's answers to a `Run`: the requests it issues
 and the outcome it reports. Amounts stay in the provider's integer minor units (satoshi,
 wei, sun, USDT micro-units); the division the reply text applies is not modelled. Whatever
 the Python code would raise -- `requests.get` failing, `.json()` failing, `data['status']`
 on a missing key, `int()` on a non-number -- is the single outcome `Raised`, which the
 dispatcher turns into its generic error reply (bot.py:137-142).
 */
module Adapters {
  import opened Wrappers

  /** What `requests.get` yields: a response whose `.json()` either parses (Some) or raises
      (None), or an exception before any response. */
  datatype Http<T> = Response(statusCode: int, json: Option<T>) | TransportError

  /** `API_KEYS` (bot.py:37-41); an unset variable is the empty string. */
  datatype ApiKeys = ApiKeys(etherscan: string, blockcypher: string, trongrid: string)

  /** USDT contract on TRON (bot.py:221). */
  const Trc20UsdtContract := "TR7NHqjeKQxGTCi8q8ZY4pL8otSzgjLj6t"
  /** USDT contract on Ethereum (bot.py:251). */
  const Erc20UsdtContract := "0xdac17f958d2ee523a2206206994597c13d831ec7"
  /** The Etherscan payload status meaning success. */
  const EtherscanOk := "1"

  /** The network segment of a Blockcypher URL: btc, ltc or doge. */
  datatype UtxoChain = Btc | Ltc | Doge

  /** The requests the adapters issue, with what they interpolate into the URL or headers. */
  datatype Request =
    | BlockcypherAddress(chain: UtxoChain, address: string)
    | EtherscanBalance(address: string, apiKey: string)
    | EtherscanTxList(address: string, apiKey: string)
    | EtherscanTokenBalance(contract: string, address: string, apiKey: string)
    | TrongridAccount(address: string, apiKeyHeader: Option<string>)
    | TrongridTokens(address: string, contract: string, apiKeyHeader: Option<string>)

  /** A Blockcypher address object; None is a key the object lacks. */
  datatype AddressInfo = AddressInfo(balance: Option<int>, totalReceived: Option<int>,
                                     totalSent: Option<int>, nTx: Option<int>)

  /** An Etherscan `balance` or `tokenbalance` reply; `result` is None when it is absent or not
      an integer string. */
  datatype EtherscanReply = EtherscanReply(status: Option<string>, message: Option<string>, result: Option<int>)

  /** One entry of an Etherscan `txlist` result; only the number of entries matters. */
  datatype Transaction = Transaction(hash: string)

  datatype TxListReply = TxListReply(status: Option<string>, result: Option<seq<Transaction>>)

  datatype TronAccount = TronAccount(balance: Option<int>)

  /** A TronGrid reply; `success` is the truth value of `data.get('success', False)` and `data`
      the list under `data` (empty when absent). */
  datatype AccountsReply = AccountsReply(success: bool, data: seq<TronAccount>)

  datatype Token = Token(tokenId: Option<string>, balance: Option<int>)

  datatype TokensReply = TokensReply(success: bool, data: seq<Token>)

  /** What an adapter reports; the reply text is rendered from it by the dispatcher. */
  datatype Outcome =
    | UtxoReport(balance: int, totalReceived: int, totalSent: int, nTx: int)
    | EthereumReport(balance: int, txCount: nat)
    | BalanceReport(balance: int)      // TRON, USDT TRC20 and USDT ERC20
    | ErrorStatus(code: int)           // a non-200 HTTP status
    | ErrorMessage(message: string)    // an Etherscan payload whose status is not "1"
    | NoData                           // TronGrid reported no account or no tokens
    | MissingKey                       // "Etherscan API key is not set"
    | Raised                           // the adapter raised an exception

  /** The requests an adapter issued, in order, and what it reports. */
  datatype Run = Run(requests: seq<Request>, outcome: Outcome)

  /** The transport contract every adapter keeps for its first request: an error carrying the
      HTTP status is reported exactly when that status is not 200. */
  predicate ReportsHttpStatus<T>(resp: Http<T>, outcome: Outcome) {
    && (outcome.ErrorStatus? <==> resp.Response? && resp.statusCode != 200)
    && (outcome.ErrorStatus? ==> outcome.code == resp.statusCode)
  }

  /** The TronGrid API-key header, sent only when a key is configured (bot.py:201-203). */
  function TronHeader(keys: ApiKeys): (h: Option<string>)
    ensures h.None? <==> keys.trongrid == ""
    ensures h.Some? ==> h.value == keys.trongrid
  {
    if keys.trongrid == "" then None else Some(keys.trongrid)
  }

  // ---------------------------------------------------------------------------
  // Bitcoin, Litecoin and Dogecoin (bot.py:144-157, 183-196, 266-279).

  /** `check_bitcoin`, `check_litecoin` and `check_dogecoin`, which differ only in the chain. */
  function CheckUtxo(chain: UtxoChain, address: string, resp: Http<AddressInfo>): (r: Run)
    ensures r.requests == [BlockcypherAddress(chain, address)]
    ensures ReportsHttpStatus(resp, r.outcome)
    ensures r.outcome.UtxoReport? || r.outcome.ErrorStatus? || r.outcome.Raised?
  {
    var requests := [BlockcypherAddress(chain, address)];
    match resp
    case TransportError => Run(requests, Raised)
    case Response(code, json) =>
      if code != 200 then Run(requests, ErrorStatus(code))
      else
        match json
        case None => Run(requests, Raised)
        case Some(info) =>
          Run(requests, UtxoReport(info.balance.GetOr(0), info.totalReceived.GetOr(0),
                                   info.totalSent.GetOr(0), info.nTx.GetOr(0)))
  }

  /** A 200 response with a JSON body always yields a report; each field is the payload's own
      value when present and 0 when absent. */
  lemma UtxoReportsPayload(chain: UtxoChain, address: string, info: AddressInfo)
    ensures var o := CheckUtxo(chain, address, Response(200, Some(info))).outcome;
      && o.UtxoReport?
      && (info.balance.Some? ==> o.balance == info.balance.value)
      && (info.balance.None? ==> o.balance == 0)
      && (info.totalReceived.Some? ==> o.totalReceived == info.totalReceived.value)
      && (info.totalReceived.None? ==> o.totalReceived == 0)
      && (info.totalSent.Some? ==> o.totalSent == info.totalSent.value)
      && (info.totalSent.None? ==> o.totalSent == 0)
      && (info.nTx.Some? ==> o.nTx == info.nTx.value)
      && (info.nTx.None? ==> o.nTx == 0)
  {
  }

  // ---------------------------------------------------------------------------
  // Ethereum (bot.py:159-181).

  /** The transaction count of bot.py:173-175: the length of `result` (an empty list when
      absent) if the payload status is "1", else 0; None where that code raises. The HTTP
      status of this second response is never looked at. */
  function TxCount(resp: Http<TxListReply>): (n: Option<nat>)
    ensures n.Some? <==> resp.Response? && resp.json.Some? && resp.json.value.status.Some?
  {
    match resp
    case TransportError => None
    case Response(_, json) =>
      match json
      case None => None
      case Some(tx) =>
        match tx.status
        case None => None
        case Some(st) => Some(if st == EtherscanOk then |tx.result.GetOr([])| else 0)
  }

  /** `check_ethereum`: the balance request, then (only after a status "1" payload) the
      transaction-list request. */
  function CheckEthereum(keys: ApiKeys, address: string, balanceResp: Http<EtherscanReply>,
                         txResp: Http<TxListReply>): (r: Run)
    ensures r.outcome.MissingKey? <==> keys.etherscan == ""
    ensures keys.etherscan == "" ==> r.requests == []
    ensures keys.etherscan != "" ==> 1 <= |r.requests| <= 2 && r.requests[0] == EtherscanBalance(address, keys.etherscan)
    ensures keys.etherscan != "" ==> ReportsHttpStatus(balanceResp, r.outcome)
    ensures |r.requests| == 2 ==> r.requests[1] == EtherscanTxList(address, keys.etherscan)
    ensures |r.requests| == 2 <==>
      && keys.etherscan != "" && balanceResp.Response? && balanceResp.statusCode == 200
      && balanceResp.json.Some? && balanceResp.json.value.status == Some(EtherscanOk)
      && balanceResp.json.value.result.Some?
    ensures r.outcome.EthereumReport? || r.outcome.ErrorStatus? || r.outcome.ErrorMessage?
         || r.outcome.MissingKey? || r.outcome.Raised?
  {
    if keys.etherscan == "" then Run([], MissingKey)
    else
      var first := [EtherscanBalance(address, keys.etherscan)];
      match balanceResp
      case TransportError => Run(first, Raised)
      case Response(code, json) =>
        if code != 200 then Run(first, ErrorStatus(code))
        else
          match json
          case None => Run(first, Raised)
          case Some(data) =>
            match data.status
            case None => Run(first, Raised)
            case Some(st) =>
              if st == EtherscanOk then
                match data.result
                case None => Run(first, Raised)
                case Some(wei) =>
                  var both := first + [EtherscanTxList(address, keys.etherscan)];
                  match TxCount(txResp)
                  case None => Run(both, Raised)
                  case Some(n) => Run(both, EthereumReport(wei, n))
              else
                match data.message
                case None => Run(first, Raised)
                case Some(m) => Run(first, ErrorMessage(m))
  }

  /** After a successful balance payload the balance is reported whatever the transaction list
      says, with the count of its entries when its status is "1" and 0 otherwise; only a
      transaction-list answer that raises loses the balance. */
  lemma EthereumBalanceSurvivesTxList(keys: ApiKeys, address: string, msg: Option<string>, wei: int,
                                      txResp: Http<TxListReply>)
    requires keys.etherscan != ""
    ensures var r := CheckEthereum(keys, address, Response(200, Some(EtherscanReply(Some(EtherscanOk), msg, Some(wei)))), txResp);
      && |r.requests| == 2
      && (TxCount(txResp).None? ==> r.outcome == Raised)
      && (TxCount(txResp).Some? ==> r.outcome.EthereumReport? && r.outcome.balance == wei)
      && (TxCount(txResp).Some? && TxListStatusOk(txResp) ==>
            r.outcome.txCount == |txResp.json.value.result.GetOr([])|)
      && (TxCount(txResp).Some? && !TxListStatusOk(txResp) ==> r.outcome.txCount == 0)
  {
  }

  predicate TxListStatusOk(resp: Http<TxListReply>)
    requires TxCount(resp).Some?
  {
    resp.json.value.status.value == EtherscanOk
  }

  // ---------------------------------------------------------------------------
  // TRON (bot.py:198-216).

  /** `check_tron`: the first account's balance when TronGrid reports success with a non-empty
      account list, otherwise no data. */
  function CheckTron(keys: ApiKeys, address: string, resp: Http<AccountsReply>): (r: Run)
    ensures r.requests == [TrongridAccount(address, TronHeader(keys))]
    ensures ReportsHttpStatus(resp, r.outcome)
    ensures r.outcome.BalanceReport? || r.outcome.ErrorStatus? || r.outcome.NoData? || r.outcome.Raised?
  {
    var requests := [TrongridAccount(address, TronHeader(keys))];
    match resp
    case TransportError => Run(requests, Raised)
    case Response(code, json) =>
      if code != 200 then Run(requests, ErrorStatus(code))
      else
        match json
        case None => Run(requests, Raised)
        case Some(data) =>
          if data.success && |data.data| > 0 then Run(requests, BalanceReport(data.data[0].balance.GetOr(0)))
          else Run(requests, NoData)
  }

  /** A 200 account list is "no data" exactly when TronGrid did not report success or listed
      no account; otherwise the balance is the first account's, and 0 when it has none. */
  lemma TronAccountScan(keys: ApiKeys, address: string, data: AccountsReply)
    ensures var o := CheckTron(keys, address, Response(200, Some(data))).outcome;
      && (o == NoData <==> !(data.success && |data.data| > 0))
      && (data.success && |data.data| > 0 ==> o == BalanceReport(data.data[0].balance.GetOr(0)))
  {
  }

  // ---------------------------------------------------------------------------
  // USDT on TRON (bot.py:218-243).

  /** Index of the first token whose `tokenId` is `contract`, as the loop at bot.py:234-237
      finds it before its `break`. */
  function FindToken(tokens: seq<Token>, contract: string): (r: Option<nat>)
    ensures r.Some? ==> r.value < |tokens| && tokens[r.value].tokenId == Some(contract)
    ensures r.Some? ==> forall j :: 0 <= j < r.value ==> tokens[j].tokenId != Some(contract)
    ensures r.None? ==> forall j :: 0 <= j < |tokens| ==> tokens[j].tokenId != Some(contract)
    decreases |tokens|
  {
    if |tokens| == 0 then None
    else if tokens[0].tokenId == Some(contract) then Some(0)
    else
      match FindToken(tokens[1..], contract)
      case None => None
      case Some(i) => Some(i + 1)
  }

  /** The first token carrying the contract id is the one `FindToken` returns. */
  lemma FirstTokenIsFound(tokens: seq<Token>, contract: string, i: nat)
    requires i < |tokens| && tokens[i].tokenId == Some(contract)
    requires forall j :: 0 <= j < i ==> tokens[j].tokenId != Some(contract)
    ensures FindToken(tokens, contract) == Some(i)
  {
    var k := FindToken(tokens, contract);
    assert k.Some?;
    assert k.value == i;
  }

  /** The USDT balance of bot.py:233-237: that of the first matching token, 0 when none matches. */
  function Trc20Balance(tokens: seq<Token>): (b: int)
    ensures (forall j :: 0 <= j < |tokens| ==> tokens[j].tokenId != Some(Trc20UsdtContract)) ==> b == 0
    ensures forall i ::
      (0 <= i < |tokens| && tokens[i].tokenId == Some(Trc20UsdtContract)
       && (forall j :: 0 <= j < i ==> tokens[j].tokenId != Some(Trc20UsdtContract)))
      ==> b == tokens[i].balance.GetOr(0)
  {
    FirstTokensAreFound(tokens, Trc20UsdtContract);
    match FindToken(tokens, Trc20UsdtContract)
    case None => 0
    case Some(i) => tokens[i].balance.GetOr(0)
  }

  /** `FirstTokenIsFound` for every index at once. */
  lemma FirstTokensAreFound(tokens: seq<Token>, contract: string)
    ensures forall i ::
      (0 <= i < |tokens| && tokens[i].tokenId == Some(contract)
       && (forall j :: 0 <= j < i ==> tokens[j].tokenId != Some(contract)))
      ==> FindToken(tokens, contract) == Some(i)
  {
    forall i | 0 <= i < |tokens| && tokens[i].tokenId == Some(contract)
      && (forall j :: 0 <= j < i ==> tokens[j].tokenId != Some(contract))
    {
      FirstTokenIsFound(tokens, contract, i);
    }
  }

  /** `check_tron_usdt`. */
  function CheckTronUsdt(keys: ApiKeys, address: string, resp: Http<TokensReply>): (r: Run)
    ensures r.requests == [TrongridTokens(address, Trc20UsdtContract, TronHeader(keys))]
    ensures ReportsHttpStatus(resp, r.outcome)
    ensures r.outcome.BalanceReport? || r.outcome.ErrorStatus? || r.outcome.NoData? || r.outcome.Raised?
  {
    var requests := [TrongridTokens(address, Trc20UsdtContract, TronHeader(keys))];
    match resp
    case TransportError => Run(requests, Raised)
    case Response(code, json) =>
      if code != 200 then Run(requests, ErrorStatus(code))
      else
        match json
        case None => Run(requests, Raised)
        case Some(data) =>
          if data.success && |data.data| > 0 then Run(requests, BalanceReport(Trc20Balance(data.data)))
          else Run(requests, NoData)
  }

  /** A successful, non-empty token list is always a report: the balance of the first token
      carrying the USDT contract id, and 0 -- not "no tokens" -- when no token carries it.
      An unsuccessful or empty list is "no tokens". */
  lemma Trc20TokenScan(keys: ApiKeys, address: string, data: TokensReply)
    ensures var o := CheckTronUsdt(keys, address, Response(200, Some(data))).outcome;
      && (!data.success || |data.data| == 0 <==> o == NoData)
      && (data.success && |data.data| > 0 ==> o.BalanceReport?)
      && ((data.success && forall j :: 0 <= j < |data.data| ==> data.data[j].tokenId != Some(Trc20UsdtContract))
            ==> (|data.data| > 0 <==> o == BalanceReport(0)))
      && (forall i :: 0 <= i < |data.data| && data.success
            && data.data[i].tokenId == Some(Trc20UsdtContract)
            && (forall j :: 0 <= j < i ==> data.data[j].tokenId != Some(Trc20UsdtContract))
            ==> o == BalanceReport(data.data[i].balance.GetOr(0)))
  {
  }

  // ---------------------------------------------------------------------------
  // USDT on Ethereum (bot.py:245-264).

  /** `check_ethereum_usdt`. */
  function CheckEthereumUsdt(keys: ApiKeys, address: string, resp: Http<EtherscanReply>): (r: Run)
    ensures r.outcome.MissingKey? <==> keys.etherscan == ""
    ensures keys.etherscan == "" ==> r.requests == []
    ensures keys.etherscan != "" ==> r.requests == [EtherscanTokenBalance(Erc20UsdtContract, address, keys.etherscan)]
    ensures keys.etherscan != "" ==> ReportsHttpStatus(resp, r.outcome)
    ensures r.outcome.BalanceReport? || r.outcome.ErrorStatus? || r.outcome.ErrorMessage?
         || r.outcome.MissingKey? || r.outcome.Raised?
  {
    if keys.etherscan == "" then Run([], MissingKey)
    else
      var requests := [EtherscanTokenBalance(Erc20UsdtContract, address, keys.etherscan)];
      match resp
      case TransportError => Run(requests, Raised)
      case Response(code, json) =>
        if code != 200 then Run(requests, ErrorStatus(code))
        else
          match json
          case None => Run(requests, Raised)
          case Some(data) =>
            match data.status
            case None => Run(requests, Raised)
            case Some(st) =>
              if st == EtherscanOk then
                match data.result
                case None => Run(requests, Raised)
                case Some(units) => Run(requests, BalanceReport(units))
              else
                match data.message
                case None => Run(requests, Raised)
                case Some(m) => Run(requests, ErrorMessage(m))
  }

  /** For both Etherscan adapters, a 200 response whose payload status is not "1" is reported
      with the payload's message -- an error distinct from the HTTP-status error -- and a
      payload status of "1" is never an error. */
  lemma EtherscanPayloadStatus(keys: ApiKeys, address: string, data: EtherscanReply, txResp: Http<TxListReply>)
    requires keys.etherscan != ""
    requires data.status.Some?
    ensures var eth := CheckEthereum(keys, address, Response(200, Some(data)), txResp).outcome;
      var usdt := CheckEthereumUsdt(keys, address, Response(200, Some(data))).outcome;
      && !eth.ErrorStatus? && !usdt.ErrorStatus?
      && (data.status.value != EtherscanOk && data.message.Some? ==>
            eth == ErrorMessage(data.message.value) && usdt == ErrorMessage(data.message.value))
      && (data.status.value == EtherscanOk ==> !eth.ErrorMessage? && !usdt.ErrorMessage?)
      && (data.status.value == EtherscanOk && data.result.Some? ==> usdt == BalanceReport(data.result.value))
  {
  }
}
