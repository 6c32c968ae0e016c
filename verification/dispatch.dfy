/**
 Message routing and address dispatch of `CryptoCheckerBot` (bot.py:79-142, 281-288).

 Sending a message becomes a `Reply` value; localized catalogue text is represented by its
 message key and arguments (`Checking`, `InvalidAddress`, ...), while the adapters' own
 English text is represented by the adapter's outcome (`AdapterText`).
 */
module Dispatch {
  import opened Wrappers
  import opened Classifier
  import opened Preferences
  import opened Adapters

  type RoomId = string

  /** The handlers `crypto_apis` maps coins to (bot.py:48-56). */
  datatype Handler =
    | UtxoHandler(chain: UtxoChain)   // check_bitcoin, check_litecoin, check_dogecoin
    | EthereumHandler                 // check_ethereum
    | TronHandler                     // check_tron
    | TronUsdtHandler                 // check_tron_usdt
    | EthereumUsdtHandler             // check_ethereum_usdt

  /** `crypto_apis`. */
  const CryptoApis: map<Coin, Handler> := map[
    Bitcoin := UtxoHandler(Btc),
    Ethereum := EthereumHandler,
    Litecoin := UtxoHandler(Ltc),
    Tron := TronHandler,
    UsdtTrc20 := TronUsdtHandler,
    UsdtErc20 := EthereumUsdtHandler,
    Dogecoin := UtxoHandler(Doge)
  ]

  /** What the providers answer for the address being checked, one answer per kind of request. */
  datatype Network = Network(
    blockcypher: Http<AddressInfo>,
    etherscanBalance: Http<EtherscanReply>,
    etherscanTxList: Http<TxListReply>,
    etherscanTokenBalance: Http<EtherscanReply>,
    trongridAccount: Http<AccountsReply>,
    trongridTokens: Http<TokensReply>)

  /** Calls the handler on the address, answering its requests from `net`. */
  function RunHandler(h: Handler, keys: ApiKeys, address: string, net: Network): Run {
    match h
    case UtxoHandler(chain) => CheckUtxo(chain, address, net.blockcypher)
    case EthereumHandler => CheckEthereum(keys, address, net.etherscanBalance, net.etherscanTxList)
    case TronHandler => CheckTron(keys, address, net.trongridAccount)
    case TronUsdtHandler => CheckTronUsdt(keys, address, net.trongridTokens)
    case EthereumUsdtHandler => CheckEthereumUsdt(keys, address, net.etherscanTokenBalance)
  }

  /** The content of one sent message. */
  datatype Content =
    | LanguageChanged(lang: Lang)                              // messages.language_changed
    | InvalidAddress(lang: Lang)                               // messages.invalid_address
    | Checking(address: string, coin: Coin, lang: Lang)        // messages.checking, crypto.<coin>
    | AdapterText(coin: Coin, address: string, outcome: Outcome)  // the adapter's returned text
    | UnsupportedCrypto(lang: Lang)                            // messages.unsupported_crypto
    | GenericError(lang: Lang)                                 // messages.error

  datatype Reply = Reply(room: RoomId, content: Content)

  /** `check_address`: the "checking" notice, then the handler's text, or the generic error
      when the handler raised. */
  function CheckAddress(keys: ApiKeys, store: Store, room: RoomId, address: string, coin: Coin,
                        sender: UserId, net: Network): (replies: seq<Reply>)
    ensures coin in CryptoApis
    ensures |replies| == 2
    ensures replies[0] == Reply(room, Checking(address, coin, GetUserLanguage(store, sender)))
    ensures replies[1].room == room
    ensures !replies[1].content.UnsupportedCrypto?
    ensures replies[1].content.GenericError? <==> RunHandler(CryptoApis[coin], keys, address, net).outcome.Raised?
    ensures replies[1].content.GenericError? ==> replies[1].content.lang == GetUserLanguage(store, sender)
    ensures replies[1].content.AdapterText? ==>
      replies[1].content == AdapterText(coin, address, RunHandler(CryptoApis[coin], keys, address, net).outcome)
  {
    EveryCoinHasHandler();
    var lang := GetUserLanguage(store, sender);
    var notice := Reply(room, Checking(address, coin, lang));
    if coin in CryptoApis then
      var run := RunHandler(CryptoApis[coin], keys, address, net);
      if run.outcome.Raised? then [notice, Reply(room, GenericError(lang))]
      else [notice, Reply(room, AdapterText(coin, address, run.outcome))]
    else
      [notice, Reply(room, UnsupportedCrypto(lang))]
  }

  // ---------------------------------------------------------------------------
  // Language commands.

  function LowerChar(c: char): char {
    if 'A' <= c <= 'Z' then (c as int + 32) as char else c
  }

  /** `str.lower()` on ASCII letters; every other character is kept. */
  function Lower(s: string): (r: string)
    ensures |r| == |s|
    ensures forall i :: 0 <= i < |s| && !('A' <= s[i] <= 'Z') ==> r[i] == s[i]
    ensures forall i :: 0 <= i < |s| && 'A' <= s[i] <= 'Z' ==> r[i] as int == s[i] as int + 32
    ensures forall i :: 0 <= i < |r| ==> !('A' <= r[i] <= 'Z')
  {
    seq(|s|, i requires 0 <= i < |s| => LowerChar(s[i]))
  }

  /** Lower-casing twice is lower-casing once. */
  lemma LowerIdempotent(s: string)
    ensures Lower(Lower(s)) == Lower(s)
  {
  }

  /** The language a message selects when its lower-case form is `/ru` or `/en` (bot.py:94-95). */
  function LanguageCommand(message: string): (r: Option<Lang>)
    ensures r.Some? ==> Lower(message) == "/" + Code(r.value)
    ensures r.None? ==> forall l: Lang :: Lower(message) != "/" + Code(l)
  {
    var m := Lower(message);
    if m == "/ru" then Some(Ru)
    else if m == "/en" then Some(En)
    else None
  }

  /** A message is a language command exactly when it is a slash and the two letters of that
      language's code, in any letter case, and nothing else. */
  lemma CommandIsCaseInsensitive(message: string, l: Lang)
    ensures LanguageCommand(message) == Some(l) <==>
      |message| == 3 && message[0] == '/' && LowerChar(message[1]) == Code(l)[0]
      && LowerChar(message[2]) == Code(l)[1]
  {
    var m := Lower(message);
    if |message| == 3 {
      assert m == [LowerChar(message[0]), LowerChar(message[1]), LowerChar(message[2])];
    }
  }

  // ---------------------------------------------------------------------------
  // The bot and its message handler.

  datatype MsgType = Text | NonText

  /** A room message event: its `msgtype`, `body`, room and sender. */
  datatype Event = Event(msgtype: MsgType, body: string, room: RoomId, sender: UserId)

  /** The bot's state: its own user id as the client knows it (None when the client was not
      told one), the API keys, and `user_languages`. */
  datatype Bot = Bot(mxid: Option<UserId>, keys: ApiKeys, userLanguages: Store)

  /** The bot after a message, and what it sent. */
  datatype Step = Step(bot: Bot, replies: seq<Reply>)

  /** `handle_message`: non-text and the bot's own messages are ignored; then a language
      command; then an address; otherwise the invalid-address reply. */
  function HandleMessage(bot: Bot, ev: Event, net: Network): (r: Step)
    ensures r.bot.mxid == bot.mxid && r.bot.keys == bot.keys
    ensures |r.replies| <= 2
    ensures forall i :: 0 <= i < |r.replies| ==> r.replies[i].room == ev.room
  {
    if ev.msgtype != Text then Step(bot, [])
    else if Some(ev.sender) == bot.mxid then Step(bot, [])
    else
      match LanguageCommand(ev.body)
      case Some(lang) =>
        Step(bot.(userLanguages := SetLanguage(bot.userLanguages, ev.sender, lang)),
             [Reply(ev.room, LanguageChanged(lang))])
      case None =>
        match DetectCryptoType(ev.body)
        case Some(coin) =>
          Step(bot, CheckAddress(bot.keys, bot.userLanguages, ev.room, ev.body, coin, ev.sender, net))
        case None =>
          Step(bot, [Reply(ev.room, InvalidAddress(GetUserLanguage(bot.userLanguages, ev.sender)))])
  }

  /** A message is answered exactly when it is a text message from someone other than the bot. */
  lemma SilentExactlyWhenIgnored(bot: Bot, ev: Event, net: Network)
    ensures HandleMessage(bot, ev, net).replies == [] <==> ev.msgtype != Text || Some(ev.sender) == bot.mxid
    ensures HandleMessage(bot, ev, net).replies == [] ==> HandleMessage(bot, ev, net).bot == bot
  {
  }

  /** A language command from another user records the language for its sender only, is
      confirmed in that language, and never reaches the classifier or the network. */
  lemma LanguageCommandRouting(bot: Bot, ev: Event, net: Network, l: Lang)
    requires ev.msgtype == Text && Some(ev.sender) != bot.mxid
    requires LanguageCommand(ev.body) == Some(l)
    ensures var r := HandleMessage(bot, ev, net);
      && GetUserLanguage(r.bot.userLanguages, ev.sender) == l
      && (forall u :: u != ev.sender ==> GetUserLanguage(r.bot.userLanguages, u) == GetUserLanguage(bot.userLanguages, u))
      && r.replies == [Reply(ev.room, LanguageChanged(l))]
    ensures forall other: Network :: HandleMessage(bot, ev, other) == HandleMessage(bot, ev, net)
  {
  }

  /** Only a language command changes the bot, and no message changes another user's language. */
  lemma OnlyCommandsChangeLanguage(bot: Bot, ev: Event, net: Network)
    ensures LanguageCommand(ev.body).None? ==> HandleMessage(bot, ev, net).bot == bot
    ensures forall u :: u != ev.sender ==>
      GetUserLanguage(HandleMessage(bot, ev, net).bot.userLanguages, u) == GetUserLanguage(bot.userLanguages, u)
  {
  }

  /** A text message from another user that is not a command gets the invalid-address reply in
      the sender's language when no pattern accepts it, and otherwise the checking notice for
      the detected coin followed by exactly one more reply, never "unsupported". */
  lemma AddressRouting(bot: Bot, ev: Event, net: Network)
    requires ev.msgtype == Text && Some(ev.sender) != bot.mxid
    requires LanguageCommand(ev.body).None?
    ensures var r := HandleMessage(bot, ev, net);
      var lang := GetUserLanguage(bot.userLanguages, ev.sender);
      && r.bot == bot
      && (DetectCryptoType(ev.body).None? <==> r.replies == [Reply(ev.room, InvalidAddress(lang))])
      && (DetectCryptoType(ev.body).Some? ==>
            && |r.replies| == 2
            && r.replies[0].content == Checking(ev.body, DetectCryptoType(ev.body).value, lang)
            && !r.replies[1].content.UnsupportedCrypto?
            && r.replies == CheckAddress(bot.keys, bot.userLanguages, ev.room, ev.body,
                                         DetectCryptoType(ev.body).value, ev.sender, net))
  {
  }

  /** Every coin has a handler, so the `unsupported_crypto` branch of `check_address` is dead. */
  lemma EveryCoinHasHandler()
    ensures forall c: Coin :: c in CryptoApis
  {
    forall c: Coin ensures c in CryptoApis {
      match c
      case Bitcoin => assert Bitcoin in CryptoApis;
      case Ethereum => assert Ethereum in CryptoApis;
      case Litecoin => assert Litecoin in CryptoApis;
      case Tron => assert Tron in CryptoApis;
      case UsdtTrc20 => assert UsdtTrc20 in CryptoApis;
      case UsdtErc20 => assert UsdtErc20 in CryptoApis;
      case Dogecoin => assert Dogecoin in CryptoApis;
    }
  }

  /** What each coin's handler can report: only the Etherscan-backed coins stop for a missing
      key, and then before any request; an HTTP-status error never carries 200; a payload
      message comes only from Etherscan and "no data" only from TronGrid; every request is
      about the checked address. */
  lemma OutcomesByCoin(keys: ApiKeys, coin: Coin, address: string, net: Network)
    ensures coin in CryptoApis
    ensures var run := RunHandler(CryptoApis[coin], keys, address, net);
      && (run.outcome == MissingKey <==> keys.etherscan == "" && (coin == Ethereum || coin == UsdtErc20))
      && (run.outcome == MissingKey ==> run.requests == [])
      && (run.outcome != MissingKey ==> 1 <= |run.requests| <= 2)
      && (run.outcome.ErrorStatus? ==> run.outcome.code != 200)
      && (run.outcome.ErrorMessage? ==> coin == Ethereum || coin == UsdtErc20)
      && (run.outcome.NoData? ==> coin == Tron || coin == UsdtTrc20)
      && (forall i :: 0 <= i < |run.requests| ==> run.requests[i].address == address)
  {
    EveryCoinHasHandler();
  }

  /** No message, in any state and with any network answers, draws the "unsupported" reply. */
  lemma UnsupportedNeverSent(bot: Bot, ev: Event, net: Network)
    ensures forall i :: 0 <= i < |HandleMessage(bot, ev, net).replies| ==>
      !HandleMessage(bot, ev, net).replies[i].content.UnsupportedCrypto?
  {
  }

  /** Two language commands from the same sender: the second one is what the sender reads. */
  lemma LastCommandWins(bot: Bot, first: Event, second: Event, net1: Network, net2: Network, a: Lang, b: Lang)
    requires first.msgtype == Text && second.msgtype == Text
    requires first.sender == second.sender && Some(first.sender) != bot.mxid
    requires LanguageCommand(first.body) == Some(a) && LanguageCommand(second.body) == Some(b)
    ensures var after := HandleMessage(HandleMessage(bot, first, net1).bot, second, net2).bot;
      after.userLanguages == SetLanguage(bot.userLanguages, first.sender, b)
      && GetUserLanguage(after.userLanguages, first.sender) == b
  {
    var mid := HandleMessage(bot, first, net1).bot;
    LanguageCommandRouting(bot, first, net1, a);
    assert mid.mxid == bot.mxid;
    LastWriteWins(bot.userLanguages, first.sender, a, b);
  }

  /** `/en` followed by `/RU` from the same user leaves that user reading Russian. */
  lemma EnThenRu(bot: Bot, room: RoomId, user: UserId, net: Network)
    requires Some(user) != bot.mxid
    ensures var after := HandleMessage(HandleMessage(bot, Event(Text, "/en", room, user), net).bot,
                                       Event(Text, "/RU", room, user), net).bot;
      GetUserLanguage(after.userLanguages, user) == Ru
  {
    CommandIsCaseInsensitive("/en", En);
    CommandIsCaseInsensitive("/RU", Ru);
    LastCommandWins(bot, Event(Text, "/en", room, user), Event(Text, "/RU", room, user), net, net, En, Ru);
  }
}
