# Crypto address checker bot: a Dafny model of its decision logic

`CryptoCheckerBot` (bot.py) is a Matrix chat bot. It reads each room message and does one of three things:

- If the message is `/ru` or `/en`, it records the sender's reply language.
- If the message looks like a cryptocurrency address, it asks a block explorer for the address's balance.
- Otherwise it says the address was not recognised.

This project models the pure decisions inside the bot:

- **Address classifier** (`patterns.dfy`, `classifier.dfy`).
  - The seven anchored regular expressions of `CRYPTO_PATTERNS` are held as data: a small regex syntax of literals, bracket expressions with `{min,max}` and alternation.
  - `ReMatch` is Python's `re.match` for such a pattern, including the rule that `$` also matches just before one final newline.
  - Each distinct pattern is proved equal to a direct description (`BitcoinShape`, ...), written with lengths and named character sets.
  - `DetectCryptoType` returns the first row, in table order, whose pattern accepts the message.
  - `DetectExactly` gives the full classification. The two USDT rows can never be returned. A Litecoin-looking string that starts with `3` is always taken by Bitcoin first.
- **Language preference store** (`preferences.dfy`): a map from user id to `Ru | En`. A user who never chose a language reads `Ru`.
- **Balance adapters** (`adapters.dfy`).
  - Each `check_*` method becomes a pure function from the providers' answers to a `Run`: the requests it would issue and the outcome it reports.
  - Amounts stay as integers in the provider's minor units.
  - Anything the Python code would raise is the single outcome `Raised`.
- **Routing and dispatch** (`dispatch.dfy`).
  - `HandleMessage` checks, in this order: non-text message, the bot's own message, language command, address, invalid address.
  - `CheckAddress` looks the coin up in `crypto_apis`, sends the "checking" notice, then sends the adapter's text, or the generic error when the adapter raised.
  - Sent messages are `Reply` values. Localized text appears as its catalogue key and arguments.

Two behaviours of bot.py are easy to miss, and the model keeps both as the code has them:

- **Adapter text is sent as is.** The adapter's returned text goes to the room unchanged (bot.py:130-131). That includes the HTTP status, the provider's message, "Etherscan API key is not set" and "No data found". Only a raised exception becomes the generic error (bot.py:137-142).
  - In the model, `AdapterText` carries these outcomes.
  - Only `Raised` becomes `GenericError`.
- **The Ethereum transaction-count request.** The second Ethereum response's HTTP status is never checked (bot.py:173-175). A body that is not JSON, or a payload without `status`, raises, and the balance already fetched is lost.
  - `EthereumBalanceSurvivesTxList` states exactly this.

## Model

| member | source | states |
|---|---|---|
| Patterns.BitcoinPattern | bot.py:27 | `(bc1\|[13])[a-zA-HJ-NP-Z0-9]{25,39}` accepts exactly "bc1" followed by 25–39 characters, or 1 or 3 followed by 25–39 characters, the characters being ASCII letters and digits other than I and O |
| Patterns.EthereumPattern | bot.py:28 | `0x[a-fA-F0-9]{40}` accepts exactly "0x" followed by 40 hex digits (length 42) |
| Patterns.LitecoinPattern | bot.py:29 | `[LM3][a-km-zA-HJ-NP-Z1-9]{26,33}` accepts exactly L, M or 3 followed by 26–33 base58 characters |
| Patterns.TronPattern | bot.py:30 | `T[a-zA-Z0-9]{33}` accepts exactly T followed by 33 ASCII letters or digits |
| Patterns.DogecoinPattern | bot.py:33 | the Dogecoin pattern accepts exactly D, a version character (5–9 or a capital A–U other than I, O), then 32 base58 characters |
| Patterns.UsdtPatternsRepeatEarlierRows | bot.py:28-32 | the `usdt_trc20` and `usdt_erc20` patterns are identical to the `tron` and `ethereum` patterns |
| Classifier.FirstMatch | bot.py:109-111 | the returned index is the first row whose pattern accepts the string: no earlier row accepts it, and the row at the index accepts it (or the index is past the table) |
| Classifier.DetectCryptoType | bot.py:107-112 | none exactly when no row accepts the message; otherwise the coin of a row that accepts it with no earlier accepting row |
| Classifier.TableMeaning | bot.py:26-34 | each row, matched with `ReMatch` (`re.match` with a trailing `$`, bot.py:110), accepts a message exactly when its direct description holds of the message minus one final newline (Python's `$`) |
| Classifier.LitecoinThreeIsBitcoin | bot.py:27-29 | every string the Litecoin pattern accepts that begins with 3 is also accepted by the Bitcoin pattern |
| Classifier.UsdtNeverDetected | bot.py:28-32 | the classifier never returns `usdt_trc20` or `usdt_erc20` |
| Classifier.DetectExactly | bot.py:26-34 | Bitcoin, Ethereum, Tron and Dogecoin are returned exactly for their own shape; Litecoin exactly for its shape without a leading 3; the USDT tags never; none exactly when no shape holds |
| Classifier.EmptyMessageIsNoAddress | bot.py:107-112 | the empty message is classified as none |
| Classifier.LitecoinNeverStartsWithThree | bot.py:27-29 | a message starting with 3 is never classified as Litecoin |
| Preferences.SetLanguage | bot.py:283 | after setting, the user reads the new language; every other user reads what they read before; the stored users gain exactly this one |
| Preferences.GetUserLanguage | bot.py:290-293 | a user reads English exactly when English is stored for them, and Russian exactly when Russian is stored or nothing is |
| Preferences.CodeNamesOneLanguage | bot.py:94-95 | the two languages have different codes, so the code taken from a command names one language |
| Preferences.UnseenUserReadsRussian | bot.py:293 | a user with no stored choice reads Russian |
| Preferences.LastWriteWins | bot.py:283 | two settings for one user leave the store as the second alone would |
| Preferences.DifferentUsersCommute | bot.py:283 | settings for two different users give the same store in either order |
| Adapters.TronHeader | bot.py:201-203 | the TronGrid key header is absent exactly when no key is configured, and otherwise carries the configured TronGrid key |
| Adapters.CheckUtxo | bot.py:144-157 | one Blockcypher request for the address on its chain; an HTTP-status error exactly for a non-200 status, carrying it; otherwise a report or a raise (Litecoin bot.py:183-196 and Dogecoin bot.py:266-279 are the same code) |
| Adapters.UtxoReportsPayload | bot.py:148-153 | a 200 JSON response always gives a report whose balance, received, sent and transaction count are the payload's values, or 0 where a key is absent |
| Adapters.TxCount | bot.py:173-175 | the transaction-list answer yields a count exactly when it is a response with a JSON body that has a `status`; its HTTP status is not consulted |
| Adapters.CheckEthereum | bot.py:159-181 | "key not set" exactly when the Etherscan key is empty, and then no request; otherwise the balance request first; an HTTP-status error exactly for a non-200 status; the transaction-list request is issued exactly after a 200 payload with status "1" and a result |
| Adapters.EthereumBalanceSurvivesTxList | bot.py:168-177 | after a successful balance payload the balance is reported, with the list length when the list's status is "1" and 0 otherwise; a transaction-list answer that raises loses the whole lookup |
| Adapters.CheckTron | bot.py:198-216 | one account request, with the key header only when configured; an HTTP-status error exactly for a non-200 status; otherwise a balance, no data, or a raise |
| Adapters.TronAccountScan | bot.py:206-214 | a 200 account list gives "no data" exactly when TronGrid did not report success or listed no account; otherwise the balance of the first account, 0 when it has none |
| Adapters.FindToken | bot.py:234-237 | the index found has the contract's token id and no earlier token has it; none means no token has it |
| Adapters.FirstTokenIsFound | bot.py:234-237 | the first token that carries the contract id is the one the scan stops at |
| Adapters.FirstTokensAreFound | bot.py:234-237 | for every index, a first token carrying the contract id is the one the scan stops at |
| Adapters.Trc20Balance | bot.py:233-237 | the USDT balance is 0 when no token carries the USDT contract id, and otherwise the balance of the first token that carries it (0 when that token has none) |
| Adapters.CheckTronUsdt | bot.py:218-243 | one token request for the USDT contract; an HTTP-status error exactly for a non-200 status; otherwise a balance, no tokens, or a raise |
| Adapters.Trc20TokenScan | bot.py:229-241 | "no tokens" exactly for an unsuccessful or empty list; otherwise the balance of the first token with the USDT contract id, and 0 when no token has it |
| Adapters.CheckEthereumUsdt | bot.py:245-264 | "key not set" exactly when the Etherscan key is empty, with no request; otherwise one token-balance request; an HTTP-status error exactly for a non-200 status |
| Adapters.EtherscanPayloadStatus | bot.py:255-262 | for both Etherscan adapters, a 200 payload whose status is not "1" is an error carrying the payload's message and never the HTTP-status error; status "1" is never a message error |
| Dispatch.CheckAddress | bot.py:114-142 | two replies: the "checking" notice in the sender's language, then the adapter's outcome or, exactly when the adapter raised, the generic error; never "unsupported" |
| Dispatch.Lower | bot.py:94 | lower-casing keeps the length, maps each ASCII capital to its small letter, keeps every other character, and leaves no ASCII capital |
| Dispatch.LowerIdempotent | bot.py:94-95 | lower-casing an already lower-cased message changes nothing |
| Dispatch.LanguageCommand | bot.py:94-95 | a message selects a language exactly when its lower-case form is "/" followed by that language's code, which is what `.replace('/', '')` leaves |
| Dispatch.CommandIsCaseInsensitive | bot.py:94-95 | a message is the command for a language exactly when it is "/" followed by that language's code in any letter case, and nothing more |
| Dispatch.HandleMessage | bot.py:79-105 | handling a message never changes the bot's id or keys, sends at most two replies, and replies only to the message's room |
| Dispatch.SilentExactlyWhenIgnored | bot.py:81-91 | a message gets no reply exactly when it is not text or comes from the bot itself, and then nothing changes |
| Dispatch.LanguageCommandRouting | bot.py:93-97 | a language command records the language for its sender only and is confirmed in that language; the outcome does not depend on the network |
| Dispatch.OnlyCommandsChangeLanguage | bot.py:93-105 | a message that is not a language command leaves the bot unchanged; no message changes another user's language |
| Dispatch.AddressRouting | bot.py:99-142 | a non-command text gets the invalid-address reply in the sender's language exactly when no pattern accepts it; otherwise exactly the two replies of `check_address` for the detected coin: the "checking" notice, then the adapter's outcome or the generic error, never "unsupported" |
| Dispatch.OutcomesByCoin | bot.py:144-279 | only the two Etherscan-backed coins report "key not set", exactly when the key is empty and then with no request; a status error never carries 200; payload messages come only from Etherscan and "no data" only from TronGrid; every request is about the checked address |
| Dispatch.EveryCoinHasHandler | bot.py:48-56 | every coin has an entry in `crypto_apis` |
| Dispatch.UnsupportedNeverSent | bot.py:129-136 | no message ever draws the "unsupported crypto" reply |
| Dispatch.LastCommandWins | bot.py:94-96 | after two language commands from one sender, the store is as if only the second had been given |
| Dispatch.EnThenRu | bot.py:94-96 | `/en` then `/RU` from one user leaves that user reading Russian |

## Left out

- Network and chat I/O are not modelled:
  - `requests.get`, `Client`, `login`, `whoami`, `start`, `sync_forever` and `send_text`.
  - Provider answers are parameters (`Network`, `Http`).
  - Sent messages are returned as `Reply` values.
- The `i18n` catalogue and the `locales` files are external data. Localized messages are their keys with arguments.
- Floating-point unit conversion and f-string rendering are left out. Amounts stay in integer minor units. The source divides by 10^8 for Bitcoin, Litecoin and Dogecoin, 10^18 for Ether, and 10^6 for TRX and both USDT variants.
- `asyncio`, logging, `.env` loading and `main` are left out. `main` passes three arguments to a two-argument constructor (bot.py:315 vs bot.py:44). That is start-up plumbing, not decision logic.
- Exceptions collapse into the single outcome `Raised`. These include transport errors, `.json()` failures, `data['key']` on a missing key, and `int()` on a non-number.
- JSON values of an unexpected type are not modelled. Examples: a `null` balance, or a string `result` whose `len` would be taken at bot.py:175.
- Etherscan `result` strings and TRC20 token balances arrive already parsed to integers.
- Dispatch.Lower: models `str.lower()` on ASCII letters only. Other characters are kept as they are.
- `client.mxid` is an `Option`. The client is built with only a homeserver (bot.py:45), and whether the library fills in the user id is outside this model. When it is None, the bot's own messages are not filtered out.
- The `blockcypher` API key is read but never used by any adapter (bot.py:39). It appears only as a field of `ApiKeys`.
- Failures of `send_text` inside the `try` of `check_address` are not modelled.
- Concurrent message handling is not modelled. The model handles one message at a time.
