/**
 The address classifier of bot.py:107-112: the ordered table `CRYPTO_PATTERNS` (bot.py:26-34)
 and the first-match search over it.
 */
module Classifier {
  import opened Wrappers
  import opened Patterns

  /** The keys of `CRYPTO_PATTERNS`. */
  datatype Coin = Bitcoin | Ethereum | Litecoin | Tron | UsdtTrc20 | UsdtErc20 | Dogecoin

  /** `CRYPTO_PATTERNS` in its dictionary order, which is the order the classifier tries them. */
  const CryptoPatterns: seq<(Coin, Regex)> := [
    (Bitcoin, BitcoinRe),
    (Ethereum, EthereumRe),
    (Litecoin, LitecoinRe),
    (Tron, TronRe),
    (UsdtTrc20, UsdtTrc20Re),
    (UsdtErc20, UsdtErc20Re),
    (Dogecoin, DogecoinRe)
  ]

  /** Index of the first row whose pattern accepts `s`, or `|table|` when none does. */
  function FirstMatch(table: seq<(Coin, Regex)>, s: string): (i: nat)
    ensures i <= |table|
    ensures forall j :: 0 <= j < i ==> !ReMatch(table[j].1, s)
    ensures i < |table| ==> ReMatch(table[i].1, s)
    decreases |table|
  {
    if |table| == 0 then 0
    else if ReMatch(table[0].1, s) then 0
    else 1 + FirstMatch(table[1..], s)
  }

  /** `detect_crypto_type`: the coin of the first row, in table order, whose pattern accepts the message. */
  function DetectCryptoType(address: string): (r: Option<Coin>)
    ensures r.None? <==> forall j :: 0 <= j < |CryptoPatterns| ==> !ReMatch(CryptoPatterns[j].1, address)
    ensures r.Some? ==>
      exists i :: 0 <= i < |CryptoPatterns| && CryptoPatterns[i].0 == r.value
        && ReMatch(CryptoPatterns[i].1, address)
        && forall j :: 0 <= j < i ==> !ReMatch(CryptoPatterns[j].1, address)
  {
    var i := FirstMatch(CryptoPatterns, address);
    if i < |CryptoPatterns| then Some(CryptoPatterns[i].0) else None
  }

  // ---------------------------------------------------------------------------
  // What each row accepts, with Python's `$` taken into account.

  /** Every row of the table accepts `s` exactly when its direct reading holds of `s` minus a final newline. */
  lemma TableMeaning(s: string)
    ensures ReMatch(CryptoPatterns[0].1, s) <==> BitcoinShape(Chomp(s))
    ensures ReMatch(CryptoPatterns[1].1, s) <==> EthereumShape(Chomp(s))
    ensures ReMatch(CryptoPatterns[2].1, s) <==> LitecoinShape(Chomp(s))
    ensures ReMatch(CryptoPatterns[3].1, s) <==> TronShape(Chomp(s))
    ensures ReMatch(CryptoPatterns[4].1, s) <==> TronShape(Chomp(s))
    ensures ReMatch(CryptoPatterns[5].1, s) <==> EthereumShape(Chomp(s))
    ensures ReMatch(CryptoPatterns[6].1, s) <==> DogecoinShape(Chomp(s))
  {
    UsdtPatternsRepeatEarlierRows();
    BitcoinRow(s);
    EthereumRow(s);
    LitecoinRow(s);
    TronRow(s);
    DogecoinRow(s);
  }

  lemma BitcoinRow(s: string)
    ensures ReMatch(BitcoinRe, s) <==> BitcoinShape(Chomp(s))
  {
    BitcoinPattern(s);
    if |s| > 0 && s[|s| - 1] == '\n' {
      BitcoinPattern(s[..|s| - 1]);
      NoShapeEndsInNewline(s);
    }
  }

  lemma EthereumRow(s: string)
    ensures ReMatch(EthereumRe, s) <==> EthereumShape(Chomp(s))
  {
    EthereumPattern(s);
    if |s| > 0 && s[|s| - 1] == '\n' {
      EthereumPattern(s[..|s| - 1]);
      NoShapeEndsInNewline(s);
    }
  }

  lemma LitecoinRow(s: string)
    ensures ReMatch(LitecoinRe, s) <==> LitecoinShape(Chomp(s))
  {
    LitecoinPattern(s);
    if |s| > 0 && s[|s| - 1] == '\n' {
      LitecoinPattern(s[..|s| - 1]);
      NoShapeEndsInNewline(s);
    }
  }

  lemma TronRow(s: string)
    ensures ReMatch(TronRe, s) <==> TronShape(Chomp(s))
  {
    TronPattern(s);
    if |s| > 0 && s[|s| - 1] == '\n' {
      TronPattern(s[..|s| - 1]);
      NoShapeEndsInNewline(s);
    }
  }

  lemma DogecoinRow(s: string)
    ensures ReMatch(DogecoinRe, s) <==> DogecoinShape(Chomp(s))
  {
    DogecoinPattern(s);
    if |s| > 0 && s[|s| - 1] == '\n' {
      DogecoinPattern(s[..|s| - 1]);
      NoShapeEndsInNewline(s);
    }
  }

  /** None of the patterns' characters is a newline, so no accepted string ends in one. */
  lemma NoShapeEndsInNewline(s: string)
    requires |s| > 0 && s[|s| - 1] == '\n'
    ensures !BitcoinShape(s) && !EthereumShape(s) && !LitecoinShape(s) && !TronShape(s) && !DogecoinShape(s)
  {
    var n := |s|;
    if 4 <= n { assert s[3..][n - 4] == s[n - 1]; }
    if 2 <= n { assert s[1..][n - 2] == s[n - 1]; }
    if 3 <= n { assert s[2..][n - 3] == s[n - 1]; }
  }

  /** The first character of each reading: b, 1 or 3; 0; L, M or 3; T; D. */
  lemma ShapeLeaders(t: string)
    ensures BitcoinShape(t) ==> t[0] == 'b' || t[0] == '1' || t[0] == '3'
    ensures EthereumShape(t) ==> t[0] == '0'
    ensures LitecoinShape(t) ==> t[0] == 'L' || t[0] == 'M' || t[0] == '3'
    ensures TronShape(t) ==> t[0] == 'T'
    ensures DogecoinShape(t) ==> t[0] == 'D'
  {
    if 28 <= |t| <= 42 && t[..3] == "bc1" { assert t[0] == t[..3][0]; }
    if |t| == 42 && t[..2] == "0x" { assert t[0] == t[..2][0]; }
  }

  /** Every Litecoin-shaped string beginning with 3 is also Bitcoin-shaped. */
  lemma LitecoinThreeIsBitcoin(t: string)
    requires LitecoinShape(t) && t[0] == '3'
    ensures BitcoinShape(t)
  {
    forall i | 0 <= i < |t[1..]| ensures IsBitcoinChar(t[1..][i]) {
      assert IsBase58Char(t[1..][i]);
    }
  }

  // ---------------------------------------------------------------------------
  // Consequences of the table order.

  /** The USDT rows come after identical TRON and Ethereum rows, so they are never the first match. */
  lemma UsdtNeverDetected(s: string)
    ensures DetectCryptoType(s) != Some(UsdtTrc20)
    ensures DetectCryptoType(s) != Some(UsdtErc20)
  {
    UsdtPatternsRepeatEarlierRows();
    assert CryptoPatterns[4].1 == CryptoPatterns[3].1;
    assert CryptoPatterns[5].1 == CryptoPatterns[1].1;
    var i := FirstMatch(CryptoPatterns, s);
    assert i != 4 && i != 5;
  }

  /** The full classification: each coin that can be returned is returned exactly for its own
      shape (Litecoin only without the leading 3 that Bitcoin takes first), the USDT coins never,
      and no coin exactly when no shape holds. */
  lemma DetectExactly(s: string)
    ensures DetectCryptoType(s) == Some(Bitcoin) <==> BitcoinShape(Chomp(s))
    ensures DetectCryptoType(s) == Some(Ethereum) <==> EthereumShape(Chomp(s))
    ensures DetectCryptoType(s) == Some(Litecoin) <==> LitecoinShape(Chomp(s)) && Chomp(s)[0] != '3'
    ensures DetectCryptoType(s) == Some(Tron) <==> TronShape(Chomp(s))
    ensures DetectCryptoType(s) == Some(Dogecoin) <==> DogecoinShape(Chomp(s))
    ensures DetectCryptoType(s) != Some(UsdtTrc20) && DetectCryptoType(s) != Some(UsdtErc20)
    ensures DetectCryptoType(s) == None <==>
      !BitcoinShape(Chomp(s)) && !EthereumShape(Chomp(s)) && !LitecoinShape(Chomp(s))
      && !TronShape(Chomp(s)) && !DogecoinShape(Chomp(s))
  {
    var t := Chomp(s);
    TableMeaning(s);
    ShapeLeaders(t);
    UsdtNeverDetected(s);
    if LitecoinShape(t) && t[0] == '3' {
      LitecoinThreeIsBitcoin(t);
    }
    var i := FirstMatch(CryptoPatterns, s);
    assert 0 < i ==> !BitcoinShape(t);
    assert 1 < i ==> !EthereumShape(t);
    assert 2 < i ==> !LitecoinShape(t);
    assert 3 < i ==> !TronShape(t);
  }

  /** The empty message is not an address. */
  lemma EmptyMessageIsNoAddress()
    ensures DetectCryptoType("") == None
  {
    DetectExactly("");
  }

  /** A message beginning with 3 is never classified as Litecoin. */
  lemma LitecoinNeverStartsWithThree(s: string)
    requires |s| > 0 && s[0] == '3'
    ensures DetectCryptoType(s) != Some(Litecoin)
  {
    DetectExactly(s);
    if |Chomp(s)| > 0 {
      assert Chomp(s)[0] == s[0];
    }
  }
}
