/**
 The regular expressions of the address table (bot.py:26-34), held as data, together with
 the meaning Python's `re.match` gives them.

 Every pattern in the table has the shape `^<piece><piece>...$` where a piece is a literal,
 a bracket expression with a `{min,max}` repetition, or an alternation of such pieces.
 `MatchRegex` is the full-match semantics of a piece sequence (a backtracking matcher finds a
 match exactly when some split of the string works); `ReMatch` adds what `$` means in Python:
 it matches at the very end of the string or just before one final newline.

 Each distinct pattern also gets a direct reading (`BitcoinShape`, ...), stated in terms of
 lengths and named character sets rather than ranges, and a lemma that the two agree.
 */
module Patterns {

  /** An inclusive range `lo-hi` inside a bracket expression. */
  datatype CharRange = CharRange(lo: char, hi: char)

  /** A bracket expression `[...]`, as the list of ranges written in it. */
  datatype CharClass = CharClass(ranges: seq<CharRange>)

  predicate InClass(cls: CharClass, c: char) {
    exists r :: r in cls.ranges && r.lo <= c <= r.hi
  }

  datatype Piece =
    | Lit(text: string)                          // `bc1`, `0x`, `T`
    | Rep(cls: CharClass, min: nat, max: nat)    // `[...]{min,max}`
    | Alt(options: seq<Piece>)                   // `(a|b)`

  /** The pieces between `^` and `$`. */
  type Regex = seq<Piece>

  predicate MatchPiece(p: Piece, t: string)
    decreases p
  {
    match p
    case Lit(x) => t == x
    case Rep(cls, lo, hi) => lo <= |t| <= hi && forall i :: 0 <= i < |t| ==> InClass(cls, t[i])
    case Alt(opts) => exists i :: 0 <= i < |opts| && MatchPiece(opts[i], t)
  }

  /** `t` is matched by the pieces of `re` in order, with nothing left over. */
  predicate MatchRegex(re: Regex, t: string)
    decreases |re|
  {
    if |re| == 0 then t == ""
    else exists k :: 0 <= k <= |t| && MatchPiece(re[0], t[..k]) && MatchRegex(re[1..], t[k..])
  }

  /** Python's `re.match('^...$', s)`: `$` also matches just before a final "\n". */
  predicate ReMatch(re: Regex, s: string) {
    || MatchRegex(re, s)
    || (|s| > 0 && s[|s| - 1] == '\n' && MatchRegex(re, s[..|s| - 1]))
  }

  /** `s` with one final newline removed, if it has one. */
  function Chomp(s: string): (r: string)
    ensures |r| <= |s| && r == s[..|r|]
    ensures |s| - 1 <= |r|
  {
    if |s| > 0 && s[|s| - 1] == '\n' then s[..|s| - 1] else s
  }

  // ---------------------------------------------------------------------------
  // The bracket expressions and patterns, range by range as written in bot.py:27-33.

  const BitcoinLead := CharClass([CharRange('1', '1'), CharRange('3', '3')])
  const BitcoinTail := CharClass([CharRange('a', 'z'), CharRange('A', 'H'), CharRange('J', 'N'),
                                  CharRange('P', 'Z'), CharRange('0', '9')])
  const HexClass := CharClass([CharRange('a', 'f'), CharRange('A', 'F'), CharRange('0', '9')])
  const LitecoinLead := CharClass([CharRange('L', 'L'), CharRange('M', 'M'), CharRange('3', '3')])
  const LitecoinTail := CharClass([CharRange('a', 'k'), CharRange('m', 'z'), CharRange('A', 'H'),
                                   CharRange('J', 'N'), CharRange('P', 'Z'), CharRange('1', '9')])
  const AlnumClass := CharClass([CharRange('a', 'z'), CharRange('A', 'Z'), CharRange('0', '9')])
  const DogecoinLead := CharClass([CharRange('D', 'D')])
  const DogecoinVersion := CharClass([CharRange('5', '9'), CharRange('A', 'H'), CharRange('J', 'N'),
                                      CharRange('P', 'U')])
  const DogecoinTail := CharClass([CharRange('1', '9'), CharRange('A', 'H'), CharRange('J', 'N'),
                                   CharRange('P', 'Z'), CharRange('a', 'k'), CharRange('m', 'z')])

  /** `^(bc1|[13])[a-zA-HJ-NP-Z0-9]{25,39}$` */
  const BitcoinRe: Regex := [Alt([Lit("bc1"), Rep(BitcoinLead, 1, 1)]), Rep(BitcoinTail, 25, 39)]
  /** `^0x[a-fA-F0-9]{40}$` */
  const EthereumRe: Regex := [Lit("0x"), Rep(HexClass, 40, 40)]
  /** `^[LM3][a-km-zA-HJ-NP-Z1-9]{26,33}$` */
  const LitecoinRe: Regex := [Rep(LitecoinLead, 1, 1), Rep(LitecoinTail, 26, 33)]
  /** `^T[a-zA-Z0-9]{33}$` */
  const TronRe: Regex := [Lit("T"), Rep(AlnumClass, 33, 33)]
  /** `^T[a-zA-Z0-9]{33}$`, written a second time for USDT on TRON */
  const UsdtTrc20Re: Regex := [Lit("T"), Rep(CharClass([CharRange('a', 'z'), CharRange('A', 'Z'), CharRange('0', '9')]), 33, 33)]
  /** `^0x[a-fA-F0-9]{40}$`, written a second time for USDT on Ethereum */
  const UsdtErc20Re: Regex := [Lit("0x"), Rep(CharClass([CharRange('a', 'f'), CharRange('A', 'F'), CharRange('0', '9')]), 40, 40)]
  /** `^D{1}[5-9A-HJ-NP-U]{1}[1-9A-HJ-NP-Za-km-z]{32}$` */
  const DogecoinRe: Regex := [Rep(DogecoinLead, 1, 1), Rep(DogecoinVersion, 1, 1), Rep(DogecoinTail, 32, 32)]

  // ---------------------------------------------------------------------------
  // Direct readings of the patterns.

  predicate IsAsciiLower(c: char) { 'a' <= c <= 'z' }
  predicate IsAsciiUpper(c: char) { 'A' <= c <= 'Z' }
  predicate IsAsciiDigit(c: char) { '0' <= c <= '9' }
  predicate IsAsciiAlnum(c: char) { IsAsciiLower(c) || IsAsciiUpper(c) || IsAsciiDigit(c) }

  /** ASCII letters and digits except the capitals I and O. */
  predicate IsBitcoinChar(c: char) { IsAsciiAlnum(c) && c != 'I' && c != 'O' }

  /** The base58 alphabet: ASCII letters and digits except 0, O, I and l. */
  predicate IsBase58Char(c: char) { IsAsciiAlnum(c) && c != '0' && c != 'O' && c != 'I' && c != 'l' }

  predicate IsHexChar(c: char) { IsAsciiDigit(c) || 'a' <= c <= 'f' || 'A' <= c <= 'F' }

  /** Second character of a Dogecoin address: a digit from 5 to 9 or a capital up to U other than I and O. */
  predicate IsDogecoinVersionChar(c: char) { ('5' <= c <= '9') || ('A' <= c <= 'U' && c != 'I' && c != 'O') }

  predicate AllBitcoinChars(t: string) { forall i :: 0 <= i < |t| ==> IsBitcoinChar(t[i]) }
  predicate AllBase58(t: string) { forall i :: 0 <= i < |t| ==> IsBase58Char(t[i]) }
  predicate AllHex(t: string) { forall i :: 0 <= i < |t| ==> IsHexChar(t[i]) }
  predicate AllAlnum(t: string) { forall i :: 0 <= i < |t| ==> IsAsciiAlnum(t[i]) }

  /** "bc1" and 25 to 39 more characters, or 1 or 3 and 25 to 39 more. */
  predicate BitcoinShape(s: string) {
    || (28 <= |s| <= 42 && s[..3] == "bc1" && AllBitcoinChars(s[3..]))
    || (26 <= |s| <= 40 && (s[0] == '1' || s[0] == '3') && AllBitcoinChars(s[1..]))
  }

  /** "0x" and 40 hexadecimal digits. */
  predicate EthereumShape(s: string) {
    |s| == 42 && s[..2] == "0x" && AllHex(s[2..])
  }

  /** L, M or 3 and 26 to 33 base58 characters. */
  predicate LitecoinShape(s: string) {
    27 <= |s| <= 34 && (s[0] == 'L' || s[0] == 'M' || s[0] == '3') && AllBase58(s[1..])
  }

  /** T and 33 ASCII letters or digits. */
  predicate TronShape(s: string) {
    |s| == 34 && s[0] == 'T' && AllAlnum(s[1..])
  }

  /** D, a version character, and 32 base58 characters. */
  predicate DogecoinShape(s: string) {
    |s| == 34 && s[0] == 'D' && IsDogecoinVersionChar(s[1]) && AllBase58(s[2..])
  }

  // ---------------------------------------------------------------------------
  // The bracket expressions mean the named character sets.

  lemma BitcoinClasses()
    ensures forall c :: InClass(BitcoinLead, c) <==> c == '1' || c == '3'
    ensures forall c :: InClass(BitcoinTail, c) <==> IsBitcoinChar(c)
  {
    forall c ensures InClass(BitcoinTail, c) <==> IsBitcoinChar(c) {
      if IsBitcoinChar(c) {
        if IsAsciiLower(c) { assert BitcoinTail.ranges[0] in BitcoinTail.ranges; }
        else if IsAsciiDigit(c) { assert BitcoinTail.ranges[4] in BitcoinTail.ranges; }
        else if c <= 'H' { assert BitcoinTail.ranges[1] in BitcoinTail.ranges; }
        else if c <= 'N' { assert BitcoinTail.ranges[2] in BitcoinTail.ranges; }
        else { assert BitcoinTail.ranges[3] in BitcoinTail.ranges; }
      }
    }
    forall c ensures InClass(BitcoinLead, c) <==> c == '1' || c == '3' {
      if c == '1' { assert BitcoinLead.ranges[0] in BitcoinLead.ranges; }
      if c == '3' { assert BitcoinLead.ranges[1] in BitcoinLead.ranges; }
    }
  }

  lemma HexClassMeaning()
    ensures forall c :: InClass(HexClass, c) <==> IsHexChar(c)
  {
    forall c ensures InClass(HexClass, c) <==> IsHexChar(c) {
      if IsAsciiDigit(c) { assert HexClass.ranges[2] in HexClass.ranges; }
      else if 'a' <= c <= 'f' { assert HexClass.ranges[0] in HexClass.ranges; }
      else if 'A' <= c <= 'F' { assert HexClass.ranges[1] in HexClass.ranges; }
    }
  }

  lemma LitecoinClasses()
    ensures forall c :: InClass(LitecoinLead, c) <==> c == 'L' || c == 'M' || c == '3'
    ensures forall c :: InClass(LitecoinTail, c) <==> IsBase58Char(c)
  {
    forall c ensures InClass(LitecoinTail, c) <==> IsBase58Char(c) {
      if IsBase58Char(c) {
        if IsAsciiDigit(c) { assert LitecoinTail.ranges[5] in LitecoinTail.ranges; }
        else if 'a' <= c <= 'k' { assert LitecoinTail.ranges[0] in LitecoinTail.ranges; }
        else if IsAsciiLower(c) { assert LitecoinTail.ranges[1] in LitecoinTail.ranges; }
        else if c <= 'H' { assert LitecoinTail.ranges[2] in LitecoinTail.ranges; }
        else if c <= 'N' { assert LitecoinTail.ranges[3] in LitecoinTail.ranges; }
        else { assert LitecoinTail.ranges[4] in LitecoinTail.ranges; }
      }
    }
    forall c ensures InClass(LitecoinLead, c) <==> c == 'L' || c == 'M' || c == '3' {
      if c == 'L' { assert LitecoinLead.ranges[0] in LitecoinLead.ranges; }
      if c == 'M' { assert LitecoinLead.ranges[1] in LitecoinLead.ranges; }
      if c == '3' { assert LitecoinLead.ranges[2] in LitecoinLead.ranges; }
    }
  }

  lemma AlnumClassMeaning()
    ensures forall c :: InClass(AlnumClass, c) <==> IsAsciiAlnum(c)
  {
    forall c ensures InClass(AlnumClass, c) <==> IsAsciiAlnum(c) {
      if IsAsciiLower(c) { assert AlnumClass.ranges[0] in AlnumClass.ranges; }
      else if IsAsciiUpper(c) { assert AlnumClass.ranges[1] in AlnumClass.ranges; }
      else if IsAsciiDigit(c) { assert AlnumClass.ranges[2] in AlnumClass.ranges; }
    }
  }

  lemma DogecoinClasses()
    ensures forall c :: InClass(DogecoinLead, c) <==> c == 'D'
    ensures forall c :: InClass(DogecoinVersion, c) <==> IsDogecoinVersionChar(c)
    ensures forall c :: InClass(DogecoinTail, c) <==> IsBase58Char(c)
  {
    forall c ensures InClass(DogecoinVersion, c) <==> IsDogecoinVersionChar(c) {
      if IsDogecoinVersionChar(c) {
        if '5' <= c <= '9' { assert DogecoinVersion.ranges[0] in DogecoinVersion.ranges; }
        else if c <= 'H' { assert DogecoinVersion.ranges[1] in DogecoinVersion.ranges; }
        else if c <= 'N' { assert DogecoinVersion.ranges[2] in DogecoinVersion.ranges; }
        else { assert DogecoinVersion.ranges[3] in DogecoinVersion.ranges; }
      }
    }
    forall c ensures InClass(DogecoinTail, c) <==> IsBase58Char(c) {
      if IsBase58Char(c) {
        if IsAsciiDigit(c) { assert DogecoinTail.ranges[0] in DogecoinTail.ranges; }
        else if 'a' <= c <= 'k' { assert DogecoinTail.ranges[4] in DogecoinTail.ranges; }
        else if IsAsciiLower(c) { assert DogecoinTail.ranges[5] in DogecoinTail.ranges; }
        else if c <= 'H' { assert DogecoinTail.ranges[1] in DogecoinTail.ranges; }
        else if c <= 'N' { assert DogecoinTail.ranges[2] in DogecoinTail.ranges; }
        else { assert DogecoinTail.ranges[3] in DogecoinTail.ranges; }
      }
    }
    forall c ensures InClass(DogecoinLead, c) <==> c == 'D' {
      if c == 'D' { assert DogecoinLead.ranges[0] in DogecoinLead.ranges; }
    }
  }

  // ---------------------------------------------------------------------------
  // Splitting a match into its pieces.

  /** A one-piece pattern matches exactly what its piece matches. */
  lemma MatchSinglePiece(re: Regex, t: string)
    requires |re| == 1
    ensures MatchRegex(re, t) <==> MatchPiece(re[0], t)
  {
    assert |re[1..]| == 0;
    if MatchPiece(re[0], t) {
      assert t[..|t|] == t;
      assert MatchRegex(re[1..], t[|t|..]);
      assert 0 <= |t| <= |t| && MatchPiece(re[0], t[..|t|]) && MatchRegex(re[1..], t[|t|..]);
    }
    if MatchRegex(re, t) {
      var k :| 0 <= k <= |t| && MatchPiece(re[0], t[..k]) && MatchRegex(re[1..], t[k..]);
      assert t[k..] == "";
      assert t[..k] == t;
    }
  }

  /** When the first piece only matches strings of length `n`, the split point is `n`. */
  lemma MatchFixedHead(re: Regex, t: string, n: nat)
    requires |re| > 1
    requires forall u :: MatchPiece(re[0], u) ==> |u| == n
    ensures MatchRegex(re, t) <==> n <= |t| && MatchPiece(re[0], t[..n]) && MatchRegex(re[1..], t[n..])
  {
    if MatchRegex(re, t) {
      var k :| 0 <= k <= |t| && MatchPiece(re[0], t[..k]) && MatchRegex(re[1..], t[k..]);
      assert |t[..k]| == n;
    }
  }

  // ---------------------------------------------------------------------------
  // Each pattern means its direct reading.

  lemma BitcoinPattern(t: string)
    ensures MatchRegex(BitcoinRe, t) <==> BitcoinShape(t)
  {
    BitcoinClasses();
    var head := BitcoinRe[0];
    assert BitcoinRe[1..] == [Rep(BitcoinTail, 25, 39)];
    if MatchRegex(BitcoinRe, t) {
      var k :| 0 <= k <= |t| && MatchPiece(head, t[..k]) && MatchRegex(BitcoinRe[1..], t[k..]);
      MatchSinglePiece(BitcoinRe[1..], t[k..]);
      var i :| 0 <= i < 2 && MatchPiece(head.options[i], t[..k]);
      if i == 0 {
        assert k == 3 && t[..3] == "bc1";
        assert t[k..] == t[3..];
      } else {
        assert k == 1 && t[0] == t[..k][0];
        assert t[k..] == t[1..];
      }
    }
    if BitcoinShape(t) {
      if 28 <= |t| <= 42 && t[..3] == "bc1" && AllBitcoinChars(t[3..]) {
        assert MatchPiece(head.options[0], t[..3]);
        MatchSinglePiece(BitcoinRe[1..], t[3..]);
        assert MatchRegex(BitcoinRe[1..], t[3..]);
      } else {
        assert t[..1][0] == t[0];
        assert MatchPiece(head.options[1], t[..1]);
        MatchSinglePiece(BitcoinRe[1..], t[1..]);
        assert MatchRegex(BitcoinRe[1..], t[1..]);
      }
    }
  }

  lemma EthereumPattern(t: string)
    ensures MatchRegex(EthereumRe, t) <==> EthereumShape(t)
  {
    HexClassMeaning();
    MatchFixedHead(EthereumRe, t, 2);
    if 2 <= |t| {
      MatchSinglePiece(EthereumRe[1..], t[2..]);
    }
  }

  lemma LitecoinPattern(t: string)
    ensures MatchRegex(LitecoinRe, t) <==> LitecoinShape(t)
  {
    LitecoinClasses();
    MatchFixedHead(LitecoinRe, t, 1);
    if 1 <= |t| {
      assert t[..1][0] == t[0];
      MatchSinglePiece(LitecoinRe[1..], t[1..]);
    }
  }

  lemma TronPattern(t: string)
    ensures MatchRegex(TronRe, t) <==> TronShape(t)
  {
    AlnumClassMeaning();
    MatchFixedHead(TronRe, t, 1);
    if 1 <= |t| {
      assert t[..1] == "T" <==> t[0] == 'T';
      MatchSinglePiece(TronRe[1..], t[1..]);
    }
  }

  lemma DogecoinPattern(t: string)
    ensures MatchRegex(DogecoinRe, t) <==> DogecoinShape(t)
  {
    DogecoinClasses();
    MatchFixedHead(DogecoinRe, t, 1);
    if 1 <= |t| {
      assert t[..1][0] == t[0];
      var rest := DogecoinRe[1..];
      MatchFixedHead(rest, t[1..], 1);
      if 2 <= |t| {
        assert t[1..][..1][0] == t[1];
        assert t[1..][1..] == t[2..];
        MatchSinglePiece(rest[1..], t[2..]);
      }
    }
  }

  /** The two USDT rows repeat, character for character, the TRON and Ethereum patterns. */
  lemma UsdtPatternsRepeatEarlierRows()
    ensures UsdtTrc20Re == TronRe
    ensures UsdtErc20Re == EthereumRe
  {
  }
}
