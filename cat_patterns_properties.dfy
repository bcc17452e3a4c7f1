/** Properties of the row expander of data/catPatterns.ts: how the regular
    expression splits a token, what each kind of token contributes, how the
    row is assembled from its tokens, and two rows of the pattern table. */
module CatPatternsProperties {
  import opened Wrappers
  import opened CatPatterns

  // ---------------------------------------------------------------------------
  // split and repeat
  // ---------------------------------------------------------------------------

  lemma FirstSpaceUnique(s: string, i: nat)
    requires i < |s| && s[i] == ' ' && ' ' !in s[..i]
    ensures FirstSpace(s) == i
  {
  }

  /** No token contains a space. */
  lemma {:induction false} SplitTokensHaveNoSpace(s: string)
    ensures forall t :: t in Split(s) ==> ' ' !in t
    decreases |s|
  {
    if ' ' in s {
      SplitTokensHaveNoSpace(s[FirstSpace(s) + 1..]);
    }
  }

  /** Joining the tokens with single spaces gives the input back. */
  lemma {:induction false} JoinSplit(s: string)
    ensures JoinWithSpaces(Split(s)) == s
    decreases |s|
  {
    if ' ' in s {
      var i := FirstSpace(s);
      JoinSplit(s[i + 1..]);
      assert s == s[..i] + " " + s[i + 1..];
      assert ([s[..i]] + Split(s[i + 1..]))[1..] == Split(s[i + 1..]);
    }
  }

  /** Splitting a join of space-free tokens gives those tokens back. */
  lemma {:induction false} SplitJoin(tokens: seq<string>)
    requires |tokens| >= 1
    requires forall t :: t in tokens ==> ' ' !in t
    ensures Split(JoinWithSpaces(tokens)) == tokens
    decreases |tokens|
  {
    if |tokens| > 1 {
      var s := JoinWithSpaces(tokens);
      var rest := JoinWithSpaces(tokens[1..]);
      assert s == tokens[0] + " " + rest;
      assert ' ' !in tokens[0] by { assert tokens[0] in tokens; }
      assert s[..|tokens[0]|] == tokens[0];
      FirstSpaceUnique(s, |tokens[0]|);
      assert s[|tokens[0]| + 1..] == rest;
      forall t | t in tokens[1..] ensures ' ' !in t { assert t in tokens; }
      SplitJoin(tokens[1..]);
    }
  }

  /** Splitting on a space between `a` and `b` splits each side separately. */
  lemma {:induction false} SplitAppend(a: string, b: string)
    ensures Split(a + " " + b) == Split(a) + Split(b)
    decreases |a|
  {
    if ' ' !in a {
      SplitAtOnlySpace(a, b);
    } else {
      var i := FirstSpace(a);
      var rest := a[i + 1..];
      calc {
        Split(a + " " + b);
      == { SplitAtFirstSpace(a, b, i); }
        [a[..i]] + Split(rest + " " + b);
      == { SplitAppend(rest, b); }
        [a[..i]] + (Split(rest) + Split(b));
      ==
        ([a[..i]] + Split(rest)) + Split(b);
      }
    }
  }

  lemma SplitAtOnlySpace(a: string, b: string)
    requires ' ' !in a
    ensures Split(a + " " + b) == [a] + Split(b)
  {
    var s := a + " " + b;
    assert s[..|a|] == a;
    FirstSpaceUnique(s, |a|);
    assert s[|a| + 1..] == b;
  }

  lemma SplitAtFirstSpace(a: string, b: string, i: nat)
    requires ' ' in a && i == FirstSpace(a)
    ensures Split(a + " " + b) == [a[..i]] + Split(a[i + 1..] + " " + b)
  {
    var s := a + " " + b;
    assert s[..i] == a[..i];
    FirstSpaceUnique(s, i);
    assert s[i + 1..] == a[i + 1..] + " " + b;
  }

  /** Character `i` of `symbol.repeat(count)` is character `i mod |symbol|`
      of `symbol`. */
  lemma {:induction false} RepeatAt(symbol: string, count: nat, i: nat)
    requires i < count * |symbol|
    ensures Repeat(symbol, count)[i] == symbol[i % |symbol|]
  {
    if i >= |symbol| {
      RepeatAt(symbol, count - 1, i - |symbol|);
      ModShift(i, |symbol|);
    }
  }

  lemma ModShift(i: int, n: int)
    requires 0 < n <= i
    ensures (i - n) % n == i % n
  {
    var q, r := (i - n) / n, (i - n) % n;
    var q', r' := i / n, i % n;
    assert (q + 1 - q') * n == r' - r;
    if q + 1 - q' > 0 {
      MulAtLeast(q + 1 - q', n);
    } else if q + 1 - q' < 0 {
      MulAtLeast(q' - q - 1, n);
    }
  }

  lemma MulAtLeast(k: int, n: int)
    requires k >= 1 && n > 0
    ensures k * n >= n
  {
  }

  // ---------------------------------------------------------------------------
  // parseInt
  // ---------------------------------------------------------------------------

  /** The decimal numeral of `n`, without leading zeros: a reference against
      which `DecimalValue` is checked. */
  function DecimalString(n: nat): (s: string)
    ensures |s| >= 1 && AllDigits(s)
  {
    if n < 10 then [Digit(n)] else DecimalString(n / 10) + [Digit(n % 10)]
  }

  function Digit(d: nat): (c: char)
    requires d < 10
    ensures IsDigit(c) && c as int - '0' as int == d
  {
    ('0' as int + d) as char
  }

  /** `parseInt` of the numeral of `n` gives `n` back. */
  lemma {:induction false} DecimalStringValue(n: nat)
    ensures DecimalValue(DecimalString(n)) == n
  {
    var s := DecimalString(n);
    if n >= 10 {
      DecimalStringValue(n / 10);
      assert s[..|s| - 1] == DecimalString(n / 10);
    }
  }

  // ---------------------------------------------------------------------------
  // The regular expression
  // ---------------------------------------------------------------------------

  /** `Backtrack` returns the longest group 1 of length at most `k` that
      leaves a match, and nothing exactly when there is none. */
  lemma {:induction false} BacktrackLongest(t: string, k: nat)
    ensures Backtrack(t, k).Some? ==> forall j :: Backtrack(t, k).value < j <= k ==> !CanMatchAt(t, j)
    ensures Backtrack(t, k).None? ==> forall j :: 1 <= j <= k ==> !CanMatchAt(t, j)
  {
    if k > 0 && !CanMatchAt(t, k) {
      BacktrackLongest(t, k - 1);
    }
  }

  /** No group 1 can be longer than the leading digit run. */
  lemma NoMatchBeyondDigitRun(t: string, j: int)
    requires DigitRun(t) < j
    ensures !CanMatchAt(t, j)
  {
    if j < |t| {
      assert !IsDigit(t[DigitRun(t)]);
    }
  }

  /** What `token.match(/^(\d+)(.+)/)` means: it fails exactly when no digit
      prefix leaves a character for `.+`; otherwise group 1 is the longest such
      prefix (the greedy `\d+` backtracks only as far as it must) and group 2
      is the longest run after it that contains no line terminator. */
  lemma MatchTokenSemantics(t: string)
    ensures MatchToken(t).None? <==> forall k :: !CanMatchAt(t, k)
    ensures MatchToken(t).Some? ==>
      var m := MatchToken(t).value;
      var k := |m.digits|;
      CanMatchAt(t, k) && m.digits == t[..k] &&
      (forall j :: k < j ==> !CanMatchAt(t, j)) &&
      k + |m.symbol| <= |t| && m.symbol == t[k..k + |m.symbol|] &&
      NoLineTerminator(m.symbol) &&
      (k + |m.symbol| < |t| ==> IsLineTerminator(t[k + |m.symbol|]))
  {
    var start := DigitRun(t);
    BacktrackLongest(t, start);
    forall j | start < j ensures !CanMatchAt(t, j) {
      NoMatchBeyondDigitRun(t, j);
    }
    match Backtrack(t, start)
    case None =>
    case Some(k) =>
      SymbolHasNoTerminator(t, k);
  }

  lemma SymbolHasNoTerminator(t: string, k: nat)
    requires k <= |t|
    ensures NoLineTerminator(t[k..DotEnd(t, k)])
  {
    var e := DotEnd(t, k);
    assert forall i :: 0 <= i < e - k ==> t[k..e][i] == t[k + i];
  }

  /** The greedy `\d+` keeps the whole leading digit run when a character that
      `.` accepts follows it. */
  lemma MatchWholeDigitRun(t: string)
    requires 1 <= DigitRun(t) < |t| && !IsLineTerminator(t[DigitRun(t)])
    ensures var k := DigitRun(t);
      MatchToken(t) == Some(TokenMatch(t[..k], t[k..DotEnd(t, k)]))
  {
    KeepWholeDigitRun(t);
    MatchFromBacktrack(t, DigitRun(t));
  }

  lemma KeepWholeDigitRun(t: string)
    requires 1 <= DigitRun(t) < |t| && !IsLineTerminator(t[DigitRun(t)])
    ensures Backtrack(t, DigitRun(t)) == Some(DigitRun(t))
  {
    assert CanMatchAt(t, DigitRun(t));
  }

  lemma MatchFromBacktrack(t: string, k: nat)
    requires Backtrack(t, DigitRun(t)) == Some(k)
    ensures k <= |t| && MatchToken(t) == Some(TokenMatch(t[..k], t[k..DotEnd(t, k)]))
  {
  }

  /** When the digit run reaches the end of the token or a line terminator,
      `\d+` gives back its last digit, which becomes the whole symbol. */
  lemma MatchGivesBackLastDigit(t: string)
    requires DigitRun(t) >= 2 && (DigitRun(t) == |t| || IsLineTerminator(t[DigitRun(t)]))
    ensures var k := DigitRun(t);
      MatchToken(t) == Some(TokenMatch(t[..k - 1], [t[k - 1]]))
  {
    var k := DigitRun(t);
    BacktrackGivesBackOne(t, k);
    MatchFromBacktrack(t, k - 1);
    assert DotEnd(t, k - 1) == k by {
      assert IsDigit(t[k - 1]);
    }
    assert t[k - 1..k] == [t[k - 1]];
  }

  lemma BacktrackGivesBackOne(t: string, k: nat)
    requires 2 <= k <= |t| && DigitsBefore(t, k)
    requires k == |t| || IsLineTerminator(t[k])
    ensures Backtrack(t, k) == Some(k - 1)
  {
    assert !CanMatchAt(t, k);
    assert IsDigit(t[k - 1]);
    assert CanMatchAt(t, k - 1);
  }

  /** The match fails exactly for the empty token, a token that does not start
      with a digit, and a single digit that ends the token or is followed by a
      line terminator. */
  lemma MatchFailsExactly(t: string)
    ensures MatchToken(t).None? <==>
      (DigitRun(t) == 0 || (DigitRun(t) == 1 && (|t| == 1 || IsLineTerminator(t[1]))))
  {
    var k := DigitRun(t);
    if 1 <= k < |t| && !IsLineTerminator(t[k]) {
      MatchWholeDigitRun(t);
    } else if k >= 2 {
      MatchGivesBackLastDigit(t);
    } else if k == 1 {
      assert !CanMatchAt(t, 1);
    }
  }

  // ---------------------------------------------------------------------------
  // What one token contributes
  // ---------------------------------------------------------------------------

  lemma {:induction false} DigitEndOf(d: string, s: string, i: nat)
    requires AllDigits(d) && i <= |d|
    requires s == [] || !IsDigit(s[0])
    ensures DigitEnd(d + s, i) == |d|
    decreases |d| - i
  {
    if i < |d| {
      assert (d + s)[i] == d[i];
      DigitEndOf(d, s, i + 1);
    } else if s != [] {
      assert (d + s)[i] == s[0];
    }
  }

  lemma {:induction false} DotEndAll(t: string, i: nat)
    requires i <= |t|
    requires forall j :: i <= j < |t| ==> !IsLineTerminator(t[j])
    ensures DotEnd(t, i) == |t|
    decreases |t| - i
  {
    if i < |t| {
      DotEndAll(t, i + 1);
    }
  }

  /** A digit run followed by a symbol that starts with a non-digit and holds
      no line terminator matches with exactly those two groups. */
  lemma MatchCounted(d: string, s: string)
    requires |d| >= 1 && AllDigits(d)
    requires |s| >= 1 && !IsDigit(s[0]) && NoLineTerminator(s)
    ensures MatchToken(d + s) == Some(TokenMatch(d, s))
  {
    var t := d + s;
    DigitEndOf(d, s, 0);
    assert t[..|d|] == d && t[|d|..] == s;
    assert forall j :: |d| <= j < |t| ==> t[j] == s[j - |d|];
    DotEndAll(t, |d|);
    MatchWholeDigitRun(t);
    assert t[|d|..|t|] == s;
  }

  /** A digit run `d` followed by a symbol `s` that starts with a non-digit and
      has no line terminator appends `s` repeated `d` times, unless `s` is `sp`. */
  lemma ExpandCountedSymbol(d: string, s: string)
    requires |d| >= 1 && AllDigits(d)
    requires |s| >= 1 && !IsDigit(s[0]) && NoLineTerminator(s) && s != "sp"
    ensures ExpandToken(d + s) == Repeat(s, DecimalValue(d))
  {
    MatchCounted(d, s);
  }

  /** A count followed by exactly `sp` appends that many spaces. */
  lemma ExpandCountedSpaces(d: string)
    requires |d| >= 1 && AllDigits(d)
    ensures ExpandToken(d + "sp") == Repeat(" ", DecimalValue(d))
    ensures forall i :: 0 <= i < |ExpandToken(d + "sp")| ==> ExpandToken(d + "sp")[i] == ' '
  {
    MatchCounted(d, "sp");
    forall i | 0 <= i < DecimalValue(d) ensures Repeat(" ", DecimalValue(d))[i] == ' ' {
      RepeatAt(" ", DecimalValue(d), i);
    }
  }

  /** A token the expression does not match is appended once as it is, except
      that the bare token `sp` still becomes a space. */
  lemma ExpandUnmatched(t: string)
    requires MatchToken(t).None?
    ensures ExpandToken(t) == if t == "sp" then " " else t
  {
    assert Repeat(SpaceFor(t), 1) == SpaceFor(t) + Repeat(SpaceFor(t), 0);
  }

  /** An all-digit token of two or more digits: every digit but the last is
      the count, and the last digit is the symbol. */
  lemma ExpandAllDigits(t: string)
    requires |t| >= 2 && AllDigits(t)
    ensures ExpandToken(t) == Repeat([t[|t| - 1]], DecimalValue(t[..|t| - 1]))
  {
    DigitEndOf(t, "", 0);
    assert t + "" == t;
    MatchGivesBackLastDigit(t);
  }

  // ---------------------------------------------------------------------------
  // Concrete tokens
  // ---------------------------------------------------------------------------

  lemma ExampleSymbolContainingSp()
    ensures ExpandToken("2spx") == "spxspx"
  {
    var d, s := "2", "spx";
    calc {
      ExpandToken("2spx");
    == { assert d + s == "2spx"; }
      ExpandToken(d + s);
    == { ExpandCountedSymbol(d, s); }
      Repeat(s, DecimalValue(d));
    == { assert DecimalValue(d) == 2; }
      Repeat(s, 2);
    == { assert Repeat(s, 1) == s + Repeat(s, 0) == s; }
      s + s;
    ==
      "spxspx";
    }
  }

  lemma ExampleFourSpaces()
    ensures ExpandToken("4sp") == "    "
  {
    var d := "4";
    assert d + "sp" == "4sp";
    ExpandCountedSpaces(d);
    assert DecimalValue(d) == 4;
  }

  lemma ExampleUnmatched()
    ensures ExpandToken("/") == "/"
    ensures ExpandToken("5") == "5"
    ensures ExpandToken("") == ""
    ensures ExpandToken("sp") == " "
  {
    MatchFailsExactly("/");
    ExpandUnmatched("/");
    MatchFailsExactly("5");
    ExpandUnmatched("5");
    MatchFailsExactly("");
    ExpandUnmatched("");
    MatchFailsExactly("sp");
    ExpandUnmatched("sp");
  }

  lemma ExampleAllDigits()
    ensures ExpandToken("12") == "2"
    ensures ExpandToken("123") == Repeat("3", 12)
  {
    ExampleTwelve();
    ExampleOneTwoThree();
  }

  lemma ExampleOneTwoThree()
    ensures ExpandToken("123") == Repeat("3", 12)
  {
    var t := "123";
    assert AllDigits(t);
    calc {
      ExpandToken(t);
    == { ExpandAllDigits(t); }
      Repeat([t[2]], DecimalValue(t[..2]));
    == { assert t[..2] == "12" && t[2] == '3'; }
      Repeat("3", DecimalValue("12"));
    == { assert "12"[..1] == "1"; }
      Repeat("3", 12);
    }
  }

  lemma ExampleTwelve()
    ensures ExpandToken("12") == "2"
  {
    var t := "12";
    ExpandAllDigits(t);
    assert t[..1] == "1" && t[1] == '2';
    assert DecimalValue("1") == 1;
    assert Repeat("2", 1) == "2" + Repeat("2", 0);
  }

  lemma ExampleZeroCount()
    ensures ExpandToken("0#") == ""
  {
    var d, s := "0", "#";
    assert d + s == "0#";
    ExpandCountedSymbol(d, s);
    assert DecimalValue(d) == 0;
  }

  // ---------------------------------------------------------------------------
  // The row as a whole
  // ---------------------------------------------------------------------------

  lemma {:induction false} ConcatMapAppend(f: string -> string, xs: seq<string>, ys: seq<string>)
    ensures ConcatMap(f, xs + ys) == ConcatMap(f, xs) + ConcatMap(f, ys)
    decreases |ys|
  {
    if ys == [] {
      assert xs + ys == xs;
    } else {
      var ys', last := ys[..|ys| - 1], ys[|ys| - 1];
      assert (xs + ys)[..|xs + ys| - 1] == xs + ys';
      assert (xs + ys)[|xs + ys| - 1] == last;
      ConcatMapAppend(f, xs, ys');
      var a, b, c := ConcatMap(f, xs), ConcatMap(f, ys'), f(last);
      assert (a + b) + c == a + (b + c);
    }
  }

  /** The parser distributes over concatenation at a space. */
  lemma ExpandRowDistributes(a: string, b: string)
    ensures ExpandRow(a + " " + b) == ExpandRow(a) + ExpandRow(b)
  {
    SplitAppend(a, b);
    ConcatMapAppend(ExpandToken, Split(a), Split(b));
  }

  /** Tokens are emitted in input order: each token's expansion sits after
      those of the tokens before it. */
  lemma ConcatMapInOrder(f: string -> string, tokens: seq<string>, i: nat)
    requires i < |tokens|
    ensures ConcatMap(f, tokens) ==
      ConcatMap(f, tokens[..i]) + (f(tokens[i]) + ConcatMap(f, tokens[i + 1..]))
  {
    var before, t, after := tokens[..i], tokens[i], tokens[i + 1..];
    calc {
      ConcatMap(f, tokens);
    == { Around(tokens, i); }
      ConcatMap(f, before + ([t] + after));
    == { ConcatMapAppend(f, before, [t] + after); }
      ConcatMap(f, before) + ConcatMap(f, [t] + after);
    == { ConcatMapAppend(f, [t], after); ConcatMapSingle(f, t); }
      ConcatMap(f, before) + (f(t) + ConcatMap(f, after));
    }
  }

  lemma Around<T>(xs: seq<T>, i: nat)
    requires i < |xs|
    ensures xs == xs[..i] + ([xs[i]] + xs[i + 1..])
  {
  }

  lemma ConcatMapSingle(f: string -> string, t: string)
    ensures ConcatMap(f, [t]) == f(t)
  {
    assert [t][..0] == [];
  }

  /** Each token's expansion appears in the row after the expansions of the
      tokens before it and before those of the tokens after it. */
  lemma ExpandRowInOrder(instructions: string, i: nat)
    requires i < |Split(instructions)|
    ensures var tokens := Split(instructions);
      ExpandRow(instructions) ==
        ConcatMap(ExpandToken, tokens[..i]) + (ExpandToken(tokens[i]) + ConcatMap(ExpandToken, tokens[i + 1..]))
  {
    ConcatMapInOrder(ExpandToken, Split(instructions), i);
  }

  /** Width of one token: its count times the length of its symbol after the
      `sp` substitution. */
  function TokenWidth(t: string): nat {
    TokenParts(t).0 * |SpaceFor(TokenParts(t).1)|
  }

  function TotalWidth(tokens: seq<string>): nat {
    if tokens == [] then 0 else TotalWidth(tokens[..|tokens| - 1]) + TokenWidth(tokens[|tokens| - 1])
  }

  lemma {:induction false} ExpandTokensLength(tokens: seq<string>)
    ensures |ConcatMap(ExpandToken, tokens)| == TotalWidth(tokens)
  {
    if tokens != [] {
      ExpandTokensLength(tokens[..|tokens| - 1]);
    }
  }

  /** The row is as long as the sum of its tokens' widths. */
  lemma ExpandRowLength(instructions: string)
    ensures |ExpandRow(instructions)| == TotalWidth(Split(instructions))
  {
    ExpandTokensLength(Split(instructions));
  }

  // ---------------------------------------------------------------------------
  // Rows of catRules
  // ---------------------------------------------------------------------------

  /** A row without spaces is a single token. */
  lemma SingleToken(t: string)
    requires ' ' !in t
    ensures ExpandRow(t) == ExpandToken(t)
  {
    ConcatMapSingle(ExpandToken, t);
  }

  lemma CountedToken(d: string, s: string)
    requires |d| >= 1 && AllDigits(d)
    requires |s| >= 1 && !IsDigit(s[0]) && NoLineTerminator(s) && ' ' !in d + s
    ensures ExpandRow(d + s) == Repeat(SpaceFor(s), DecimalValue(d))
  {
    MatchCounted(d, s);
    SingleToken(d + s);
  }

  /** A row of four tokens is the four expansions side by side. */
  lemma FourTokens(a: string, b: string, c: string, d: string)
    ensures ExpandRow(a + " " + (b + " " + (c + " " + d))) ==
      ExpandRow(a) + (ExpandRow(b) + (ExpandRow(c) + ExpandRow(d)))
  {
    ExpandRowDistributes(a, b + " " + (c + " " + d));
    ExpandRowDistributes(b, c + " " + d);
    ExpandRowDistributes(c, d);
  }

  /** `CountedToken` with the count and the symbol already worked out. */
  lemma CountedTokenIs(d: string, s: string, count: nat, symbol: string)
    requires |d| >= 1 && AllDigits(d) && DecimalValue(d) == count
    requires |s| >= 1 && !IsDigit(s[0]) && NoLineTerminator(s) && ' ' !in d + s
    requires SpaceFor(s) == symbol
    ensures ExpandRow(d + s) == Repeat(symbol, count)
  {
    CountedToken(d, s);
  }

  lemma OneSlash()
    ensures ExpandRow("1/") == "/"
  {
    var d, s := "1", "/";
    assert d + s == "1/";
    CountedTokenIs(d, s, 1, "/");
    assert Repeat("/", 1) == "/" + Repeat("/", 0);
  }

  lemma OneBackslash()
    ensures ExpandRow("1\\") == "\\"
  {
    var d, s := "1", "\\";
    assert d + s == "1\\";
    CountedTokenIs(d, s, 1, "\\");
    assert Repeat("\\", 1) == "\\" + Repeat("\\", 0);
  }

  lemma OneOpenParen()
    ensures ExpandRow("1(") == "("
  {
    var d, s := "1", "(";
    assert d + s == "1(";
    CountedTokenIs(d, s, 1, "(");
    assert Repeat("(", 1) == "(" + Repeat("(", 0);
  }

  lemma OneCloseParen()
    ensures ExpandRow("1)") == ")"
  {
    var d, s := "1", ")";
    assert d + s == "1)";
    CountedTokenIs(d, s, 1, ")");
    assert Repeat(")", 1) == ")" + Repeat(")", 0);
  }

  lemma FiveSpaces()
    ensures ExpandRow("5sp") == Repeat(" ", 5)
  {
    var d, s := "5", "sp";
    assert d + s == "5sp";
    CountedTokenIs(d, s, 5, " ");
  }

  lemma NineSpaces()
    ensures ExpandRow("9sp") == Repeat(" ", 9)
  {
    var d, s := "9", "sp";
    assert d + s == "9sp";
    CountedTokenIs(d, s, 9, " ");
  }

  lemma ThirtyHashes()
    ensures ExpandRow("30#") == Repeat("#", 30)
  {
    var d, s := "30", "#";
    assert d + s == "30#";
    assert DecimalValue(d) == 30 by { assert d[..1] == "3"; }
    CountedTokenIs(d, s, 30, "#");
  }

  lemma TwentyFourSpaces()
    ensures ExpandRow("24sp") == Repeat(" ", 24)
  {
    var d, s := "24", "sp";
    assert d + s == "24sp";
    assert DecimalValue(d) == 24 by { assert d[..1] == "2"; }
    CountedTokenIs(d, s, 24, " ");
  }

  /** The table has fourteen rows, labelled with their row numbers in order. */
  lemma CatRulesLabels()
    ensures |CatRules| == 14
    ensures forall i :: 0 <= i < |CatRules| ==> CatRules[i].0 == DecimalString(i + 1)
  {
    assert DecimalString(10) == "10" && DecimalString(11) == "11" && DecimalString(12) == "12";
    assert DecimalString(13) == "13" && DecimalString(14) == "14";
  }

  /** Row 4, `5sp 1/ 30# 1\`: five spaces, a slash, thirty `#` and a backslash. */
  lemma Row4()
    ensures CatRules[3] == ("4", "5sp 1/ 30# 1\\")
    ensures ExpandRow(CatRules[3].1) == Repeat(" ", 5) + ("/" + (Repeat("#", 30) + "\\"))
    ensures |ExpandRow(CatRules[3].1)| == 37
  {
    var a, b, c, d := "5sp", "1/", "30#", "1\\";
    assert CatRules[3].1 == a + " " + (b + " " + (c + " " + d));
    FourTokens(a, b, c, d);
    FiveSpaces();
    OneSlash();
    ThirtyHashes();
    OneBackslash();
  }

  /** Row 14, `9sp 1( 24sp 1)`: nine spaces, `(`, twenty-four spaces and `)`. */
  lemma Row14()
    ensures CatRules[13] == ("14", "9sp 1( 24sp 1)")
    ensures ExpandRow(CatRules[13].1) == Repeat(" ", 9) + ("(" + (Repeat(" ", 24) + ")"))
    ensures |ExpandRow(CatRules[13].1)| == 35
  {
    var a, b, c, d := "9sp", "1(", "24sp", "1)";
    assert CatRules[13].1 == a + " " + (b + " " + (c + " " + d));
    FourTokens(a, b, c, d);
    NineSpaces();
    OneOpenParen();
    TwentyFourSpaces();
    OneCloseParen();
  }
}
