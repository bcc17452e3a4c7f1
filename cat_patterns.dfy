/** The run-length row expander `parseRowInstructions` and the `catRules` table
    of data/catPatterns.ts.

    A row instruction is a string of space-separated tokens. Each token is
    matched against the JavaScript regular expression `^(\d+)(.+)`: on a match,
    group 1 is a decimal repeat count and group 2 the symbol; a token that does
    not match is its own symbol, repeated once. The symbol `sp` stands for a
    space. The row is the concatenation of every token's expansion. */
module CatPatterns {

  import opened Wrappers

  // ---------------------------------------------------------------------------
  // Character classes of the regular expression
  // ---------------------------------------------------------------------------

  /** `\d` without the `u` flag: the ASCII digits only. */
  predicate IsDigit(c: char) {
    '0' <= c <= '9'
  }

  predicate AllDigits(s: string) {
    forall i :: 0 <= i < |s| ==> IsDigit(s[i])
  }

  /** The characters that JavaScript's `.` does not match (ECMAScript LineTerminator). */
  predicate IsLineTerminator(c: char) {
    c == '\n' || c == '\r' || c == '\U{2028}' || c == '\U{2029}'
  }

  predicate NoLineTerminator(s: string) {
    forall i :: 0 <= i < |s| ==> !IsLineTerminator(s[i])
  }

  // ---------------------------------------------------------------------------
  // String.prototype.split(' ') and String.prototype.repeat
  // ---------------------------------------------------------------------------

  /** Index of the first space of `s`. */
  function FirstSpace(s: string): (i: nat)
    requires ' ' in s
    ensures i < |s| && s[i] == ' ' && ' ' !in s[..i]
  {
    if s[0] == ' ' then 0
    else
      assert ' ' in s[1..] by { var k :| 0 <= k < |s| && s[k] == ' '; assert s[1..][k - 1] == ' '; }
      var j := FirstSpace(s[1..]);
      assert s[..j + 1] == [s[0]] + s[1..][..j];
      j + 1
  }

  /** Joins non-empty lists of tokens with single spaces: the inverse of `Split`. */
  function JoinWithSpaces(tokens: seq<string>): string
    requires |tokens| >= 1
  {
    if |tokens| == 1 then tokens[0] else tokens[0] + " " + JoinWithSpaces(tokens[1..])
  }

  /** `s.split(' ')`: the pieces between single spaces. There is always at
      least one token, the empty string giving `[""]`, and two adjacent spaces
      give an empty token between them. */
  function Split(s: string): (tokens: seq<string>)
    ensures |tokens| >= 1
    decreases |s|
  {
    if ' ' !in s then [s]
    else
      var i := FirstSpace(s);
      [s[..i]] + Split(s[i + 1..])
  }

  /** `symbol.repeat(count)`: `count` copies of `symbol`, one after another. */
  function Repeat(symbol: string, count: nat): (r: string)
    ensures |r| == count * |symbol|
  {
    if count == 0 then "" else symbol + Repeat(symbol, count - 1)
  }

  // ---------------------------------------------------------------------------
  // parseInt(digits, 10)
  // ---------------------------------------------------------------------------

  function Pow10(k: nat): (p: nat)
    ensures p >= 1
  {
    if k == 0 then 1 else 10 * Pow10(k - 1)
  }

  /** The value of a run of decimal digits, most significant first; leading
      zeros are allowed. A run of `k` digits is below `10^k`. */
  function DecimalValue(digits: string): (n: nat)
    requires AllDigits(digits)
    ensures n < Pow10(|digits|)
  {
    if digits == [] then 0
    else
      var last := digits[|digits| - 1];
      DecimalValue(digits[..|digits| - 1]) * 10 + (last as int - '0' as int)
  }

  // ---------------------------------------------------------------------------
  // token.match(/^(\d+)(.+)/)
  // ---------------------------------------------------------------------------

  /** The first `k` characters of `t` are digits. */
  predicate DigitsBefore(t: string, k: nat)
    requires k <= |t|
  {
    forall i :: 0 <= i < k ==> IsDigit(t[i])
  }

  /** End of the run of digits that starts at index `i` of the token. */
  function DigitEnd(t: string, i: nat): (k: nat)
    requires i <= |t|
    ensures i <= k <= |t|
    ensures forall j :: i <= j < k ==> IsDigit(t[j])
    ensures k < |t| ==> !IsDigit(t[k])
    decreases |t| - i
  {
    if i < |t| && IsDigit(t[i]) then DigitEnd(t, i + 1) else i
  }

  /** Length of the run of digits that starts the token. */
  function DigitRun(t: string): (k: nat)
    ensures k <= |t| && DigitsBefore(t, k)
    ensures k < |t| ==> !IsDigit(t[k])
  {
    DigitEnd(t, 0)
  }

  /** End of the run of characters that `.` matches from index `i` on. */
  function DotEnd(t: string, i: nat): (k: nat)
    requires i <= |t|
    ensures i <= k <= |t|
    ensures forall j :: i <= j < k ==> !IsLineTerminator(t[j])
    ensures k < |t| ==> IsLineTerminator(t[k])
    decreases |t| - i
  {
    if i < |t| && !IsLineTerminator(t[i]) then DotEnd(t, i + 1) else i
  }

  /** `^(\d+)(.+)` can match the token with group 1 equal to `t[..k]`: the
      first `k` characters are digits and `.+` finds at least one character
      after them. */
  predicate CanMatchAt(t: string, k: int) {
    1 <= k < |t| && DigitsBefore(t, k) && !IsLineTerminator(t[k])
  }

  /** The backtracking of the greedy `\d+`: try group 1 of length `k`, then
      give back one digit at a time, down to a single digit. */
  function Backtrack(t: string, k: nat): (r: Option<nat>)
    ensures r.Some? ==> 1 <= r.value <= k && CanMatchAt(t, r.value)
  {
    if k == 0 then None
    else if CanMatchAt(t, k) then Some(k)
    else Backtrack(t, k - 1)
  }

  /** The two capture groups of a successful match. */
  datatype TokenMatch = TokenMatch(digits: string, symbol: string)

  /** `token.match(/^(\d+)(.+)/)`: group 1 is found by `Backtrack` from the
      whole leading digit run, group 2 is the run of characters `.` accepts
      after it (there is no `$`, so anything from the first line terminator on
      is ignored). `MatchTokenSemantics` states what this means. */
  function MatchToken(t: string): (m: Option<TokenMatch>)
    ensures m.Some? ==> |m.value.digits| >= 1 && AllDigits(m.value.digits) && m.value.symbol != []
  {
    match Backtrack(t, DigitRun(t))
    case None => None
    case Some(k) => Some(TokenMatch(t[..k], t[k..DotEnd(t, k)]))
  }

  // ---------------------------------------------------------------------------
  // The expansion, as a specification
  // ---------------------------------------------------------------------------

  /** The `count` and `symbol` the loop body settles on for one token, before
      the `sp` substitution: the two groups on a match, `1` and the token
      itself otherwise. */
  function TokenParts(t: string): (parts: (nat, string))
    ensures parts.1 == "" <==> t == ""
    ensures exists k :: 0 <= k <= |t| && parts.1 <= t[k..]
  {
    match MatchToken(t)
    case Some(m) =>
      var k := |m.digits|;
      assert m.symbol <= t[k..];
      (DecimalValue(m.digits), m.symbol)
    case None =>
      assert t <= t[0..];
      (1, t)
  }

  /** `if (symbol === 'sp') symbol = ' '`. */
  function SpaceFor(symbol: string): (r: string)
    ensures r == " " <==> symbol == "sp" || symbol == " "
    ensures symbol != "sp" ==> r == symbol
  {
    if symbol == "sp" then " " else symbol
  }

  /** What one token appends to the row. */
  function ExpandToken(t: string): (r: string)
    ensures |r| == TokenParts(t).0 * |SpaceFor(TokenParts(t).1)|
    ensures MatchToken(t).None? ==> r == SpaceFor(t)
  {
    var (count, symbol) := TokenParts(t);
    assert Repeat(SpaceFor(symbol), 1) == SpaceFor(symbol) + "";
    Repeat(SpaceFor(symbol), count)
  }

  /** `f` applied to each token, the results concatenated in token order. */
  function ConcatMap(f: string -> string, tokens: seq<string>): string {
    if tokens == [] then ""
    else ConcatMap(f, tokens[..|tokens| - 1]) + f(tokens[|tokens| - 1])
  }

  /** The row `parseRowInstructions(instructions)` returns. */
  function ExpandRow(instructions: string): (row: string)
    ensures ' ' !in instructions ==> row == ExpandToken(instructions)
  {
    var tokens := Split(instructions);
    if ' ' in instructions then ConcatMap(ExpandToken, tokens)
    else
      assert tokens == [instructions] && tokens[..0] == [];
      assert ConcatMap(ExpandToken, tokens) == "" + ExpandToken(instructions);
      ConcatMap(ExpandToken, tokens)
  }

  // ---------------------------------------------------------------------------
  // The parser itself
  // ---------------------------------------------------------------------------

  /** `parseRowInstructions`: a loop over the tokens that settles `count` and
      `symbol` for each and appends `symbol.repeat(count)` to the row. */
  method ParseRowInstructions(instructions: string) returns (rowStr: string)
    ensures rowStr == ExpandRow(instructions)
  {
    var tokens := Split(instructions);
    rowStr := "";
    for i := 0 to |tokens|
      invariant rowStr == ConcatMap(ExpandToken, tokens[..i])
    {
      var token := tokens[i];
      var count: nat := 1;
      var symbol := "";
      var match_ := MatchToken(token);
      if match_.Some? {
        count := DecimalValue(match_.value.digits);
        symbol := match_.value.symbol;
      } else {
        symbol := token;
      }
      if symbol == "sp" {
        symbol := " ";
      }
      rowStr := rowStr + Repeat(symbol, count);
      assert tokens[..i + 1][..i] == tokens[..i];
    }
    assert tokens[..|tokens|] == tokens;
  }

  // ---------------------------------------------------------------------------
  // The pattern table
  // ---------------------------------------------------------------------------

  /** `catRules`: label and row instruction for each of the fourteen rows. */
  const CatRules: seq<(string, string)> := [
    ("1", "8sp 1/ 1\\ 13sp 1/ 1\\"),
    ("2", "7sp 1/ 2# 1\\ 11sp 1/ 2# 1\\"),
    ("3", "6sp 1/ 4# 1\\ 9sp 1/ 4# 1\\"),
    ("4", "5sp 1/ 30# 1\\"),
    ("5", "4sp 1/ 32# 1\\"),
    ("6", "3sp 1| 6# 1( 3_ 1) 12# 1( 3_ 1) 6# 1|"),
    ("7", "3sp 1| 6# 1| 1sp 1O 1sp 1| 12# 1| 1sp 1O 1sp 1| 6# 1|"),
    ("8", "3sp 1| 4= 2# 1\\ 3_ 1/ 4# 1. 1. 4# 1\\ 3_ 1/ 2# 4= 1|"),
    ("9", "4sp 1\\ 36# 1/"),
    ("10", "5sp 1\\ 15# 1w 1w 15# 1/"),
    ("11", "6sp 1\\ 30# 1/"),
    ("12", "7sp 1\\ 28# 1/"),
    ("13", "8sp 1( 26# 1)"),
    ("14", "9sp 1( 24sp 1)")
  ]
}
