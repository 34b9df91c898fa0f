/**
 * The JavaScript value semantics the import code relies on: spreadsheet
 * cells, truthiness and the `||` chain, `String(v)`, `trim()`,
 * `toLowerCase()` and `slice(0, n)`.
 */
module JsValues {

  /** One spreadsheet cell as the sheet reader hands it over. `Empty` is
      `undefined`, the value of a column the sheet does not have. */
  datatype Cell = Str(s: string) | Num(n: int) | Bool(b: bool) | Empty

  /** A spreadsheet row: column name to cell. */
  type Row = map<string, Cell>

  /** `row[column]`: a missing column reads as `undefined`. */
  function Get(row: Row, column: string): (c: Cell)
    ensures column !in row ==> c == Empty
  {
    if column in row then row[column] else Empty
  }

  /** JavaScript truthiness: `''`, `0`, `false` and `undefined` are falsy. */
  predicate Truthy(c: Cell) {
    match c
    case Str(s) => s != ""
    case Num(n) => n != 0
    case Bool(b) => b
    case Empty => false
  }

  /** `a || b || ... || fallback`: the first truthy cell, else the fallback. */
  function FirstTruthy(cells: seq<Cell>, fallback: Cell): (r: Cell)
    ensures (forall i :: 0 <= i < |cells| ==> !Truthy(cells[i])) ==> r == fallback
    ensures forall j :: 0 <= j < |cells| ==>
              (Truthy(cells[j]) && forall i :: 0 <= i < j ==> !Truthy(cells[i])) ==> r == cells[j]
  {
    if |cells| == 0 then fallback
    else if Truthy(cells[0]) then cells[0]
    else FirstTruthy(cells[1..], fallback)
  }

  // ---------------------------------------------------------------- String(v)

  predicate IsDigit(c: char) { '0' <= c <= '9' }

  /** The number a string of decimal digits denotes. */
  function DigitsValue(r: string): nat
    requires forall i :: 0 <= i < |r| ==> IsDigit(r[i])
  {
    if r == [] then 0
    else
      var d := r[|r| - 1];
      assert IsDigit(d);
      DigitsValue(r[..|r| - 1]) * 10 + (d as int - '0' as int)
  }

  /** The decimal digits of a non-negative integer, most significant first:
      they denote `n`, and only `0` itself starts with a zero. */
  function Digits(n: nat): (r: string)
    ensures |r| > 0
    ensures forall i :: 0 <= i < |r| ==> IsDigit(r[i])
    ensures DigitsValue(r) == n
    ensures r[0] == '0' ==> n == 0
  {
    var d := ['0', '1', '2', '3', '4', '5', '6', '7', '8', '9'][n % 10];
    if n < 10 then [d]
    else
      var r := Digits(n / 10) + [d];
      assert r[..|r| - 1] == Digits(n / 10);
      r
  }

  /** `String(n)` for an integer number: a minus sign exactly for a negative
      number, then the digits of its magnitude without a leading zero. */
  function Decimal(n: int): (r: string)
    ensures |r| > 0
    ensures forall i :: 0 <= i < |r| ==> IsDigit(r[i]) || (i == 0 && r[i] == '-')
    ensures r[0] == '-' <==> n < 0
    ensures n < 0 ==> |r| > 1 && r[1] != '0' && DigitsValue(r[1..]) == -n
    ensures n >= 0 ==> DigitsValue(r) == n && (r[0] == '0' ==> r == "0")
  {
    if n < 0 then
      var r := "-" + Digits(-n);
      assert r[1..] == Digits(-n);
      r
    else Digits(n)
  }

  /** `String(v)` (and `v.toString()` where `v` is not `undefined`). */
  function Text(c: Cell): (r: string)
    ensures c.Str? ==> r == c.s
  {
    match c
    case Str(s) => s
    case Num(n) => Decimal(n)
    case Bool(b) => if b then "true" else "false"
    case Empty => "undefined"
  }

  // ---------------------------------------------------------- toLowerCase()

  /** The upper-case letters whose lower-case form the model knows:
      Latin A-Z, Latin-1 À-Þ (but not ×), and the basic Cyrillic capitals
      Ѐ-Я (U+0400-U+042F). */
  predicate IsUpper(c: char) {
    'A' <= c <= 'Z' || ('À' <= c <= 'Þ' && c != '×') || 'Ѐ' <= c <= 'Я'
  }

  function LowerChar(c: char): (r: char)
    ensures !IsUpper(r)
    ensures !IsUpper(c) ==> r == c
  {
    if 'A' <= c <= 'Z' || ('À' <= c <= 'Þ' && c != '×') || 'А' <= c <= 'Я' then
      (c as int + 32) as char
    else if 'Ѐ' <= c <= 'Џ' then
      (c as int + 80) as char
    else c
  }

  /** `s.toLowerCase()`, character by character. */
  function Lower(s: string): (r: string)
    ensures |r| == |s|
    ensures forall i :: 0 <= i < |s| ==> r[i] == LowerChar(s[i])
  {
    seq(|s|, i requires 0 <= i < |s| => LowerChar(s[i]))
  }

  /** Lower-casing never makes or removes white space. */
  lemma LowerCharSpace(c: char)
    ensures IsSpace(LowerChar(c)) <==> IsSpace(c)
  {
  }

  /** A string with no upper-case letter is its own lower-case form; in
      particular lower-casing twice is lower-casing once. */
  lemma LowerOfLower(s: string)
    requires forall i :: 0 <= i < |s| ==> !IsUpper(s[i])
    ensures Lower(s) == s
  {
  }

  lemma LowerIdempotent(s: string)
    ensures Lower(Lower(s)) == Lower(s)
  {
    LowerOfLower(Lower(s));
  }

  // ----------------------------------------------------------------- trim()

  /** ECMAScript WhiteSpace and LineTerminator code points, which `trim()`
      removes from both ends. */
  predicate IsSpace(c: char) {
    c == '\t' || c == '\n' || c == '\U{000B}' || c == '\U{000C}' || c == '\r' ||
    c == ' ' || c == '\U{00A0}' || c == '\U{1680}' || '\U{2000}' <= c <= '\U{200A}' ||
    c == '\U{2028}' || c == '\U{2029}' || c == '\U{202F}' || c == '\U{205F}' ||
    c == '\U{3000}' || c == '\U{FEFF}'
  }

  predicate AllSpace(s: string) {
    forall i :: 0 <= i < |s| ==> IsSpace(s[i])
  }

  /** `s` without its leading white space. */
  function TrimStart(s: string): (r: string)
    ensures |r| <= |s| && r == s[|s| - |r|..]
    ensures AllSpace(s[..|s| - |r|])
    ensures r != [] ==> !IsSpace(r[0])
  {
    if |s| > 0 && IsSpace(s[0]) then
      var r := TrimStart(s[1..]);
      assert s[..|s| - |r|] == [s[0]] + s[1..][..|s| - 1 - |r|];
      r
    else s
  }

  /** `s` without its trailing white space. */
  function TrimEnd(s: string): (r: string)
    ensures |r| <= |s| && r == s[..|r|]
    ensures AllSpace(s[|r|..])
    ensures r != [] ==> !IsSpace(r[|r| - 1])
  {
    if |s| > 0 && IsSpace(s[|s| - 1]) then
      var r := TrimEnd(s[..|s| - 1]);
      assert s[|r|..] == s[..|s| - 1][|r|..] + [s[|s| - 1]];
      r
    else s
  }

  /** `s.trim()`: white space removed from both ends; the result is empty
      exactly when `s` is all white space. */
  function Trim(s: string): (r: string)
    ensures |r| <= |s|
    ensures r != [] ==> !IsSpace(r[0]) && !IsSpace(r[|r| - 1])
    ensures r == [] <==> AllSpace(s)
  {
    var t := TrimStart(s);
    var r := TrimEnd(t);
    assert r != [] ==> r[0] == t[0];
    TrimToNothing(s);
    r
  }

  /** `s.trim()` is the part of `s` after its leading white space, and only
      white space follows it. */
  lemma TrimIsInfix(s: string)
    ensures Lead(s) + |Trim(s)| <= |s| && Trim(s) == s[Lead(s)..Lead(s) + |Trim(s)|]
    ensures AllSpace(s[..Lead(s)]) && AllSpace(s[Lead(s) + |Trim(s)|..])
  {
    TrimInfix(s, TrimStart(s), Trim(s));
  }

  /** The number of white-space characters `s` starts with. */
  function Lead(s: string): (n: nat)
    ensures n <= |s| && AllSpace(s[..n])
    ensures n < |s| ==> !IsSpace(s[n])
  {
    |s| - |TrimStart(s)|
  }

  /** A suffix `t` of `s` after white space, cut down to a prefix `r` before
      white space, sits in `s` right after that leading white space. */
  lemma TrimInfix(s: string, t: string, r: string)
    requires |t| <= |s| && t == s[|s| - |t|..]
    requires |r| <= |t| && r == t[..|r|] && AllSpace(t[|r|..])
    ensures r == s[|s| - |t|..|s| - |t| + |r|]
    ensures AllSpace(s[|s| - |t| + |r|..])
  {
    var i := |s| - |t|;
    assert s[i..i + |r|] == t[..|r|];
    assert s[i + |r|..] == t[|r|..];
  }

  /** Only white space trims to nothing. */
  lemma TrimToNothing(s: string)
    ensures TrimEnd(TrimStart(s)) == [] <==> AllSpace(s)
  {
    TrimmedAwayIsSpace(s);
    SpaceIsTrimmedAway(s);
  }

  lemma TrimmedAwayIsSpace(s: string)
    ensures TrimEnd(TrimStart(s)) == [] ==> AllSpace(s)
  {
    var t := TrimStart(s);
    var k := |s| - |t|;
    assert s == s[..k] + t;
    assert t[0..] == t;
    AllSpaceConcat(s[..k], t);
  }

  lemma AllSpaceConcat(a: string, b: string)
    ensures AllSpace(a) && AllSpace(b) ==> AllSpace(a + b)
  {
    assert forall i :: |a| <= i < |a + b| ==> (a + b)[i] == b[i - |a|];
  }

  lemma SpaceIsTrimmedAway(s: string)
    ensures AllSpace(s) ==> TrimStart(s) == []
  {
    var t := TrimStart(s);
    assert t != [] ==> t[0] == s[|s| - |t|];
  }

  lemma {:induction false} TrimNoEdgeSpace(s: string)
    requires s != [] ==> !IsSpace(s[0]) && !IsSpace(s[|s| - 1])
    ensures Trim(s) == s
  {
  }

  /** Trimming twice is trimming once. */
  lemma TrimIdempotent(s: string)
    ensures Trim(Trim(s)) == Trim(s)
  {
    TrimNoEdgeSpace(Trim(s));
  }

  // ------------------------------------------------------------ slice(0, n)

  /** `s.slice(0, n)`: the longest prefix of `s` that has at most `n` characters. */
  function Truncate(s: string, n: nat): (r: string)
    ensures |r| == if |s| <= n then |s| else n
    ensures r <= s
  {
    if |s| <= n then s else s[..n]
  }
}
