/**
 * The few Python string and path built-ins the orchestration code relies on:
 * `str.isspace`, `str.strip`, `bytes.strip`, the tokens that `re.findall("\S+", ...)`
 * returns, `int(...)` on a decimal string, `str.replace` and `posixpath.join`.
 */
module PyText {
  import opened Wrappers

  /** `str.isspace()` for one character, as CPython defines it (also the `\s` of `re`). */
  predicate IsSpace(c: char) {
    var n := c as int;
    (9 <= n <= 13) || (28 <= n <= 32) || n == 0x85 || n == 0xA0 || n == 0x1680 ||
    (0x2000 <= n <= 0x200A) || n == 0x2028 || n == 0x2029 || n == 0x202F ||
    n == 0x205F || n == 0x3000
  }

  predicate IsNonSpace(c: char) {
    !IsSpace(c)
  }

  /** The whitespace that `bytes.strip()` removes: space, `\t`, `\n`, `\r`, `\v`, `\f`. */
  predicate IsAsciiSpace(c: char) {
    c == ' ' || c == '\t' || c == '\n' || c == '\r' || c as int == 11 || c as int == 12
  }

  predicate IsDigit(c: char) {
    '0' <= c <= '9'
  }

  predicate AllDigits(s: string) {
    forall k :: 0 <= k < |s| ==> IsDigit(s[k])
  }

  /** The end of the longest run of characters satisfying `p` that starts at `i`. */
  function SpanWhile(s: string, i: nat, p: char -> bool): (j: nat)
    requires i <= |s|
    ensures i <= j <= |s|
    ensures forall k :: i <= k < j ==> p(s[k])
    ensures j < |s| ==> !p(s[j])
    decreases |s| - i
  {
    if i < |s| && p(s[i]) then SpanWhile(s, i + 1, p) else i
  }

  /** The start of the longest run of characters satisfying `p` that ends at `j`. */
  function SpanBackWhile(s: string, j: nat, p: char -> bool): (i: nat)
    requires j <= |s|
    ensures i <= j
    ensures forall k :: i <= k < j ==> p(s[k])
    ensures 0 < i ==> !p(s[i - 1])
  {
    if 0 < j && p(s[j - 1]) then SpanBackWhile(s, j - 1, p) else j
  }

  /** Removes leading and trailing characters satisfying `ws`. */
  function StripWith(s: string, ws: char -> bool): (r: string)
    ensures exists i, j :: 0 <= i <= j <= |s| && r == s[i..j] &&
              (forall k :: 0 <= k < i ==> ws(s[k])) &&
              (forall k :: j <= k < |s| ==> ws(s[k]))
    ensures r != [] ==> !ws(r[0]) && !ws(r[|r| - 1])
    ensures r == [] <==> forall k :: 0 <= k < |s| ==> ws(s[k])
  {
    var i := SpanWhile(s, 0, ws);
    var j := SpanBackWhile(s, |s|, ws);
    if j <= i then
      assert forall k :: 0 <= k < |s| ==> ws(s[k]) by {
        forall k | 0 <= k < |s| ensures ws(s[k]) {
          if k >= i { assert k >= j; }
        }
      }
      assert s[0..0] == [];
      []
    else
      s[i..j]
  }

  /** `str.strip()`. */
  function Strip(s: string): string {
    StripWith(s, IsSpace)
  }

  /** `bytes.strip()`. */
  function StripBytes(s: string): string {
    StripWith(s, IsAsciiSpace)
  }

  /** The maximal runs of non-whitespace, in order: what `re.findall("\S+", s)` returns. */
  function Tokens(s: string): seq<string>
    decreases |s|
  {
    if s == [] then []
    else if IsSpace(s[0]) then Tokens(s[1..])
    else
      var j := SpanWhile(s, 0, IsNonSpace);
      assert j > 0;
      [s[..j]] + Tokens(s[j..])
  }

  /** Every token is a non-empty run of non-whitespace characters. */
  lemma {:induction false} TokensAreWords(s: string, k: nat)
    requires k < |Tokens(s)|
    ensures Tokens(s)[k] != [] && forall m :: 0 <= m < |Tokens(s)[k]| ==> !IsSpace(Tokens(s)[k][m])
    decreases |s|
  {
    if IsSpace(s[0]) {
      TokensAreWords(s[1..], k);
    } else if k > 0 {
      var j := SpanWhile(s, 0, IsNonSpace);
      TokensAreWords(s[j..], k - 1);
    }
  }

  /** A line has no tokens exactly when it is all whitespace. */
  lemma {:induction false} TokensEmptyIffBlank(s: string)
    ensures Tokens(s) == [] <==> forall k :: 0 <= k < |s| ==> IsSpace(s[k])
    decreases |s|
  {
    if s != [] && IsSpace(s[0]) {
      TokensEmptyIffBlank(s[1..]);
      assert forall k :: 1 <= k < |s| ==> s[k] == s[1..][k - 1];
    }
  }

  /** The value of a string of decimal digits. */
  function DigitsValue(s: string): nat
    requires AllDigits(s)
  {
    if s == [] then 0 else DigitsValue(s[..|s| - 1]) * 10 + (s[|s| - 1] as int - '0' as int)
  }

  /**
   * `int(s)` on an already stripped string: an optional sign followed by decimal digits;
   * anything else is the ValueError that `int` raises (None here).
   */
  function ParseInt(s: string): (r: Option<int>)
    ensures r.Some? <==> (s != [] && AllDigits(s)) ||
                         (|s| > 1 && (s[0] == '+' || s[0] == '-') && AllDigits(s[1..]))
  {
    if |s| > 0 && (s[0] == '+' || s[0] == '-') then
      var d := s[1..];
      if d != [] && AllDigits(d) then
        Some(if s[0] == '-' then 0 - DigitsValue(d) as int else DigitsValue(d) as int)
      else
        None
    else if s != [] && AllDigits(s) then
      Some(DigitsValue(s))
    else
      None
  }

  /** `pat` occurs in `s` starting at position `i`. */
  predicate OccursAt(s: string, pat: string, i: nat) {
    i + |pat| <= |s| && s[i..i + |pat|] == pat
  }

  /** `s.replace(key, repl)` for a non-empty `key`: every occurrence, left to right, without overlap. */
  function ReplaceAll(s: string, key: string, repl: string): string
    requires key != []
    decreases |s|
  {
    if |s| < |key| then s
    else if s[..|key|] == key then repl + ReplaceAll(s[|key|..], key, repl)
    else [s[0]] + ReplaceAll(s[1..], key, repl)
  }

  /** A string in which `key` does not occur is left as it is by `replace`. */
  lemma {:induction false} ReplaceAbsent(s: string, key: string, repl: string)
    requires key != []
    requires forall i :: 0 <= i <= |s| - |key| ==> !OccursAt(s, key, i)
    ensures ReplaceAll(s, key, repl) == s
    decreases |s|
  {
    if |s| >= |key| {
      assert !OccursAt(s, key, 0);
      assert s[..|key|] != key;
      forall i | 0 <= i <= |s[1..]| - |key| ensures !OccursAt(s[1..], key, i) {
        assert !OccursAt(s, key, i + 1);
        assert s[1..][i..i + |key|] == s[i + 1..i + 1 + |key|];
      }
      ReplaceAbsent(s[1..], key, repl);
    }
  }

  /** `os.path.isabs` on POSIX. */
  predicate IsAbs(p: string) {
    |p| > 0 && p[0] == '/'
  }

  /** `posixpath.join(a, b)`: an absolute `b` replaces `a`; otherwise one separator joins them. */
  function Join(a: string, b: string): (r: string)
    ensures IsAbs(b) ==> r == b
    ensures !IsAbs(b) ==> |a| + |b| <= |r| && r[..|a|] == a && r[|r| - |b|..] == b
    ensures !IsAbs(b) && a != [] && a[|a| - 1] != '/' ==> r == a + "/" + b
  {
    if IsAbs(b) then b
    else if a == [] || a[|a| - 1] == '/' then a + b
    else a + "/" + b
  }

  /** `str(n)` for an integer: decimal digits, with a leading `-` when negative. */
  function DecimalString(n: int): string {
    if n < 0 then "-" + NatDigits(-n) else NatDigits(n)
  }

  function NatDigits(n: nat): (r: string)
    ensures r != [] && AllDigits(r)
  {
    var d := [(n % 10 + '0' as int) as char];
    if n < 10 then d else NatDigits(n / 10) + d
  }

  lemma {:induction false} NatDigitsValue(n: nat)
    ensures DigitsValue(NatDigits(n)) == n
  {
    var r := NatDigits(n);
    if n >= 10 {
      NatDigitsValue(n / 10);
      assert r[..|r| - 1] == NatDigits(n / 10);
    }
  }

  /** `int(str(n)) == n`. */
  lemma ParseDecimalString(n: int)
    ensures ParseInt(DecimalString(n)) == Some(n)
  {
    if n < 0 {
      NatDigitsValue(-n);
      assert DecimalString(n)[1..] == NatDigits(-n);
    } else {
      NatDigitsValue(n);
    }
  }

  /** Words separated by single spaces. */
  function JoinWords(ws: seq<string>): string {
    if |ws| == 0 then "" else if |ws| == 1 then ws[0] else ws[0] + " " + JoinWords(ws[1..])
  }

  predicate IsWord(w: string) {
    w != [] && forall m :: 0 <= m < |w| ==> !IsSpace(w[m])
  }

  /** Leading whitespace does not change the tokens. */
  lemma TokensSkipSpace(c: char, s: string)
    requires IsSpace(c)
    ensures Tokens([c] + s) == Tokens(s)
  {
    assert ([c] + s)[1..] == s;
  }

  lemma {:induction false} SpanOverWord(w: string, rest: string, i: nat)
    requires IsWord(w) && i <= |w|
    requires rest == [] || IsSpace(rest[0])
    ensures SpanWhile(w + rest, i, IsNonSpace) == |w|
    decreases |w| - i
  {
    if i < |w| {
      SpanOverWord(w, rest, i + 1);
    }
  }

  /** Splitting words joined by spaces gives the words back. */
  lemma {:induction false} TokensOfJoinWords(ws: seq<string>)
    requires forall k :: 0 <= k < |ws| ==> IsWord(ws[k])
    ensures Tokens(JoinWords(ws)) == ws
  {
    if |ws| == 1 {
      var w := ws[0];
      SpanOverWord(w, "", 0);
      assert w + "" == w;
      assert !IsSpace(w[0]);
      assert w[..|w|] == w && w[|w|..] == [];
    } else if |ws| > 1 {
      var w, rest := ws[0], JoinWords(ws[1..]);
      var s := w + " " + rest;
      assert s == w + ([' '] + rest);
      SpanOverWord(w, [' '] + rest, 0);
      assert s[0] == w[0] && !IsSpace(s[0]);
      assert s[..|w|] == w;
      assert s[|w|..] == [' '] + rest;
      TokensSkipSpace(' ', rest);
      TokensOfJoinWords(ws[1..]);
    }
  }
}
