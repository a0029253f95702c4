/**
 * The C library string primitives that opt.c relies on: `isdigit`, `isspace`,
 * `tolower`/`toupper` in the C locale, `strncasecmp(a, b, n) == 0` and a
 * decimal `strtol`. A C string is modelled by the characters before its
 * terminating NUL, so none of these strings holds a NUL of its own.
 */
module CString {

  /** `isdigit` in the C locale. */
  predicate IsDigit(c: char) {
    '0' <= c <= '9'
  }

  /** `isspace` in the C locale: blank, and tab through carriage return. */
  predicate IsSpace(c: char) {
    c == ' ' || 9 <= c as int <= 13
  }

  /** `tolower` in the C locale: only ASCII capitals change. */
  function Lower(c: char): char {
    if 'A' <= c <= 'Z' then (c as int - 'A' as int + 'a' as int) as char else c
  }

  /** `toupper` in the C locale: only ASCII small letters change. */
  function Upper(c: char): char {
    if 'a' <= c <= 'z' then (c as int - 'a' as int + 'A' as int) as char else c
  }

  predicate AllDigits(s: string) {
    forall i :: 0 <= i < |s| ==> IsDigit(s[i])
  }

  function DigitValue(c: char): nat
    requires IsDigit(c)
  {
    c as int - '0' as int
  }

  /** The number a run of decimal digits denotes, most significant first. */
  function DecimalValue(d: string): nat
    requires AllDigits(d)
  {
    if d == [] then 0 else DecimalValue(d[..|d| - 1]) * 10 + DigitValue(d[|d| - 1])
  }

  /**
   * `strncasecmp(a, b, n) == 0`: the first `n` characters agree up to case,
   * where running off the end of a string meets its NUL terminator.
   */
  function StrNCaseEq(a: string, b: string, n: nat): bool
  {
    if n == 0 then true
    else if |a| == 0 || |b| == 0 then |a| == 0 && |b| == 0
    else Lower(a[0]) == Lower(b[0]) && StrNCaseEq(a[1..], b[1..], n - 1)
  }

  /** `p` is a prefix of `s` when case is ignored. */
  predicate IsCasePrefix(p: string, s: string) {
    |p| <= |s| && forall i :: 0 <= i < |p| ==> Lower(p[i]) == Lower(s[i])
  }

  /**
   * When `n` does not run past both strings, the comparison succeeds exactly
   * when both strings have `n` characters that agree up to case.
   */
  lemma {:induction false} StrNCaseEqMeaning(a: string, b: string, n: nat)
    requires n <= |a| || n <= |b|
    ensures StrNCaseEq(a, b, n) <==>
              n <= |a| && n <= |b| && forall i :: 0 <= i < n ==> Lower(a[i]) == Lower(b[i])
  {
    if n > 0 && |a| > 0 && |b| > 0 {
      StrNCaseEqMeaning(a[1..], b[1..], n - 1);
      assert forall i :: 0 <= i < |a| - 1 ==> a[1..][i] == a[i + 1];
      assert forall i :: 0 <= i < |b| - 1 ==> b[1..][i] == b[i + 1];
    }
  }

  /** `strncasecmp(arg, word, strlen(arg)) == 0` says `arg` abbreviates `word`. */
  lemma StrNCaseEqPrefixOf(arg: string, word: string)
    ensures StrNCaseEq(arg, word, |arg|) <==> IsCasePrefix(arg, word)
  {
    StrNCaseEqMeaning(arg, word, |arg|);
  }

  /** `strncasecmp(s, word, strlen(word)) == 0` says `s` begins with `word`. */
  lemma StrNCaseEqStartsWith(s: string, word: string)
    ensures StrNCaseEq(s, word, |word|) <==> IsCasePrefix(word, s)
  {
    StrNCaseEqMeaning(s, word, |word|);
  }

  /** Index of the first non-space character at or after `i`. */
  function SkipSpace(s: string, i: nat): (j: nat)
    requires i <= |s|
    ensures i <= j <= |s|
    ensures forall k :: i <= k < j ==> IsSpace(s[k])
    ensures j < |s| ==> !IsSpace(s[j])
    decreases |s| - i
  {
    if i < |s| && IsSpace(s[i]) then SkipSpace(s, i + 1) else i
  }

  /** End of the maximal digit run starting at `i`. */
  function DigitEnd(s: string, i: nat): (j: nat)
    requires i <= |s|
    ensures i <= j <= |s|
    ensures AllDigits(s[i..j])
    ensures j < |s| ==> !IsDigit(s[j])
    decreases |s| - i
  {
    if i < |s| && IsDigit(s[i]) then
      var j := DigitEnd(s, i + 1);
      assert forall k :: 0 <= k < j - i ==> s[i..j][k] == s[i + k];
      j
    else i
  }

  /** What `strtol(s, &end, 10)` returns, and where `end` points. */
  datatype Conversion = Conversion(value: int, end: nat)

  /**
   * Decimal `strtol`: optional white space, an optional sign, then the
   * longest run of digits. Without digits nothing is consumed and the value
   * is 0. Overflow is not modelled.
   */
  function Strtol(s: string): (r: Conversion)
    ensures r.end <= |s|
    ensures r.end == 0 ==> r.value == 0
    ensures 0 < r.end ==> IsDigit(s[r.end - 1]) && (r.end < |s| ==> !IsDigit(s[r.end]))
  {
    var ws := SkipSpace(s, 0);
    var signed := ws < |s| && (s[ws] == '+' || s[ws] == '-');
    var ds := if signed then ws + 1 else ws;
    var de := DigitEnd(s, ds);
    if de == ds then Conversion(0, 0)
    else
      assert IsDigit(s[ds..de][de - ds - 1]);
      var v: int := DecimalValue(s[ds..de]);
      Conversion(if signed && s[ws] == '-' then -v else v, de)
  }

  /** The digit run starting at `i` ends at the first non-digit `j`. */
  lemma {:induction false} DigitEndAt(s: string, i: nat, j: nat)
    requires i <= j <= |s|
    requires forall k :: i <= k < j ==> IsDigit(s[k])
    requires j == |s| || !IsDigit(s[j])
    ensures DigitEnd(s, i) == j
    decreases j - i
  {
    if i < j { DigitEndAt(s, i + 1, j); }
  }

  /** The white space run starting at `i` ends at the first non-space `j`. */
  lemma {:induction false} SkipSpaceAt(s: string, i: nat, j: nat)
    requires i <= j <= |s|
    requires forall k :: i <= k < j ==> IsSpace(s[k])
    requires j == |s| || !IsSpace(s[j])
    ensures SkipSpace(s, i) == j
    decreases j - i
  {
    if i < j { SkipSpaceAt(s, i + 1, j); }
  }

  /** The optional sign `strtol` accepts after the white space. */
  predicate IsSign(sg: string) {
    sg == "" || sg == "+" || sg == "-"
  }

  predicate AllSpace(ws: string) {
    forall i :: 0 <= i < |ws| ==> IsSpace(ws[i])
  }

  /**
   * `strtol` read off a string's positions: white space up to `w`, a sign
   * exactly when `sgn`, then digits from `ds` up to the first non-digit `de`.
   */
  lemma StrtolAt(s: string, w: nat, sgn: bool, ds: nat, de: nat)
    requires w <= |s| && (forall k :: 0 <= k < w ==> IsSpace(s[k])) && (w < |s| ==> !IsSpace(s[w]))
    requires sgn == (w < |s| && (s[w] == '+' || s[w] == '-'))
    requires ds == (if sgn then w + 1 else w) && ds < de <= |s|
    requires (forall k :: ds <= k < de ==> IsDigit(s[k])) && (de == |s| || !IsDigit(s[de]))
    ensures AllDigits(s[ds..de])
    ensures Strtol(s) == Conversion(if sgn && s[w] == '-' then -(DecimalValue(s[ds..de]) as int)
                                    else DecimalValue(s[ds..de]) as int, de)
  {
    SkipSpaceAt(s, 0, w);
    DigitEndAt(s, ds, de);
  }

  /** Where the parts of `ws + sg + d + rest` sit in the whole. */
  lemma SignedLayout(ws: string, sg: string, d: string, rest: string)
    requires AllSpace(ws) && IsSign(sg)
    requires 0 < |d| && AllDigits(d)
    requires rest == [] || !IsDigit(rest[0])
    ensures var s := ws + sg + d + rest; var ds := |ws| + |sg|; var de := ds + |d|;
      && (forall k :: 0 <= k < |ws| ==> IsSpace(s[k]))
      && s[|ws|] == (if sg == "" then d[0] else sg[0])
      && (forall k :: ds <= k < de ==> IsDigit(s[k]))
      && (de < |s| ==> s[de] == rest[0])
      && s[ds..de] == d
  {
    var pre := ws + sg;
    var q := d + rest;
    var s := pre + q;
    assert s == ws + sg + d + rest;
    var ds := |pre|;
    var de := ds + |d|;
    forall k | 0 <= k < |ws| ensures IsSpace(s[k]) {
      assert s[k] == pre[k] == ws[k];
    }
    assert s[|ws|] == if sg == "" then d[0] else sg[0] by {
      if sg == "" { assert s[|ws|] == q[0] == d[0]; } else { assert s[|ws|] == pre[|ws|] == sg[0]; }
    }
    forall k | ds <= k < de ensures IsDigit(s[k]) {
      assert s[k] == q[k - ds] == d[k - ds];
    }
    assert de < |s| ==> s[de] == q[|d|] == rest[0];
    assert s[ds..de] == q[..|d|] == d;
  }

  /**
   * White space, an optional sign, digits, then anything that does not go
   * on with a digit: `strtol` converts the digits, negated after a minus,
   * and stops right after them.
   */
  lemma StrtolSigned(ws: string, sg: string, d: string, rest: string)
    requires AllSpace(ws) && IsSign(sg)
    requires 0 < |d| && AllDigits(d)
    requires rest == [] || !IsDigit(rest[0])
    ensures Strtol(ws + sg + d + rest)
              == Conversion(if sg == "-" then -(DecimalValue(d) as int) else DecimalValue(d) as int,
                            |ws| + |sg| + |d|)
  {
    SignedLayout(ws, sg, d, rest);
    StrtolAt(ws + sg + d + rest, |ws|, sg != "", |ws| + |sg|, |ws| + |sg| + |d|);
  }

  /**
   * Without a digit after the white space and the optional sign, `strtol`
   * converts nothing: the value is 0 and the end is the start of the text.
   */
  lemma StrtolNoDigits(ws: string, sg: string, rest: string)
    requires AllSpace(ws) && IsSign(sg)
    requires rest == [] || !IsDigit(rest[0])
    requires sg == "" && rest != [] ==> !IsSpace(rest[0]) && rest[0] != '+' && rest[0] != '-'
    ensures Strtol(ws + sg + rest) == Conversion(0, 0)
  {
    var s := ws + sg + rest;
    var ds := |ws| + |sg|;
    forall k | 0 <= k < |ws| ensures IsSpace(s[k]) { assert s[k] == ws[k]; }
    assert |ws| < |s| ==> s[|ws|] == if sg == "" then rest[0] else sg[0];
    SkipSpaceAt(s, 0, |ws|);
    assert ds < |s| ==> s[ds] == rest[0];
    DigitEndAt(s, ds, ds);
  }

  /**
   * A run of digits followed by something that is not a digit converts to
   * the run's value and stops right after it.
   */
  lemma StrtolDigitsThen(d: string, rest: string)
    requires 0 < |d| && AllDigits(d)
    requires rest == [] || !IsDigit(rest[0])
    ensures Strtol(d + rest) == Conversion(DecimalValue(d), |d|)
  {
    StrtolSigned("", "", d, rest);
    assert "" + "" + d + rest == d + rest;
  }

  /** Conversions with a sign. */
  lemma StrtolExamplesSigned()
    ensures Strtol("-5") == Conversion(-5, 2)
    ensures Strtol("+7") == Conversion(7, 2)
  {
    StrtolSigned("", "-", "5", "");
    assert "" + "-" + "5" + "" == "-5";
    StrtolSigned("", "+", "7", "");
    assert "" + "+" + "7" + "" == "+7";
    assert DecimalValue("5") == 5 && DecimalValue("7") == 7;
  }

  /** Leading white space is skipped; a sign without digits converts nothing. */
  lemma StrtolExamplesSpace()
    ensures Strtol(" 12x") == Conversion(12, 3)
    ensures Strtol(" -x") == Conversion(0, 0)
  {
    StrtolSigned(" ", "", "12", "x");
    assert " " + "" + "12" + "x" == " 12x";
    assert DecimalValue("12"[..1]) == 1;
    StrtolNoDigits(" ", "-", "x");
    assert " " + "-" + "x" == " -x";
  }

  /** A string of digits converts completely. */
  lemma StrtolDigits(d: string)
    requires 0 < |d| && AllDigits(d)
    ensures Strtol(d) == Conversion(DecimalValue(d), |d|)
  {
    StrtolDigitsThen(d, []);
    assert d + [] == d;
  }
}
