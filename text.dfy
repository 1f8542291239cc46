/** The JavaScript string operations the modelled code relies on: `trim`,
    `indexOf`, `split` with a non-empty separator, `Array.prototype.join`
    and `String(n)` for integers. */
module Text {
  import opened Wrappers

  /** ECMAScript's WhiteSpace and LineTerminator code points, the set `trim` removes. */
  predicate IsWhitespace(c: char) {
    c == '\t' || c == '\n' || c == '\U{B}' || c == '\U{C}' || c == '\r' || c == ' '
    || c == '\U{A0}' || c == '\U{1680}' || ('\U{2000}' <= c <= '\U{200A}')
    || c == '\U{2028}' || c == '\U{2029}' || c == '\U{202F}' || c == '\U{205F}'
    || c == '\U{3000}' || c == '\U{FEFF}'
  }

  predicate AllWhitespace(s: string) {
    forall i :: 0 <= i < |s| ==> IsWhitespace(s[i])
  }

  /** `s.trimStart()`: `s` minus its longest all-whitespace prefix. */
  function TrimStart(s: string): string
    decreases |s|
  {
    if s != [] && IsWhitespace(s[0]) then TrimStart(s[1..]) else s
  }

  /** `s.trimEnd()`: `s` minus its longest all-whitespace suffix. */
  function TrimEnd(s: string): string
    decreases |s|
  {
    if s != [] && IsWhitespace(s[|s| - 1]) then TrimEnd(s[..|s| - 1]) else s
  }

  /** `trimStart` removes a whitespace-only prefix and stops at the first other character. */
  lemma {:induction false} TrimStartRemovesPrefix(s: string)
    ensures |TrimStart(s)| <= |s| && TrimStart(s) == s[|s| - |TrimStart(s)|..]
    ensures AllWhitespace(s[..|s| - |TrimStart(s)|])
    ensures TrimStart(s) == [] || !IsWhitespace(TrimStart(s)[0])
    decreases |s|
  {
    if s != [] && IsWhitespace(s[0]) {
      TrimStartRemovesPrefix(s[1..]);
      var r := TrimStart(s[1..]);
      assert s[1..][|s[1..]| - |r|..] == s[|s| - |r|..];
      assert s[..|s| - |r|] == [s[0]] + s[1..][..|s[1..]| - |r|];
    }
  }

  /** `trimEnd` removes a whitespace-only suffix and stops at the last other character. */
  lemma {:induction false} TrimEndRemovesSuffix(s: string)
    ensures |TrimEnd(s)| <= |s| && TrimEnd(s) == s[..|TrimEnd(s)|]
    ensures AllWhitespace(s[|TrimEnd(s)|..])
    ensures TrimEnd(s) == [] || !IsWhitespace(TrimEnd(s)[|TrimEnd(s)| - 1])
    decreases |s|
  {
    if s != [] && IsWhitespace(s[|s| - 1]) {
      TrimEndRemovesSuffix(s[..|s| - 1]);
      var r := TrimEnd(s[..|s| - 1]);
      assert s[..|s| - 1][..|r|] == s[..|r|];
      assert s[|r|..] == s[..|s| - 1][|r|..] + [s[|s| - 1]];
    }
  }

  /** `s.trim()`. */
  function Trim(s: string): string {
    TrimEnd(TrimStart(s))
  }

  /** A prefix of a suffix, followed by whitespace only, sits at a fixed place in the whole. */
  lemma FactorOfSuffix(s: string, t: string, e: string)
    requires |t| <= |s| && t == s[|s| - |t|..]
    requires |e| <= |t| && e == t[..|e|] && AllWhitespace(t[|e|..])
    ensures e == s[|s| - |t|..|s| - |t| + |e|]
    ensures AllWhitespace(s[|s| - |t| + |e|..])
  {
    assert s[|s| - |t| + |e|..] == t[|e|..];
  }

  /** Where the trimmed text sits in its input. */
  lemma TrimIsFactor(s: string)
    ensures |TrimStart(s)| <= |s|
    ensures var i := |s| - |TrimStart(s)|;
      i + |Trim(s)| <= |s| && Trim(s) == s[i..i + |Trim(s)|]
      && AllWhitespace(s[..i]) && AllWhitespace(s[i + |Trim(s)|..])
  {
    var t := TrimStart(s);
    var e := TrimEnd(t);
    TrimStartRemovesPrefix(s);
    TrimEndRemovesSuffix(t);
    FactorOfSuffix(s, t, e);
  }

  /** The trimmed text starts and ends with a non-whitespace character, or is empty. */
  lemma TrimSolidEnds(s: string)
    ensures Trim(s) == [] || (!IsWhitespace(Trim(s)[0]) && !IsWhitespace(Trim(s)[|Trim(s)| - 1]))
  {
    var t := TrimStart(s);
    var e := TrimEnd(t);
    TrimStartRemovesPrefix(s);
    TrimEndRemovesSuffix(t);
    assert Trim(s) == e;
    if e != [] {
      assert e[0] == t[0] by { assert e == t[..|e|]; }
    }
  }

  /** Trimming a string that neither starts nor ends with whitespace changes nothing. */
  lemma {:induction false} TrimStable(s: string)
    requires s == [] || (!IsWhitespace(s[0]) && !IsWhitespace(s[|s| - 1]))
    ensures Trim(s) == s
  {
  }

  /** `trim` is idempotent. */
  lemma TrimIdempotent(s: string)
    ensures Trim(Trim(s)) == Trim(s)
  {
    TrimSolidEnds(s);
    TrimStable(Trim(s));
  }

  /** Whitespace after a non-whitespace character cannot reach back past it:
      trimming the end of `p + q` keeps `p` whole when `q` has a non-whitespace character. */
  lemma {:induction false} TrimEndKeepsPrefix(p: string, q: string)
    requires !AllWhitespace(q)
    ensures TrimEnd(p + q) == p + TrimEnd(q)
    decreases |q|
  {
    assert q != [];
    var q' := q[..|q| - 1];
    assert (p + q)[..|p + q| - 1] == p + q';
    if IsWhitespace(q[|q| - 1]) {
      assert !AllWhitespace(q') by {
        var k :| 0 <= k < |q| && !IsWhitespace(q[k]);
        assert q'[k] == q[k];
      }
      TrimEndKeepsPrefix(p, q');
    }
  }

  /** Trailing whitespace added to a string is removed again by `trimEnd`. */
  lemma {:induction false} TrimEndDropsWhitespace(p: string, w: string)
    requires AllWhitespace(w)
    ensures TrimEnd(p + w) == TrimEnd(p)
    decreases |w|
  {
    if w != [] {
      var w' := w[..|w| - 1];
      assert (p + w)[..|p + w| - 1] == p + w';
      assert (p + w)[|p + w| - 1] == w[|w| - 1];
      assert IsWhitespace((p + w)[|p + w| - 1]);
      assert TrimEnd(p + w) == TrimEnd(p + w');
      assert AllWhitespace(w') by {
        forall i | 0 <= i < |w'| ensures IsWhitespace(w'[i]) { assert w'[i] == w[i]; }
      }
      TrimEndDropsWhitespace(p, w');
    } else {
      assert p + w == p;
    }
  }

  /** A string ending in a non-whitespace character survives `trimEnd` whole, whatever follows it. */
  lemma TrimEndAfterSolid(p: string, q: string)
    requires |p| > 0 && !IsWhitespace(p[|p| - 1])
    ensures TrimEnd(p + q) == p + TrimEnd(q)
  {
    if AllWhitespace(q) {
      TrimEndDropsWhitespace(p, q);
      TrimEndDropsWhitespace([], q);
      assert [] + q == q;
    } else {
      TrimEndKeepsPrefix(p, q);
    }
  }

  /** Leading whitespace put in front of a string is removed again by `trimStart`. */
  lemma {:induction false} TrimStartDropsWhitespace(w: string, q: string)
    requires AllWhitespace(w)
    ensures TrimStart(w + q) == TrimStart(q)
    decreases |w|
  {
    if w != [] {
      assert (w + q)[0] == w[0];
      assert (w + q)[1..] == w[1..] + q;
      assert AllWhitespace(w[1..]) by {
        forall i | 0 <= i < |w| - 1 ensures IsWhitespace(w[1..][i]) { assert w[1..][i] == w[i + 1]; }
      }
      TrimStartDropsWhitespace(w[1..], q);
    } else {
      assert w + q == q;
    }
  }

  /** A string that does not start with whitespace is left alone by `trimStart`. */
  lemma TrimStartSolid(q: string)
    requires q == [] || !IsWhitespace(q[0])
    ensures TrimStart(q) == q
  {
  }

  /** `trim` gives back a word framed by whitespace on both sides. */
  lemma TrimPadded(w1: string, h: string, w2: string)
    requires AllWhitespace(w1) && AllWhitespace(w2)
    requires |h| > 0 && !IsWhitespace(h[0]) && !IsWhitespace(h[|h| - 1])
    ensures Trim(w1 + h + w2) == h
  {
    TrimFramed(w1, h, w2);
  }

  /** `trim` of a string framed by whitespace, whose first character is not whitespace,
      is `trimEnd` of that string. */
  lemma TrimFramed(w1: string, x: string, w2: string)
    requires AllWhitespace(w1) && AllWhitespace(w2)
    requires |x| > 0 && !IsWhitespace(x[0])
    ensures Trim(w1 + x + w2) == TrimEnd(x)
  {
    var xw := x + w2;
    assert TrimStart(w1 + x + w2) == xw by {
      assert w1 + x + w2 == w1 + xw;
      TrimStartDropsWhitespace(w1, xw);
      assert xw[0] == x[0];
      TrimStartSolid(xw);
    }
    assert TrimEnd(xw) == TrimEnd(x) by {
      TrimEndDropsWhitespace(x, w2);
    }
  }

  /** `Array.prototype.join(sep)`: the empty array joins to "". */
  function Join(sep: string, parts: seq<string>): string
    decreases |parts|
  {
    if |parts| == 0 then ""
    else if |parts| == 1 then parts[0]
    else parts[0] + sep + Join(sep, parts[1..])
  }

  /** Joining one more part appends the separator and that part. */
  lemma {:induction false} JoinSnoc(sep: string, parts: seq<string>, x: string)
    requires |parts| >= 1
    ensures Join(sep, parts + [x]) == Join(sep, parts) + sep + x
    decreases |parts|
  {
    if |parts| > 1 {
      assert (parts + [x])[1..] == parts[1..] + [x];
      JoinSnoc(sep, parts[1..], x);
    } else {
      assert (parts + [x])[1..] == [x];
    }
  }

  /** `sep` occurs in `s` starting at position `j`. */
  predicate OccursAt(s: string, sep: string, j: nat) {
    j + |sep| <= |s| && s[j..j + |sep|] == sep
  }

  predicate Contains(s: string, sep: string) {
    exists j: nat | j <= |s| :: OccursAt(s, sep, j)
  }

  /** `s.indexOf(sep)`, with `None` for JavaScript's -1: the leftmost occurrence. */
  function IndexOf(s: string, sep: string): (r: Option<nat>)
    ensures r.Some? ==> OccursAt(s, sep, r.value)
    ensures r.Some? ==> forall j: nat :: j < r.value ==> !OccursAt(s, sep, j)
    ensures r.None? <==> !Contains(s, sep)
    decreases |s|
  {
    if |s| < |sep| then None
    else if s[..|sep|] == sep then
      assert OccursAt(s, sep, 0);
      Some(0)
    else
      assert !OccursAt(s, sep, 0);
      match IndexOf(s[1..], sep)
      case None =>
        assert forall j: nat | j <= |s| :: !OccursAt(s, sep, j) by {
          forall j: nat | j <= |s| ensures !OccursAt(s, sep, j) {
            if j > 0 { OccursShift(s, sep, j - 1); }
          }
        }
        None
      case Some(i) =>
        OccursShift(s, sep, i);
        assert forall j: nat :: j < i + 1 ==> !OccursAt(s, sep, j) by {
          forall j: nat | j < i + 1 ensures !OccursAt(s, sep, j) {
            if j > 0 { OccursShift(s, sep, j - 1); }
          }
        }
        Some(i + 1)
  }

  /** An occurrence after the first character is an occurrence in the rest. */
  lemma OccursShift(s: string, sep: string, j: nat)
    requires |s| > 0
    ensures OccursAt(s, sep, j + 1) <==> OccursAt(s[1..], sep, j)
  {
    if j + 1 + |sep| <= |s| {
      assert s[j + 1..j + 1 + |sep|] == s[1..][j..j + |sep|];
    }
  }

  /** A prefix that ends before the leftmost occurrence is finished holds no occurrence. */
  lemma PrefixBeforeFirst(s: string, sep: string, i: nat)
    requires |sep| > 0
    requires IndexOf(s, sep) == Some(i)
    ensures !Contains(s[..i], sep)
  {
    forall j: nat | j <= i ensures !OccursAt(s[..i], sep, j) {
      if OccursAt(s[..i], sep, j) {
        assert s[..i][j..j + |sep|] == s[j..j + |sep|];
        assert OccursAt(s, sep, j) && j < i;
      }
    }
  }

  /** `s.split(sep)` for a non-empty separator: the pieces between the
      non-overlapping, leftmost-first occurrences of `sep`. */
  function Split(s: string, sep: string): (r: seq<string>)
    requires |sep| > 0
    ensures |r| >= 1
    ensures Join(sep, r) == s
    ensures forall k :: 0 <= k < |r| ==> !Contains(r[k], sep)
    decreases |s|
  {
    match IndexOf(s, sep)
    case None => [s]
    case Some(i) =>
      PrefixBeforeFirst(s, sep, i);
      var rest := Split(s[i + |sep|..], sep);
      assert s == s[..i] + sep + s[i + |sep|..];
      [s[..i]] + rest
  }

  /** The first piece of a split is the text before the first separator (all of `s` if none),
      and the remaining pieces join back to the text after it. */
  lemma SplitFirst(s: string, sep: string)
    requires |sep| > 0
    ensures IndexOf(s, sep).None? ==> Split(s, sep) == [s]
    ensures IndexOf(s, sep).Some? ==>
      var i := IndexOf(s, sep).value;
      |Split(s, sep)| >= 2 && Split(s, sep)[0] == s[..i]
      && Join(sep, Split(s, sep)[1..]) == s[i + |sep|..]
  {
    match IndexOf(s, sep)
    case None =>
    case Some(i) =>
      assert Split(s, sep)[1..] == Split(s[i + |sep|..], sep);
  }

  /** Without an occurrence `split` gives `[s]`; with one, `s` is the first piece, the
      separator, and the remaining pieces joined back. */
  lemma SplitHeadRest(s: string, sep: string)
    requires |sep| > 0
    ensures !Contains(s, sep) ==> Split(s, sep) == [s]
    ensures Contains(s, sep) ==>
      |Split(s, sep)| >= 2 && s == Split(s, sep)[0] + sep + Join(sep, Split(s, sep)[1..])
  {
    SplitFirst(s, sep);
    match IndexOf(s, sep)
    case None =>
    case Some(i) =>
      assert s == s[..i] + sep + s[i + |sep|..];
  }

  /** No proper suffix of `sep` is also a prefix of it, so two occurrences can never overlap
      (true of "\n" and of "## "). */
  predicate SelfDisjoint(sep: string) {
    forall k :: 0 < k < |sep| ==> sep[k..] != sep[..|sep| - k]
  }

  /** In `a + sep + b`, with no occurrence inside `a`, the leftmost occurrence is the one after `a`. */
  lemma FirstOccurrenceAfterFree(a: string, sep: string, b: string)
    requires |sep| > 0 && SelfDisjoint(sep) && !Contains(a, sep)
    ensures IndexOf(a + sep + b, sep) == Some(|a|)
  {
    var s := a + sep + b;
    assert s[|a|..|a| + |sep|] == sep;
    assert OccursAt(s, sep, |a|);
    forall j: nat | j < |a| ensures !OccursAt(s, sep, j) {
      if j + |sep| <= |a| {
        assert a[j..j + |sep|] == s[j..j + |sep|];
        assert !OccursAt(a, sep, j);
      } else if j + |sep| <= |s| {
        var k := |a| - j;
        assert s[j..j + |sep|][k..] == sep[..|sep| - k];
      }
    }
    match IndexOf(s, sep)
    case None =>
    case Some(i) =>
      assert !(i < |a|) && !(|a| < i);
  }

  /** `split` undoes `join` when no part holds the separator and occurrences cannot overlap. */
  lemma {:induction false} SplitJoin(parts: seq<string>, sep: string)
    requires |sep| > 0 && SelfDisjoint(sep) && |parts| >= 1
    requires forall k :: 0 <= k < |parts| ==> !Contains(parts[k], sep)
    ensures Split(Join(sep, parts), sep) == parts
    decreases |parts|
  {
    if |parts| == 1 {
      assert IndexOf(parts[0], sep).None?;
    } else {
      var rest := Join(sep, parts[1..]);
      FirstOccurrenceAfterFree(parts[0], sep, rest);
      var s := parts[0] + sep + rest;
      assert s[|parts[0]|+ |sep|..] == rest;
      assert s[..|parts[0]|] == parts[0];
      SplitJoin(parts[1..], sep);
      assert parts == [parts[0]] + parts[1..];
    }
  }

  /** A separator that lacks the character `c` cannot straddle `c`. */
  lemma NoOccurrenceAcross(x: string, c: char, y: string, sep: string)
    requires |sep| > 0 && c !in sep && !Contains(x, sep) && !Contains(y, sep)
    ensures !Contains(x + [c] + y, sep)
  {
    var s := x + [c] + y;
    forall j: nat ensures !OccursAt(s, sep, j) {
      if j + |sep| <= |x| {
        assert x[j..j + |sep|] == s[j..j + |sep|];
        assert !OccursAt(x, sep, j);
      } else if j > |x| {
        if j + |sep| <= |s| {
          assert y[j - |x| - 1..j - |x| - 1 + |sep|] == s[j..j + |sep|];
          assert !OccursAt(y, sep, j - |x| - 1);
        }
      } else if j + |sep| <= |s| {
        assert s[j..j + |sep|][|x| - j] == c;
      }
    }
  }

  /** A string without the character `c` holds no separator that starts with `c`. */
  lemma NoOccurrenceWithoutLead(s: string, sep: string)
    requires |sep| > 0 && sep[0] !in s
    ensures !Contains(s, sep)
  {
    forall j: nat ensures !OccursAt(s, sep, j) {
      if j + |sep| <= |s| {
        assert s[j..j + |sep|][0] == s[j];
      }
    }
  }

  /** Reference count of `sep` in `s`: scan left to right, and after each match
      resume right after it (non-overlapping occurrences). */
  function CountOccurrences(s: string, sep: string): nat
    requires |sep| > 0
    decreases |s|
  {
    if |s| < |sep| then 0
    else if s[..|sep|] == sep then 1 + CountOccurrences(s[|sep|..], sep)
    else CountOccurrences(s[1..], sep)
  }

  /** Skipping a prefix that holds no match start leaves the count unchanged. */
  lemma {:induction false} CountSkipsNonMatches(s: string, sep: string, i: nat)
    requires |sep| > 0 && i <= |s|
    requires forall j: nat :: j < i ==> !OccursAt(s, sep, j)
    ensures CountOccurrences(s, sep) == CountOccurrences(s[i..], sep)
    decreases i
  {
    if i > 0 {
      assert !OccursAt(s, sep, 0);
      if |s| >= |sep| {
        forall j: nat | j < i - 1 ensures !OccursAt(s[1..], sep, j) {
          assert !OccursAt(s, sep, j + 1);
          if j + |sep| <= |s[1..]| {
            assert s[1..][j..j + |sep|] == s[j + 1..j + 1 + |sep|];
          }
        }
        CountSkipsNonMatches(s[1..], sep, i - 1);
        assert s[1..][i - 1..] == s[i..];
      } else {
        assert |s[i..]| < |sep|;
      }
    }
  }

  /** `split` yields one more piece than there are non-overlapping occurrences of the separator. */
  lemma {:induction false} SplitCount(s: string, sep: string)
    requires |sep| > 0
    ensures |Split(s, sep)| == CountOccurrences(s, sep) + 1
    decreases |s|
  {
    match IndexOf(s, sep)
    case None =>
      if |s| >= |sep| {
        CountSkipsNonMatches(s, sep, |s| - |sep| + 1);
      }
    case Some(i) =>
      CountSkipsNonMatches(s, sep, i);
      assert s[i..][..|sep|] == sep;
      assert s[i..][|sep|..] == s[i + |sep|..];
      SplitCount(s[i + |sep|..], sep);
  }

  function DigitChar(d: nat): (c: char)
    requires d < 10
    ensures '0' <= c <= '9' && c as int - '0' as int == d
  {
    "0123456789"[d]
  }

  predicate AllDigits(s: string) {
    forall k :: 0 <= k < |s| ==> '0' <= s[k] <= '9'
  }

  /** An optionally signed, non-empty run of decimal digits. */
  predicate IsDecimal(s: string) {
    |s| >= 1 && (if s[0] == '-' then AllDigits(s[1..]) else AllDigits(s))
  }

  /** `String(n)` for a non-negative integer: its decimal digits, most significant first. */
  function NatDigits(n: nat): (r: string)
    ensures |r| >= 1 && AllDigits(r)
    ensures n > 0 ==> r[0] != '0'
    decreases n
  {
    if n < 10 then [DigitChar(n)] else NatDigits(n / 10) + [DigitChar(n % 10)]
  }

  /** `String(n)` for an integer, with a leading '-' for negative values. */
  function Decimal(n: int): (r: string)
    ensures IsDecimal(r)
    ensures r[0] == '-' <==> n < 0
  {
    if n < 0 then
      var d := NatDigits(-n);
      assert ("-" + d)[1..] == d;
      "-" + d
    else NatDigits(n)
  }

  /** Reading decimal digits back, the inverse of `NatDigits`. */
  function ParseNat(s: string): nat
    requires AllDigits(s)
    decreases |s|
  {
    if s == [] then 0 else 10 * ParseNat(s[..|s| - 1]) + (s[|s| - 1] as int - '0' as int)
  }

  /** Reading an optionally signed decimal string back to an integer. */
  function ParseDecimal(s: string): int
    requires IsDecimal(s)
  {
    if s[0] == '-' then -(ParseNat(s[1..]) as int) else ParseNat(s)
  }

  lemma {:induction false} NatDigitsRoundTrip(n: nat)
    ensures ParseNat(NatDigits(n)) == n
    decreases n
  {
    if n >= 10 {
      NatDigitsRoundTrip(n / 10);
      assert NatDigits(n)[..|NatDigits(n)| - 1] == NatDigits(n / 10);
    }
  }

  /** The decimal rendering of an integer reads back as that integer. */
  lemma DecimalRoundTrip(n: int)
    ensures ParseDecimal(Decimal(n)) == n
  {
    if n < 0 {
      NatDigitsRoundTrip(-n);
      assert Decimal(n)[1..] == NatDigits(-n);
    } else {
      NatDigitsRoundTrip(n);
    }
  }

  /** Different integers render as different decimal strings. */
  lemma DecimalInjective(m: int, n: int)
    requires Decimal(m) == Decimal(n)
    ensures m == n
  {
    DecimalRoundTrip(m);
    DecimalRoundTrip(n);
  }
}
