/** String operations of the JavaScript runtime the system relies on, over
    strings as sequences of characters. */
module Text {
  import opened Wrappers

  predicate StartsWith(s: string, prefix: string) {
    |prefix| <= |s| && s[..|prefix|] == prefix
  }

  predicate EndsWith(s: string, suffix: string) {
    |suffix| <= |s| && s[|s| - |suffix|..] == suffix
  }

  /** `String.prototype.slice(n)` for a non-negative `n`. */
  function Slice(s: string, n: nat): (r: string)
    ensures |s| <= n ==> r == []
    ensures n < |s| ==> s == s[..n] + r
  {
    if n <= |s| then s[n..] else []
  }

  /** Slicing off a prefix leaves what follows it. */
  lemma SliceAfter(prefix: string, rest: string)
    ensures Slice(prefix + rest, |prefix|) == rest
  {
  }

  /** Texts that agree after a common prefix are equal. */
  lemma PrefixCancels(prefix: string, a: string, b: string)
    requires prefix + a == prefix + b
    ensures a == b
  {
    assert a == (prefix + a)[|prefix|..];
    assert b == (prefix + b)[|prefix|..];
  }

  // ---------------------------------------------------------------------------
  // Whitespace and trim

  /** The characters `String.prototype.trim` removes: WhiteSpace and
      LineTerminator of ECMA-262 (section 12.2 and 12.3). */
  predicate IsSpace(c: char) {
    || c == '\t' || c == '\n' || c == '\U{000B}' || c == '\U{000C}' || c == '\r'
    || c == ' ' || c == '\U{00A0}' || c == '\U{1680}'
    || ('\U{2000}' <= c <= '\U{200A}')
    || c == '\U{2028}' || c == '\U{2029}' || c == '\U{202F}' || c == '\U{205F}'
    || c == '\U{3000}' || c == '\U{FEFF}'
  }

  predicate AllSpace(s: string) {
    forall i :: 0 <= i < |s| ==> IsSpace(s[i])
  }

  function TrimStart(s: string): string {
    if s != [] && IsSpace(s[0]) then TrimStart(s[1..]) else s
  }

  function TrimEnd(s: string): string {
    if s != [] && IsSpace(s[|s| - 1]) then TrimEnd(s[..|s| - 1]) else s
  }

  /** `String.prototype.trim`. */
  function Trim(s: string): string {
    TrimEnd(TrimStart(s))
  }

  /** Trimming the start drops a whitespace prefix and stops at the first
      other character. */
  lemma {:induction false} TrimStartShape(s: string)
    ensures var r := TrimStart(s);
      && |r| <= |s| && r == s[|s| - |r|..]
      && AllSpace(s[..|s| - |r|])
      && (r == [] || !IsSpace(r[0]))
  {
    if s != [] && IsSpace(s[0]) {
      TrimStartShape(s[1..]);
      var r := TrimStart(s[1..]);
      assert s[1..][..|s| - 1 - |r|] == s[1..|s| - |r|];
    }
  }

  /** Trimming the end drops a whitespace suffix and stops at the last
      other character. */
  lemma {:induction false} TrimEndShape(s: string)
    ensures var r := TrimEnd(s);
      && |r| <= |s| && r == s[..|r|]
      && AllSpace(s[|r|..])
      && (r == [] || !IsSpace(r[|r| - 1]))
  {
    if s != [] && IsSpace(s[|s| - 1]) {
      TrimEndShape(s[..|s| - 1]);
      var r := TrimEnd(s[..|s| - 1]);
      assert s[..|s| - 1][|r|..] == s[|r|..|s| - 1];
      assert s[|r|..] == s[|r|..|s| - 1] + [s[|s| - 1]];
    }
  }

  /** Trimming removes whitespace only, and only at both ends: the result is
      the slice of `s` after its leading whitespace, and only whitespace
      surrounds it. */
  lemma TrimIsCore(s: string)
    ensures |TrimStart(s)| <= |s|
    ensures var r, lead := Trim(s), |s| - |TrimStart(s)|;
      && lead + |r| <= |s| && r == s[lead..lead + |r|]
      && AllSpace(s[..lead]) && AllSpace(s[lead + |r|..])
  {
    var t := TrimStart(s);
    TrimStartShape(s);
    TrimEndShape(t);
    var r := TrimEnd(t);
    var lead := |s| - |t|;
    assert t == s[lead..];
    assert s[lead + |r|..] == t[|r|..];
  }

  /** The result of trimming neither begins nor ends with whitespace. */
  lemma TrimEdges(s: string)
    ensures var r := Trim(s); r == [] || (!IsSpace(r[0]) && !IsSpace(r[|r| - 1]))
  {
    var t := TrimStart(s);
    TrimStartShape(s);
    TrimEndShape(t);
    var r := TrimEnd(t);
    assert r == Trim(s);
    if r != [] {
      assert r[0] == t[0];
    }
  }

  /** Trimming the start skips a whitespace prefix up to a character that
      is not whitespace. */
  lemma {:induction false} TrimStartSkips(pre: string, rest: string)
    requires AllSpace(pre) && (rest == [] || !IsSpace(rest[0]))
    ensures TrimStart(pre + rest) == rest
  {
    if pre != [] {
      assert (pre + rest)[1..] == pre[1..] + rest;
      TrimStartSkips(pre[1..], rest);
    }
  }

  /** Trimming the end skips a whitespace suffix back to a character that is
      not whitespace. */
  lemma {:induction false} TrimEndSkips(rest: string, post: string)
    requires AllSpace(post) && (rest == [] || !IsSpace(rest[|rest| - 1]))
    ensures TrimEnd(rest + post) == rest
  {
    if post != [] {
      assert (rest + post)[..|rest + post| - 1] == rest + post[..|post| - 1];
      TrimEndSkips(rest, post[..|post| - 1]);
    } else {
      assert rest + post == rest;
    }
  }

  /** Trimming text with whitespace around a core that begins and ends with
      other characters gives that core. */
  lemma TrimPadded(pre: string, core: string, post: string)
    requires AllSpace(pre) && AllSpace(post)
    requires core == [] || (!IsSpace(core[0]) && !IsSpace(core[|core| - 1]))
    ensures Trim(pre + core + post) == core
  {
    assert pre + core + post == pre + (core + post);
    if core == [] {
      assert core + post == post;
      TrimStartSkips(pre + post, []);
      assert pre + post + [] == pre + post;
      assert TrimStart(pre + core + post) == [];
    } else {
      TrimStartSkips(pre, core + post);
      TrimEndSkips(core, post);
    }
  }

  lemma {:induction false} TrimIdempotent(s: string)
    ensures Trim(Trim(s)) == Trim(s)
  {
    TrimEdges(s);
    var r := Trim(s);
    assert TrimStart(r) == r;
    assert TrimEnd(r) == r;
  }

  /** Only whitespace trims to nothing. */
  lemma TrimEmptyAllSpace(s: string)
    ensures Trim(s) == [] ==> AllSpace(s)
  {
    TrimIsCore(s);
    var lead := |s| - |TrimStart(s)|;
    if Trim(s) == [] {
      forall i | 0 <= i < |s|
        ensures IsSpace(s[i])
      {
        if i < lead {
          assert s[..lead][i] == s[i];
        } else {
          assert s[lead..][i - lead] == s[i];
        }
      }
    }
  }

  // ---------------------------------------------------------------------------
  // Searching, replacing, splitting

  /** `s.indexOf(p)`: the first position at which `p` occurs. */
  function IndexOf(s: string, p: string): (r: Option<nat>)
    ensures r.Some? ==> r.value + |p| <= |s| && s[r.value..r.value + |p|] == p
    ensures StartsWith(s, p) ==> r == Some(0)
    decreases |s|
  {
    if |s| < |p| then None
    else if s[..|p|] == p then Some(0)
    else
      match IndexOf(s[1..], p)
      case None => None
      case Some(k) =>
        assert s[1..][k..k + |p|] == s[k + 1..k + 1 + |p|];
        Some(k + 1)
  }

  /** The first position of the character `c` in `s`. */
  function FindChar(s: string, c: char): (r: Option<nat>)
    ensures r.Some? ==> r.value < |s| && s[r.value] == c
    ensures r.Some? ==> forall j :: 0 <= j < r.value ==> s[j] != c
    ensures r.None? <==> c !in s
  {
    if s == [] then None
    else if s[0] == c then Some(0)
    else
      match FindChar(s[1..], c)
      case None => None
      case Some(k) => Some(k + 1)
  }

  /** `s.replaceAll(pat, rep)` for a non-empty literal pattern: a left-to-right
      scan replacing non-overlapping occurrences. */
  function ReplaceAll(s: string, pat: string, rep: string): string
    requires |pat| > 0
    decreases |s|
  {
    if |s| < |pat| then s
    else if s[..|pat|] == pat then rep + ReplaceAll(s[|pat|..], pat, rep)
    else [s[0]] + ReplaceAll(s[1..], pat, rep)
  }

  /** `s.split(sep)` for a one-character separator. */
  function Split(s: string, sep: char): (r: seq<string>)
    ensures |r| >= 1
    ensures forall k :: 0 <= k < |r| ==> sep !in r[k]
    decreases |s|
  {
    match FindChar(s, sep)
    case None => [s]
    case Some(i) => [s[..i]] + Split(s[i + 1..], sep)
  }

  /** A separator that occurs in neither left part splits two joined texts
      at the same place. */
  lemma {:induction false} SeparatorSplitsUniquely(a1: string, b1: string, a2: string, b2: string, c: char)
    requires c !in a1 && c !in a2
    requires a1 + [c] + b1 == a2 + [c] + b2
    ensures a1 == a2 && b1 == b2
  {
    var s := a1 + [c] + b1;
    assert s[0] == (if a1 == [] then c else a1[0]);
    assert s[0] == (if a2 == [] then c else a2[0]);
    if a1 != [] && a2 != [] {
      assert a1[0] == s[0] == a2[0];
      assert a1[1..] + [c] + b1 == s[1..] == a2[1..] + [c] + b2;
      SeparatorSplitsUniquely(a1[1..], b1, a2[1..], b2, c);
      assert a1 == [a1[0]] + a1[1..];
      assert a2 == [a2[0]] + a2[1..];
    } else {
      assert b1 == s[1..] == b2;
    }
  }

  /** `parts.join(sep)`. */
  function Join(parts: seq<string>, sep: string): string {
    if parts == [] then []
    else if |parts| == 1 then parts[0]
    else parts[0] + sep + Join(parts[1..], sep)
  }

  /** Splitting loses nothing: joining the pieces with the separator gives
      back the original text. */
  lemma {:induction false} SplitJoin(s: string, sep: char)
    ensures Join(Split(s, sep), [sep]) == s
    decreases |s|
  {
    match FindChar(s, sep)
    case None =>
    case Some(i) =>
      var rest := Split(s[i + 1..], sep);
      assert Split(s, sep) == [s[..i]] + rest;
      SplitJoin(s[i + 1..], sep);
      calc {
        Join([s[..i]] + rest, [sep]);
        s[..i] + [sep] + Join(rest, [sep]);
        s[..i] + [sep] + s[i + 1..];
        s;
      }
  }

  // ---------------------------------------------------------------------------
  // Numbers as text

  function DigitChar(d: nat): char
    requires d < 10
  {
    (('0' as int) + d) as char
  }

  predicate IsDigit(c: char) {
    '0' <= c <= '9'
  }

  predicate AllDigits(s: string) {
    forall i :: 0 <= i < |s| ==> IsDigit(s[i])
  }

  /** The decimal text of a natural number, as `Number.prototype.toString` gives it. */
  function NatToString(n: nat): string
    decreases n
  {
    if n < 10 then [DigitChar(n)] else NatToString(n / 10) + [DigitChar(n % 10)]
  }

  function IntToString(i: int): string {
    if i < 0 then "-" + NatToString(-i) else NatToString(i)
  }

  /** The value of a string of decimal digits. */
  function DigitsValue(s: string): nat
    requires AllDigits(s)
  {
    if s == [] then 0 else DigitsValue(s[..|s| - 1]) * 10 + (s[|s| - 1] as int - '0' as int)
  }

  /** A decimal numeral with no superfluous leading zero. */
  predicate IsCanonicalNumeral(s: string) {
    |s| > 0 && AllDigits(s) && (s[0] != '0' || |s| == 1)
  }

  /** Printing a natural number gives a canonical numeral whose value is that number. */
  lemma {:induction false} NatToStringParses(n: nat)
    ensures IsCanonicalNumeral(NatToString(n))
    ensures DigitsValue(NatToString(n)) == n
    decreases n
  {
    if n >= 10 {
      NatToStringParses(n / 10);
      var s := NatToString(n);
      assert s[..|s| - 1] == NatToString(n / 10);
    }
  }

  /** Distinct natural numbers print differently. */
  lemma NatToStringInjective(m: nat, n: nat)
    requires NatToString(m) == NatToString(n)
    ensures m == n
  {
    NatToStringParses(m);
    NatToStringParses(n);
  }

  /** A numeral that does not begin with `0` denotes a positive number. */
  lemma {:induction false} LeadingDigitPositive(s: string)
    requires |s| > 0 && AllDigits(s) && s[0] != '0'
    ensures DigitsValue(s) >= 1
    decreases |s|
  {
    if |s| > 1 {
      LeadingDigitPositive(s[..|s| - 1]);
    }
  }

  /** A canonical numeral is what printing its value gives. */
  lemma {:induction false} CanonicalNumeralPrints(s: string)
    requires IsCanonicalNumeral(s)
    ensures NatToString(DigitsValue(s)) == s
    decreases |s|
  {
    if |s| > 1 {
      var init := s[..|s| - 1];
      assert init[0] == s[0];
      CanonicalNumeralPrints(init);
      LeadingDigitPositive(init);
      var n := DigitsValue(s);
      assert n / 10 == DigitsValue(init) && n % 10 == s[|s| - 1] as int - '0' as int;
      assert s == init + [s[|s| - 1]];
    }
  }

  // ---------------------------------------------------------------------------
  // Paths

  /** `path.join(a, b)` for components that hold no `.`/`..` segments and no
      doubled separators: empty components are dropped and exactly one `/`
      separates the two. */
  function PathJoin(a: string, b: string): string {
    if a == [] then b
    else if b == [] then a
    else (if a[|a| - 1] == '/' then a[..|a| - 1] else a) + "/" + (if b[0] == '/' then b[1..] else b)
  }
}
