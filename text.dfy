/** String helpers shared by the model: the JavaScript `String.prototype`
    operations the core uses (`trim`, `join`, a global literal `replace`, the
    tag-stripping `replace(/<[^>]*>/g, '')`), decimal rendering of counts as
    `String(n)` does it, and `Math.ceil` of a quotient. Strings are sequences
    of Unicode scalar values. */
module Text {

  /** The characters of the JavaScript regular-expression class `\s`, which
      are also the ones `String.prototype.trim` removes. */
  predicate IsJsWhitespace(c: char) {
    c == '\t' || c == '\n' || c == '\U{000B}' || c == '\U{000C}' || c == '\r' || c == ' '
    || c == '\U{00A0}' || c == '\U{1680}' || ('\U{2000}' <= c <= '\U{200A}')
    || c == '\U{2028}' || c == '\U{2029}' || c == '\U{202F}' || c == '\U{205F}'
    || c == '\U{3000}' || c == '\U{FEFF}'
  }

  predicate IsAsciiDigit(c: char) {
    '0' <= c <= '9'
  }

  /** `s.trimStart()`: drops the leading whitespace and nothing else. */
  function TrimStart(s: string): (r: string)
    ensures |r| <= |s| && r == s[|s| - |r|..]
    ensures forall i :: 0 <= i < |s| - |r| ==> IsJsWhitespace(s[i])
    ensures r == [] || !IsJsWhitespace(r[0])
  {
    if s == [] || !IsJsWhitespace(s[0]) then s else TrimStart(s[1..])
  }

  /** `s.trimEnd()`: drops the trailing whitespace and nothing else. */
  function TrimEnd(s: string): (r: string)
    ensures |r| <= |s| && r == s[..|r|]
    ensures forall i :: |r| <= i < |s| ==> IsJsWhitespace(s[i])
    ensures r == [] || !IsJsWhitespace(r[|r| - 1])
  {
    if s == [] || !IsJsWhitespace(s[|s| - 1]) then s else TrimEnd(s[..|s| - 1])
  }

  /** `r` is the slice of `s` starting at `i` that is left once the
      whitespace at both ends is dropped: everything before and after it is
      whitespace, and it starts and ends with non-whitespace. */
  predicate IsTrimOf(r: string, s: string, i: nat) {
    && i + |r| <= |s| && r == s[i..i + |r|]
    && (forall k :: 0 <= k < i ==> IsJsWhitespace(s[k]))
    && (forall k :: i + |r| <= k < |s| ==> IsJsWhitespace(s[k]))
    && (r == [] || (!IsJsWhitespace(r[0]) && !IsJsWhitespace(r[|r| - 1])))
  }

  /** Trimming in two steps keeps one slice of the text: what the first
      step drops lies before it and what the second drops lies after it. */
  lemma TrimmedSlice(s: string, t: string, r: string)
    requires |t| <= |s| && t == s[|s| - |t|..]
    requires forall k :: 0 <= k < |s| - |t| ==> IsJsWhitespace(s[k])
    requires t == [] || !IsJsWhitespace(t[0])
    requires |r| <= |t| && r == t[..|r|]
    requires forall k :: |r| <= k < |t| ==> IsJsWhitespace(t[k])
    requires r == [] || !IsJsWhitespace(r[|r| - 1])
    ensures IsTrimOf(r, s, |s| - |t|)
  {
    var i := |s| - |t|;
    forall k | i + |r| <= k < |s| ensures IsJsWhitespace(s[k]) {
      assert s[k] == t[k - i];
    }
    if r != [] {
      assert r[0] == t[0];
    }
  }

  /** `s.trim()`: the text between the leading and the trailing whitespace,
      which are dropped and nothing else is. */
  function Trim(s: string): (r: string)
    ensures |r| <= |s|
    ensures IsTrimOf(r, s, |s| - |TrimStart(s)|)
  {
    var t := TrimStart(s);
    var r := TrimEnd(t);
    TrimmedSlice(s, t, r);
    r
  }

  /** A text without whitespace at either end is its own trim. */
  lemma TrimKeepsTrimmed(s: string)
    requires s == [] || (!IsJsWhitespace(s[0]) && !IsJsWhitespace(s[|s| - 1]))
    ensures Trim(s) == s
  {
  }

  /** `parts.join(sep)`: the parts in order with one separator between
      each two. */
  function Join(parts: seq<string>, sep: string): (r: string)
    ensures parts == [] ==> r == ""
    ensures |parts| == 1 ==> r == parts[0]
    ensures |parts| > 1 ==> parts[0] + sep <= r
  {
    if parts == [] then "" else if |parts| == 1 then parts[0] else parts[0] + sep + Join(parts[1..], sep)
  }

  /** Joining two non-empty lists is joining each and putting one separator
      between them. */
  lemma {:induction false} JoinAppend(a: seq<string>, b: seq<string>, sep: string)
    requires a != [] && b != []
    ensures Join(a + b, sep) == Join(a, sep) + sep + Join(b, sep)
    decreases |a|
  {
    if |a| == 1 {
      assert (a + b)[1..] == b;
    } else {
      assert (a + b)[1..] == a[1..] + b;
      JoinAppend(a[1..], b, sep);
      Regroup5(a[0], sep, Join(a[1..], sep), sep, Join(b, sep));
    }
  }

  lemma Regroup5<T>(p: seq<T>, q: seq<T>, x: seq<T>, y: seq<T>, z: seq<T>)
    ensures p + q + (x + y + z) == p + q + x + y + z
  {
  }

  /** `s.slice(0, n)` of a sequence: at most its first `n` elements. */
  function TakeAtMost<T>(s: seq<T>, n: nat): (r: seq<T>)
    ensures |r| == if |s| < n then |s| else n
    ensures r <= s
  {
    if |s| <= n then s else s[..n]
  }

  /** `s.replace(/pat/g, rep)` for a literal, non-empty pattern: occurrences
      are found left to right and do not overlap; the replacement text is not
      scanned again. */
  function ReplaceAll(s: string, pat: string, rep: string): (r: string)
    requires |pat| > 0
    ensures forall c :: c in r ==> c in s || c in rep
    decreases |s|
  {
    if |s| < |pat| then s
    else if s[..|pat|] == pat then rep + ReplaceAll(s[|pat|..], pat, rep)
    else [s[0]] + ReplaceAll(s[1..], pat, rep)
  }

  /** True when `pat` occurs in `s` starting at index `i`. */
  predicate OccursAt(pat: string, s: string, i: nat) {
    i + |pat| <= |s| && s[i..i + |pat|] == pat
  }

  /** True when `pat` occurs somewhere in `s`. */
  predicate Occurs(pat: string, s: string) {
    exists i: nat | i <= |s| :: OccursAt(pat, s, i)
  }

  /** A text placed between two others occurs in the result. */
  lemma OccursInConcat(a: string, pat: string, b: string)
    ensures Occurs(pat, a + pat + b)
  {
    var s := a + pat + b;
    assert s[|a|..|a| + |pat|] == pat;
    assert OccursAt(pat, s, |a|);
  }

  /** A character that is not in a text does not occur in it. */
  lemma AbsentCharDoesNotOccur(c: char, s: string)
    requires c !in s
    ensures !Occurs([c], s)
  {
    forall i: nat | i <= |s| ensures !OccursAt([c], s, i) {
      if i + 1 <= |s| {
        assert s[i..i + 1][0] == s[i];
      }
    }
  }

  /** A text without the pattern is left as it is. */
  lemma {:induction false} ReplaceAllWithoutPattern(s: string, pat: string, rep: string)
    requires |pat| > 0 && !Occurs(pat, s)
    ensures ReplaceAll(s, pat, rep) == s
    decreases |s|
  {
    if |s| >= |pat| {
      assert !OccursAt(pat, s, 0);
      assert s[0..|pat|] == s[..|pat|];
      assert !Occurs(pat, s[1..]) by {
        forall i: nat | i <= |s[1..]| && OccursAt(pat, s[1..], i) ensures false {
          assert s[1..][i..i + |pat|] == s[i + 1..i + 1 + |pat|];
          assert OccursAt(pat, s, i + 1);
        }
      }
      ReplaceAllWithoutPattern(s[1..], pat, rep);
    }
  }

  /** Replacing a single character by a text that does not contain it leaves
      no occurrence of that character. */
  lemma {:induction false} ReplaceCharRemovesIt(s: string, c: char, rep: string)
    requires c !in rep
    ensures c !in ReplaceAll(s, [c], rep)
    decreases |s|
  {
    if |s| >= 1 {
      ReplaceCharRemovesIt(s[1..], c, rep);
    }
  }

  /** A text without the pattern's first character holds no occurrence. */
  lemma NoOccurrenceWithoutFirstChar(pat: string, s: string)
    requires |pat| > 0 && pat[0] !in s
    ensures !Occurs(pat, s)
  {
    forall i: nat | i <= |s| ensures !OccursAt(pat, s, i) {
      if i + |pat| <= |s| {
        assert s[i..i + |pat|][0] == s[i];
      }
    }
  }

  /** Two texts without the pattern, glued where one of the two touching
      characters is not in the pattern, hold no occurrence: none can
      straddle the seam. */
  lemma NoOccurrenceInConcat(pat: string, a: string, b: string)
    requires |pat| > 0 && !Occurs(pat, a) && !Occurs(pat, b)
    requires a == [] || b == [] || a[|a| - 1] !in pat || b[0] !in pat
    ensures !Occurs(pat, a + b)
  {
    var s := a + b;
    forall i: nat | i <= |s| ensures !OccursAt(pat, s, i) {
      if i + |pat| > |s| {
      } else if i + |pat| <= |a| {
        assert s[i..i + |pat|] == a[i..i + |pat|];
        assert !OccursAt(pat, a, i);
      } else if i >= |a| {
        assert s[i..i + |pat|] == b[i - |a|..i - |a| + |pat|];
        assert !OccursAt(pat, b, i - |a|);
      } else {
        assert s[i..i + |pat|][|a| - 1 - i] == a[|a| - 1];
        assert s[i..i + |pat|][|a| - i] == b[0];
      }
    }
  }

  /** No proper prefix of the pattern is also a suffix of it, so two
      occurrences can never overlap (`{{siteUrl}}` is such a pattern). */
  predicate Borderless(pat: string) {
    forall j :: 0 < j < |pat| ==> pat[j..] != pat[..|pat| - j]
  }

  /** Dropping the first character of a text without the pattern leaves a
      text without it. */
  lemma NoOccurrenceInTail(pat: string, p: string)
    requires p != [] && !Occurs(pat, p)
    ensures !Occurs(pat, p[1..])
  {
    forall i: nat | i <= |p[1..]| ensures !OccursAt(pat, p[1..], i) {
      if i + |pat| <= |p[1..]| {
        assert p[1..][i..i + |pat|] == p[i + 1..i + 1 + |pat|];
        assert !OccursAt(pat, p, i + 1);
      }
    }
  }

  /** A non-empty prefix without a borderless pattern, followed by that
      pattern, does not start with it. */
  lemma PrefixDoesNotStartPattern(p: string, pat: string, s: string)
    requires |pat| > 0 && Borderless(pat) && p != [] && !Occurs(pat, p)
    ensures (p + pat + s)[..|pat|] != pat
  {
    var t := p + pat + s;
    if |p| >= |pat| {
      assert t[..|pat|] == p[0..|pat|];
      assert !OccursAt(pat, p, 0);
    } else {
      assert pat[|p|..] != pat[..|pat| - |p|];
      assert t[..|pat|][|p|..] == pat[..|pat| - |p|];
    }
  }

  /** A prefix without the pattern, followed by the pattern, is copied
      through and that occurrence is replaced: no occurrence can start
      inside the prefix. */
  lemma {:induction false} ReplaceAllAfterPlainPrefix(p: string, pat: string, s: string, rep: string)
    requires |pat| > 0 && Borderless(pat) && !Occurs(pat, p)
    ensures ReplaceAll(p + pat + s, pat, rep) == p + rep + ReplaceAll(s, pat, rep)
    decreases |p|
  {
    var t := p + pat + s;
    if p == [] {
      assert t == pat + s;
      ReplaceAllAtPattern(pat, s, rep);
    } else {
      PrefixDoesNotStartPattern(p, pat, s);
      ReplaceAllCopiesFirst(t, pat, rep);
      assert t[0] == p[0] && t[1..] == p[1..] + pat + s;
      NoOccurrenceInTail(pat, p);
      ReplaceAllAfterPlainPrefix(p[1..], pat, s, rep);
      ConsOntoTail(p, rep + ReplaceAll(s, pat, rep));
    }
  }

  /** Where no occurrence starts at the front, the first character is
      copied and the scan goes on after it. */
  lemma ReplaceAllCopiesFirst(t: string, pat: string, rep: string)
    requires |pat| > 0 && |t| >= |pat| && t[..|pat|] != pat
    ensures ReplaceAll(t, pat, rep) == [t[0]] + ReplaceAll(t[1..], pat, rep)
  {
  }

  lemma ConsOntoTail(p: string, rest: string)
    requires p != []
    ensures [p[0]] + (p[1..] + rest) == p + rest
  {
    assert [p[0]] + p[1..] == p;
  }

  /** An occurrence at the front is replaced and the scan goes on after it. */
  lemma ReplaceAllAtPattern(pat: string, s: string, rep: string)
    requires |pat| > 0
    ensures ReplaceAll(pat + s, pat, rep) == rep + ReplaceAll(s, pat, rep)
  {
    assert (pat + s)[..|pat|] == pat;
    assert (pat + s)[|pat|..] == s;
  }

  /** Filling a template: text made of parts that do not hold a
      non-overlapping pattern, joined by that pattern, becomes the same parts
      joined by the replacement. Every occurrence is replaced and nothing
      else changes. */
  lemma {:induction false} ReplaceAllFillsTemplate(parts: seq<string>, pat: string, rep: string)
    requires |pat| > 0 && Borderless(pat) && parts != []
    requires forall k :: 0 <= k < |parts| ==> !Occurs(pat, parts[k])
    ensures ReplaceAll(Join(parts, pat), pat, rep) == Join(parts, rep)
    decreases |parts|
  {
    if |parts| == 1 {
      ReplaceAllWithoutPattern(parts[0], pat, rep);
    } else {
      var rest := Join(parts[1..], pat);
      ReplaceAllAfterPlainPrefix(parts[0], pat, rest, rep);
      ReplaceAllFillsTemplate(parts[1..], pat, rep);
    }
  }

  /** The character of a decimal digit. */
  function DigitChar(d: nat): (c: char)
    requires d < 10
    ensures IsAsciiDigit(c) && c as int - '0' as int == d
  {
    (d + '0' as int) as char
  }

  /** `String(n)` for a non-negative integer: its decimal digits, no sign, no
      leading zero. */
  function NatToString(n: nat): (r: string)
    ensures |r| >= 1
    ensures forall i :: 0 <= i < |r| ==> IsAsciiDigit(r[i])
    ensures r[0] == '0' ==> n == 0
    decreases n
  {
    if n < 10 then [DigitChar(n)] else NatToString(n / 10) + [DigitChar(n % 10)]
  }

  /** The value of a string of decimal digits (the reading side of
      `NatToString`). */
  function DecimalValue(s: string): nat
    requires forall i :: 0 <= i < |s| ==> IsAsciiDigit(s[i])
  {
    if s == [] then 0
    else
      assert IsAsciiDigit(s[|s| - 1]);
      DecimalValue(s[..|s| - 1]) * 10 + (s[|s| - 1] as int - '0' as int)
  }

  /** Rendering a count and reading it back gives the count: the number in
      a failure summary is the number of failed sends. */
  lemma {:induction false} DecimalRoundTrip(n: nat)
    ensures DecimalValue(NatToString(n)) == n
    decreases n
  {
    if n >= 10 {
      DecimalRoundTrip(n / 10);
      var r := NatToString(n);
      assert r[..|r| - 1] == NatToString(n / 10);
    }
  }

  /** The index of the first `c` in `s`, or -1 (`s.indexOf(c)`). */
  function IndexOf(s: string, c: char): (k: int)
    ensures -1 <= k < |s|
    ensures k >= 0 ==> s[k] == c && forall j :: 0 <= j < k ==> s[j] != c
    ensures k == -1 <==> c !in s
  {
    if s == [] then -1
    else if s[0] == c then 0
    else var k := IndexOf(s[1..], c); if k == -1 then -1 else k + 1
  }

  /** `html.replace(/<[^>]*>/g, '')`: scanning left to right, every `<`
      that has a `>` after it is removed together with everything up to and
      including the first such `>`; a `<` with no `>` after it stays. */
  function StripTags(s: string): (r: string)
    ensures |r| <= |s|
    ensures forall c :: c in r ==> c in s
    decreases |s|
  {
    if s == [] then ""
    else if s[0] == '<' && '>' in s[1..] then
      var k := IndexOf(s[1..], '>');
      StripTags(s[k + 2..])
    else [s[0]] + StripTags(s[1..])
  }

  /** Text before the first `<` is kept as it is. */
  lemma {:induction false} StripTagsKeepsPlainPrefix(p: string, s: string)
    requires '<' !in p
    ensures StripTags(p + s) == p + StripTags(s)
    decreases |p|
  {
    if p != [] {
      assert (p + s)[0] == p[0] && (p + s)[1..] == p[1..] + s;
      StripTagsKeepsPlainPrefix(p[1..], s);
    } else {
      assert p + s == s;
    }
  }

  /** A complete tag `<...>` at the front is removed, up to its first `>`. */
  lemma StripTagsDropsTag(t: string, s: string)
    requires '>' !in t
    ensures StripTags("<" + t + ">" + s) == StripTags(s)
  {
    var u := "<" + t + ">" + s;
    assert u[1..] == t + ">" + s;
    assert u[1..][|t|] == '>';
    assert forall j :: 0 <= j < |t| ==> u[1..][j] == t[j];
    var k := IndexOf(u[1..], '>');
    assert k == |t|;
    assert u[k + 2..] == s;
  }

  /** A `<` with no `>` anywhere after it is kept, and so is the rest. */
  lemma {:induction false} StripTagsKeepsUnclosed(s: string)
    requires '>' !in s
    ensures StripTags(s) == s
    decreases |s|
  {
    if s != [] {
      assert '>' !in s[1..];
      StripTagsKeepsUnclosed(s[1..]);
    }
  }

  /** A text without `<` has no tags: stripping leaves it unchanged. */
  lemma {:induction false} StripTagsWithoutTags(s: string)
    requires '<' !in s
    ensures StripTags(s) == s
    decreases |s|
  {
    if s != [] {
      StripTagsWithoutTags(s[1..]);
    }
  }

  /** No `<` is followed, anywhere later, by a `>`: no `<...>` tag is in
      the text. */
  predicate HasNoTag(r: string) {
    forall i, j :: 0 <= i < j < |r| && r[i] == '<' ==> r[j] != '>'
  }

  /** After stripping, no `<...>` tag is left in the derived plain text. */
  lemma {:induction false} StripTagsLeavesNoTag(s: string)
    ensures HasNoTag(StripTags(s))
    decreases |s|
  {
    if s != [] {
      if s[0] == '<' && '>' in s[1..] {
        var k := IndexOf(s[1..], '>');
        assert StripTags(s) == StripTags(s[k + 2..]);
        StripTagsLeavesNoTag(s[k + 2..]);
      } else {
        StripTagsLeavesNoTag(s[1..]);
        StripTagsKeepsFirst(s);
        ConsKeepsNoTag(s[0], StripTags(s[1..]));
      }
    }
  }

  /** A first character that opens no tag is kept, and when it is a `<`
      no `>` follows it in the stripped rest. */
  lemma StripTagsKeepsFirst(s: string)
    requires s != [] && !(s[0] == '<' && '>' in s[1..])
    ensures StripTags(s) == [s[0]] + StripTags(s[1..])
    ensures s[0] == '<' ==> '>' !in StripTags(s[1..])
  {
  }

  /** A character put in front of a text without tags leaves none, unless
      it is a `<` with a `>` somewhere after it. */
  lemma ConsKeepsNoTag(c: char, t: string)
    requires HasNoTag(t) && (c == '<' ==> '>' !in t)
    ensures HasNoTag([c] + t)
  {
    var r := [c] + t;
    forall i, j | 0 <= i < j < |r| && r[i] == '<' ensures r[j] != '>' {
      assert r[j] == t[j - 1];
      if i > 0 {
        assert r[i] == t[i - 1];
      }
    }
  }

  /** The smaller of two integers (`Math.min`). */
  function Min(a: int, b: int): int {
    if a < b then a else b
  }

  /** `Math.ceil(x / d)` for a positive divisor, on integers. */
  function CeilDiv(x: int, d: int): (r: int)
    requires d > 0
    ensures r * d >= x && (r - 1) * d < x
  {
    if x % d == 0 then x / d else x / d + 1
  }
}
