/** The `slug` field's `beforeValidate` hook, written identically in
    src/collections/Services.ts and src/collections/ServiceGroups.ts: a
    missing slug is derived from the name by lowercasing it, turning every
    run of characters other than `[a-z0-9]` into one `-`, and dropping a
    leading and a trailing `-`. Lowercasing covers ASCII letters only. */
module Slugs {
  import Text

  /** A character of `[a-z0-9]`. */
  predicate IsSlugAlnum(c: char) {
    ('a' <= c <= 'z') || ('0' <= c <= '9')
  }

  /** `toLowerCase` on one character, ASCII letters only. */
  function LowerChar(c: char): (r: char)
    ensures 'A' <= c <= 'Z' ==> r as int == c as int + 32
    ensures !('A' <= c <= 'Z') ==> r == c
  {
    if 'A' <= c <= 'Z' then (c as int + 32) as char else c
  }

  function ToLower(s: string): (r: string)
    ensures |r| == |s|
    ensures forall i :: 0 <= i < |s| ==> r[i] == LowerChar(s[i])
  {
    seq(|s|, i requires 0 <= i < |s| => LowerChar(s[i]))
  }

  /** The letters and digits of a text, in order. */
  function Alnums(s: string): string {
    if s == [] then []
    else if IsSlugAlnum(s[0]) then [s[0]] + Alnums(s[1..])
    else Alnums(s[1..])
  }

  /** The run of separators at the front of `s` removed. */
  function SkipSeparators(s: string): (r: string)
    ensures |r| <= |s| && r == s[|s| - |r|..]
    ensures r == [] || IsSlugAlnum(r[0])
    ensures Alnums(r) == Alnums(s)
    ensures (forall i :: 0 <= i < |s| ==> !IsSlugAlnum(s[i])) ==> r == []
  {
    if s != [] && !IsSlugAlnum(s[0]) then
      var r := SkipSeparators(s[1..]);
      assert s[1..][|s| - 1 - |r|..] == s[|s| - |r|..];
      r
    else s
  }

  /** No `-` is directly followed by another. */
  predicate NoDoubleDash(s: string) {
    forall i :: 0 <= i < |s| - 1 ==> !(s[i] == '-' && s[i + 1] == '-')
  }

  predicate SlugChars(s: string) {
    forall i :: 0 <= i < |s| ==> IsSlugAlnum(s[i]) || s[i] == '-'
  }

  /** `replace(/[^a-z0-9]+/g, '-')`: every maximal run of other characters
      becomes one `-`; letters and digits are kept in order. */
  function CollapseRuns(s: string): string
    decreases |s|
  {
    if s == [] then []
    else if IsSlugAlnum(s[0]) then [s[0]] + CollapseRuns(s[1..])
    else ['-'] + CollapseRuns(SkipSeparators(s[1..]))
  }

  /** The collapsed text holds only `[a-z0-9-]` with no `--`, is empty
      only for the empty text, and starts with `-` exactly when the text
      starts with a separator. */
  lemma {:induction false} CollapseRunsShape(s: string)
    ensures var r := CollapseRuns(s);
      && SlugChars(r) && NoDoubleDash(r)
      && (r == [] <==> s == [])
      && (s != [] ==> (r[0] == '-' <==> !IsSlugAlnum(s[0])))
    decreases |s|
  {
    if s == [] {
    } else if IsSlugAlnum(s[0]) {
      CollapseRunsShape(s[1..]);
    } else {
      CollapseRunsShape(SkipSeparators(s[1..]));
    }
  }

  /** Collapsing keeps the letters and digits, in order. */
  lemma {:induction false} CollapseRunsKeepsAlnums(s: string)
    ensures Alnums(CollapseRuns(s)) == Alnums(s)
    decreases |s|
  {
    if s == [] {
    } else if IsSlugAlnum(s[0]) {
      CollapseRunsKeepsAlnums(s[1..]);
    } else {
      CollapseRunsKeepsAlnums(SkipSeparators(s[1..]));
    }
  }

  /** A non-empty text without letters or digits collapses to one `-`. */
  lemma CollapseRunsOfSeparators(s: string)
    requires s != [] && forall i :: 0 <= i < |s| ==> !IsSlugAlnum(s[i])
    ensures CollapseRuns(s) == "-"
  {
    assert SkipSeparators(s[1..]) == [] by {
      assert forall i :: 0 <= i < |s[1..]| ==> !IsSlugAlnum(s[1..][i]);
    }
  }

  /** `replace(/(^-|-$)/g, '')`: one leading and one trailing `-` removed
      (a lone `-` is the leading one), and nothing else. */
  function StripEdges(s: string): (r: string)
    ensures |r| <= |s|
    ensures SlugChars(s) ==> SlugChars(r)
    ensures NoDoubleDash(s) ==> NoDoubleDash(r)
    ensures s == "-" ==> r == []
    ensures (s == [] || (s[0] != '-' && s[|s| - 1] != '-')) ==> r == s
    ensures |s| >= 2 && s[0] == '-' && s[|s| - 1] == '-' ==> r == s[1..|s| - 1]
    ensures s != [] && s[0] == '-' && s[|s| - 1] != '-' ==> r == s[1..]
    ensures s != [] && s[0] != '-' && s[|s| - 1] == '-' ==> r == s[..|s| - 1]
  {
    var a := if s != [] && s[0] == '-' then s[1..] else s;
    if a != [] && a[|a| - 1] == '-' then a[..|a| - 1] else a
  }

  /** A well-formed slug: only `[a-z0-9-]`, no `--`, and no `-` at either
      end. */
  predicate IsSlug(s: string) {
    SlugChars(s) && NoDoubleDash(s) && (s == [] || (s[0] != '-' && s[|s| - 1] != '-'))
  }

  /** The slug derived from a name: the maximal runs of `[a-z0-9]` in the
      lowercased name, joined by `-`. */
  function Slugify(name: string): (r: string)
    ensures r == Text.Join(Words(ToLower(name)), "-")
    ensures IsSlug(r)
    ensures Alnums(r) == Alnums(ToLower(name))
  {
    var collapsed := CollapseRuns(ToLower(name));
    CollapseRunsShape(ToLower(name));
    CollapseRunsKeepsAlnums(ToLower(name));
    StripEdgesKeepsAlnums(collapsed);
    StripEdgesLeavesNoEdgeDash(collapsed);
    CollapseThenStripJoinsWords(ToLower(name));
    StripEdges(collapsed)
  }

  /** A non-empty run of `[a-z0-9]`. */
  predicate IsWord(w: string) {
    w != [] && forall i :: 0 <= i < |w| ==> IsSlugAlnum(w[i])
  }

  /** The length of the run of `[a-z0-9]` at the front of `s`. */
  function RunLength(s: string): (n: nat)
    ensures n <= |s|
    ensures forall i :: 0 <= i < n ==> IsSlugAlnum(s[i])
    ensures n < |s| ==> !IsSlugAlnum(s[n])
  {
    if s != [] && IsSlugAlnum(s[0]) then 1 + RunLength(s[1..]) else 0
  }

  /** The maximal runs of `[a-z0-9]` in a text, in order: a reference for
      what the two `replace` calls leave, independent of how they scan. */
  function Words(s: string): (w: seq<string>)
    ensures forall k :: 0 <= k < |w| ==> IsWord(w[k])
    decreases |s|
  {
    if s == [] then []
    else if !IsSlugAlnum(s[0]) then Words(s[1..])
    else
      var n := RunLength(s);
      [s[..n]] + Words(s[n..])
  }

  /** A text whose last character is a letter or digit has a word. */
  lemma {:induction false} LastAlnumMakesWord(s: string)
    requires s != [] && IsSlugAlnum(s[|s| - 1])
    ensures Words(s) != []
    decreases |s|
  {
    if !IsSlugAlnum(s[0]) {
      assert s[1..][|s| - 2] == s[|s| - 1];
      LastAlnumMakesWord(s[1..]);
    }
  }

  /** Skipping separators changes no word. */
  lemma {:induction false} WordsAfterSkip(s: string)
    ensures Words(SkipSeparators(s)) == Words(s)
    decreases |s|
  {
    if s != [] && !IsSlugAlnum(s[0]) {
      WordsAfterSkip(s[1..]);
    }
  }

  /** Letters and digits at the front are copied by the collapsing step. */
  lemma {:induction false} CollapseCopiesAlnumPrefix(w: string, u: string)
    requires forall i :: 0 <= i < |w| ==> IsSlugAlnum(w[i])
    ensures CollapseRuns(w + u) == w + CollapseRuns(u)
    decreases |w|
  {
    if w == [] {
      assert w + u == u;
    } else {
      assert (w + u)[0] == w[0] && (w + u)[1..] == w[1..] + u;
      CollapseCopiesAlnumPrefix(w[1..], u);
      assert [w[0]] + (w[1..] + CollapseRuns(u)) == w + CollapseRuns(u);
    }
  }

  /** The `-` put in front for a leading separator. */
  function Lead(s: string): string {
    if s != [] && !IsSlugAlnum(s[0]) then "-" else ""
  }

  /** The `-` left at the end by separators after the last word. */
  function Trail(s: string): string {
    if Words(s) != [] && !IsSlugAlnum(s[|s| - 1]) then "-" else ""
  }

  /** The collapsed text as the words describe it. */
  function ByWords(s: string): string {
    Lead(s) + Text.Join(Words(s), "-") + Trail(s)
  }

  lemma CollapseAtSeparator(s: string)
    requires s != [] && !IsSlugAlnum(s[0])
    ensures CollapseRuns(s) == ['-'] + CollapseRuns(SkipSeparators(s[1..]))
  {
  }

  lemma DescribedAtSeparator(s: string, t: string)
    requires s != [] && !IsSlugAlnum(s[0]) && t == SkipSeparators(s[1..])
    ensures ByWords(s) == ['-'] + ByWords(t)
  {
    WordsAfterSkip(s[1..]);
    assert Words(s) == Words(t);
    assert Lead(t) == "" && Lead(s) == "-";
    assert t == s[|s| - |t|..];
    TrailOfSuffix(s, t);
    DescribedWithLead(s, "-", t);
    DescribedWithLead(t, "", t);
    DashInFront(ByWords(s), ByWords(t), Text.Join(Words(t), "-"), Trail(t));
  }

  lemma DashInFront(x: string, y: string, j: string, tr: string)
    requires x == "-" + j + tr && y == "" + j + tr
    ensures x == ['-'] + y
  {
    assert "" + j == j;
  }

  lemma TrailOfSuffix(s: string, t: string)
    requires |t| <= |s| && t == s[|s| - |t|..] && Words(s) == Words(t)
    ensures Trail(s) == Trail(t)
  {
    if t == [] {
      assert Words(t) == [];
    } else {
      assert t[|t| - 1] == s[|s| - 1];
    }
  }

  lemma DescribedWithLead(s: string, lead: string, t: string)
    requires Lead(s) == lead && Words(s) == Words(t) && Trail(s) == Trail(t)
    ensures ByWords(s) == lead + Text.Join(Words(t), "-") + Trail(t)
  {
  }


  /** The step for a text starting with a separator. */
  lemma ByWordsAtSeparator(s: string, t: string)
    requires s != [] && !IsSlugAlnum(s[0]) && t == SkipSeparators(s[1..])
    requires CollapseRuns(t) == ByWords(t)
    ensures CollapseRuns(s) == ByWords(s)
  {
    CollapseAtSeparator(s);
    DescribedAtSeparator(s, t);
  }

  lemma WordsAtWord(s: string)
    requires s != [] && IsSlugAlnum(s[0])
    ensures Words(s) == [s[..RunLength(s)]] + Words(s[RunLength(s)..])
  {
  }

  /** The words after the first word, when there are any, come after one
      `-`. */
  lemma DescribedAfterWord(s: string, w: string, u: string)
    requires Words(s) == [w] + Words(u) && Words(u) != []
    requires Lead(s) == "" && Lead(u) == "-" && Trail(s) == Trail(u)
    ensures ByWords(s) == w + ByWords(u)
  {
    var ws := Words(u);
    var j, tr := Text.Join(ws, "-"), Trail(u);
    assert ([w] + ws)[1..] == ws;
    assert Text.Join([w] + ws, "-") == w + "-" + j;
    assert ByWords(u) == "-" + j + tr;
    assert ByWords(s) == "" + (w + "-" + j) + tr;
  }

  /** A last word followed only by separators leaves one `-` after it. */
  lemma DescribedLastWord(s: string, w: string, dashed: bool)
    requires Words(s) == [w] && Lead(s) == ""
    requires Trail(s) == if dashed then "-" else ""
    ensures ByWords(s) == w + (if dashed then "-" else "")
  {
    assert Text.Join([w], "-") == w;
  }

  /** The words description of a text starting with a word `w` followed
      by `u`. */
  lemma DescribedAtWord(s: string, w: string, u: string)
    requires s != [] && IsSlugAlnum(s[0]) && w == s[..RunLength(s)] && u == s[RunLength(s)..]
    ensures ByWords(s) == w + ByWords(u)
  {
    WordsAtWord(s);
    assert Lead(s) == "";
    if u == [] {
      assert s == w;
      DescribedLastWord(s, w, false);
      assert ByWords(u) == "";
    } else {
      assert Lead(u) == "-" by {
        assert u[0] == s[RunLength(s)];
      }
      assert u[|u| - 1] == s[|s| - 1];
      if Words(u) == [] {
        if IsSlugAlnum(u[|u| - 1]) {
          LastAlnumMakesWord(u);
        }
        DescribedLastWord(s, w, true);
        assert ByWords(u) == "-";
      } else {
        DescribedAfterWord(s, w, u);
      }
    }
  }

  lemma CollapseAtWord(s: string, w: string, u: string)
    requires s != [] && IsSlugAlnum(s[0]) && w == s[..RunLength(s)] && u == s[RunLength(s)..]
    ensures CollapseRuns(s) == w + CollapseRuns(u)
  {
    assert s == w + u;
    CollapseCopiesAlnumPrefix(w, u);
  }

  /** The step for a text starting with a word `w` followed by `u`. */
  lemma ByWordsAtWord(s: string, w: string, u: string)
    requires s != [] && IsSlugAlnum(s[0]) && w == s[..RunLength(s)] && u == s[RunLength(s)..]
    requires CollapseRuns(u) == ByWords(u)
    ensures CollapseRuns(s) == ByWords(s)
  {
    CollapseAtWord(s, w, u);
    DescribedAtWord(s, w, u);
  }

  /** `replace(/[^a-z0-9]+/g, '-')` in terms of the words: they are joined
      by one `-`, with one more `-` in front when the text starts with a
      separator, and one at the end when a word is followed by trailing
      separators. */
  lemma {:induction false} CollapseRunsByWords(s: string)
    ensures CollapseRuns(s) ==
      (if s != [] && !IsSlugAlnum(s[0]) then "-" else "")
      + Text.Join(Words(s), "-")
      + (if Words(s) != [] && !IsSlugAlnum(s[|s| - 1]) then "-" else "")
    decreases |s|
  {
    if s == [] {
      assert ByWords(s) == "";
    } else if !IsSlugAlnum(s[0]) {
      var t := SkipSeparators(s[1..]);
      CollapseRunsByWords(t);
      ByWordsAtSeparator(s, t);
    } else {
      var n := RunLength(s);
      CollapseRunsByWords(s[n..]);
      ByWordsAtWord(s, s[..n], s[n..]);
    }
  }

  /** Words joined by `-` start and end with a letter or digit. */
  lemma {:induction false} JoinedWordsEdges(words: seq<string>)
    requires words != [] && forall k :: 0 <= k < |words| ==> IsWord(words[k])
    ensures var j := Text.Join(words, "-"); j != [] && IsSlugAlnum(j[0]) && IsSlugAlnum(j[|j| - 1])
    decreases |words|
  {
    if |words| > 1 {
      JoinedWordsEdges(words[1..]);
    }
  }

  /** Stripping at most one `-` from each end of a text that is otherwise
      empty or letter-or-digit at both ends gives that text back. */
  lemma StripEdgesAroundWords(lead: string, j: string, trail: string)
    requires lead == "" || lead == "-"
    requires trail == "" || trail == "-"
    requires j == [] ==> trail == ""
    requires j != [] ==> IsSlugAlnum(j[0]) && IsSlugAlnum(j[|j| - 1])
    ensures StripEdges(lead + j + trail) == j
  {
    var c := lead + j + trail;
    if j == [] {
      assert c == lead;
    } else if lead == "" && trail == "" {
      assert c == j;
    } else if lead == "" {
      assert c[..|c| - 1] == j;
    } else if trail == "" {
      assert c[1..] == j;
    } else {
      assert c[1..|c| - 1] == j;
    }
  }

  /** Collapsing and then stripping the edges leaves exactly the words
      joined by `-`. */
  lemma CollapseThenStripJoinsWords(s: string)
    ensures StripEdges(CollapseRuns(s)) == Text.Join(Words(s), "-")
  {
    CollapseRunsByWords(s);
    if Words(s) != [] {
      JoinedWordsEdges(Words(s));
    }
    StripEdgesAroundWords(Lead(s), Text.Join(Words(s), "-"), Trail(s));
  }

  lemma StripEdgesKeepsAlnums(s: string)
    ensures Alnums(StripEdges(s)) == Alnums(s)
  {
    if s != [] && s[0] == '-' {
      assert Alnums(s) == Alnums(s[1..]);
      DropLastDash(s[1..]);
    } else {
      DropLastDash(s);
    }
  }

  lemma {:induction false} DropLastDash(s: string)
    ensures s != [] && s[|s| - 1] == '-' ==> Alnums(s[..|s| - 1]) == Alnums(s)
    decreases |s|
  {
    if s != [] && s[|s| - 1] == '-' {
      if |s| == 1 {
        assert s[..0] == [];
      } else {
        DropLastDash(s[1..]);
        assert s[1..][..|s| - 2] == s[..|s| - 1][1..];
      }
    }
  }

  /** After collapsing, both ends are free of `-` once stripped, since no
      two `-` are adjacent. */
  lemma StripEdgesLeavesNoEdgeDash(s: string)
    requires NoDoubleDash(s)
    ensures var r := StripEdges(s); r == [] || (r[0] != '-' && r[|r| - 1] != '-')
  {
    var a := if s != [] && s[0] == '-' then s[1..] else s;
    if s != [] && s[0] == '-' && a != [] {
      assert a[0] == s[1];
    }
    if a != [] && a[|a| - 1] == '-' && |a| >= 2 {
      assert a[|a| - 2] != '-' by {
        if s != [] && s[0] == '-' {
          assert a[|a| - 2] == s[|s| - 2] && a[|a| - 1] == s[|s| - 1];
        }
      }
    }
  }

  /** Text already made of letters, digits and single dashes is left as
      it is by the collapsing step. */
  lemma {:induction false} CollapseKeepsDashedText(s: string)
    requires SlugChars(s) && NoDoubleDash(s)
    ensures CollapseRuns(s) == s
    decreases |s|
  {
    if s != [] {
      assert SlugChars(s[1..]) && NoDoubleDash(s[1..]) by {
        assert forall i :: 0 <= i < |s| - 1 ==> s[1..][i] == s[i + 1];
      }
      if !IsSlugAlnum(s[0]) {
        assert s[1..] == [] || IsSlugAlnum(s[1]);
        assert SkipSeparators(s[1..]) == s[1..];
      }
      CollapseKeepsDashedText(s[1..]);
    }
  }

  /** Deriving a slug from a slug gives it back, so the rule is
      idempotent. */
  lemma SlugifyKeepsSlugs(s: string)
    requires IsSlug(s)
    ensures Slugify(s) == s
  {
    assert ToLower(s) == s;
    CollapseKeepsDashedText(s);
    assert StripEdges(CollapseRuns(ToLower(s))) == s;
  }

  lemma SlugifyIsIdempotent(name: string)
    ensures Slugify(Slugify(name)) == Slugify(name)
  {
    SlugifyKeepsSlugs(Slugify(name));
  }

  /** A name without ASCII letters or digits yields the empty slug. */
  lemma NameWithoutAlnumsGivesEmptySlug(name: string)
    requires forall i :: 0 <= i < |name| ==> !IsSlugAlnum(LowerChar(name[i]))
    ensures Slugify(name) == ""
  {
    if name != [] {
      CollapseRunsOfSeparators(ToLower(name));
    }
  }

  /** The hook: a non-empty supplied slug is kept; otherwise a non-empty
      name is slugified; otherwise the supplied value is returned. */
  function SlugHook(value: string, name: string): (r: string)
    ensures value != "" ==> r == value
    ensures value == "" && name != "" ==> r == Slugify(name) && IsSlug(r)
    ensures value == "" && name == "" ==> r == value
  {
    if value == "" && name != "" then Slugify(name) else value
  }
}
