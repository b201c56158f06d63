/** Turning the submitted story text into scene prompts: the chain
    `text.split(/\n\s*\n/).map(trim).filter(non-empty).slice(0, 10)`. */
module Prompts {
  import opened Wrappers
  import opened JsText
  import opened Constants

  /** `t[i]` and `t[j]` are newlines with only white space between them:
      a piece of text the pattern `\n\s*\n` can match. */
  predicate RunBetween(t: string, i: int, j: int) {
    && 0 <= i < j < |t|
    && t[i] == '\n' && t[j] == '\n'
    && forall m :: i < m < j ==> IsWhitespace(t[m])
  }

  /** `t` contains a newline, white space, newline run (a blank line). */
  ghost predicate HasBlankLineRun(t: string) {
    exists i, j :: RunBetween(t, i, j)
  }

  /** `sep` is, as a whole, a newline, white space, newline run. */
  predicate IsBlankLineRun(sep: string) {
    |sep| >= 2 && sep[0] == '\n' && sep[|sep| - 1] == '\n' && AllWhitespace(sep)
  }

  /** The end of the longest run of white space that starts at `k`. */
  function WhitespaceRunEnd(s: string, k: nat): (e: nat)
    requires k <= |s|
    ensures k <= e <= |s|
    ensures forall m :: k <= m < e ==> IsWhitespace(s[m])
    ensures e == |s| || !IsWhitespace(s[e])
    decreases |s| - k
  {
    if k < |s| && IsWhitespace(s[k]) then WhitespaceRunEnd(s, k + 1) else k
  }

  /** The position of the last newline in `s[lo..hi]`, if there is one. */
  function LastNewline(s: string, lo: nat, hi: nat): (r: Option<nat>)
    requires lo <= hi <= |s|
    ensures r.Some? ==> lo <= r.value < hi && s[r.value] == '\n'
    ensures r.Some? ==> forall m :: r.value < m < hi ==> s[m] != '\n'
    ensures r.None? ==> forall m :: lo <= m < hi ==> s[m] != '\n'
    decreases hi - lo
  {
    if hi == lo then None
    else if s[hi - 1] == '\n' then Some(hi - 1)
    else LastNewline(s, lo, hi - 1)
  }

  /** Where a match of `\n\s*\n` starting at `q` ends (exclusive), if one
      starts there. The greedy `\s*` backtracks from the end of the white
      space run to its last newline, so the match is the LONGEST run that
      starts at `q`, and there is none exactly when no run starts at `q`. */
  function MatchEnd(s: string, q: nat): (r: Option<nat>)
    requires q <= |s|
    ensures r.Some? ==> q < r.value <= |s| && RunBetween(s, q, r.value - 1)
    ensures r.Some? ==> forall j :: RunBetween(s, q, j) ==> j <= r.value - 1
    ensures r.None? ==> forall j :: !RunBetween(s, q, j)
  {
    if q < |s| && s[q] == '\n' then
      var e := WhitespaceRunEnd(s, q + 1);
      var last := LastNewline(s, q + 1, e);
      match last
      case Some(j) => Some(j + 1)
      case None => None
    else None
  }

  /** No match of the pattern starts anywhere in `[p, q)`. */
  predicate NoMatchIn(s: string, p: nat, q: nat)
    requires p <= q <= |s|
  {
    forall m :: p <= m < q ==> MatchEnd(s, m).None?
  }

  /** The split loop of `String.prototype.split` with a regular expression:
      `p` is where the current piece began, `q` is where the next match is
      tried. A piece ends where a match begins; the next piece starts where
      that match ends; after the last match the rest of the text is the
      final piece. */
  function SplitFrom(s: string, p: nat, q: nat): (pieces: seq<string>)
    requires p <= q <= |s|
    requires NoMatchIn(s, p, q)
    ensures |pieces| >= 1
    ensures forall k :: 0 <= k < |pieces| ==> !HasBlankLineRun(pieces[k])
    decreases |s| - q
  {
    if q == |s| then
      NoMatchHasNoRun(s, p, q);
      assert s[p..q] == s[p..];
      [s[p..]]
    else
      match MatchEnd(s, q)
      case None => SplitFrom(s, p, q + 1)
      case Some(e) =>
        NoMatchHasNoRun(s, p, q);
        [s[p..q]] + SplitFrom(s, e, e)
  }

  /** A blank-line run inside a slice is one of the whole text. */
  lemma RunInSlice(t: string, a: nat, b: nat, i: int, j: int)
    requires a <= b <= |t|
    requires RunBetween(t[a..b], i, j)
    ensures RunBetween(t, a + i, a + j)
  {
    forall m | a + i < m < a + j ensures IsWhitespace(t[m]) {
      assert t[m] == t[a..b][m - a];
    }
  }

  /** A match starts wherever a blank-line run starts. */
  lemma RunStartsMatch(s: string, i: nat, j: nat)
    requires RunBetween(s, i, j)
    ensures MatchEnd(s, i).Some?
  {
  }

  /** A stretch of text in which no match starts holds no blank-line run. */
  lemma NoMatchHasNoRun(s: string, p: nat, q: nat)
    requires p <= q <= |s|
    requires NoMatchIn(s, p, q)
    ensures !HasBlankLineRun(s[p..q])
  {
    var t := s[p..q];
    if HasBlankLineRun(t) {
      var i, j :| RunBetween(t, i, j);
      RunInSlice(s, p, q, i, j);
      RunStartsMatch(s, p + i, p + j);
      assert false;
    }
  }

  /** The separators the split removes, in the same order: the text each
      match of the pattern covers. */
  ghost function SeparatorsFrom(s: string, p: nat, q: nat): (seps: seq<string>)
    requires p <= q <= |s|
    ensures forall k :: 0 <= k < |seps| ==> IsBlankLineRun(seps[k])
    decreases |s| - q
  {
    if q == |s| then []
    else
      match MatchEnd(s, q)
      case None => SeparatorsFrom(s, p, q + 1)
      case Some(e) =>
        assert IsBlankLineRun(s[q..e]) by {
          assert RunBetween(s, q, e - 1);
          forall m | 0 <= m < e - q ensures IsWhitespace(s[q..e][m]) {
            assert s[q..e][m] == s[q + m];
          }
        }
        [s[q..e]] + SeparatorsFrom(s, e, e)
  }

  /** Pieces glued back together with the separators between them. */
  function Interleave(pieces: seq<string>, seps: seq<string>): string
    requires |pieces| == |seps| + 1
  {
    if seps == [] then pieces[0]
    else pieces[0] + seps[0] + Interleave(pieces[1..], seps[1..])
  }

  /** `s.split(/\n\s*\n/)`. */
  function SplitBlankLines(s: string): (pieces: seq<string>)
    ensures |pieces| >= 1
    ensures forall k :: 0 <= k < |pieces| ==> !HasBlankLineRun(pieces[k])
  {
    SplitFrom(s, 0, 0)
  }

  /** Splitting loses nothing: the pieces, with the removed blank-line runs
      put back between them, are the text again. */
  lemma {:induction false} SplitFromRebuilds(s: string, p: nat, q: nat)
    requires p <= q <= |s|
    requires NoMatchIn(s, p, q)
    ensures |SplitFrom(s, p, q)| == |SeparatorsFrom(s, p, q)| + 1
    ensures Interleave(SplitFrom(s, p, q), SeparatorsFrom(s, p, q)) == s[p..]
    decreases |s| - q
  {
    if q < |s| {
      match MatchEnd(s, q)
      case None =>
        SplitFromRebuilds(s, p, q + 1);
      case Some(e) =>
        SplitFromRebuilds(s, e, e);
        assert s[p..] == s[p..q] + s[q..e] + s[e..];
    }
  }

  lemma SplitRebuilds(s: string)
    ensures |SplitBlankLines(s)| == |SeparatorsFrom(s, 0, 0)| + 1
    ensures Interleave(SplitBlankLines(s), SeparatorsFrom(s, 0, 0)) == s
  {
    SplitFromRebuilds(s, 0, 0);
  }

  /** Cutting a piece out of a text without blank-line runs leaves none. */
  lemma SliceHasNoRun(t: string, a: nat, b: nat)
    requires a <= b <= |t|
    requires !HasBlankLineRun(t)
    ensures !HasBlankLineRun(t[a..b])
  {
    var u := t[a..b];
    if HasBlankLineRun(u) {
      var i, j :| RunBetween(u, i, j);
      RunInSlice(t, a, b, i, j);
      assert false;
    }
  }

  /** Trimming never creates a blank-line run. */
  lemma TrimHasNoRun(t: string)
    requires !HasBlankLineRun(t)
    ensures !HasBlankLineRun(Trim(t))
  {
    var u := TrimStart(t);
    assert u == t[|t| - |u|..|t|];
    SliceHasNoRun(t, |t| - |u|, |t|);
    SliceHasNoRun(u, 0, |TrimEnd(u)|);
  }

  /** `.map(prompt => prompt.trim())`. */
  function TrimAll(pieces: seq<string>): seq<string> {
    seq(|pieces|, k requires 0 <= k < |pieces| => Trim(pieces[k]))
  }

  /** Every mapped entry is already trimmed, and is empty exactly when its
      piece is all white space. */
  lemma TrimAllTrimmed(pieces: seq<string>)
    ensures forall k :: 0 <= k < |pieces| ==>
              && Trim(TrimAll(pieces)[k]) == TrimAll(pieces)[k]
              && (TrimAll(pieces)[k] == [] <==> AllWhitespace(pieces[k]))
  {
    forall k | 0 <= k < |pieces|
      ensures Trim(TrimAll(pieces)[k]) == TrimAll(pieces)[k]
    {
      TrimIdempotent(pieces[k]);
    }
  }

  /** `.filter(prompt => prompt.length > 0)`: keeps the non-empty strings,
      and only those. */
  function DropEmpty(xs: seq<string>): (r: seq<string>)
    ensures |r| <= |xs|
    ensures forall k :: 0 <= k < |r| ==> r[k] != []
    ensures forall x :: x in r <==> x in xs && x != []
  {
    if xs == [] then []
    else (if xs[0] == [] then [] else [xs[0]]) + DropEmpty(xs[1..])
  }

  /** Filtering keeps the input order: filtering a concatenation is the
      concatenation of the filtered parts. */
  lemma {:induction false} DropEmptyConcat(a: seq<string>, b: seq<string>)
    ensures DropEmpty(a + b) == DropEmpty(a) + DropEmpty(b)
  {
    if a == [] {
      assert a + b == b;
    } else {
      assert (a + b)[0] == a[0];
      assert (a + b)[1..] == a[1..] + b;
      DropEmptyConcat(a[1..], b);
    }
  }

  function Min(a: int, b: int): int {
    if a <= b then a else b
  }

  /** The trimmed, non-empty pieces, in order. Each is non-empty, already
      trimmed, and free of blank lines. */
  function KeptPieces(pieces: seq<string>): (kept: seq<string>)
    requires forall k :: 0 <= k < |pieces| ==> !HasBlankLineRun(pieces[k])
    ensures forall k :: 0 <= k < |kept| ==>
              && kept[k] != []
              && Trim(kept[k]) == kept[k]
              && !HasBlankLineRun(kept[k])
  {
    var kept := DropEmpty(TrimAll(pieces));
    forall k | 0 <= k < |kept|
      ensures Trim(kept[k]) == kept[k] && !HasBlankLineRun(kept[k])
    {
      assert kept[k] in kept;
      var i :| 0 <= i < |pieces| && TrimAll(pieces)[i] == kept[k];
      TrimIdempotent(pieces[i]);
      TrimHasNoRun(pieces[i]);
    }
    kept
  }

  /** The prompts of one submission: the trimmed, non-empty pieces between
      blank-line runs, in order, at most `MaxScenesPerGeneration` of them.
      Each prompt is non-empty, already trimmed, and free of blank lines. */
  function ScenePrompts(text: string): (prompts: seq<string>)
    ensures |prompts| <= MaxScenesPerGeneration
    ensures forall k :: 0 <= k < |prompts| ==>
              && prompts[k] != []
              && Trim(prompts[k]) == prompts[k]
              && !HasBlankLineRun(prompts[k])
  {
    var kept := KeptPrompts(text);
    kept[..Min(|kept|, MaxScenesPerGeneration)]
  }

  /** Every prompt the text holds, before the cap on their number. */
  function KeptPrompts(text: string): (kept: seq<string>)
    ensures forall k :: 0 <= k < |kept| ==>
              && kept[k] != []
              && Trim(kept[k]) == kept[k]
              && !HasBlankLineRun(kept[k])
  {
    KeptPieces(SplitBlankLines(text))
  }

  /** How many pieces hold something other than white space. */
  function NonBlankCount(pieces: seq<string>): nat {
    if pieces == [] then 0
    else (if AllWhitespace(pieces[0]) then 0 else 1) + NonBlankCount(pieces[1..])
  }

  /** Trimming then dropping empty strings keeps one string per non-blank
      piece. */
  lemma {:induction false} KeptCount(pieces: seq<string>)
    ensures |DropEmpty(TrimAll(pieces))| == NonBlankCount(pieces)
  {
    if pieces != [] {
      assert TrimAll(pieces)[1..] == TrimAll(pieces[1..]);
      KeptCount(pieces[1..]);
    }
  }

  /** The number of prompts is the number of non-blank pieces, capped at
      `MaxScenesPerGeneration`; the excess is dropped silently. */
  lemma PromptCount(text: string)
    ensures |ScenePrompts(text)| == Min(NonBlankCount(SplitBlankLines(text)), MaxScenesPerGeneration)
  {
    KeptCount(SplitBlankLines(text));
  }

  /** With white-space separators, the rebuilt text is all white space
      exactly when every piece is. */
  lemma {:induction false} InterleaveBlank(pieces: seq<string>, seps: seq<string>)
    requires |pieces| == |seps| + 1
    requires forall k :: 0 <= k < |seps| ==> AllWhitespace(seps[k])
    ensures AllWhitespace(Interleave(pieces, seps))
        <==> forall k :: 0 <= k < |pieces| ==> AllWhitespace(pieces[k])
  {
    if seps != [] {
      InterleaveBlank(pieces[1..], seps[1..]);
      var rest := Interleave(pieces[1..], seps[1..]);
      assert Interleave(pieces, seps) == pieces[0] + seps[0] + rest;
      AllWhitespaceConcat(pieces[0], seps[0]);
      AllWhitespaceConcat(pieces[0] + seps[0], rest);
      assert forall k :: 1 <= k < |pieces| ==> pieces[k] == pieces[1..][k - 1];
    }
  }

  lemma AllWhitespaceConcat(a: string, b: string)
    ensures AllWhitespace(a + b) <==> AllWhitespace(a) && AllWhitespace(b)
  {
    assert forall k :: 0 <= k < |b| ==> b[k] == (a + b)[|a| + k];
    assert forall k :: 0 <= k < |a| ==> a[k] == (a + b)[k];
  }

  lemma {:induction false} NonBlankCountZero(pieces: seq<string>)
    ensures NonBlankCount(pieces) == 0 <==> forall k :: 0 <= k < |pieces| ==> AllWhitespace(pieces[k])
  {
    if pieces != [] {
      NonBlankCountZero(pieces[1..]);
      assert forall k :: 1 <= k < |pieces| ==> pieces[k] == pieces[1..][k - 1];
    }
  }

  /** A submission yields no prompt exactly when its text is all white
      space (the empty text included). */
  lemma NoPromptsIffBlank(text: string)
    ensures ScenePrompts(text) == [] <==> AllWhitespace(text)
  {
    SplitRebuilds(text);
    var pieces := SplitBlankLines(text);
    var seps := SeparatorsFrom(text, 0, 0);
    InterleaveBlank(pieces, seps);
    NonBlankCountZero(pieces);
    PromptCount(text);
  }

  /** The story form only submits `text.trim()` when that is non-empty, so
      a submission from the form always yields at least one prompt. */
  lemma FormSubmissionHasPrompts(raw: string)
    requires Trim(raw) != []
    ensures ScenePrompts(Trim(raw)) != []
  {
    NoPromptsIffBlank(Trim(raw));
  }

  /** Three paragraphs separated by blank lines give three prompts, in
      order. */
  lemma ThreeParagraphs()
    ensures ScenePrompts("A\n\nB\n\nC") == ["A", "B", "C"]
  {
    ThreeParagraphsSplit();
    ThreeParagraphsKept();
    FewPiecesAllKept("A\n\nB\n\nC");
  }

  /** With at most `MaxScenesPerGeneration` kept pieces, every one of them
      becomes a prompt. */
  lemma FewPiecesAllKept(text: string)
    requires |KeptPieces(SplitBlankLines(text))| <= MaxScenesPerGeneration
    ensures ScenePrompts(text) == KeptPieces(SplitBlankLines(text))
  {
  }

  lemma ThreeParagraphsSplit()
    ensures SplitBlankLines("A\n\nB\n\nC") == ["A", "B", "C"]
  {
    var s := "A\n\nB\n\nC";
    assert MatchEnd(s, 0) == None;
    assert MatchEnd(s, 1) == Some(3);
    assert MatchEnd(s, 3) == None;
    assert MatchEnd(s, 4) == Some(6);
    assert MatchEnd(s, 6) == None;
    assert SplitFrom(s, 6, 6) == ["C"];
    assert s[3..4] == "B";
    assert SplitFrom(s, 3, 3) == ["B", "C"];
    assert s[0..1] == "A";
  }

  lemma ThreeParagraphsKept()
    ensures KeptPieces(["A", "B", "C"]) == ["A", "B", "C"]
  {
    ThreeParagraphsTrimmed();
    ThreeParagraphsNonEmpty();
  }

  lemma ThreeParagraphsTrimmed()
    ensures TrimAll(["A", "B", "C"]) == ["A", "B", "C"]
  {
    TrimAllKeeps(["A", "B", "C"]);
  }

  /** A string without white space is its own trim. */
  lemma NoWhitespaceTrim(s: string)
    requires forall k :: 0 <= k < |s| ==> !IsWhitespace(s[k])
    ensures Trim(s) == s
  {
    assert TrimStart(s) == s;
  }

  /** Trimming leaves a list of strings without white space unchanged. */
  lemma TrimAllKeeps(xs: seq<string>)
    requires forall i, k :: 0 <= i < |xs| && 0 <= k < |xs[i]| ==> !IsWhitespace(xs[i][k])
    ensures TrimAll(xs) == xs
  {
    forall i | 0 <= i < |xs| ensures TrimAll(xs)[i] == xs[i] {
      NoWhitespaceTrim(xs[i]);
    }
  }

  lemma ThreeParagraphsNonEmpty()
    ensures DropEmpty(["A", "B", "C"]) == ["A", "B", "C"]
  {
    assert DropEmpty(["C"]) == ["C"];
    assert DropEmpty(["B", "C"]) == ["B", "C"];
  }
}
