/** `str::replace`, the replace-all on text that fills the gnuplot template,
    with the facts about it the template filling relies on: text that cannot
    start an occurrence of the pattern passes through unchanged, and a text
    built from chunks is rewritten chunk by chunk. */
module Replace {

  /** `pat` occurs in `s` at index `i`. */
  predicate OccursAt(s: string, pat: string, i: nat) {
    i + |pat| <= |s| && s[i..i + |pat|] == pat
  }

  /** `s.replace(pat, rep)`: scans `s` from the left; at each position where
      `pat` starts, `rep` is emitted and the scan resumes after that
      occurrence, otherwise the character is kept. Occurrences found are
      therefore non-overlapping. */
  function ReplaceAll(s: string, pat: string, rep: string): (r: string)
    requires pat != []
    ensures |pat| == |rep| ==> |r| == |s|
    decreases |s|
  {
    if s == [] then []
    else if pat <= s then rep + ReplaceAll(s[|pat|..], pat, rep)
    else [s[0]] + ReplaceAll(s[1..], pat, rep)
  }

  /** No position of `s` can start an occurrence of the two-or-more character
      pattern `pat`: every first character of `pat` in `s` is followed, inside
      `s`, by a character other than the second one of `pat`. */
  predicate Inert(s: string, pat: string)
    requires |pat| >= 2
  {
    forall i :: 0 <= i < |s| && s[i] == pat[0] ==> i + 1 < |s| && s[i + 1] != pat[1]
  }

  lemma InertHasNoOccurrence(s: string, pat: string, i: nat)
    requires |pat| >= 2 && Inert(s, pat)
    ensures !OccursAt(s, pat, i)
  {
    if i + |pat| <= |s| {
      var found := s[i..i + |pat|];
      assert found[0] == s[i] && found[1] == s[i + 1];
    }
  }

  /** Text that cannot start an occurrence is copied unchanged, whatever
      follows it. */
  lemma {:induction false} SkipInert(a: string, b: string, pat: string, rep: string)
    requires |pat| >= 2 && Inert(a, pat)
    ensures ReplaceAll(a + b, pat, rep) == a + ReplaceAll(b, pat, rep)
    decreases |a|
  {
    if a == [] {
      assert a + b == b;
    } else {
      var s := a + b;
      assert !(pat <= s) by {
        assert s[0] == a[0];
        if a[0] == pat[0] {
          assert s[1] == a[1] != pat[1];
        }
      }
      assert s[1..] == a[1..] + b;
      assert Inert(a[1..], pat) by {
        forall i | 0 <= i < |a[1..]| && a[1..][i] == pat[0]
          ensures i + 1 < |a[1..]| && a[1..][i + 1] != pat[1]
        {
          assert a[i + 1] == pat[0];
        }
      }
      SkipInert(a[1..], b, pat, rep);
    }
  }

  /** An occurrence at the front is replaced and the scan resumes after it. */
  lemma ReplaceAtFront(b: string, pat: string, rep: string)
    requires pat != []
    ensures ReplaceAll(pat + b, pat, rep) == rep + ReplaceAll(b, pat, rep)
  {
  }

  /** A text that the pattern cannot start in is left as it is. */
  lemma InertUnchanged(s: string, pat: string, rep: string)
    requires |pat| >= 2 && Inert(s, pat)
    ensures ReplaceAll(s, pat, rep) == s
  {
  }

  /** The text of a list of chunks, in order. */
  function Concat(chunks: seq<string>): (s: string)
    ensures chunks == [] ==> s == []
    ensures chunks != [] ==> chunks[0] <= s
  {
    if chunks == [] then [] else chunks[0] + Concat(chunks[1..])
  }

  lemma {:induction false} ConcatAppend(a: seq<string>, b: seq<string>)
    ensures Concat(a + b) == Concat(a) + Concat(b)
    decreases |a|
  {
    if a == [] {
      assert a + b == b;
    } else {
      assert (a + b)[1..] == a[1..] + b;
      ConcatAppend(a[1..], b);
    }
  }

  /** Every chunk equal to `pat` replaced by the chunks of `rep`. */
  function Expand(chunks: seq<string>, pat: string, rep: seq<string>): (e: seq<string>)
    ensures pat !in chunks ==> e == chunks
  {
    if chunks == [] then []
    else (if chunks[0] == pat then rep else [chunks[0]]) + Expand(chunks[1..], pat, rep)
  }

  lemma {:induction false} ExpandAppend(a: seq<string>, b: seq<string>, pat: string, rep: seq<string>)
    ensures Expand(a + b, pat, rep) == Expand(a, pat, rep) + Expand(b, pat, rep)
    decreases |a|
  {
    if a == [] {
      assert a + b == b;
    } else {
      assert (a + b)[1..] == a[1..] + b;
      ExpandAppend(a[1..], b, pat, rep);
    }
  }

  /** Each chunk is an occurrence of `pat` or cannot start one. */
  predicate Chunked(chunks: seq<string>, pat: string)
    requires |pat| >= 2
  {
    forall i :: 0 <= i < |chunks| ==> chunks[i] == pat || Inert(chunks[i], pat)
  }

  /** On chunked text, replace-all works chunk by chunk: the occurrences are
      exactly the chunks equal to the pattern. */
  lemma {:induction false} ReplaceAllChunks(chunks: seq<string>, pat: string, rep: seq<string>)
    requires |pat| >= 2 && Chunked(chunks, pat)
    ensures ReplaceAll(Concat(chunks), pat, Concat(rep)) == Concat(Expand(chunks, pat, rep))
    decreases |chunks|
  {
    if chunks != [] {
      var rest := chunks[1..];
      assert Chunked(rest, pat) by {
        forall i | 0 <= i < |rest| ensures rest[i] == pat || Inert(rest[i], pat) {
          assert rest[i] == chunks[i + 1];
        }
      }
      ReplaceAllChunks(rest, pat, rep);
      if chunks[0] == pat {
        ReplaceAtFront(Concat(rest), pat, Concat(rep));
        ConcatAppend(rep, Expand(rest, pat, rep));
      } else {
        SkipInert(chunks[0], Concat(rest), pat, Concat(rep));
        ConcatAppend([chunks[0]], Expand(rest, pat, rep));
        assert Concat([chunks[0]]) == chunks[0] + Concat([]);
      }
    }
  }

  /** Replace-all with a one-character pattern and a one-character
      replacement: the same text with that character substituted. */
  function Substituted(s: string, from: char, to: char): (r: string)
    ensures |r| == |s|
  {
    seq(|s|, i requires 0 <= i < |s| => if s[i] == from then to else s[i])
  }

  lemma {:induction false} ReplaceCharIsSubstitution(s: string, from: char, to: char)
    ensures ReplaceAll(s, [from], [to]) == Substituted(s, from, to)
    decreases |s|
  {
    if s != [] {
      ReplaceCharIsSubstitution(s[1..], from, to);
      var r := ReplaceAll(s, [from], [to]);
      var t := Substituted(s, from, to);
      assert [from] <= s <==> s[0] == from;
      assert s[1..] == s[|[from]|..];
      assert r == [t[0]] + Substituted(s[1..], from, to);
      assert t == [t[0]] + Substituted(s[1..], from, to);
    }
  }
}
