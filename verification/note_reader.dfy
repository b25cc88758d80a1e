/**
 * The two-page spread of components/notes/NoteReader.tsx: the note's content
 * is split on single spaces, the first ceil(n/2) words go on the left page and
 * the remaining words on the right, each page joined back with single spaces.
 */
module NoteReader {
  import opened Wrappers

  predicate SpaceFree(w: string) {
    forall i :: 0 <= i < |w| ==> w[i] != ' '
  }

  /** `s.split(' ')`: the pieces between single spaces, empty pieces included; never an empty list. */
  function SplitOnSpace(s: string): (words: seq<string>)
    ensures |words| >= 1
    ensures forall i :: 0 <= i < |words| ==> SpaceFree(words[i])
  {
    if s == [] then [""]
    else
      var rest := SplitOnSpace(s[1..]);
      if s[0] == ' ' then [""] + rest
      else [[s[0]] + rest[0]] + rest[1..]
  }

  /** `words.join(' ')`. */
  function JoinWithSpace(words: seq<string>): string {
    if |words| == 0 then ""
    else if |words| == 1 then words[0]
    else words[0] + " " + JoinWithSpace(words[1..])
  }

  /** Joining the pieces of a split gives back the original text. */
  lemma {:induction false} JoinSplit(s: string)
    ensures JoinWithSpace(SplitOnSpace(s)) == s
  {
    if s != [] {
      var rest := SplitOnSpace(s[1..]);
      JoinSplit(s[1..]);
      if s[0] == ' ' {
        assert ([""] + rest)[1..] == rest;
      } else if |rest| >= 2 {
        var ws := [[s[0]] + rest[0]] + rest[1..];
        assert ws[1..] == rest[1..];
      }
    }
  }

  lemma {:induction false} SplitSpaceFree(w: string)
    requires SpaceFree(w)
    ensures SplitOnSpace(w) == [w]
  {
    if w != [] {
      SplitSpaceFree(w[1..]);
      assert [w[0]] + w[1..] == w;
    }
  }

  lemma {:induction false} SplitAfterWord(a: string, t: string)
    requires SpaceFree(a)
    ensures SplitOnSpace(a + " " + t) == [a] + SplitOnSpace(t)
  {
    if a == [] {
      assert (a + " " + t)[1..] == t;
    } else {
      assert (a + " " + t)[1..] == a[1..] + " " + t;
      SplitAfterWord(a[1..], t);
      assert [a[0]] + a[1..] == a;
    }
  }

  /** Splitting a join of space-free words gives back the words. */
  lemma {:induction false} SplitJoin(words: seq<string>)
    requires |words| >= 1
    requires forall i :: 0 <= i < |words| ==> SpaceFree(words[i])
    ensures SplitOnSpace(JoinWithSpace(words)) == words
  {
    if |words| == 1 {
      SplitSpaceFree(words[0]);
    } else {
      SplitJoin(words[1..]);
      SplitAfterWord(words[0], JoinWithSpace(words[1..]));
    }
  }

  lemma {:induction false} JoinAppend(a: seq<string>, b: seq<string>)
    requires |a| >= 1 && |b| >= 1
    ensures JoinWithSpace(a + b) == JoinWithSpace(a) + " " + JoinWithSpace(b)
  {
    assert (a + b)[1..] == a[1..] + b;
    if |a| >= 2 {
      JoinAppend(a[1..], b);
    }
  }

  /**
   * `Math.ceil(n / 2)`: the least integer that is at least n/2, so the left
   * page gets at least as many words as the right and at most one more.
   */
  function Halfway(n: nat): (h: nat)
    ensures 2 * h >= n && 2 * (h - 1) < n
    ensures h <= n && n - h <= h <= n - h + 1
  {
    (n + 1) / 2
  }

  datatype Spread = Spread(left: string, right: string)

  /** The text of the left and right pages for a note whose content may be null. */
  function ReaderPages(content: Option<string>): (p: Spread)
    ensures
      var text := content.GetOr("");
      var words := SplitOnSpace(text);
      var h := Halfway(|words|);
      && 1 <= h <= |words|
      && SplitOnSpace(p.left) == words[..h]
      && (h < |words| ==> SplitOnSpace(p.right) == words[h..])
      && (|words| >= 2 ==> p.left + " " + p.right == text)
      && (|words| == 1 ==> p.left == text && p.right == "")
  {
    var text := content.GetOr("");
    var words := SplitOnSpace(text);
    var h := Halfway(|words|);
    SpreadHalves(words, h);
    JoinSplit(text);
    Spread(JoinWithSpace(words[..h]), JoinWithSpace(words[h..]))
  }

  /**
   * Cutting space-free words at h and joining each side: each side splits
   * back into its words, and the two sides joined by a space give the join
   * of all the words.
   */
  lemma SpreadHalves(words: seq<string>, h: nat)
    requires 1 <= h <= |words|
    requires forall i :: 0 <= i < |words| ==> SpaceFree(words[i])
    ensures SplitOnSpace(JoinWithSpace(words[..h])) == words[..h]
    ensures h < |words| ==>
      && SplitOnSpace(JoinWithSpace(words[h..])) == words[h..]
      && JoinWithSpace(words[..h]) + " " + JoinWithSpace(words[h..]) == JoinWithSpace(words)
    ensures h == |words| ==> JoinWithSpace(words[..h]) == JoinWithSpace(words) && JoinWithSpace(words[h..]) == ""
  {
    SplitJoin(words[..h]);
    assert words[..h] + words[h..] == words;
    if h < |words| {
      SplitJoin(words[h..]);
      JoinAppend(words[..h], words[h..]);
    } else {
      assert words[..h] == words && words[h..] == [];
    }
  }
}
