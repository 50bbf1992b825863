/**
 * The string handling of the command line, as Python does it: which characters are
 * whitespace, str.strip(), str.split(" ", 1) and str.split() with no separator, and
 * what the last one keeps of its input.
 */
module Text {
  import opened Wrappers
  import opened SeqFacts

  /** The characters Python's str.strip() and str.split() treat as whitespace. */
  const Whitespace: set<char> := {
    ' ', '\t', '\n', '\U{0B}', '\U{0C}', '\r', '\U{1C}', '\U{1D}', '\U{1E}', '\U{1F}',
    '\U{85}', '\U{A0}', '\U{1680}', '\U{2000}', '\U{2001}', '\U{2002}', '\U{2003}', '\U{2004}',
    '\U{2005}', '\U{2006}', '\U{2007}', '\U{2008}', '\U{2009}', '\U{200A}', '\U{2028}',
    '\U{2029}', '\U{202F}', '\U{205F}', '\U{3000}'
  }

  predicate IsSpace(c: char)
  {
    c in Whitespace
  }

  /** The number of whitespace characters a string starts with. */
  function LeadingSpaces(s: string): (n: nat)
    ensures n <= |s|
    ensures forall i :: 0 <= i < n ==> IsSpace(s[i])
    ensures n < |s| ==> !IsSpace(s[n])
  {
    if s == [] || !IsSpace(s[0]) then 0 else 1 + LeadingSpaces(s[1..])
  }

  /** The number of whitespace characters a string ends with. */
  function TrailingSpaces(s: string): (n: nat)
    ensures n <= |s|
    ensures forall i :: |s| - n <= i < |s| ==> IsSpace(s[i])
    ensures n < |s| ==> !IsSpace(s[|s| - 1 - n])
  {
    if s == [] || !IsSpace(s[|s| - 1]) then 0 else 1 + TrailingSpaces(s[..|s| - 1])
  }

  /** str.strip(): the string without its leading and trailing whitespace. */
  function Strip(s: string): (r: string)
    ensures r == [] <==> forall i :: 0 <= i < |s| ==> IsSpace(s[i])
    ensures r != [] ==> !IsSpace(r[0]) && !IsSpace(r[|r| - 1])
    ensures LeadingSpaces(s) + |r| <= |s| && r == s[LeadingSpaces(s)..LeadingSpaces(s) + |r|]
    ensures forall i :: LeadingSpaces(s) + |r| <= i < |s| ==> IsSpace(s[i])
  {
    var a := LeadingSpaces(s);
    if a == |s| then []
    else
      var b := TrailingSpaces(s);
      s[a..|s| - b]
  }

  /** A string that starts and ends with non-whitespace is its own str.strip(). */
  lemma StripTrimmed(s: string)
    requires s != [] && !IsSpace(s[0]) && !IsSpace(s[|s| - 1])
    ensures Strip(s) == s
  {
    assert LeadingSpaces(s) == 0 && TrailingSpaces(s) == 0;
    assert s[0..|s|] == s;
  }

  /** A word is its own str.strip(). */
  lemma StripWord(w: string)
    requires IsWord(w)
    ensures Strip(w) == w
  {
    StripTrimmed(w);
  }

  /** The index of the first ' ' in a string, or its length when there is none. */
  function SpaceIndex(s: string): (i: nat)
    ensures i <= |s|
    ensures forall j :: 0 <= j < i ==> s[j] != ' '
    ensures i < |s| ==> s[i] == ' '
  {
    if s == [] || s[0] == ' ' then 0 else 1 + SpaceIndex(s[1..])
  }

  /** str.split(" ", 1): the text up to the first single space, and the text after
      it when there is one. */
  function SplitFirstSpace(s: string): (r: (string, Option<string>))
    ensures ' ' !in r.0
    ensures r.1.None? ==> r.0 == s
    ensures r.1.Some? ==> s == r.0 + " " + r.1.value
  {
    var i := SpaceIndex(s);
    if i == |s| then (s, None)
    else
      assert s == s[..i] + " " + s[i + 1..];
      (s[..i], Some(s[i + 1..]))
  }

  /** A word, one space and more text split at that space. */
  lemma SplitAfterWord(w: string, rest: string)
    requires IsWord(w)
    ensures SplitFirstSpace(w + " " + rest) == (w, Some(rest))
  {
    var s := w + " " + rest;
    assert IsSpace(' ');
    assert forall i :: 0 <= i < |w| ==> s[i] == w[i];
    assert s[|w|] == ' ';
    assert SpaceIndex(s) == |w|;
    assert s[..|w|] == w && s[|w| + 1..] == rest;
  }

  /** A word has no space to split at. */
  lemma SplitWord(w: string)
    requires IsWord(w)
    ensures SplitFirstSpace(w) == (w, None)
  {
    assert IsSpace(' ');
    assert SpaceIndex(w) == |w|;
  }

  /** The length of the run of non-whitespace characters a string starts with. */
  function WordLen(t: string): (w: nat)
    ensures w <= |t|
    ensures forall i :: 0 <= i < w ==> !IsSpace(t[i])
    ensures w < |t| ==> IsSpace(t[w])
  {
    if t == [] || IsSpace(t[0]) then 0 else 1 + WordLen(t[1..])
  }

  /** A non-empty string free of whitespace: what str.split() can return. */
  predicate IsWord(w: string)
  {
    w != [] && forall j :: 0 <= j < |w| ==> !IsSpace(w[j])
  }

  /** str.split() with no separator: the maximal runs of non-whitespace characters. */
  function SplitWs(s: string): (ws: seq<string>)
    ensures forall i :: 0 <= i < |ws| ==> IsWord(ws[i])
    ensures ws == [] <==> forall i :: 0 <= i < |s| ==> IsSpace(s[i])
    decreases |s|
  {
    var n := LeadingSpaces(s);
    if n == |s| then []
    else
      var t := s[n..];
      var w := WordLen(t);
      assert t[0] == s[n];
      assert IsWord(t[..w]);
      [t[..w]] + SplitWs(t[w..])
  }

  /** One whitespace character in front of a string does not change how it splits. */
  lemma SplitWsSkipsOne(c: char, s: string)
    requires IsSpace(c)
    ensures SplitWs([c] + s) == SplitWs(s)
  {
    var x := [c] + s;
    TailOfCons(c, s);
    var m := LeadingSpaces(s);
    assert LeadingSpaces(x) == 1 + m;
    DropOfCons(c, s, m);
  }

  /** Whitespace in front of a string does not change how it splits. */
  lemma {:induction false} SplitWsSkipsLeading(lead: string, s: string)
    requires forall i :: 0 <= i < |lead| ==> IsSpace(lead[i])
    ensures SplitWs(lead + s) == SplitWs(s)
  {
    if lead == [] {
      EmptyAppend(s);
    } else {
      SplitWsSkipsLeading(lead[1..], s);
      ConsAppend(lead, s);
      SplitWsSkipsOne(lead[0], lead[1..] + s);
    }
  }

  /** Whitespace after a string does not change how it splits. */
  lemma {:induction false} SplitWsDropsTrailing(s: string, trail: string)
    requires forall i :: 0 <= i < |trail| ==> IsSpace(trail[i])
    ensures SplitWs(s + trail) == SplitWs(s)
    decreases |s|
  {
    var x := s + trail;
    var n := LeadingSpaces(s);
    if n == |s| {
      assert forall i :: 0 <= i < |x| ==> IsSpace(x[i]) by {
        forall i | 0 <= i < |x|
          ensures IsSpace(x[i])
        {
          if i >= |s| {
            assert x[i] == trail[i - |s|];
          }
        }
      }
    } else {
      assert x[n] == s[n];
      assert forall i :: 0 <= i < n ==> x[i] == s[i];
      assert LeadingSpaces(x) == n;
      var t := s[n..];
      var w := WordLen(t);
      DropOfAppend(s, trail, n);
      var t' := t + trail;
      assert forall i :: 0 <= i < w ==> t'[i] == t[i];
      if w < |t| {
        assert t'[w] == t[w];
      } else if trail != [] {
        assert t'[w] == trail[0];
      }
      assert WordLen(t') == w;
      TakeOfAppend(t, trail, w);
      DropOfAppend(t, trail, w);
      SplitWsDropsTrailing(t[w..], trail);
    }
  }

  /** Stripping before splitting changes nothing: str.split() already skips the
      whitespace at both ends. */
  lemma SplitWsIgnoresStrip(s: string)
    ensures SplitWs(Strip(s)) == SplitWs(s)
  {
    var a := LeadingSpaces(s);
    if a == |s| {
      assert Strip(s) == [] && SplitWs(s) == [];
    } else {
      var b := |s| - TrailingSpaces(s);
      assert Strip(s) == s[a..b];
      SplitWsOfSlice(s, a, b);
    }
  }

  /** A slice that leaves out only whitespace at both ends splits like the string. */
  lemma SplitWsOfSlice(s: string, a: nat, b: nat)
    requires a <= b <= |s|
    requires forall i :: 0 <= i < a ==> IsSpace(s[i])
    requires forall i :: b <= i < |s| ==> IsSpace(s[i])
    ensures SplitWs(s[a..b]) == SplitWs(s)
  {
    SliceParts(s, a, b);
    SplitWsIgnoresPadding(s[..a], s[a..b], s[b..]);
  }

  /** Whitespace on both sides of a string does not change how it splits. */
  lemma SplitWsIgnoresPadding(lead: string, r: string, trail: string)
    requires forall i :: 0 <= i < |lead| ==> IsSpace(lead[i])
    requires forall i :: 0 <= i < |trail| ==> IsSpace(trail[i])
    ensures SplitWs(lead + (r + trail)) == SplitWs(r)
  {
    SplitWsSkipsLeading(lead, r + trail);
    SplitWsDropsTrailing(r, trail);
  }

  /** The words joined with single spaces. */
  function JoinSpaced(words: seq<string>): string
  {
    if words == [] then []
    else if |words| == 1 then words[0]
    else words[0] + " " + JoinSpaced(words[1..])
  }

  /** Words joined with single spaces start and end with non-whitespace. */
  lemma {:induction false} JoinSpacedTrimmed(words: seq<string>)
    requires words != []
    requires forall i :: 0 <= i < |words| ==> IsWord(words[i])
    ensures var j := JoinSpaced(words); j != [] && !IsSpace(j[0]) && !IsSpace(j[|j| - 1])
  {
    if |words| > 1 {
      JoinSpacedTrimmed(words[1..]);
      var w := words[0];
      var j := JoinSpaced(words[1..]);
      var x := w + " " + j;
      assert x[0] == w[0];
      assert x[|x| - 1] == j[|j| - 1];
    }
  }

  lemma {:induction false} WordLenOfWord(w: string, rest: string)
    requires IsWord(w)
    requires rest == [] || IsSpace(rest[0])
    ensures WordLen(w + rest) == |w|
  {
    var x := w + rest;
    assert forall i :: 0 <= i < |w| ==> x[i] == w[i];
    if rest != [] {
      assert x[|w|] == rest[0];
    }
  }

  /** A word followed by whitespace or nothing splits into that word first. */
  lemma SplitWsWordFirst(w: string, rest: string)
    requires IsWord(w)
    requires rest == [] || IsSpace(rest[0])
    ensures SplitWs(w + rest) == [w] + SplitWs(rest)
  {
    var x := w + rest;
    WordLenOfWord(w, rest);
    assert x[0] == w[0];
    assert LeadingSpaces(x) == 0;
    AppendParts(w, rest);
  }

  /** Splitting words joined with single spaces gives the words back. */
  lemma {:induction false} SplitJoinRoundTrip(words: seq<string>)
    requires forall i :: 0 <= i < |words| ==> IsWord(words[i])
    ensures SplitWs(JoinSpaced(words)) == words
  {
    if |words| == 1 {
      EmptyAppend(words[0]);
      SplitWsWordFirst(words[0], []);
      assert SplitWs([]) == [];
      Uncons(words);
    } else if |words| > 1 {
      var j := JoinSpaced(words[1..]);
      Assoc(words[0], [' '], j);
      assert IsSpace(' ');
      SplitWsWordFirst(words[0], [' '] + j);
      SplitWsSkipsOne(' ', j);
      SplitJoinRoundTrip(words[1..]);
      Uncons(words);
    }
  }

  /** A word splits into itself. */
  lemma SplitWsWord(w: string)
    requires IsWord(w)
    ensures SplitWs(w) == [w]
  {
    SplitJoinRoundTrip([w]);
  }

  /** The non-whitespace characters of a string, in order. */
  function NonSpace(s: string): string
  {
    if s == [] then [] else (if IsSpace(s[0]) then [] else [s[0]]) + NonSpace(s[1..])
  }

  function Concat(ws: seq<string>): string
  {
    if ws == [] then [] else ws[0] + Concat(ws[1..])
  }

  lemma {:induction false} NonSpaceAppend(a: string, b: string)
    ensures NonSpace(a + b) == NonSpace(a) + NonSpace(b)
  {
    if a == [] {
      EmptyAppend(b);
    } else {
      TailOfAppend(a, b);
      NonSpaceAppend(a[1..], b);
      Assoc(if IsSpace(a[0]) then [] else [a[0]], NonSpace(a[1..]), NonSpace(b));
    }
  }

  lemma {:induction false} NonSpaceOfSpaces(s: string)
    requires forall i :: 0 <= i < |s| ==> IsSpace(s[i])
    ensures NonSpace(s) == []
  {
    if s != [] {
      NonSpaceOfSpaces(s[1..]);
    }
  }

  lemma {:induction false} NonSpaceOfWord(s: string)
    requires forall i :: 0 <= i < |s| ==> !IsSpace(s[i])
    ensures NonSpace(s) == s
  {
    if s != [] {
      NonSpaceOfWord(s[1..]);
    }
  }

  /** The tokens str.split() returns, put back together, are exactly the string's
      non-whitespace characters: nothing is lost, added or reordered. */
  lemma {:induction false} SplitKeepsNonSpace(s: string)
    ensures Concat(SplitWs(s)) == NonSpace(s)
    decreases |s|
  {
    var n := LeadingSpaces(s);
    SplitAt(s, n);
    NonSpaceAppend(s[..n], s[n..]);
    NonSpaceOfSpaces(s[..n]);
    EmptyAppend(NonSpace(s[n..]));
    if n < |s| {
      var t := s[n..];
      var w := WordLen(t);
      SplitAt(t, w);
      NonSpaceAppend(t[..w], t[w..]);
      NonSpaceOfWord(t[..w]);
      SplitKeepsNonSpace(t[w..]);
      TailOfCons(t[..w], SplitWs(t[w..]));
    } else {
      NonSpaceOfSpaces(s);
    }
  }
}
