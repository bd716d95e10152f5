/** From the sections of a document to parent chunks with their child chunks. */
module Chunking {
  datatype Child = Child(text: string, position: nat)

  datatype ChunkPair = ChunkPair(text: string, position: nat, children: seq<Child>)

  /** The semantic splitter and Python's notion of white space, both left open. */
  datatype Splitter = Splitter(split: string -> seq<string>, space: char -> bool)

  function StripLeft(s: string, space: char -> bool): string {
    if s != "" && space(s[0]) then StripLeft(s[1..], space) else s
  }

  function StripRight(s: string, space: char -> bool): string {
    if s != "" && space(s[|s| - 1]) then StripRight(s[..|s| - 1], space) else s
  }

  /** Python's `s.strip()`. */
  function Strip(s: string, space: char -> bool): string {
    StripRight(StripLeft(s, space), space)
  }

  predicate Blank(s: string, space: char -> bool) {
    forall k :: 0 <= k < |s| ==> space(s[k])
  }

  lemma {:induction false} StripLeftBlank(s: string, space: char -> bool)
    ensures StripLeft(s, space) == "" <==> Blank(s, space)
    ensures StripLeft(s, space) != "" ==> !space(StripLeft(s, space)[0])
  {
    if s == "" || !space(s[0]) {
    } else {
      StripLeftBlank(s[1..], space);
      assert s == [s[0]] + s[1..];
    }
  }

  /** Only white space goes, so a first character that is none stays in front. */
  lemma {:induction false} StripRightBlank(s: string, space: char -> bool)
    ensures StripRight(s, space) == "" <==> Blank(s, space)
    ensures s != "" && !space(s[0]) ==> StripRight(s, space) != "" && StripRight(s, space)[0] == s[0]
  {
    if s == "" || !space(s[|s| - 1]) {
    } else {
      StripRightBlank(s[..|s| - 1], space);
      assert s == s[..|s| - 1] + [s[|s| - 1]];
    }
  }

  /** `strip` leaves nothing of blank text, and of any other text something that is not blank. */
  lemma StripBlank(s: string, space: char -> bool)
    ensures Strip(s, space) == "" <==> Blank(s, space)
    ensures Blank(Strip(s, space), space) <==> Blank(s, space)
  {
    StripLeftBlank(s, space);
    StripRightBlank(StripLeft(s, space), space);
  }

  /** Text t is s from i to j, with nothing but white space before and after, and none at its ends. */
  ghost predicate CutsOut(t: string, s: string, space: char -> bool, i: nat, j: nat) {
    && i <= j <= |s| && t == s[i..j]
    && (forall m :: 0 <= m < i || j <= m < |s| ==> space(s[m]))
    && (i < j ==> !space(s[i]) && !space(s[j - 1]))
  }

  /** Text t is s without the white space at its ends. */
  ghost predicate IsStripped(t: string, s: string, space: char -> bool) {
    exists i: nat, j: nat :: CutsOut(t, s, space, i, j)
  }

  lemma {:induction false} StripLeftCuts(s: string, space: char -> bool) returns (i: nat)
    ensures i <= |s| && StripLeft(s, space) == s[i..] && forall m :: 0 <= m < i ==> space(s[m])
    ensures i < |s| ==> !space(s[i])
  {
    if s == "" || !space(s[0]) {
      i := 0;
    } else {
      var k := StripLeftCuts(s[1..], space);
      i := k + 1;
      assert s[1..][k..] == s[i..];
      forall m | 0 <= m < i ensures space(s[m]) {
        if m > 0 { assert s[m] == s[1..][m - 1]; }
      }
    }
  }

  lemma {:induction false} StripRightCuts(s: string, space: char -> bool) returns (j: nat)
    ensures j <= |s| && StripRight(s, space) == s[..j] && forall m :: j <= m < |s| ==> space(s[m])
    ensures j > 0 ==> !space(s[j - 1])
  {
    if s == "" || !space(s[|s| - 1]) {
      j := |s|;
    } else {
      var most := s[..|s| - 1];
      j := StripRightCuts(most, space);
      assert most[..j] == s[..j];
      forall m | j <= m < |s| ensures space(s[m]) {
        if m < |s| - 1 { assert s[m] == most[m]; }
      }
    }
  }

  /** `Strip` cuts white space off both ends, all of it, and nothing else. */
  lemma StripCuts(s: string, space: char -> bool)
    ensures IsStripped(Strip(s, space), s, space)
  {
    var i := StripLeftCuts(s, space);
    var k := StripRightCuts(s[i..], space);
    hide StripLeft, StripRight;
    forall m | 0 <= m < i || i + k <= m < |s| ensures space(s[m]) {
      if m >= i { assert s[m] == s[i..][m - i]; }
    }
    assert s[i..][..k] == s[i..i + k];
    assert CutsOut(Strip(s, space), s, space, i, i + k);
  }

  /** Two ways to cut the white space off come to the same. */
  lemma StrippedIsOne(t: string, u: string, s: string, space: char -> bool)
    requires IsStripped(t, s, space) && IsStripped(u, s, space)
    ensures t == u
  {
    var i: nat, j: nat :| CutsOut(t, s, space, i, j);
    var k: nat, l: nat :| CutsOut(u, s, space, k, l);
    assert i < j ==> k <= i && j <= l;
    assert k < l ==> i <= k && l <= j;
  }

  /** And it is the only text that does. */
  lemma StripExactly(t: string, s: string, space: char -> bool)
    ensures IsStripped(t, s, space) <==> t == Strip(s, space)
  {
    hide Strip, IsStripped;
    StripCuts(s, space);
    if IsStripped(t, s, space) {
      StrippedIsOne(t, Strip(s, space), s, space);
    }
  }

  /** The filtered comprehension over the first n documents: stripped text with its own position. */
  function Kept(docs: seq<string>, n: nat, space: char -> bool): seq<Child>
    requires n <= |docs|
  {
    if n == 0 then []
    else
      var text := Strip(docs[n - 1], space);
      Kept(docs, n - 1, space) + (if text != "" then [Child(text, n - 1)] else [])
  }

  function ChildrenOf(section: string, s: Splitter): seq<Child> {
    var docs := s.split(section);
    var children := Kept(docs, |docs|, s.space);
    if children == [] then [Child(Strip(section, s.space), 0)] else children
  }

  /** Child c is the stripped text of a non-blank document under the number of that document. */
  predicate IsKept(c: Child, docs: seq<string>, n: nat, space: char -> bool)
    requires n <= |docs|
  {
    c.position < n && c.text == Strip(docs[c.position], space) && !Blank(docs[c.position], space)
  }

  lemma {:induction false} KeptMembers(docs: seq<string>, n: nat, space: char -> bool)
    requires n <= |docs|
    ensures forall c :: c in Kept(docs, n, space) <==> IsKept(c, docs, n, space)
  {
    if n == 0 {
    } else {
      KeptMembers(docs, n - 1, space);
      StripBlank(docs[n - 1], space);
      var before, text := Kept(docs, n - 1, space), Strip(docs[n - 1], space);
      hide Strip, Blank;
      forall c ensures c in Kept(docs, n, space) <==> IsKept(c, docs, n, space) {
        assert IsKept(c, docs, n, space) <==> IsKept(c, docs, n - 1, space) || (text != "" && c == Child(text, n - 1));
        assert c in Kept(docs, n, space) <==> c in before || (text != "" && c == Child(text, n - 1));
      }
    }
  }

  /** Exactly the non-blank documents are kept, each under its own number, in order. */
  lemma {:induction false} KeptExactly(docs: seq<string>, n: nat, space: char -> bool)
    requires n <= |docs|
    ensures forall c :: c in Kept(docs, n, space) <==> IsKept(c, docs, n, space)
    ensures forall j, k :: 0 <= j < k < |Kept(docs, n, space)| ==>
      Kept(docs, n, space)[j].position < Kept(docs, n, space)[k].position
  {
    KeptMembers(docs, n, space);
    if n == 0 {
    } else {
      KeptExactly(docs, n - 1, space);
      var before := Kept(docs, n - 1, space);
      hide Strip, Blank;
      forall j | 0 <= j < |before| ensures before[j].position < n - 1 {
        assert before[j] in before;
      }
    }
  }

  /** Every parent has a child, positions grow strictly, and no text is blank unless the section itself is. */
  lemma ChildrenAreSound(section: string, s: Splitter)
    ensures |ChildrenOf(section, s)| >= 1
    ensures forall j, k :: 0 <= j < k < |ChildrenOf(section, s)| ==>
      ChildrenOf(section, s)[j].position < ChildrenOf(section, s)[k].position
    ensures !Blank(section, s.space) ==> forall c :: c in ChildrenOf(section, s) ==> !Blank(c.text, s.space)
  {
    var docs := s.split(section);
    KeptExactly(docs, |docs|, s.space);
    StripBlank(section, s.space);
    hide Strip, Kept, Blank;
    forall c | c in Kept(docs, |docs|, s.space) ensures !Blank(c.text, s.space) {
      StripBlank(docs[c.position], s.space);
    }
  }

  ghost predicate AllBlank(docs: seq<string>, s: Splitter) {
    forall k :: 0 <= k < |docs| ==> Blank(docs[k], s.space)
  }

  /** Each child is one of the non-blank documents, stripped, under its number. */
  ghost predicate FromDocs(children: seq<Child>, docs: seq<string>, s: Splitter) {
    forall c :: c in children ==>
      c.position < |docs| && !Blank(docs[c.position], s.space) && IsStripped(c.text, docs[c.position], s.space)
  }

  /** Each non-blank document is among the children. */
  ghost predicate NoneMissing(children: seq<Child>, docs: seq<string>, s: Splitter) {
    forall k :: 0 <= k < |docs| && !Blank(docs[k], s.space) ==> exists c :: c in children && c.position == k
  }

  predicate InOrder(children: seq<Child>) {
    forall j, k :: 0 <= j < k < |children| ==> children[j].position < children[k].position
  }

  /**
   * The children of a section: its stripped non-blank documents, each under its own number and in
   * order; or, if all its documents are blank, the stripped section itself.
   */
  ghost predicate IsChildList(children: seq<Child>, section: string, s: Splitter) {
    if AllBlank(s.split(section), s)
    then |children| == 1 && children[0].position == 0 && IsStripped(children[0].text, section, s.space)
    else FromDocs(children, s.split(section), s) && NoneMissing(children, s.split(section), s) && InOrder(children)
  }

  lemma KeptFromDocs(docs: seq<string>, s: Splitter)
    ensures FromDocs(Kept(docs, |docs|, s.space), docs, s) && InOrder(Kept(docs, |docs|, s.space))
  {
    KeptExactly(docs, |docs|, s.space);
    hide Strip, Kept, Blank, IsStripped;
    forall c | c in Kept(docs, |docs|, s.space) ensures IsStripped(c.text, docs[c.position], s.space) {
      StripCuts(docs[c.position], s.space);
    }
  }

  lemma KeptMissesNone(docs: seq<string>, s: Splitter)
    ensures NoneMissing(Kept(docs, |docs|, s.space), docs, s)
  {
    KeptMembers(docs, |docs|, s.space);
    hide Strip, Kept, Blank;
    forall k | 0 <= k < |docs| && !Blank(docs[k], s.space)
      ensures exists c :: c in Kept(docs, |docs|, s.space) && c.position == k
    {
      assert IsKept(Child(Strip(docs[k], s.space), k), docs, |docs|, s.space);
    }
  }

  /** Nothing is kept exactly if there is nothing to keep. */
  lemma KeptOrBlank(docs: seq<string>, s: Splitter)
    ensures Kept(docs, |docs|, s.space) == [] <==> AllBlank(docs, s)
  {
    KeptFromDocs(docs, s);
    KeptMissesNone(docs, s);
    hide Kept, Blank, IsStripped;
    var kept := Kept(docs, |docs|, s.space);
    if kept != [] {
      assert kept[0] in kept;
    }
  }

  lemma ChildrenExactly(section: string, s: Splitter)
    ensures IsChildList(ChildrenOf(section, s), section, s)
  {
    var docs := s.split(section);
    KeptOrBlank(docs, s);
    KeptFromDocs(docs, s);
    KeptMissesNone(docs, s);
    StripCuts(section, s.space);
    hide Strip, Kept, IsStripped, AllBlank, FromDocs, NoneMissing, InOrder;
  }

  method SemanticSplit(sections: seq<string>, s: Splitter) returns (pairs: seq<ChunkPair>)
    ensures |pairs| == |sections|
    ensures forall i :: 0 <= i < |pairs| ==> pairs[i] == ChunkPair(sections[i], i, ChildrenOf(sections[i], s))
    ensures forall i :: 0 <= i < |pairs| ==>
      pairs[i].text == sections[i] && pairs[i].position == i && IsChildList(pairs[i].children, sections[i], s)
  {
    hide Strip, Kept, IsChildList;
    pairs := [];
    var parentPos := 0;
    while parentPos < |sections|
      invariant |pairs| == parentPos <= |sections|
      invariant forall i :: 0 <= i < |pairs| ==> pairs[i] == ChunkPair(sections[i], i, ChildrenOf(sections[i], s))
      invariant forall i :: 0 <= i < |pairs| ==> IsChildList(pairs[i].children, sections[i], s)
    {
      var section := sections[parentPos];
      var docs := s.split(section);
      var children := Kept(docs, |docs|, s.space);
      if children == [] {
        children := [Child(Strip(section, s.space), 0)];
      }
      ChildrenExactly(section, s);
      pairs := pairs + [ChunkPair(section, parentPos, children)];
      parentPos := parentPos + 1;
    }
  }
}
