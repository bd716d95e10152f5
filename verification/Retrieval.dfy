/**
 * Two-stage retrieval: the best child per parent out of the search rows, then a
 * stable descending rerank of the parents, cut to the requested number.
 */
module Retrieval {
  import opened Options
  import Sets

  /** A row of the search: a child's score with the parent it belongs to. */
  datatype Row = Row(parent: nat, content: string, source: int, score: real)

  datatype Context = Context(parent: nat, content: string, source: int, bestChild: real, rerank: real)

  // ---- deduplication -------------------------------------------------------------------------

  /** The first row of parent p that no other row of p beats. */
  function Best(rows: seq<Row>, p: nat): Option<Row> {
    if rows == [] then None
    else
      var before, last := Best(rows[..|rows| - 1], p), rows[|rows| - 1];
      if last.parent == p && (before.None? || last.score > before.value.score) then Some(last) else before
  }

  /** The parents in the order of their first row. */
  function FirstSeen(rows: seq<Row>): seq<nat> {
    if rows == [] then []
    else
      var before, last := FirstSeen(rows[..|rows| - 1]), rows[|rows| - 1];
      if last.parent in before then before else before + [last.parent]
  }

  /** The best row exists exactly for parents that occur; it is one of theirs and has the maximum score. */
  lemma {:induction false} BestIsMaximum(rows: seq<Row>, p: nat)
    ensures Best(rows, p).Some? <==> exists k :: 0 <= k < |rows| && rows[k].parent == p
    ensures Best(rows, p).Some? ==> Best(rows, p).value in rows && Best(rows, p).value.parent == p
    ensures forall k :: 0 <= k < |rows| && rows[k].parent == p ==> rows[k].score <= Best(rows, p).value.score
  {
    if rows == [] {
    } else {
      var most := rows[..|rows| - 1];
      BestIsMaximum(most, p);
      assert rows == most + [rows[|rows| - 1]];
      if k :| 0 <= k < |most| && most[k].parent == p {
        assert rows[k].parent == p;
      }
    }
  }

  /** The parents are listed once each, all of them, by the position of their first row. */
  lemma {:induction false} FirstSeenExactly(rows: seq<Row>)
    ensures forall j, k :: 0 <= j < k < |FirstSeen(rows)| ==> FirstSeen(rows)[j] != FirstSeen(rows)[k]
    ensures forall p :: p in FirstSeen(rows) <==> exists k :: 0 <= k < |rows| && rows[k].parent == p
  {
    if rows == [] {
    } else {
      var most, last := rows[..|rows| - 1], rows[|rows| - 1];
      FirstSeenExactly(most);
      forall p ensures p in FirstSeen(rows) <==> exists k :: 0 <= k < |rows| && rows[k].parent == p {
        if p in FirstSeen(most) {
          var k :| 0 <= k < |most| && most[k].parent == p;
          assert rows[k].parent == p;
        } else {
          assert forall k :: 0 <= k < |most| ==> most[k].parent != p && rows[k] == most[k];
        }
        if p == last.parent { assert rows[|rows| - 1].parent == p; }
      }
    }
  }

  /** Row k is of parent p, and up to it there is none of parent q. */
  predicate SeenBefore(rows: seq<Row>, k: nat, p: nat, q: nat) {
    k < |rows| && rows[k].parent == p && forall l :: 0 <= l <= k ==> rows[l].parent != q
  }

  /** Two parents stand in the order of their first rows. */
  lemma {:induction false} FirstSeenInOrder(rows: seq<Row>, i: nat, j: nat)
    requires i < j < |FirstSeen(rows)|
    ensures exists k: nat :: SeenBefore(rows, k, FirstSeen(rows)[i], FirstSeen(rows)[j])
  {
    var most := rows[..|rows| - 1];
    if j < |FirstSeen(most)| {
      FirstSeenInOrder(most, i, j);
      var k: nat :| SeenBefore(most, k, FirstSeen(most)[i], FirstSeen(most)[j]);
      assert SeenBefore(rows, k, FirstSeen(rows)[i], FirstSeen(rows)[j]);
    } else {
      FirstSeenExactly(most);
      var p, q := FirstSeen(rows)[i], FirstSeen(rows)[j];
      assert p == FirstSeen(most)[i] && p in FirstSeen(most) && q !in FirstSeen(most);
      var k :| 0 <= k < |most| && most[k].parent == p;
      forall l | 0 <= l <= k ensures most[l].parent != q {
        assert most[l].parent in FirstSeen(most);
      }
      assert SeenBefore(rows, k, p, q);
    }
  }

  predicate Descending(rows: seq<Row>) {
    forall j, k :: 0 <= j < k < |rows| ==> rows[j].score >= rows[k].score
  }

  /** For rows in the order the search gives them, the loop just keeps the first row of each parent. */
  lemma {:induction false} DescendingKeepsFirst(rows: seq<Row>, k: nat)
    requires Descending(rows) && k < |rows|
    requires forall j :: 0 <= j < k ==> rows[j].parent != rows[k].parent
    ensures Best(rows, rows[k].parent) == Some(rows[k])
  {
    var most := rows[..|rows| - 1];
    if k == |most| {
      BestIsMaximum(most, rows[k].parent);
    } else {
      assert most[k] == rows[k];
      DescendingKeepsFirst(most, k);
    }
  }

  method Deduplicate(rows: seq<Row>) returns (unique: seq<Row>)
    ensures |unique| == |FirstSeen(rows)|
    ensures forall i :: 0 <= i < |unique| ==> Best(rows, FirstSeen(rows)[i]) == Some(unique[i])
  {
    var keys: seq<nat> := [];
    var parentMap: map<nat, Row> := map[];
    for n := 0 to |rows|
      invariant keys == FirstSeen(rows[..n])
      invariant forall p :: p in parentMap <==> p in keys
      invariant forall p :: p in parentMap ==> Best(rows[..n], p) == Some(parentMap[p])
    {
      var row := rows[n];
      assert rows[..n + 1][..n] == rows[..n];
      FirstSeenExactly(rows[..n]);
      BestIsMaximum(rows[..n], row.parent);
      if row.parent !in parentMap || row.score > parentMap[row.parent].score {
        if row.parent !in parentMap {
          keys := keys + [row.parent];
        }
        parentMap := parentMap[row.parent := row];
      }
    }
    assert rows[..|rows|] == rows;
    unique := seq(|keys|, i requires 0 <= i < |keys| => if keys[i] in parentMap then parentMap[keys[i]] else rows[0]);
  }

  // ---- rerank ---------------------------------------------------------------------------------

  /** Index i ranks before j: a higher score, or the same score seen earlier. */
  predicate Before(scores: seq<real>, i: nat, j: nat)
    requires i < |scores| && j < |scores|
  {
    scores[i] > scores[j] || (scores[i] == scores[j] && i < j)
  }

  /** What a stable descending sort of `enumerate(scores)` must return. */
  ghost predicate IsRanking(ranked: seq<nat>, scores: seq<real>, n: nat)
    requires n <= |scores|
  {
    && |ranked| == n
    && (forall k :: 0 <= k < |ranked| ==> ranked[k] < n)
    && (forall j, k :: 0 <= j < k < |ranked| ==> Before(scores, ranked[j], ranked[k]))
  }

  function InsertRanked(i: nat, ranked: seq<nat>, scores: seq<real>): seq<nat>
    requires i < |scores| && forall k :: 0 <= k < |ranked| ==> ranked[k] < |scores|
  {
    if ranked == [] then [i]
    else
      var last := |ranked| - 1;
      if scores[ranked[last]] >= scores[i] then ranked + [i]
      else InsertRanked(i, ranked[..last], scores) + [ranked[last]]
  }

  lemma {:induction false} InsertMembers(i: nat, ranked: seq<nat>, scores: seq<real>)
    requires i < |scores| && forall k :: 0 <= k < |ranked| ==> ranked[k] < |scores|
    ensures |InsertRanked(i, ranked, scores)| == |ranked| + 1
    ensures forall x :: x in InsertRanked(i, ranked, scores) <==> x == i || x in ranked
  {
    if ranked == [] || scores[ranked[|ranked| - 1]] >= scores[i] {
    } else {
      var last := |ranked| - 1;
      InsertMembers(i, ranked[..last], scores);
      assert ranked == ranked[..last] + [ranked[last]];
    }
  }

  function Rank(scores: seq<real>, n: nat): (ranked: seq<nat>)
    requires n <= |scores|
    ensures |ranked| == n && forall k :: 0 <= k < |ranked| ==> ranked[k] < |scores|
  {
    if n == 0 then []
    else
      var before := Rank(scores, n - 1);
      InsertMembers(n - 1, before, scores);
      var after := InsertRanked(n - 1, before, scores);
      assert forall k :: 0 <= k < |after| ==> after[k] in after;
      after
  }

  lemma {:induction false} InsertKeepsRanking(i: nat, ranked: seq<nat>, scores: seq<real>)
    requires i < |scores| && forall k :: 0 <= k < |ranked| ==> ranked[k] < i
    requires forall j, k :: 0 <= j < k < |ranked| ==> Before(scores, ranked[j], ranked[k])
    ensures var r := InsertRanked(i, ranked, scores);
      && (forall k :: 0 <= k < |r| ==> r[k] <= i)
      && (forall j, k :: 0 <= j < k < |r| ==> Before(scores, r[j], r[k]))
  {
    var r := InsertRanked(i, ranked, scores);
    InsertMembers(i, ranked, scores);
    forall k | 0 <= k < |r| ensures r[k] <= i { assert r[k] in r; }
    if ranked == [] {
    } else {
      var last := |ranked| - 1;
      if scores[ranked[last]] >= scores[i] {
        forall k | 0 <= k <= last ensures Before(scores, ranked[k], i) {
          assert k < last ==> Before(scores, ranked[k], ranked[last]);
        }
      } else {
        InsertKeepsRanking(i, ranked[..last], scores);
        InsertMembers(i, ranked[..last], scores);
        var shorter := InsertRanked(i, ranked[..last], scores);
        forall k | 0 <= k < |shorter| ensures Before(scores, shorter[k], ranked[last]) {
          assert shorter[k] in shorter;
          if shorter[k] != i {
            var j :| 0 <= j < last && ranked[j] == shorter[k];
          }
        }
      }
    }
  }

  lemma {:induction false} RankIsRanking(scores: seq<real>, n: nat)
    requires n <= |scores|
    ensures IsRanking(Rank(scores, n), scores, n)
    ensures forall i: nat :: i < n ==> i in Rank(scores, n)
  {
    if n == 0 {
    } else {
      RankIsRanking(scores, n - 1);
      InsertMembers(n - 1, Rank(scores, n - 1), scores);
      InsertKeepsRanking(n - 1, Rank(scores, n - 1), scores);
    }
  }

  /** With equal beginnings, the next of `a` cannot come later than the next of `b`. */
  lemma NextIsAtMost(a: seq<nat>, b: seq<nat>, scores: seq<real>, k: nat)
    requires IsRanking(a, scores, |scores|) && IsRanking(b, scores, |scores|) && k < |scores|
    requires (forall i: nat :: i < |scores| ==> i in a && i in b) && a[..k] == b[..k]
    ensures a[k] == b[k] || Before(scores, a[k], b[k])
  {
    assert b[k] in a;
    var j :| 0 <= j < |a| && a[j] == b[k];
    forall i | 0 <= i < k ensures a[i] != b[k] {
      assert a[i] == a[..k][i] == b[..k][i];
      assert Before(scores, b[i], b[k]);
    }
  }

  /** The specification leaves no choice: two rankings of the same scores put the same index first, and so on. */
  lemma {:induction false} RankingIsUnique(a: seq<nat>, b: seq<nat>, scores: seq<real>, k: nat)
    requires IsRanking(a, scores, |scores|) && IsRanking(b, scores, |scores|) && k <= |scores|
    requires forall i: nat :: i < |scores| ==> i in a && i in b
    ensures a[..k] == b[..k]
  {
    if k == 0 {
    } else {
      RankingIsUnique(a, b, scores, k - 1);
      assert a[..k] == a[..k - 1] + [a[k - 1]] && b[..k] == b[..k - 1] + [b[k - 1]];
      NextIsAtMost(a, b, scores, k - 1);
      NextIsAtMost(b, a, scores, k - 1);
    }
  }

  /** Python's `s[:k]`, for any k. */
  function Prefix<T>(s: seq<T>, k: int): seq<T> {
    if k >= |s| then s else if k >= 0 then s[..k] else if |s| + k >= 0 then s[..|s| + k] else []
  }

  function Scores(query: string, passages: seq<string>, score: (string, string) -> real): seq<real> {
    seq(|passages|, i requires 0 <= i < |passages| => score(query, passages[i]))
  }

  method Rerank(query: string, passages: seq<string>, score: (string, string) -> real, topK: int)
      returns (r: seq<(nat, real)>)
    ensures var ranked := Prefix(Rank(Scores(query, passages, score), |passages|), topK);
      && |r| == |ranked|
      && forall k :: 0 <= k < |r| ==> r[k].0 == ranked[k] < |passages| && r[k].1 == score(query, passages[r[k].0])
  {
    hide Rank;
    if passages == [] {
      assert Scores(query, passages, score) == [];
      return [];
    }
    var scores := Scores(query, passages, score);
    var indexed := Rank(scores, |scores|);
    var pairs := seq(|indexed|, k requires 0 <= k < |indexed| => (indexed[k], scores[indexed[k]]));
    r := Prefix(pairs, topK);
  }

  // ---- retrieve -----------------------------------------------------------------------------

  /** How many of n are left by `[:k]`. */
  function Kept(n: nat, k: int): nat {
    if k >= n then n else if k >= 0 then k else if n + k >= 0 then n + k else 0
  }

  /** The i-th distinct parent, through its best row. */
  ghost predicate Describes(c: Context, rows: seq<Row>, i: nat, query: string, score: (string, string) -> real) {
    && i < |FirstSeen(rows)|
    && Best(rows, FirstSeen(rows)[i]).Some?
    && var best := Best(rows, FirstSeen(rows)[i]).value;
       c == Context(best.parent, best.content, best.source, best.score, score(query, best.content))
  }

  /** Distinct parent i goes before distinct parent j. */
  ghost predicate Ahead(rows: seq<Row>, i: nat, j: nat, query: string, score: (string, string) -> real) {
    && i < |FirstSeen(rows)| && j < |FirstSeen(rows)|
    && Best(rows, FirstSeen(rows)[i]).Some? && Best(rows, FirstSeen(rows)[j]).Some?
    && var a, b := score(query, Best(rows, FirstSeen(rows)[i]).value.content), score(query, Best(rows, FirstSeen(rows)[j]).value.content);
       a > b || (a == b && i < j)
  }

  /** The contexts are the first ones of an order of all distinct parents by rank. */
  ghost predicate Follows(r: seq<Context>, rows: seq<Row>, order: seq<nat>, query: string, score: (string, string) -> real) {
    && |r| <= |order| == |FirstSeen(rows)|
    && (forall i :: 0 <= i < |order| ==> order[i] < |order|)
    && (forall i :: 0 <= i < |r| ==> Describes(r[i], rows, order[i], query, score))
    && (forall i, j :: 0 <= i < j < |order| ==> Ahead(rows, order[i], order[j], query, score))
  }

  ghost predicate IsRetrieval(r: seq<Context>, rows: seq<Row>, k: int, query: string, score: (string, string) -> real) {
    && |r| == Kept(|FirstSeen(rows)|, k)
    && exists order: seq<nat> :: Follows(r, rows, order, query, score)
  }

  /** `top_k or default`. */
  function Requested(topK: Option<int>, default: int): int {
    if topK.None? || topK.value == 0 then default else topK.value
  }

  /** The parents that occur in the rows. */
  function ParentsOf(rows: seq<Row>): set<nat> {
    set k | 0 <= k < |rows| :: rows[k].parent
  }

  lemma DistinctParents(rows: seq<Row>)
    ensures |FirstSeen(rows)| == |ParentsOf(rows)|
  {
    FirstSeenExactly(rows);
    hide FirstSeen;
    assert Sets.Members(FirstSeen(rows)) == ParentsOf(rows);
    Sets.DistinctSize(FirstSeen(rows));
  }

  method Retrieve(query: string, rows: seq<Row>, topK: Option<int>, default: int, score: (string, string) -> real)
      returns (results: seq<Context>)
    ensures topK.Some? && topK.value != 0 ==> IsRetrieval(results, rows, topK.value, query, score)
    ensures topK.None? || topK.value == 0 ==> IsRetrieval(results, rows, default, query, score)
    ensures var n, k := |ParentsOf(rows)|, if topK.Some? && topK.value != 0 then topK.value else default;
      |results| == if k >= n then n else if k >= 0 then k else if n + k >= 0 then n + k else 0
  {
    DistinctParents(rows);
    hide Rank, Best, FirstSeen;
    var k := Requested(topK, default);
    results := [];
    var unique := Deduplicate(rows);
    var passages := seq(|unique|, i requires 0 <= i < |unique| => unique[i].content);
    var scores := Scores(query, passages, score);
    var reranked := Rerank(query, passages, score, k);
    RankIsRanking(scores, |scores|);
    ghost var order := Rank(scores, |scores|);
    for n := 0 to |reranked|
      invariant |results| == n
      invariant forall i :: 0 <= i < n ==> Describes(results[i], rows, order[i], query, score)
    {
      var p := unique[reranked[n].0];
      BestIsMaximum(rows, FirstSeen(rows)[reranked[n].0]);
      results := results + [Context(p.parent, p.content, p.source, p.score, reranked[n].1)];
    }
    forall i, j | 0 <= i < j < |order| ensures Ahead(rows, order[i], order[j], query, score) {
      assert Before(scores, order[i], order[j]);
    }
    assert Follows(results, rows, order, query, score);
  }

  predicate LeftOut(r: seq<Context>, p: nat) {
    forall j :: 0 <= j < |r| ==> r[j].parent != p
  }

  /** Parent p, by its best row, reranks no higher than the context. */
  ghost predicate NoBetter(rows: seq<Row>, p: nat, c: Context, query: string, score: (string, string) -> real) {
    Best(rows, p).Some? && score(query, Best(rows, p).value.content) <= c.rerank
  }

  /** A context shows one of the rows of its parent, one with the maximum score. */
  lemma DescribedRow(c: Context, rows: seq<Row>, i: nat, query: string, score: (string, string) -> real) returns (n: nat)
    requires Describes(c, rows, i, query, score)
    ensures c.parent == FirstSeen(rows)[i] && c.rerank == score(query, c.content)
    ensures n < |rows| && rows[n] == Row(c.parent, c.content, c.source, c.bestChild)
    ensures forall k :: 0 <= k < |rows| && rows[k].parent == c.parent ==> rows[k].score <= c.bestChild
  {
    hide Best, FirstSeen;
    BestIsMaximum(rows, FirstSeen(rows)[i]);
    var best := Best(rows, FirstSeen(rows)[i]).value;
    assert best in rows;
    n :| 0 <= n < |rows| && rows[n] == best;
  }

  lemma ContextRow(r: seq<Context>, rows: seq<Row>, order: seq<nat>, i: nat, query: string, score: (string, string) -> real) returns (n: nat)
    requires Follows(r, rows, order, query, score) && i < |r|
    ensures r[i].rerank == score(query, r[i].content)
    ensures n < |rows| && rows[n] == Row(r[i].parent, r[i].content, r[i].source, r[i].bestChild)
    ensures forall k :: 0 <= k < |rows| && rows[k].parent == r[i].parent ==> rows[k].score <= r[i].bestChild
  {
    n := DescribedRow(r[i], rows, order[i], query, score);
  }

  /** Two contexts: different parents, the better one first, ties as their parents were first seen. */
  lemma ContextPair(r: seq<Context>, rows: seq<Row>, order: seq<nat>, i: nat, j: nat, query: string, score: (string, string) -> real)
    requires Follows(r, rows, order, query, score) && i < j < |r|
    ensures r[i].parent != r[j].parent && r[i].rerank >= r[j].rerank
    ensures r[i].rerank == r[j].rerank ==> exists n: nat :: SeenBefore(rows, n, r[i].parent, r[j].parent)
  {
    assert Ahead(rows, order[i], order[j], query, score);
    FirstSeenExactly(rows);
    hide Best, FirstSeen, Follows, SeenBefore;
    var m := DescribedRow(r[i], rows, order[i], query, score);
    var n := DescribedRow(r[j], rows, order[j], query, score);
    if r[i].rerank == r[j].rerank {
      FirstSeenInOrder(rows, order[i], order[j]);
    }
  }

  /** An order of all the parents by rank leaves none out. */
  lemma Covers(rows: seq<Row>, order: seq<nat>, query: string, score: (string, string) -> real, m: nat)
    requires |order| == |FirstSeen(rows)| && m < |FirstSeen(rows)|
    requires forall i, j :: 0 <= i < j < |order| ==> Ahead(rows, order[i], order[j], query, score)
    requires forall i :: 0 <= i < |order| ==> order[i] < |order|
    ensures m in order
  {
    hide Best, FirstSeen;
    forall i, j | 0 <= i < j < |order| ensures order[i] != order[j] {
      assert Ahead(rows, order[i], order[j], query, score);
    }
    Sets.DistinctCovers(order, m);
  }

  lemma Omitted(r: seq<Context>, rows: seq<Row>, order: seq<nat>, n: nat, i: nat, query: string, score: (string, string) -> real)
    requires Follows(r, rows, order, query, score) && n < |rows| && i < |r|
    requires LeftOut(r, rows[n].parent)
    ensures NoBetter(rows, rows[n].parent, r[i], query, score)
  {
    hide Best, FirstSeen;
    FirstSeenExactly(rows);
    var p := rows[n].parent;
    assert p in FirstSeen(rows);
    var m :| 0 <= m < |FirstSeen(rows)| && FirstSeen(rows)[m] == p;
    Covers(rows, order, query, score, m);
    forall j | 0 <= j < |r| ensures order[j] != m {
      assert Describes(r[j], rows, order[j], query, score);
      BestIsMaximum(rows, FirstSeen(rows)[order[j]]);
    }
    var j :| 0 <= j < |order| && order[j] == m;
    assert Ahead(rows, order[i], order[j], query, score);
    assert Describes(r[i], rows, order[i], query, score);
  }

  /**
   * What a caller can rely on: as many contexts as asked for or as there are parents, all of
   * different parents, each with its parent's maximum child score, best rerank score first;
   * and no parent that is left out scores above one that is returned.
   */
  lemma RetrievalPromises(r: seq<Context>, rows: seq<Row>, k: int, query: string, score: (string, string) -> real)
    requires IsRetrieval(r, rows, k, query, score)
    ensures k >= 0 ==> |r| == if k < |ParentsOf(rows)| then k else |ParentsOf(rows)|
    ensures forall i, j :: 0 <= i < j < |r| ==> r[i].parent != r[j].parent && r[i].rerank >= r[j].rerank
    ensures forall i, j :: 0 <= i < j < |r| && r[i].rerank == r[j].rerank ==>
      exists n: nat :: SeenBefore(rows, n, r[i].parent, r[j].parent)
    ensures forall i :: 0 <= i < |r| ==>
      && r[i].rerank == score(query, r[i].content)
      && (exists n :: 0 <= n < |rows| && rows[n] == Row(r[i].parent, r[i].content, r[i].source, r[i].bestChild))
      && (forall n :: 0 <= n < |rows| && rows[n].parent == r[i].parent ==> rows[n].score <= r[i].bestChild)
    ensures forall n, i :: 0 <= n < |rows| && 0 <= i < |r| && LeftOut(r, rows[n].parent) ==> NoBetter(rows, rows[n].parent, r[i], query, score)
  {
    DistinctParents(rows);
    var order: seq<nat> :| Follows(r, rows, order, query, score);
    hide Best, FirstSeen, Follows, SeenBefore, LeftOut, NoBetter;
    forall i | 0 <= i < |r|
      ensures r[i].rerank == score(query, r[i].content)
      ensures exists n :: 0 <= n < |rows| && rows[n] == Row(r[i].parent, r[i].content, r[i].source, r[i].bestChild)
      ensures forall n :: 0 <= n < |rows| && rows[n].parent == r[i].parent ==> rows[n].score <= r[i].bestChild
    {
      var n := ContextRow(r, rows, order, i, query, score);
    }
    forall i, j | 0 <= i < j < |r|
      ensures r[i].parent != r[j].parent && r[i].rerank >= r[j].rerank
      ensures r[i].rerank == r[j].rerank ==> exists n: nat :: SeenBefore(rows, n, r[i].parent, r[j].parent)
    {
      ContextPair(r, rows, order, i, j, query, score);
    }
    forall n, i | 0 <= n < |rows| && 0 <= i < |r| && LeftOut(r, rows[n].parent)
      ensures NoBetter(rows, rows[n].parent, r[i], query, score)
    {
      Omitted(r, rows, order, n, i, query, score);
    }
  }
}
