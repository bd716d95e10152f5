/**
 * The chunk tables: transactional nested inserts, cascading delete and filtered
 * search. Their contents are shown to be a replay of the history of operations.
 */
module VectorStore {
  import opened Options
  import opened Embedding

  datatype ParentRecord = ParentRecord(source: int, project: int, owner: string, content: string, position: int)

  datatype ChildRecord = ChildRecord(source: int, project: int, owner: string, content: string, embedding: Vector, position: int)

  datatype ParentRow = ParentRow(id: nat, rec: ParentRecord)

  datatype ChildRow = ChildRow(id: nat, parent: nat, rec: ChildRecord)

  /** Rows in the order of their ids, and the two sequences the ids come from. */
  datatype Tables = Tables(parents: seq<ParentRow>, children: seq<ChildRow>, nextParent: nat, nextChild: nat)

  const EMPTY: Tables := Tables([], [], 1, 1)

  /** A parent with its children, as a reader of the tables sees it. */
  datatype Entry = Entry(parent: ParentRecord, children: seq<ChildRecord>)

  function ChildRows(records: seq<ChildRecord>, parent: nat, from: nat): seq<ChildRow> {
    seq(|records|, k requires 0 <= k < |records| => ChildRow(from + k, parent, records[k]))
  }

  /** One parent and its children, all inserted. */
  function InsertEntry(t: Tables, e: Entry): Tables {
    Tables(t.parents + [ParentRow(t.nextParent, e.parent)],
           t.children + ChildRows(e.children, t.nextParent, t.nextChild),
           t.nextParent + 1, t.nextChild + |e.children|)
  }

  function InsertAll(t: Tables, entries: seq<Entry>): Tables {
    if entries == [] then t else InsertEntry(InsertAll(t, entries[..|entries| - 1]), entries[|entries| - 1])
  }

  /** `zip(parents, children_by_parent)`: the shorter list decides. */
  function Zip(parents: seq<ParentRecord>, children: seq<seq<ChildRecord>>): seq<Entry> {
    seq(if |parents| <= |children| then |parents| else |children|,
        k requires 0 <= k < |parents| && k < |children| => Entry(parents[k], children[k]))
  }

  /** The number of statements of a save, without its commit. */
  function Statements(entries: seq<Entry>): nat {
    if entries == [] then 0 else Statements(entries[..|entries| - 1]) + 1 + |entries[|entries| - 1].children|
  }

  predicate Owned(p: ParentRow, source: int, owner: string) {
    p.rec.source == source && p.rec.owner == owner
  }

  function Without(parents: seq<ParentRow>, source: int, owner: string): seq<ParentRow> {
    if parents == [] then []
    else
      var rest, last := Without(parents[..|parents| - 1], source, owner), parents[|parents| - 1];
      if Owned(last, source, owner) then rest else rest + [last]
  }

  /** ON DELETE CASCADE: only children whose parent row is still there remain. */
  function Cascade(children: seq<ChildRow>, parents: seq<ParentRow>): seq<ChildRow> {
    if children == [] then []
    else
      var rest, last := Cascade(children[..|children| - 1], parents), children[|children| - 1];
      if exists k :: 0 <= k < |parents| && parents[k].id == last.parent then rest + [last] else rest
  }

  function DeleteSource(t: Tables, source: int, owner: string): Tables {
    var kept := Without(t.parents, source, owner);
    t.(parents := kept, children := Cascade(t.children, kept))
  }

  /** The children of one parent, in order. */
  function ChildrenOf(children: seq<ChildRow>, parent: nat): seq<ChildRecord> {
    if children == [] then []
    else
      var rest, last := ChildrenOf(children[..|children| - 1], parent), children[|children| - 1];
      if last.parent == parent then rest + [last.rec] else rest
  }

  /** What the tables hold for one source of one owner. */
  function Contents(parents: seq<ParentRow>, children: seq<ChildRow>, source: int, owner: string): seq<Entry> {
    if parents == [] then []
    else
      var rest, last := Contents(parents[..|parents| - 1], children, source, owner), parents[|parents| - 1];
      if Owned(last, source, owner) then rest + [Entry(last.rec, ChildrenOf(children, last.id))] else rest
  }

  function Holds(t: Tables, source: int, owner: string): seq<Entry> {
    Contents(t.parents, t.children, source, owner)
  }

  // ---- histories -------------------------------------------------------------------------

  /** An aborted save uses up ids and changes nothing else. */
  datatype Op = Committed(entries: seq<Entry>) | Aborted(parentIds: nat, childIds: nat) | Deleted(source: int, owner: string)

  function Apply(t: Tables, op: Op): Tables {
    match op
    case Committed(entries) => InsertAll(t, entries)
    case Aborted(p, c) => t.(nextParent := t.nextParent + p, nextChild := t.nextChild + c)
    case Deleted(source, owner) => DeleteSource(t, source, owner)
  }

  function Replay(t: Tables, history: seq<Op>): Tables {
    if history == [] then t else Apply(Replay(t, history[..|history| - 1]), history[|history| - 1])
  }

  lemma {:induction false} ReplayOn(t: Tables, a: seq<Op>, b: seq<Op>)
    ensures Replay(t, a + b) == Replay(Replay(t, a), b)
  {
    if b == [] {
      assert a + b == a;
    } else {
      ReplayOn(t, a, b[..|b| - 1]);
      assert (a + b)[..|a + b| - 1] == a + b[..|b| - 1];
    }
  }

  /** How many parents the first n statements of a save insert. */
  function ParentsIn(entries: seq<Entry>, n: nat): nat {
    if entries == [] then 0
    else if n <= Statements(entries[..|entries| - 1]) then ParentsIn(entries[..|entries| - 1], n)
    else |entries|
  }

  predicate SaveCommits(entries: seq<Entry>, failsAt: Option<nat>) {
    failsAt.None? || failsAt.value > Statements(entries)
  }

  lemma {:induction false} ParentsAreStatements(entries: seq<Entry>, n: nat)
    ensures n <= Statements(entries) ==> ParentsIn(entries, n) <= n
    ensures |entries| <= Statements(entries)
  {
    if entries == [] {
    } else {
      ParentsAreStatements(entries[..|entries| - 1], n);
    }
  }

  /** One transaction: all of it, or only the ids that the statements before the failing one took. */
  function SaveOp(entries: seq<Entry>, failsAt: Option<nat>): Op {
    if SaveCommits(entries, failsAt) then Committed(entries)
    else
      ParentsAreStatements(entries, failsAt.value);
      Aborted(ParentsIn(entries, failsAt.value), failsAt.value - ParentsIn(entries, failsAt.value))
  }

  function Matching(entries: seq<Entry>, source: int, owner: string): seq<Entry> {
    if entries == [] then []
    else
      var rest, last := Matching(entries[..|entries| - 1], source, owner), entries[|entries| - 1];
      if last.parent.source == source && last.parent.owner == owner then rest + [last] else rest
  }

  /** The reference: committed saves of this source and owner, one after the other, since its last delete. */
  function Expected(history: seq<Op>, source: int, owner: string): seq<Entry> {
    if history == [] then []
    else
      var before := Expected(history[..|history| - 1], source, owner);
      match history[|history| - 1]
      case Committed(entries) => before + Matching(entries, source, owner)
      case Aborted(_, _) => before
      case Deleted(s, o) => if s == source && o == owner then [] else before
  }

  ghost predicate HasParent(t: Tables, c: ChildRow) {
    exists k :: 0 <= k < |t.parents| && t.parents[k].id == c.parent
  }

  /** Keys: parent ids are given out once, and every child's parent exists. */
  ghost predicate Valid(t: Tables) {
    && (forall k :: 0 <= k < |t.parents| ==> t.parents[k].id < t.nextParent)
    && (forall j, k :: 0 <= j < k < |t.parents| ==> t.parents[j].id < t.parents[k].id)
    && (forall k :: 0 <= k < |t.children| ==> HasParent(t, t.children[k]))
  }

  // ---- inserts ---------------------------------------------------------------------------

  lemma ChildrenOfOneMore(children: seq<ChildRow>, c: ChildRow, q: nat)
    ensures ChildrenOf(children + [c], q) == ChildrenOf(children, q) + (if c.parent == q then [c.rec] else [])
  {
    assert (children + [c])[..|children|] == children;
  }

  lemma {:induction false} ChildrenOfAppended(children: seq<ChildRow>, records: seq<ChildRecord>, p: nat, from: nat, q: nat)
    ensures ChildrenOf(children + ChildRows(records, p, from), q) == ChildrenOf(children, q) + (if q == p then records else [])
  {
    hide ChildrenOf;
    var all := children + ChildRows(records, p, from);
    if records == [] {
      assert all == children;
      assert ChildrenOf(children, q) + [] == ChildrenOf(children, q);
    } else {
      var most, last := records[..|records| - 1], |records| - 1;
      ChildrenOfAppended(children, most, p, from, q);
      assert all == (children + ChildRows(most, p, from)) + [ChildRow(from + last, p, records[last])];
      ChildrenOfOneMore(children + ChildRows(most, p, from), ChildRow(from + last, p, records[last]), q);
      assert records == most + [records[last]];
    }
  }

  lemma {:induction false} NoChildren(children: seq<ChildRow>, q: nat)
    requires forall k :: 0 <= k < |children| ==> children[k].parent != q
    ensures ChildrenOf(children, q) == []
  {
    if children == [] {
    } else {
      NoChildren(children[..|children| - 1], q);
    }
  }

  /** Contents only depends on the children of the parents it lists. */
  lemma {:induction false} ContentsStable(parents: seq<ParentRow>, a: seq<ChildRow>, b: seq<ChildRow>, source: int, owner: string)
    requires forall k :: 0 <= k < |parents| ==> ChildrenOf(a, parents[k].id) == ChildrenOf(b, parents[k].id)
    ensures Contents(parents, a, source, owner) == Contents(parents, b, source, owner)
  {
    if parents == [] {
    } else {
      ContentsStable(parents[..|parents| - 1], a, b, source, owner);
    }
  }

  lemma InsertEntryValid(t: Tables, e: Entry)
    requires Valid(t)
    ensures Valid(InsertEntry(t, e))
  {
    var u := InsertEntry(t, e);
    forall k | 0 <= k < |u.children| ensures HasParent(u, u.children[k]) {
      if k < |t.children| {
        assert HasParent(t, t.children[k]);
        var j :| 0 <= j < |t.parents| && t.parents[j].id == t.children[k].parent;
        assert u.parents[j].id == u.children[k].parent;
      } else {
        assert u.parents[|t.parents|].id == u.children[k].parent;
      }
    }
  }

  lemma InsertEntryHolds(t: Tables, e: Entry, source: int, owner: string)
    requires Valid(t)
    ensures Valid(InsertEntry(t, e))
    ensures Holds(InsertEntry(t, e), source, owner) ==
      Holds(t, source, owner) + (if e.parent.source == source && e.parent.owner == owner then [e] else [])
  {
    var u, p := InsertEntry(t, e), t.nextParent;
    forall k | 0 <= k < |t.parents| ensures ChildrenOf(t.children, t.parents[k].id) == ChildrenOf(u.children, t.parents[k].id) {
      ChildrenOfAppended(t.children, e.children, p, t.nextChild, t.parents[k].id);
    }
    ContentsStable(t.parents, t.children, u.children, source, owner);
    ChildrenOfAppended(t.children, e.children, p, t.nextChild, p);
    forall k | 0 <= k < |t.children| ensures t.children[k].parent != p {
      assert HasParent(t, t.children[k]);
    }
    NoChildren(t.children, p);
    assert u.parents[..|u.parents| - 1] == t.parents;
    assert Holds(t, source, owner) + [] == Holds(t, source, owner);
    assert [] + e.children == e.children;
    assert Entry(e.parent, e.children) == e;
    InsertEntryValid(t, e);
  }

  lemma {:induction false} InsertAllHolds(t: Tables, entries: seq<Entry>, source: int, owner: string)
    requires Valid(t)
    ensures Valid(InsertAll(t, entries))
    ensures Holds(InsertAll(t, entries), source, owner) == Holds(t, source, owner) + Matching(entries, source, owner)
  {
    if entries == [] {
    } else {
      var most := entries[..|entries| - 1];
      InsertAllHolds(t, most, source, owner);
      InsertEntryHolds(InsertAll(t, most), entries[|entries| - 1], source, owner);
    }
  }

  // ---- the cascading delete ----------------------------------------------------------------

  predicate HasId(parents: seq<ParentRow>, id: nat) {
    exists k :: 0 <= k < |parents| && parents[k].id == id
  }

  lemma {:induction false} ChildrenAfterCascade(children: seq<ChildRow>, parents: seq<ParentRow>, id: nat)
    ensures ChildrenOf(Cascade(children, parents), id) == if HasId(parents, id) then ChildrenOf(children, id) else []
  {
    if children == [] {
    } else {
      var most, last := children[..|children| - 1], children[|children| - 1];
      ChildrenAfterCascade(most, parents, id);
      var rest := Cascade(most, parents);
      assert HasId(parents, last.parent) <==> exists k :: 0 <= k < |parents| && parents[k].id == last.parent;
      assert (rest + [last])[..|rest|] == rest;
    }
  }

  lemma {:induction false} CascadeMembers(children: seq<ChildRow>, parents: seq<ParentRow>)
    ensures forall c :: c in Cascade(children, parents) <==> c in children && HasId(parents, c.parent)
  {
    if children == [] {
    } else {
      var most, last := children[..|children| - 1], children[|children| - 1];
      CascadeMembers(most, parents);
      assert children == most + [last];
      assert HasId(parents, last.parent) <==> exists k :: 0 <= k < |parents| && parents[k].id == last.parent;
    }
  }

  lemma {:induction false} WithoutMembers(parents: seq<ParentRow>, source: int, owner: string)
    ensures forall p :: p in Without(parents, source, owner) <==> p in parents && !Owned(p, source, owner)
    ensures |Without(parents, source, owner)| <= |parents|
  {
    if parents == [] {
    } else {
      var most, last := parents[..|parents| - 1], parents[|parents| - 1];
      WithoutMembers(most, source, owner);
      assert parents == most + [last];
    }
  }

  /** Exactly the rows of the key disappear, the order of the others is kept, and their number is what is reported. */
  lemma {:induction false} WithoutExactly(parents: seq<ParentRow>, source: int, owner: string)
    requires forall j, k :: 0 <= j < k < |parents| ==> parents[j].id < parents[k].id
    ensures var kept := Without(parents, source, owner);
      && (forall p :: p in kept <==> p in parents && !Owned(p, source, owner))
      && (forall j, k :: 0 <= j < k < |kept| ==> kept[j].id < kept[k].id)
      && |kept| <= |parents|
  {
    WithoutMembers(parents, source, owner);
    if parents == [] {
    } else {
      var most, last := parents[..|parents| - 1], parents[|parents| - 1];
      WithoutExactly(most, source, owner);
      hide Owned;
      var rest := Without(most, source, owner);
      forall j | 0 <= j < |rest| ensures rest[j].id < last.id {
        assert rest[j] in most;
      }
    }
  }

  lemma {:induction false} ContentsWithout(parents: seq<ParentRow>, children: seq<ChildRow>, s: int, o: string, source: int, owner: string)
    ensures Contents(Without(parents, s, o), children, source, owner) ==
      if s == source && o == owner then [] else Contents(parents, children, source, owner)
    ensures |Contents(parents, children, s, o)| == |parents| - |Without(parents, s, o)|
  {
    if parents == [] {
    } else {
      var most, last := parents[..|parents| - 1], parents[|parents| - 1];
      ContentsWithout(most, children, s, o, source, owner);
      var rest := Without(most, s, o);
      assert (rest + [last])[..|rest|] == rest;
    }
  }

  lemma DeleteSourceHolds(t: Tables, s: int, o: string, source: int, owner: string)
    requires Valid(t)
    ensures Valid(DeleteSource(t, s, o))
    ensures Holds(DeleteSource(t, s, o), source, owner) == if s == source && o == owner then [] else Holds(t, source, owner)
  {
    var u := DeleteSource(t, s, o);
    WithoutExactly(t.parents, s, o);
    CascadeMembers(t.children, u.parents);
    forall k | 0 <= k < |u.parents| ensures u.parents[k].id < u.nextParent {
      assert u.parents[k] in t.parents;
    }
    forall k | 0 <= k < |u.children| ensures HasParent(u, u.children[k]) {
      assert u.children[k] in Cascade(t.children, u.parents);
    }
    forall k | 0 <= k < |u.parents| ensures ChildrenOf(u.children, u.parents[k].id) == ChildrenOf(t.children, u.parents[k].id) {
      ChildrenAfterCascade(t.children, u.parents, u.parents[k].id);
    }
    ContentsStable(u.parents, u.children, t.children, source, owner);
    ContentsWithout(t.parents, t.children, s, o, source, owner);
  }

  lemma AbortedValid(t: Tables, op: Op)
    requires Valid(t) && op.Aborted?
    ensures Valid(Apply(t, op))
  {
    var u := Apply(t, op);
    forall k | 0 <= k < |u.children| ensures HasParent(u, u.children[k]) { assert HasParent(t, t.children[k]); }
  }

  /** Over any history, the tables hold for a source exactly its committed saves since its last delete. */
  lemma {:induction false} TablesReplayTheHistory(history: seq<Op>, source: int, owner: string)
    ensures Valid(Replay(EMPTY, history))
    ensures Holds(Replay(EMPTY, history), source, owner) == Expected(history, source, owner)
  {
    if history == [] {
    } else {
      var most := history[..|history| - 1];
      TablesReplayTheHistory(most, source, owner);
      match history[|history| - 1]
      case Committed(entries) => InsertAllHolds(Replay(EMPTY, most), entries, source, owner);
      case Aborted(_, _) => AbortedValid(Replay(EMPTY, most), history[|history| - 1]);
      case Deleted(s, o) => DeleteSourceHolds(Replay(EMPTY, most), s, o, source, owner);
    }
  }

  // ---- parents and children agree ---------------------------------------------------------

  predicate Agree(p: ParentRecord, c: ChildRecord) {
    c.source == p.source && c.project == p.project && c.owner == p.owner
  }

  /** What every save of the worker looks like. */
  predicate UniformEntry(e: Entry) {
    forall k :: 0 <= k < |e.children| ==> Agree(e.parent, e.children[k])
  }

  predicate Uniform(history: seq<Op>) {
    forall k, j :: 0 <= k < |history| && history[k].Committed? && 0 <= j < |history[k].entries| ==> UniformEntry(history[k].entries[j])
  }

  /** The parent a child refers to exists and carries the same source, project and owner. */
  ghost predicate Consistent(t: Tables) {
    forall c :: c in t.children ==> exists p :: p in t.parents && p.id == c.parent && Agree(p.rec, c.rec)
  }

  lemma InsertEntryConsistent(t: Tables, e: Entry)
    requires Consistent(t) && UniformEntry(e)
    ensures Consistent(InsertEntry(t, e))
  {
    var u := InsertEntry(t, e);
    forall c | c in u.children ensures exists p :: p in u.parents && p.id == c.parent && Agree(p.rec, c.rec) {
      if c in t.children {
        var p :| p in t.parents && p.id == c.parent && Agree(p.rec, c.rec);
        assert p in u.parents;
      } else {
        var k :| 0 <= k < |e.children| && c == ChildRow(t.nextChild + k, t.nextParent, e.children[k]);
        assert ParentRow(t.nextParent, e.parent) in u.parents;
      }
    }
  }

  lemma {:induction false} InsertAllConsistent(t: Tables, entries: seq<Entry>)
    requires Consistent(t) && forall j :: 0 <= j < |entries| ==> UniformEntry(entries[j])
    ensures Consistent(InsertAll(t, entries))
  {
    if entries == [] {
    } else {
      InsertAllConsistent(t, entries[..|entries| - 1]);
      InsertEntryConsistent(InsertAll(t, entries[..|entries| - 1]), entries[|entries| - 1]);
    }
  }

  /** Parent ids are keys. */
  lemma SameParent(t: Tables, p: ParentRow, q: ParentRow)
    requires Valid(t) && p in t.parents && q in t.parents && p.id == q.id
    ensures p == q
  {}

  lemma DeleteConsistent(t: Tables, s: int, o: string)
    requires Valid(t) && Consistent(t)
    ensures Consistent(DeleteSource(t, s, o))
  {
    var u := DeleteSource(t, s, o);
    WithoutExactly(t.parents, s, o);
    CascadeMembers(t.children, u.parents);
    hide Valid, Without, Cascade;
    forall c | c in u.children ensures exists p :: p in u.parents && p.id == c.parent && Agree(p.rec, c.rec) {
      assert HasId(u.parents, c.parent);
      var k :| 0 <= k < |u.parents| && u.parents[k].id == c.parent;
      var p :| p in t.parents && p.id == c.parent && Agree(p.rec, c.rec);
      SameParent(t, u.parents[k], p);
      assert p in u.parents;
    }
  }

  /** In every reachable state each child belongs to an existing parent of the same source, project and owner. */
  lemma {:induction false} ChildrenAgreeWithParents(history: seq<Op>)
    requires Uniform(history)
    ensures Consistent(Replay(EMPTY, history))
  {
    if history == [] {
    } else {
      var most, last := history[..|history| - 1], history[|history| - 1];
      ChildrenAgreeWithParents(most);
      TablesReplayTheHistory(most, 0, "");
      match last
      case Committed(entries) =>
        forall j | 0 <= j < |entries| ensures UniformEntry(entries[j]) {
          assert history[|history| - 1].entries[j] == entries[j];
        }
        InsertAllConsistent(Replay(EMPTY, most), entries);
      case Aborted(_, _) =>
      case Deleted(s, o) => DeleteConsistent(Replay(EMPTY, most), s, o);
    }
  }

  // ---- search ---------------------------------------------------------------------------------

  /** A row of the join: the child, the parent it is joined with, and its similarity. */
  datatype Hit = Hit(child: ChildRow, parent: ParentRow, score: real)

  /**
   * What the query may answer: joined rows whose child carries the owner and the project,
   * no child twice, best first, at most topK of them. The index is approximate, so which
   * of the matching rows come back is not said.
   */
  ghost predicate IsSearch(hits: seq<Hit>, t: Tables, owner: string, project: int, topK: nat) {
    && |hits| <= topK
    && (forall k :: 0 <= k < |hits| ==>
          && hits[k].child in t.children && hits[k].parent in t.parents && hits[k].child.parent == hits[k].parent.id
          && hits[k].child.rec.owner == owner && hits[k].child.rec.project == project)
    && (forall j, k :: 0 <= j < k < |hits| ==> hits[j].child != hits[k].child && hits[j].score >= hits[k].score)
  }

  /** The filter on the child's columns isolates the parents too, and both belong to one source. */
  lemma SearchIsIsolated(history: seq<Op>, hits: seq<Hit>, owner: string, project: int, topK: nat, k: nat)
    requires Uniform(history) && IsSearch(hits, Replay(EMPTY, history), owner, project, topK) && k < |hits|
    ensures hits[k].parent.rec.owner == owner && hits[k].parent.rec.project == project
    ensures hits[k].parent.rec.source == hits[k].child.rec.source
  {
    var t := Replay(EMPTY, history);
    ChildrenAgreeWithParents(history);
    TablesReplayTheHistory(history, 0, "");
    hide Valid, Replay;
    assert Consistent(t) && hits[k].child in t.children;
    var p :| p in t.parents && p.id == hits[k].child.parent && Agree(p.rec, hits[k].child.rec);
    SameParent(t, p, hits[k].parent);
  }

  // ---- the store ---------------------------------------------------------------------------------

  lemma Nothing(t: Tables, entries: seq<Entry>)
    ensures InsertAll(t, entries[..0]) == t && Statements(entries[..0]) == 0
  {}

  lemma {:induction false} StatementsGrow(entries: seq<Entry>, i: nat)
    requires i <= |entries|
    ensures Statements(entries[..i]) <= Statements(entries)
  {
    if i < |entries| {
      StatementsGrow(entries[..|entries| - 1], i);
      assert entries[..|entries| - 1][..i] == entries[..i];
    } else {
      assert entries[..i] == entries;
    }
  }

  /** One entry more of a save. */
  lemma OneMore(t: Tables, entries: seq<Entry>, i: nat)
    requires i < |entries|
    ensures InsertAll(t, entries[..i + 1]) == InsertEntry(InsertAll(t, entries[..i]), entries[i])
    ensures InsertAll(t, entries[..i + 1]).nextParent == InsertAll(t, entries[..i]).nextParent + 1
    ensures InsertAll(t, entries[..i + 1]).nextChild == InsertAll(t, entries[..i]).nextChild + |entries[i].children|
    ensures Statements(entries[..i + 1]) == Statements(entries[..i]) + 1 + |entries[i].children|
    ensures Statements(entries[..i + 1]) <= Statements(entries)
  {
    assert entries[..i + 1][..i] == entries[..i];
    StatementsGrow(entries, i + 1);
  }

  lemma AllParents(entries: seq<Entry>)
    ensures ParentsIn(entries, Statements(entries)) == |entries|
  {}

  /** The statement that raises belongs to entry i: the insert of the parent itself, or one behind it. */
  lemma {:induction false} ParentsInAt(entries: seq<Entry>, i: nat, n: nat)
    requires i < |entries| && Statements(entries[..i]) <= n < Statements(entries[..i + 1])
    ensures ParentsIn(entries, n) == if n == Statements(entries[..i]) then i else i + 1
    ensures n <= Statements(entries)
  {
    var most := entries[..|entries| - 1];
    StatementsGrow(entries, i + 1);
    if i == |most| {
      assert entries[..i + 1] == entries;
      if n == Statements(most) { AllParents(most); }
    } else {
      assert most[..i] == entries[..i] && most[..i + 1] == entries[..i + 1];
      ParentsInAt(most, i, n);
    }
  }

  /** The ids that a save took before it failed. */
  ghost predicate Burnt(t: Tables, u: Tables, entries: seq<Entry>, failsAt: Option<nat>) {
    && failsAt.Some? && failsAt.value <= Statements(entries)
    && u.nextParent == t.nextParent + ParentsIn(entries, failsAt.value)
    && u.nextChild == t.nextChild + failsAt.value - ParentsIn(entries, failsAt.value)
  }

  class Store {
    var tables: Tables

    constructor ()
      ensures tables == EMPTY
    {
      tables := EMPTY;
    }

    /** The insert of one parent and the inner loop over its children. */
    method InsertParent(base: Tables, n0: nat, e: Entry, failsAt: Option<nat>) returns (t: Tables, n: nat, ok: bool)
      requires failsAt.None? || failsAt.value >= n0
      ensures ok ==> t == InsertEntry(base, e) && n == n0 + 1 + |e.children| && (failsAt.None? || failsAt.value >= n)
      ensures !ok ==> failsAt.Some? && failsAt.value < n0 + 1 + |e.children|
      ensures !ok ==> t.nextParent == base.nextParent + (if failsAt.value == n0 then 0 else 1)
      ensures !ok ==> t.nextChild == base.nextChild + (if failsAt.value == n0 then 0 else failsAt.value - n0 - 1)
    {
      if failsAt == Some(n0) {
        return base, n0, false;
      }
      var parentId := base.nextParent;
      t := base.(parents := base.parents + [ParentRow(parentId, e.parent)], nextParent := parentId + 1);
      n, ok := n0 + 1, true;
      var j := 0;
      while j < |e.children|
        invariant 0 <= j <= |e.children| && n == n0 + 1 + j && (failsAt.None? || failsAt.value >= n)
        invariant t == InsertEntry(base, Entry(e.parent, e.children[..j]))
      {
        if failsAt == Some(n) {
          return t, n, false;
        }
        t := t.(children := t.children + [ChildRow(t.nextChild, parentId, e.children[j])], nextChild := t.nextChild + 1);
        assert t.children == base.children + ChildRows(e.children[..j + 1], parentId, base.nextChild);
        n, j := n + 1, j + 1;
      }
      assert e.children[..j] == e.children;
    }

    /**
     * One transaction. `failsAt` is the number of the statement that raises, counting from
     * zero, with the commit as the last one.
     */
    method SaveSourceChunks(parents: seq<ParentRecord>, children: seq<seq<ChildRecord>>, failsAt: Option<nat>) returns (ok: bool)
      modifies this
      ensures ok <==> SaveCommits(Zip(parents, children), failsAt)
      ensures tables == Apply(old(tables), SaveOp(Zip(parents, children), failsAt))
    {
      hide InsertAll, InsertEntry, Statements, ParentsIn;
      var entries := Zip(parents, children);
      var t, n := tables, 0;
      ok := true;
      var i := 0;
      Nothing(tables, entries);
      while i < |entries| && ok
        invariant 0 <= i <= |entries| && tables == old(tables)
        invariant ok ==> t == InsertAll(tables, entries[..i]) && n == Statements(entries[..i])
        invariant ok ==> failsAt.None? || failsAt.value >= n
        invariant ok ==> t.nextParent == tables.nextParent + i && t.nextChild == tables.nextChild + n - i
        invariant !ok ==> Burnt(tables, t, entries, failsAt)
        decreases |entries| - i, ok
      {
        OneMore(tables, entries, i);
        t, n, ok := InsertParent(t, n, entries[i], failsAt);
        if ok {
          i := i + 1;
        } else {
          ParentsInAt(entries, i, failsAt.value);
        }
      }
      if ok {
        assert entries[..i] == entries;
        if failsAt == Some(n) {
          ok := false;
          AllParents(entries);
        }
      }
      if ok {
        tables := t;
      } else {
        tables := tables.(nextParent := t.nextParent, nextChild := t.nextChild);
      }
    }

    /** Returns the number of parents deleted: all of this source and owner, and no others. */
    method DeleteBySource(source: int, owner: string) returns (deleted: nat)
      requires Valid(tables)
      modifies this
      ensures tables == Apply(old(tables), Deleted(source, owner))
      ensures deleted == |Holds(old(tables), source, owner)|
    {
      var kept := Without(tables.parents, source, owner);
      WithoutExactly(tables.parents, source, owner);
      ContentsWithout(tables.parents, tables.children, source, owner, source, owner);
      deleted := |tables.parents| - |kept|;
      tables := tables.(parents := kept, children := Cascade(tables.children, kept));
    }
  }
}
