/** The ingest worker: one chunking job with its bounded retries, and one cancel job. */
module Worker {
  import opened Options
  import opened ObjectNames
  import opened Embedding
  import opened Chunking
  import Rows = VectorStore

  datatype Job = Job(id: nat, owner: string, source: int, path: string)

  datatype Status = Done(job: nat, source: int) | Failed(job: nat, source: int)

  /** The embedding service and the splitter the worker is given. */
  datatype Tools = Tools(splitter: Splitter, create: (nat, seq<string>) -> seq<Item>)

  /**
   * What one attempt meets outside: the parsed sections or an exception, whether splitting
   * and embedding raise, the statement of the save that raises, and whether `done` is published.
   */
  datatype Attempt = Attempt(parsed: Option<seq<string>>, splits: bool, embeds: bool, failsAt: Option<nat>, published: bool)

  // ---- flatten, embed, split ---------------------------------------------------------------

  function Texts(children: seq<Child>): seq<string> {
    seq(|children|, k requires 0 <= k < |children| => children[k].text)
  }

  function FlatTexts(pairs: seq<ChunkPair>): seq<string> {
    if pairs == [] then []
    else FlatTexts(pairs[..|pairs| - 1]) + Texts(pairs[|pairs| - 1].children)
  }

  function ChildOf(job: Job, project: int, c: Child, embedding: Vector): Rows.ChildRecord {
    Rows.ChildRecord(job.source, project, job.owner, c.text, embedding, c.position)
  }

  function ParentOf(job: Job, project: int, pair: ChunkPair): Rows.ParentRecord {
    Rows.ParentRecord(job.source, project, job.owner, pair.text, pair.position)
  }

  /** The reference: every child with the embedding of its own text. */
  function Children(job: Job, project: int, pair: ChunkPair, embed: string -> Vector): seq<Rows.ChildRecord> {
    seq(|pair.children|, k requires 0 <= k < |pair.children| => ChildOf(job, project, pair.children[k], embed(pair.children[k].text)))
  }

  function Entries(job: Job, project: int, pairs: seq<ChunkPair>, embed: string -> Vector): seq<Rows.Entry> {
    seq(|pairs|, k requires 0 <= k < |pairs| =>
      Rows.Entry(ParentOf(job, project, pairs[k]), Children(job, project, pairs[k], embed)))
  }

  /** Every child with its own text, its own position, and the embedding of that text. */
  ghost predicate IsEmbedded(records: seq<Rows.ChildRecord>, job: Job, project: int, children: seq<Child>, embed: string -> Vector) {
    && |records| == |children|
    && forall k :: 0 <= k < |children| ==> records[k] == Rows.ChildRecord(
         job.source, project, job.owner, children[k].text, embed(children[k].text), children[k].position)
  }

  lemma {:induction false} FlatTextsPrefix(pairs: seq<ChunkPair>, i: nat)
    requires i <= |pairs|
    ensures FlatTexts(pairs[..i]) <= FlatTexts(pairs)
  {
    if i < |pairs| {
      FlatTextsPrefix(pairs[..|pairs| - 1], i);
      assert pairs[..|pairs| - 1][..i] == pairs[..i];
    } else {
      assert pairs[..i] == pairs;
    }
  }

  lemma FlatTextsOneMore(pairs: seq<ChunkPair>, i: nat)
    requires i < |pairs|
    ensures FlatTexts(pairs[..i + 1]) == FlatTexts(pairs[..i]) + Texts(pairs[i].children)
    ensures FlatTexts(pairs[..i + 1]) <= FlatTexts(pairs)
  {
    assert pairs[..i + 1][..i] == pairs[..i];
    FlatTextsPrefix(pairs, i + 1);
  }

  /** Python's slice with a clamped end. */
  function Slice<T>(s: seq<T>, from: nat, to: nat): seq<T> {
    if from >= |s| || to <= from then [] else s[from..if to < |s| then to else |s|]
  }

  method Collect(pairs: seq<ChunkPair>) returns (texts: seq<string>, counts: seq<nat>)
    ensures texts == FlatTexts(pairs)
    ensures |counts| == |pairs| && forall k :: 0 <= k < |pairs| ==> counts[k] == |pairs[k].children|
  {
    texts, counts := [], [];
    for i := 0 to |pairs|
      invariant texts == FlatTexts(pairs[..i])
      invariant |counts| == i && forall k :: 0 <= k < i ==> counts[k] == |pairs[k].children|
    {
      FlatTextsOneMore(pairs, i);
      var own := Texts(pairs[i].children);
      texts, counts := texts + own, counts + [|own|];
    }
    assert pairs[..|pairs|] == pairs;
  }

  /** `zip(pair.children, child_embeddings)`, turned into records. */
  method ZipChildren(job: Job, project: int, pair: ChunkPair, embeddings: seq<Vector>) returns (records: seq<Rows.ChildRecord>)
    ensures |records| == if |embeddings| < |pair.children| then |embeddings| else |pair.children|
    ensures forall k :: 0 <= k < |records| ==> records[k] == Rows.ChildRecord(
      job.source, project, job.owner, pair.children[k].text, embeddings[k], pair.children[k].position)
  {
    records := [];
    var k := 0;
    while k < |pair.children| && k < |embeddings|
      invariant k == |records| <= |pair.children| && k <= |embeddings|
      invariant forall j :: 0 <= j < k ==> records[j] == Rows.ChildRecord(
        job.source, project, job.owner, pair.children[j].text, embeddings[j], pair.children[j].position)
    {
      var child := pair.children[k];
      records := records + [Rows.ChildRecord(job.source, project, job.owner, child.text, embeddings[k], child.position)];
      k := k + 1;
    }
  }

  lemma OwnSlice(pairs: seq<ChunkPair>, i: nat, embeddings: seq<Vector>, embed: string -> Vector)
    requires i < |pairs| && |embeddings| == |FlatTexts(pairs)|
    requires forall k :: 0 <= k < |embeddings| ==> embeddings[k] == embed(FlatTexts(pairs)[k])
    ensures var offset := |FlatTexts(pairs[..i])|; var own := Slice(embeddings, offset, offset + |pairs[i].children|);
      |own| == |pairs[i].children| && forall k :: 0 <= k < |own| ==> own[k] == embed(pairs[i].children[k].text)
  {
    FlatTextsOneMore(pairs, i);
    var before, texts := FlatTexts(pairs[..i]), Texts(pairs[i].children);
    var flat := FlatTexts(pairs);
    forall k | 0 <= k < |texts| ensures flat[|before| + k] == texts[k] {
      assert flat[|before| + k] == FlatTexts(pairs[..i + 1])[|before| + k];
    }
  }

  lemma NoTexts()
    ensures FlatTexts([]) == []
  {}

  lemma EmbeddedIsChildren(records: seq<Rows.ChildRecord>, job: Job, project: int, pair: ChunkPair, embed: string -> Vector)
    requires IsEmbedded(records, job, project, pair.children, embed)
    ensures records == Children(job, project, pair, embed)
  {}

  lemma SplitIsEntries(parents: seq<Rows.ParentRecord>, children: seq<seq<Rows.ChildRecord>>, job: Job, project: int,
                       pairs: seq<ChunkPair>, embed: string -> Vector)
    requires |parents| == |children| == |pairs|
    requires forall i :: 0 <= i < |pairs| ==>
      parents[i] == Rows.ParentRecord(job.source, project, job.owner, pairs[i].text, pairs[i].position)
    requires forall i :: 0 <= i < |pairs| ==> IsEmbedded(children[i], job, project, pairs[i].children, embed)
    ensures Rows.Zip(parents, children) == Entries(job, project, pairs, embed)
  {
    hide IsEmbedded, Children;
    forall i | 0 <= i < |pairs| ensures children[i] == Children(job, project, pairs[i], embed) {
      EmbeddedIsChildren(children[i], job, project, pairs[i], embed);
    }
  }

  /**
   * The running offset hands every child the embedding of its own text, and the slices
   * use the flat list up to its end.
   */
  method SplitBack(job: Job, project: int, pairs: seq<ChunkPair>, counts: seq<nat>, embeddings: seq<Vector>, ghost embed: string -> Vector)
      returns (parents: seq<Rows.ParentRecord>, children: seq<seq<Rows.ChildRecord>>, offset: nat)
    requires |counts| == |pairs| && forall k :: 0 <= k < |pairs| ==> counts[k] == |pairs[k].children|
    requires |embeddings| == |FlatTexts(pairs)| && forall k :: 0 <= k < |embeddings| ==> embeddings[k] == embed(FlatTexts(pairs)[k])
    ensures Rows.Zip(parents, children) == Entries(job, project, pairs, embed)
    ensures |parents| == |children| == |pairs| && offset == |embeddings|
    ensures forall i :: 0 <= i < |pairs| ==>
      parents[i] == Rows.ParentRecord(job.source, project, job.owner, pairs[i].text, pairs[i].position)
    ensures forall i :: 0 <= i < |pairs| ==> IsEmbedded(children[i], job, project, pairs[i].children, embed)
  {
    hide FlatTexts, Rows.Zip;
    parents, children, offset := [], [], 0;
    assert FlatTexts(pairs[..0]) == [] by { NoTexts(); }
    for i := 0 to |pairs|
      invariant |parents| == |children| == i && offset == |FlatTexts(pairs[..i])|
      invariant forall k :: 0 <= k < i ==>
        parents[k] == Rows.ParentRecord(job.source, project, job.owner, pairs[k].text, pairs[k].position)
      invariant forall k :: 0 <= k < i ==> IsEmbedded(children[k], job, project, pairs[k].children, embed)
    {
      FlatTextsOneMore(pairs, i);
      var pair, count := pairs[i], counts[i];
      var own := Slice(embeddings, offset, offset + count);
      OwnSlice(pairs, i, embeddings, embed);
      var records := ZipChildren(job, project, pair, own);
      assert IsEmbedded(records, job, project, pair.children, embed);
      var parent := Rows.ParentRecord(job.source, project, job.owner, pair.text, pair.position);
      parents, children, offset := parents + [parent], children + [records], offset + count;
    }
    assert pairs[..|pairs|] == pairs;
    SplitIsEntries(parents, children, job, project, pairs, embed);
  }

  // ---- one attempt -----------------------------------------------------------------------------

  function PairsOf(sections: seq<string>, s: Splitter): seq<ChunkPair> {
    seq(|sections|, k requires 0 <= k < |sections| => ChunkPair(sections[k], k, ChildrenOf(sections[k], s)))
  }

  /** What a successful attempt stores, read off the sections point by point. */
  function Records(job: Job, project: int, sections: seq<string>, s: Splitter, embed: string -> Vector): seq<Rows.Entry> {
    Entries(job, project, PairsOf(sections, s), embed)
  }

  /** The record of one section: its parent, and the embedded children of that section. */
  ghost predicate IsRecord(e: Rows.Entry, job: Job, project: int, section: string, position: nat, s: Splitter, embed: string -> Vector) {
    && e.parent == Rows.ParentRecord(job.source, project, job.owner, section, position)
    && exists children :: IsChildList(children, section, s) && IsEmbedded(e.children, job, project, children, embed)
  }

  /** The records of a document: one per section, in order. */
  ghost predicate IsRecords(entries: seq<Rows.Entry>, job: Job, project: int, sections: seq<string>, s: Splitter, embed: string -> Vector) {
    && |entries| == |sections|
    && forall i :: 0 <= i < |sections| ==> IsRecord(entries[i], job, project, sections[i], i, s, embed)
  }

  lemma ChildrenAreEmbedded(job: Job, project: int, pair: ChunkPair, embed: string -> Vector)
    ensures IsEmbedded(Children(job, project, pair, embed), job, project, pair.children, embed)
  {
    var records, children := Children(job, project, pair, embed), pair.children;
    forall k | 0 <= k < |children|
      ensures records[k] == Rows.ChildRecord(
        job.source, project, job.owner, children[k].text, embed(children[k].text), children[k].position)
    {
      assert records[k] == ChildOf(job, project, children[k], embed(children[k].text));
    }
  }

  lemma RecordsExactly(job: Job, project: int, sections: seq<string>, s: Splitter, embed: string -> Vector)
    ensures IsRecords(Records(job, project, sections, s, embed), job, project, sections, s, embed)
  {
    hide IsChildList, IsEmbedded, Kept, Strip;
    var entries, pairs := Records(job, project, sections, s, embed), PairsOf(sections, s);
    forall i | 0 <= i < |sections| ensures IsRecord(entries[i], job, project, sections[i], i, s, embed) {
      assert entries[i] == Rows.Entry(ParentOf(job, project, pairs[i]), Children(job, project, pairs[i], embed));
      assert pairs[i] == ChunkPair(sections[i], i, ChildrenOf(sections[i], s));
      ChildrenExactly(sections[i], s);
      ChildrenAreEmbedded(job, project, pairs[i], embed);
    }
  }

  /** The attempt reaches its save and the save commits. */
  predicate Saves(job: Job, a: Attempt, s: Splitter, embed: string -> Vector) {
    && a.parsed.Some? && a.parsed.value != [] && a.splits && a.embeds
    && SecondComponent(job.path).Some?
    && (a.failsAt.None? || a.failsAt.value > Rows.Statements(Records(job, SecondComponent(job.path).value, a.parsed.value, s, embed)))
  }

  /** `_do_chunking` returns; without sections it does so without saving. */
  predicate Works(job: Job, a: Attempt, s: Splitter, embed: string -> Vector) {
    a.parsed == Some([]) || Saves(job, a, s, embed)
  }

  predicate Succeeds(job: Job, a: Attempt, s: Splitter, embed: string -> Vector) {
    Works(job, a, s, embed) && a.published
  }

  function SavedEntries(job: Job, a: Attempt, s: Splitter, embed: string -> Vector): seq<Rows.Entry> {
    if Saves(job, a, s, embed) then Records(job, SecondComponent(job.path).value, a.parsed.value, s, embed) else []
  }

  /** What is saved is the document, and without a save it is nothing. */
  lemma SavedExactly(job: Job, a: Attempt, s: Splitter, embed: string -> Vector)
    ensures !Saves(job, a, s, embed) ==> SavedEntries(job, a, s, embed) == []
    ensures Saves(job, a, s, embed) ==>
      && a.parsed.Some? && SecondComponent(job.path).Some?
      && IsRecords(SavedEntries(job, a, s, embed), job, SecondComponent(job.path).value, a.parsed.value, s, embed)
  {
    hide IsRecords, Records, Rows.Statements;
    if Saves(job, a, s, embed) {
      RecordsExactly(job, SecondComponent(job.path).value, a.parsed.value, s, embed);
    }
  }

  /** All that the first n attempts have written. */
  function Written(job: Job, env: nat -> Attempt, n: nat, s: Splitter, embed: string -> Vector): seq<Rows.Entry> {
    if n == 0 then [] else Written(job, env, n - 1, s, embed) + SavedEntries(job, env(n - 1), s, embed)
  }

  function SaveCount(job: Job, env: nat -> Attempt, n: nat, s: Splitter, embed: string -> Vector): nat {
    if n == 0 then 0 else SaveCount(job, env, n - 1, s, embed) + (if Saves(job, env(n - 1), s, embed) then 1 else 0)
  }

  // ---- what attempts leave ---------------------------------------------------------------------

  function Copies<T>(s: seq<T>, n: nat): seq<T> {
    if n == 0 then [] else Copies(s, n - 1) + s
  }

  /** The attempt gets as far as its save. */
  predicate ReachesSave(job: Job, a: Attempt) {
    a.parsed.Some? && a.parsed.value != [] && a.splits && a.embeds && SecondComponent(job.path).Some?
  }

  /** What one attempt does to the tables. */
  function AttemptOps(job: Job, a: Attempt, s: Splitter, embed: string -> Vector): seq<Rows.Op> {
    if ReachesSave(job, a)
    then [Rows.SaveOp(Records(job, SecondComponent(job.path).value, a.parsed.value, s, embed), a.failsAt)]
    else []
  }

  /** What the first n attempts do to the tables. */
  function JobOps(job: Job, env: nat -> Attempt, n: nat, s: Splitter, embed: string -> Vector): seq<Rows.Op> {
    if n == 0 then [] else JobOps(job, env, n - 1, s, embed) + AttemptOps(job, env(n - 1), s, embed)
  }

  /** How many of at most `max` attempts are made, once i of them have failed. */
  function Attempts(job: Job, env: nat -> Attempt, i: nat, max: nat, s: Splitter, embed: string -> Vector): nat
    decreases max - i
  {
    if i >= max then i
    else if Succeeds(job, env(i), s, embed) then i + 1
    else Attempts(job, env, i + 1, max, s, embed)
  }

  function Limit(maxRetries: int): nat {
    if maxRetries < 0 then 0 else maxRetries
  }

  /** The attempt did all its work, and then its `done` did not get out. */
  predicate LosesDone(job: Job, a: Attempt, s: Splitter, embed: string -> Vector) {
    Works(job, a, s, embed) && !a.published
  }

  function LostDones(job: Job, env: nat -> Attempt, n: nat, s: Splitter, embed: string -> Vector): nat {
    if n == 0 then 0 else LostDones(job, env, n - 1, s, embed) + (if LosesDone(job, env(n - 1), s, embed) then 1 else 0)
  }

  /** The document reads the same at each of the first n attempts that can read it. */
  ghost predicate SameDocument(env: nat -> Attempt, n: nat, sections: seq<string>) {
    forall i: nat :: i < n ==> env(i).parsed.None? || env(i).parsed == Some(sections)
  }

  lemma {:induction false} AllOneKey(entries: seq<Rows.Entry>, job: Job, source: int, owner: string)
    requires forall k :: 0 <= k < |entries| ==> entries[k].parent.source == job.source && entries[k].parent.owner == job.owner
    ensures Rows.Matching(entries, source, owner) == if source == job.source && owner == job.owner then entries else []
  {
    if entries == [] {
    } else {
      AllOneKey(entries[..|entries| - 1], job, source, owner);
      assert entries == entries[..|entries| - 1] + [entries[|entries| - 1]];
    }
  }

  /** The store after `t` gained exactly `entries` under the key of the job. */
  ghost predicate Gained(t: Rows.Tables, u: Rows.Tables, job: Job, entries: seq<Rows.Entry>) {
    && Rows.Valid(u)
    && forall source, owner :: Rows.Holds(u, source, owner) ==
         Rows.Holds(t, source, owner) + (if source == job.source && owner == job.owner then entries else [])
  }

  lemma OpGains(t: Rows.Tables, op: Rows.Op, job: Job, entries: seq<Rows.Entry>)
    requires Rows.Valid(t)
    requires (op.Aborted? && entries == []) || op == Rows.Committed(entries)
    requires forall k :: 0 <= k < |entries| ==> entries[k].parent.source == job.source && entries[k].parent.owner == job.owner
    ensures Rows.Valid(Rows.Apply(t, op)) && Gained(t, Rows.Apply(t, op), job, entries)
  {
    if op.Aborted? { Rows.AbortedValid(t, op); } else { Rows.InsertAllHolds(t, entries, job.source, job.owner); }
    var u := Rows.Apply(t, op);
    forall source, owner
      ensures Rows.Holds(u, source, owner) ==
        Rows.Holds(t, source, owner) + (if source == job.source && owner == job.owner then entries else [])
    {
      if op.Committed? {
        Rows.InsertAllHolds(t, entries, source, owner);
        AllOneKey(entries, job, source, owner);
      }
    }
  }

  lemma GainsAddUp(t: Rows.Tables, u: Rows.Tables, v: Rows.Tables, job: Job, a: seq<Rows.Entry>, b: seq<Rows.Entry>)
    requires Gained(t, u, job, a) && Gained(u, v, job, b)
    ensures Gained(t, v, job, a + b)
  {
    forall source, owner
      ensures Rows.Holds(v, source, owner) ==
        Rows.Holds(t, source, owner) + (if source == job.source && owner == job.owner then a + b else [])
    {
      assert Rows.Holds(u, source, owner) == Rows.Holds(t, source, owner) + (if source == job.source && owner == job.owner then a else []);
    }
  }

  function Pow2(n: nat): nat {
    if n == 0 then 1 else 2 * Pow2(n - 1)
  }

  /** Total backoff of n attempts. */
  function Backoff(n: nat): int {
    if n == 0 then 0 else Pow2(n) - 2
  }

  lemma NoIds(t: Rows.Tables)
    ensures Rows.Apply(t, Rows.Aborted(0, 0)) == t
  {}

  lemma NothingGained(t: Rows.Tables, job: Job)
    requires Rows.Valid(t)
    ensures Gained(t, t, job, [])
  {
    NoIds(t);
    OpGains(t, Rows.Aborted(0, 0), job, []);
  }

  lemma NothingRun(t: Rows.Tables, job: Job, env: nat -> Attempt, s: Splitter, embed: string -> Vector)
    ensures Rows.Replay(t, JobOps(job, env, 0, s, embed)) == t
  {}

  lemma OneOp(t: Rows.Tables, op: Rows.Op)
    ensures Rows.Replay(t, [op]) == Rows.Apply(t, op)
  {
    hide Rows.Apply;
    assert [op][..0] == [];
  }

  lemma AttemptGains(t: Rows.Tables, job: Job, a: Attempt, s: Splitter, embed: string -> Vector)
    requires Rows.Valid(t)
    ensures Rows.Valid(Rows.Replay(t, AttemptOps(job, a, s, embed)))
    ensures Gained(t, Rows.Replay(t, AttemptOps(job, a, s, embed)), job, SavedEntries(job, a, s, embed))
  {
    hide Rows.Valid, Rows.Holds, Rows.Statements, Gained, Rows.Apply;
    if ReachesSave(job, a) {
      var entries := Records(job, SecondComponent(job.path).value, a.parsed.value, s, embed);
      var op := Rows.SaveOp(entries, a.failsAt);
      OneOp(t, op);
      OpGains(t, op, job, SavedEntries(job, a, s, embed));
    } else {
      NothingGained(t, job);
    }
  }

  lemma {:induction false} JobOpsGain(t: Rows.Tables, job: Job, env: nat -> Attempt, n: nat, s: Splitter, embed: string -> Vector)
    requires Rows.Valid(t)
    ensures Rows.Valid(Rows.Replay(t, JobOps(job, env, n, s, embed)))
    ensures Gained(t, Rows.Replay(t, JobOps(job, env, n, s, embed)), job, Written(job, env, n, s, embed))
  {
    hide Rows.Replay, Rows.Valid, Rows.Holds, AttemptOps, SavedEntries, Gained;
    if n == 0 {
      NothingGained(t, job);
      NothingRun(t, job, env, s, embed);
    } else {
      var ops, now := JobOps(job, env, n - 1, s, embed), AttemptOps(job, env(n - 1), s, embed);
      JobOpsGain(t, job, env, n - 1, s, embed);
      Rows.ReplayOn(t, ops, now);
      AttemptGains(Rows.Replay(t, ops), job, env(n - 1), s, embed);
      GainsAddUp(t, Rows.Replay(t, ops), Rows.Replay(t, ops + now), job, Written(job, env, n - 1, s, embed),
                 SavedEntries(job, env(n - 1), s, embed));
    }
  }

  /** A gain says exactly what was gained. */
  lemma GainsAreOne(t: Rows.Tables, u: Rows.Tables, job: Job, a: seq<Rows.Entry>, b: seq<Rows.Entry>)
    requires Gained(t, u, job, a)
    ensures Gained(t, u, job, b) <==> a == b
  {
    var before := Rows.Holds(t, job.source, job.owner);
    assert Rows.Holds(u, job.source, job.owner) == before + a;
    if Gained(t, u, job, b) {
      assert before + a == before + b;
      assert a == (before + a)[|before|..] && b == (before + b)[|before|..];
    }
  }

  /** Something is stored exactly when an attempt saved. */
  lemma {:induction false} NothingWritten(job: Job, env: nat -> Attempt, n: nat, s: Splitter, embed: string -> Vector)
    ensures Written(job, env, n, s, embed) == [] <==> SaveCount(job, env, n, s, embed) == 0
    ensures SaveCount(job, env, n, s, embed) == 0 <==> forall i: nat :: i < n ==> !Saves(job, env(i), s, embed)
  {
    if n == 0 {
    } else {
      NothingWritten(job, env, n - 1, s, embed);
    }
  }

  lemma RecordsPerSection(job: Job, project: int, sections: seq<string>, s: Splitter, embed: string -> Vector)
    ensures |Records(job, project, sections, s, embed)| == |sections|
  {}

  /**
   * After a success the job's key has gained what the last attempt wrote, and nothing else, if and
   * only if no earlier attempt that had found sections did all its work and then lost its `done`.
   */
  lemma {:induction false} StoredOnceUnlessDoneWasLost(job: Job, env: nat -> Attempt, n: nat, s: Splitter, embed: string -> Vector)
    requires forall i: nat :: i < n ==> !Succeeds(job, env(i), s, embed)
    ensures Written(job, env, n + 1, s, embed) == SavedEntries(job, env(n), s, embed)
      <==> forall i: nat :: i < n && LosesDone(job, env(i), s, embed) ==> env(i).parsed == Some([])
  {
    hide Records, Rows.Statements, SecondComponent;
    var before, last := Written(job, env, n, s, embed), SavedEntries(job, env(n), s, embed);
    assert before == [] <==> before + last == last by {
      assert |before + last| == |before| + |last|;
    }
    if n == 0 {
    } else {
      StoredOnceUnlessDoneWasLost(job, env, n - 1, s, embed);
      var earlier, latest := Written(job, env, n - 1, s, embed), SavedEntries(job, env(n - 1), s, embed);
      assert before == earlier + latest;
      if Saves(job, env(n - 1), s, embed) {
        RecordsPerSection(job, SecondComponent(job.path).value, env(n - 1).parsed.value, s, embed);
      }
      assert latest == [] <==> (LosesDone(job, env(n - 1), s, embed) ==> env(n - 1).parsed == Some([]));
    }
  }

  /** With the same sections every time, the store gains one copy of the job's records per committed save. */
  lemma {:induction false} WrittenIsCopies(job: Job, env: nat -> Attempt, n: nat, sections: seq<string>, s: Splitter, embed: string -> Vector)
    requires SecondComponent(job.path).Some? && SameDocument(env, n, sections)
    ensures Written(job, env, n, s, embed)
      == Copies(Records(job, SecondComponent(job.path).value, sections, s, embed), SaveCount(job, env, n, s, embed))
  {
    hide Records, Rows.Statements, SecondComponent;
    if n == 0 {
    } else {
      WrittenIsCopies(job, env, n - 1, sections, s, embed);
    }
  }

  lemma SavesHasText(job: Job, a: Attempt, s: Splitter, embed: string -> Vector)
    ensures Saves(job, a, s, embed) ==> a.parsed.Some? && a.parsed.value != [] && SecondComponent(job.path).Some?
  {}

  /** Before its success, each committed save of a job with a text is one lost `done`. */
  lemma {:induction false} EachSaveLostItsDone(job: Job, env: nat -> Attempt, n: nat, sections: seq<string>, s: Splitter, embed: string -> Vector)
    requires SameDocument(env, n, sections) && sections != []
    requires forall i: nat :: i < n ==> !Succeeds(job, env(i), s, embed)
    ensures SaveCount(job, env, n, s, embed) == LostDones(job, env, n, s, embed)
  {
    if n == 0 {
    } else {
      hide Saves;
      assert Works(job, env(n - 1), s, embed) ==> env(n - 1).parsed == Some([]) || Saves(job, env(n - 1), s, embed);
      SavesHasText(job, env(n - 1), s, embed);
      EachSaveLostItsDone(job, env, n - 1, sections, s, embed);
    }
  }

  /** One copy, and one more for each `done` that was lost on the way to the success. */
  lemma CopiesOfSuccess(job: Job, env: nat -> Attempt, n: nat, sections: seq<string>, s: Splitter, embed: string -> Vector)
    requires SameDocument(env, n + 1, sections) && sections != []
    requires Succeeds(job, env(n), s, embed) && forall i: nat :: i < n ==> !Succeeds(job, env(i), s, embed)
    ensures SecondComponent(job.path).Some?
    ensures Written(job, env, n + 1, s, embed)
      == Copies(Records(job, SecondComponent(job.path).value, sections, s, embed), 1 + LostDones(job, env, n, s, embed))
  {
    hide Records, Saves;
    assert env(n).parsed.None? || env(n).parsed == Some(sections);
    SavesHasText(job, env(n), s, embed);
    EachSaveLostItsDone(job, env, n, sections, s, embed);
    WrittenIsCopies(job, env, n + 1, sections, s, embed);
  }

  /** The shortest way to two copies: the first attempt saves and loses its `done`, the second succeeds. */
  lemma StoredTwice(job: Job, sections: seq<string>, s: Splitter, embed: string -> Vector) returns (env: nat -> Attempt)
    requires SecondComponent(job.path).Some? && sections != []
    ensures Attempts(job, env, 0, 2, s, embed) == 2 && Succeeds(job, env(1), s, embed)
    ensures var records := Records(job, SecondComponent(job.path).value, sections, s, embed);
      records != [] && Written(job, env, 2, s, embed) == records + records
  {
    env := i => Attempt(Some(sections), true, true, None, i > 0);
    hide Records, Rows.Statements;
    assert Saves(job, env(0), s, embed) && Saves(job, env(1), s, embed);
    assert !Succeeds(job, env(0), s, embed) && Succeeds(job, env(1), s, embed);
    assert Attempts(job, env, 1, 2, s, embed) == 2;
    var records := Records(job, SecondComponent(job.path).value, sections, s, embed);
    RecordsPerSection(job, SecondComponent(job.path).value, sections, s, embed);
    assert Written(job, env, 1, s, embed) == records;
  }

  /** The key has gained `n` copies of the records of a document. */
  ghost predicate GainedCopies(t: Rows.Tables, u: Rows.Tables, job: Job, sections: seq<string>, n: nat, s: Splitter, embed: string -> Vector) {
    SecondComponent(job.path).Some? && Gained(t, u, job, Copies(Records(job, SecondComponent(job.path).value, sections, s, embed), n))
  }

  /** What the store has gained after the n-th attempt succeeded, in copies. */
  lemma CopiesGained(t: Rows.Tables, u: Rows.Tables, job: Job, env: nat -> Attempt, n: nat, s: Splitter, embed: string -> Vector)
    requires n > 0 && Gained(t, u, job, Written(job, env, n, s, embed)) && Succeeds(job, env(n - 1), s, embed)
    requires forall i: nat :: i < n - 1 ==> !Succeeds(job, env(i), s, embed)
    ensures Gained(t, u, job, SavedEntries(job, env(n - 1), s, embed))
      <==> forall i: nat :: i < n - 1 && LosesDone(job, env(i), s, embed) ==> env(i).parsed == Some([])
    ensures forall sections :: sections != [] && SameDocument(env, n, sections) ==>
      GainedCopies(t, u, job, sections, 1 + LostDones(job, env, n - 1, s, embed), s, embed)
  {
    hide Gained, Works, Saves, SameDocument, Records, SecondComponent, Written;
    StoredOnceUnlessDoneWasLost(job, env, n - 1, s, embed);
    GainsAreOne(t, u, job, Written(job, env, n, s, embed), SavedEntries(job, env(n - 1), s, embed));
    forall sections | sections != [] && SameDocument(env, n, sections)
      ensures GainedCopies(t, u, job, sections, 1 + LostDones(job, env, n - 1, s, embed), s, embed)
    {
      CopiesOfSuccess(job, env, n - 1, sections, s, embed);
    }
  }

  // ---- the consumer ---------------------------------------------------------------------------

  class ChunkingConsumer {
    const store: Rows.Store
    var statuses: seq<Status>
    /** Seconds spent in backoff. */
    var slept: nat

    constructor (store: Rows.Store)
      ensures this.store == store && statuses == [] && slept == 0
    {
      this.store, statuses, slept := store, [], 0;
    }

    method DoChunking(job: Job, a: Attempt, tools: Tools, ghost embed: string -> Vector) returns (raised: bool)
      requires Rows.Valid(store.tables)
      requires forall n, batch :: IsResponse(tools.create(n, batch), batch, embed)
      modifies store
      ensures raised <==> !Works(job, a, tools.splitter, embed)
      ensures store.tables == Rows.Replay(old(store.tables), AttemptOps(job, a, tools.splitter, embed))
      ensures Rows.Valid(store.tables) && Gained(old(store.tables), store.tables, job, SavedEntries(job, a, tools.splitter, embed))
      ensures a.parsed.None? ==> raised
      ensures a.parsed.Some? && a.parsed.value != [] && (!a.splits || !a.embeds || SecondComponent(job.path).None?) ==> raised
      ensures a.parsed.Some? && a.parsed.value != [] && a.splits && a.embeds && SecondComponent(job.path).Some? ==>
        var entries := Records(job, SecondComponent(job.path).value, a.parsed.value, tools.splitter, embed);
        (raised <==> a.failsAt.Some? && a.failsAt.value <= Rows.Statements(entries))
      ensures raised || a.parsed == Some([]) ==> Gained(old(store.tables), store.tables, job, [])
      ensures a.parsed == Some([]) ==> !raised && store.tables == old(store.tables)
      ensures !raised && a.parsed != Some([]) ==>
        && SecondComponent(job.path).Some?
        && IsRecords(SavedEntries(job, a, tools.splitter, embed), job, SecondComponent(job.path).value, a.parsed.value, tools.splitter, embed)
    {
      hide Rows.Statements, Rows.Apply, Rows.Valid, Strip, Gained, SavedEntries;
      AttemptGains(store.tables, job, a, tools.splitter, embed);
      SavedExactly(job, a, tools.splitter, embed);
      if a.parsed.None? {
        return true;
      }
      var sections := a.parsed.value;
      if sections == [] {
        return false;
      }
      if !a.splits {
        return true;
      }
      var pairs := SemanticSplit(sections, tools.splitter);
      assert pairs == PairsOf(sections, tools.splitter);
      var texts, counts := Collect(pairs);
      if !a.embeds {
        return true;
      }
      var embeddings := EmbedTexts(texts, BATCH_SIZE, tools.create, embed);
      var project := SecondComponent(job.path);
      if project.None? {
        return true;
      }
      var parents, children, offset := SplitBack(job, project.value, pairs, counts, embeddings, embed);
      ghost var before := store.tables;
      var ok := store.SaveSourceChunks(parents, children, a.failsAt);
      OneOp(before, Rows.SaveOp(Records(job, project.value, sections, tools.splitter, embed), a.failsAt));
      return !ok;
    }

    /**
     * Up to `maxRetries` attempts with exponential backoff, then a terminal `failed`.
     * `failedPublished` is whether that last message gets out.
     */
    method ProcessChunking(job: Job, maxRetries: int, env: nat -> Attempt, failedPublished: bool, tools: Tools, ghost embed: string -> Vector)
        returns (raised: bool, ghost attempts: nat)
      requires Rows.Valid(store.tables)
      requires forall n, batch :: IsResponse(tools.create(n, batch), batch, embed)
      modifies this, store
      ensures attempts == Attempts(job, env, 0, Limit(maxRetries), tools.splitter, embed) <= Limit(maxRetries)
      ensures raised <==> forall i: nat :: i < maxRetries ==> !(Works(job, env(i), tools.splitter, embed) && env(i).published)
      ensures !raised ==>
        && attempts > 0 && Works(job, env(attempts - 1), tools.splitter, embed) && env(attempts - 1).published
        && (forall i :: 0 <= i < attempts - 1 ==> !(Works(job, env(i), tools.splitter, embed) && env(i).published))
        && statuses == old(statuses) + [Done(job.id, job.source)]
      ensures raised ==>
        && attempts == Limit(maxRetries)
        && statuses == old(statuses) + (if failedPublished then [Failed(job.id, job.source)] else [])
      ensures slept == old(slept) + Backoff(attempts)
      ensures store.tables == Rows.Replay(old(store.tables), JobOps(job, env, attempts, tools.splitter, embed))
      ensures Gained(old(store.tables), store.tables, job, Written(job, env, attempts, tools.splitter, embed))
      ensures !raised ==>
        (Gained(old(store.tables), store.tables, job, SavedEntries(job, env(attempts - 1), tools.splitter, embed))
         <==> forall i: nat :: i < attempts - 1 && LosesDone(job, env(i), tools.splitter, embed) ==> env(i).parsed == Some([]))
      ensures !raised ==> forall sections :: sections != [] && SameDocument(env, attempts, sections) ==>
        GainedCopies(old(store.tables), store.tables, job, sections,
                     1 + LostDones(job, env, attempts - 1, tools.splitter, embed), tools.splitter, embed)
    {
      hide Rows.Valid, Rows.Holds, Rows.Apply, Rows.Replay, Works, Saves, SavedEntries, AttemptOps, Gained, GainedCopies, SameDocument, Records, SecondComponent;
      ghost var start := store.tables;
      ghost var s, max := tools.splitter, Limit(maxRetries);
      JobOpsGain(start, job, env, Attempts(job, env, 0, max, s, embed), s, embed);
      NothingRun(start, job, env, s, embed);
      var attempt := 1;
      while attempt <= maxRetries
        invariant 1 <= attempt <= max + 1
        invariant statuses == old(statuses) && Rows.Valid(store.tables)
        invariant slept == old(slept) + (if attempt <= maxRetries then Pow2(attempt) - 2 else Backoff(attempt - 1))
        invariant forall i: nat :: i < attempt - 1 ==> !Succeeds(job, env(i), s, embed)
        invariant Attempts(job, env, 0, max, s, embed) == Attempts(job, env, attempt - 1, max, s, embed)
        invariant store.tables == Rows.Replay(start, JobOps(job, env, attempt - 1, s, embed))
      {
        Rows.ReplayOn(start, JobOps(job, env, attempt - 1, s, embed), AttemptOps(job, env(attempt - 1), s, embed));
        var failed := DoChunking(job, env(attempt - 1), tools, embed);
        if !failed && env(attempt - 1).published {
          statuses := statuses + [Done(job.id, job.source)];
          CopiesGained(start, store.tables, job, env, attempt, s, embed);
          return false, attempt;
        }
        if attempt < maxRetries {
          slept := slept + Pow2(attempt);
        }
        attempt := attempt + 1;
      }
      if failedPublished {
        statuses := statuses + [Failed(job.id, job.source)];
      }
      return true, attempt - 1;
    }

    /** A cancel job: everything stored under its key, and nothing else, goes away, unless the delete raises. */
    method ProcessCancel(job: Job, erases: bool) returns (raised: bool, deleted: nat)
      requires Rows.Valid(store.tables)
      modifies store
      ensures raised == !erases
      ensures store.tables == Rows.Replay(old(store.tables), if erases then [Rows.Deleted(job.source, job.owner)] else [])
      ensures raised ==> store.tables == old(store.tables)
      ensures !raised ==>
        && Rows.Valid(store.tables) && deleted == |Rows.Holds(old(store.tables), job.source, job.owner)|
        && forall source, owner ::
          Rows.Holds(store.tables, source, owner) ==
            (if source == job.source && owner == job.owner then [] else Rows.Holds(old(store.tables), source, owner))
    {
      if !erases {
        return true, 0;
      }
      ghost var before := store.tables;
      OneOp(before, Rows.Deleted(job.source, job.owner));
      deleted := store.DeleteBySource(job.source, job.owner);
      Rows.DeleteSourceHolds(before, job.source, job.owner, job.source, job.owner);
      forall source, owner
        ensures Rows.Holds(store.tables, source, owner) ==
          if source == job.source && owner == job.owner then [] else Rows.Holds(before, source, owner)
      {
        Rows.DeleteSourceHolds(before, job.source, job.owner, source, owner);
      }
      return false, deleted;
    }
  }
}
