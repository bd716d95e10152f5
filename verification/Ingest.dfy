/**
 * The consumer as a whole: records of both topics are fetched, handled against the store,
 * and committed or not, over any number of sessions. What the store holds in the end is
 * told by the records that were handled, however often each of them was.
 */
module Ingest {
  import opened Options
  import opened ObjectNames
  import opened Chunking
  import opened Embedding
  import opened Worker
  import Offsets
  import Rows = VectorStore

  datatype Message = Chunk(job: Job) | Cancel(job: Job)

  /**
   * A record with what its handling meets outside: the attempts of a chunking job and whether its
   * last `failed` is published, whether the delete of a cancel job works, and whether the commit does.
   */
  datatype Record = Record(p: Offsets.Partition, message: Message, env: nat -> Attempt,
                           failedPublished: bool, erases: bool, committed: bool)

  datatype Event = Fetch(r: Record) | Stop | Restart

  /** What does not change from session to session. */
  datatype Setup = Setup(maxRetries: int, splitter: Splitter, embed: string -> Vector)

  // ---- what one record does --------------------------------------------------------------------

  function AttemptsOf(u: Setup, r: Record): nat {
    Attempts(r.message.job, r.env, 0, Limit(u.maxRetries), u.splitter, u.embed)
  }

  /** The handler returns. */
  predicate Handled(u: Setup, r: Record) {
    match r.message
    case Chunk(job) => AttemptsOf(u, r) > 0 && Succeeds(job, r.env(AttemptsOf(u, r) - 1), u.splitter, u.embed)
    case Cancel(_) => r.erases
  }

  lemma {:induction false} AttemptsEnd(job: Job, env: nat -> Attempt, i: nat, max: nat, s: Splitter, embed: string -> Vector)
    requires i <= max
    ensures var n := Attempts(job, env, i, max, s, embed);
      && i <= n <= max
      && ((n > i && Succeeds(job, env(n - 1), s, embed)) <==> exists k: nat :: i <= k < max && Succeeds(job, env(k), s, embed))
    decreases max - i
  {
    hide Succeeds;
    if i == max || Succeeds(job, env(i), s, embed) {
    } else {
      AttemptsEnd(job, env, i + 1, max, s, embed);
      var n := Attempts(job, env, i + 1, max, s, embed);
      assert n == i + 1 ==> !Succeeds(job, env(n - 1), s, embed);
    }
  }

  /** A chunking record is handled if one of its attempts within the bound does its work and gets its `done` out, a cancel record if its delete works. */
  lemma HandledExactly(u: Setup, r: Record)
    ensures Handled(u, r) <==>
      match r.message
      case Chunk(job) => exists k: nat :: k < u.maxRetries && Works(job, r.env(k), u.splitter, u.embed) && r.env(k).published
      case Cancel(_) => r.erases
  {
    hide Works;
    if r.message.Chunk? {
      var job := r.message.job;
      AttemptsEnd(job, r.env, 0, Limit(u.maxRetries), u.splitter, u.embed);
      if k: nat :| k < u.maxRetries && Works(job, r.env(k), u.splitter, u.embed) && r.env(k).published {
        assert k < Limit(u.maxRetries) && Succeeds(job, r.env(k), u.splitter, u.embed);
      }
      if k: nat :| k < Limit(u.maxRetries) && Succeeds(job, r.env(k), u.splitter, u.embed) {
        assert k < u.maxRetries && Works(job, r.env(k), u.splitter, u.embed) && r.env(k).published;
      }
    }
  }

  function Ops(u: Setup, r: Record): seq<Rows.Op> {
    match r.message
    case Chunk(job) => JobOps(job, r.env, AttemptsOf(u, r), u.splitter, u.embed)
    case Cancel(job) => if r.erases then [Rows.Deleted(job.source, job.owner)] else []
  }

  predicate Keyed(job: Job, source: int, owner: string) {
    job.source == source && job.owner == owner
  }

  // ---- runs ---------------------------------------------------------------------------------------

  function OffsetEvent(u: Setup, e: Event): Offsets.Event {
    match e
    case Fetch(r) => Offsets.Deliver(r.p, Handled(u, r), r.committed)
    case Stop => Offsets.Stop
    case Restart => Offsets.Restart
  }

  function OffsetEvents(u: Setup, es: seq<Event>): seq<Offsets.Event> {
    seq(|es|, k requires 0 <= k < |es| => OffsetEvent(u, es[k]))
  }

  /** Positions, commits and the flag after the events, from state `s` on. */
  function Positions(u: Setup, s: Offsets.State, es: seq<Event>): Offsets.State {
    Offsets.Play(s, OffsetEvents(u, es))
  }

  /** The events hand this record to its handler: after a stop the loop fetches, but does not handle. */
  predicate Handles(u: Setup, s: Offsets.State, es: seq<Event>, e: Event) {
    e.Fetch? && Positions(u, s, es).running
  }

  /** All that a run does to the tables. */
  function History(u: Setup, s: Offsets.State, es: seq<Event>): seq<Rows.Op> {
    if es == [] then []
    else
      var most, last := es[..|es| - 1], es[|es| - 1];
      History(u, s, most) + (if Handles(u, s, most, last) then Ops(u, last.r) else [])
  }

  /** The reference: what the handled records of this key leave, from the first to the last. */
  function Stored(u: Setup, s: Offsets.State, es: seq<Event>, source: int, owner: string): seq<Rows.Entry> {
    if es == [] then []
    else
      var most, last := es[..|es| - 1], es[|es| - 1];
      var before := Stored(u, s, most, source, owner);
      if !Handles(u, s, most, last) || !Keyed(last.r.message.job, source, owner) then before
      else
        match last.r.message
        case Chunk(job) => before + Written(job, last.r.env, AttemptsOf(u, last.r), u.splitter, u.embed)
        case Cancel(_) => if last.r.erases then [] else before
  }

  lemma ExpectedOfAttempt(history: seq<Rows.Op>, job: Job, a: Attempt, s: Splitter, embed: string -> Vector, source: int, owner: string)
    ensures Rows.Expected(history + AttemptOps(job, a, s, embed), source, owner)
      == Rows.Expected(history, source, owner) + (if Keyed(job, source, owner) then SavedEntries(job, a, s, embed) else [])
  {
    hide Rows.Statements, Rows.ParentsIn, SecondComponent;
    var now := AttemptOps(job, a, s, embed);
    if now == [] {
      assert history + now == history;
    } else {
      assert (history + now)[..|history|] == history;
      if now[0].Committed? {
        AllOneKey(now[0].entries, job, source, owner);
      }
    }
  }

  lemma {:induction false} ExpectedOfJob(history: seq<Rows.Op>, job: Job, env: nat -> Attempt, n: nat, s: Splitter, embed: string -> Vector,
                                         source: int, owner: string)
    ensures Rows.Expected(history + JobOps(job, env, n, s, embed), source, owner)
      == Rows.Expected(history, source, owner) + (if Keyed(job, source, owner) then Written(job, env, n, s, embed) else [])
  {
    hide Rows.Expected, AttemptOps, SavedEntries;
    if n == 0 {
      assert history + [] == history;
      assert Rows.Expected(history, source, owner) + [] == Rows.Expected(history, source, owner);
    } else {
      var before, now := history + JobOps(job, env, n - 1, s, embed), AttemptOps(job, env(n - 1), s, embed);
      ExpectedOfJob(history, job, env, n - 1, s, embed, source, owner);
      assert history + JobOps(job, env, n, s, embed) == before + now;
      ExpectedOfAttempt(before, job, env(n - 1), s, embed, source, owner);
    }
  }

  lemma {:induction false} ExpectedIsStored(u: Setup, s: Offsets.State, es: seq<Event>, source: int, owner: string)
    ensures Rows.Expected(History(u, s, es), source, owner) == Stored(u, s, es, source, owner)
  {
    if es == [] {
    } else {
      var most, last := es[..|es| - 1], es[|es| - 1];
      ExpectedIsStored(u, s, most, source, owner);
      var history := History(u, s, most);
      assert history + [] == history;
      if Handles(u, s, most, last) {
        match last.r.message
        case Chunk(job) => ExpectedOfJob(history, job, last.r.env, AttemptsOf(u, last.r), u.splitter, u.embed, source, owner);
        case Cancel(job) =>
          if last.r.erases {
            assert (history + Ops(u, last.r))[..|history|] == history;
          }
      }
    }
  }

  /** Over any run with any stops and restarts, the store holds for a key what its handled records leave. */
  lemma StoreAfterRun(u: Setup, s: Offsets.State, es: seq<Event>, source: int, owner: string)
    ensures Rows.Valid(Rows.Replay(Rows.EMPTY, History(u, s, es)))
    ensures Rows.Holds(Rows.Replay(Rows.EMPTY, History(u, s, es)), source, owner) == Stored(u, s, es, source, owner)
  {
    Rows.TablesReplayTheHistory(History(u, s, es), source, owner);
    ExpectedIsStored(u, s, es, source, owner);
  }

  // ---- how many copies --------------------------------------------------------------------------------

  /** Saves of this key that have been committed since its last effective cancel. */
  function SaveTotal(u: Setup, s: Offsets.State, es: seq<Event>, source: int, owner: string): nat {
    if es == [] then 0
    else
      var most, last := es[..|es| - 1], es[|es| - 1];
      var before := SaveTotal(u, s, most, source, owner);
      if !Handles(u, s, most, last) || !Keyed(last.r.message.job, source, owner) then before
      else
        match last.r.message
        case Chunk(job) => before + SaveCount(job, last.r.env, AttemptsOf(u, last.r), u.splitter, u.embed)
        case Cancel(_) => if last.r.erases then 0 else before
  }

  /**
   * A key holds something exactly if a save was committed since its last effective cancel. So the
   * chunks of a deleted source stay if its cancel message was handled first.
   */
  lemma {:induction false} HoldsNothingExactly(u: Setup, s: Offsets.State, es: seq<Event>, source: int, owner: string)
    ensures Stored(u, s, es, source, owner) == [] <==> SaveTotal(u, s, es, source, owner) == 0
  {
    if es == [] {
    } else {
      var most, last := es[..|es| - 1], es[|es| - 1];
      HoldsNothingExactly(u, s, most, source, owner);
      if last.Fetch? && last.r.message.Chunk? {
        NothingWritten(last.r.message.job, last.r.env, AttemptsOf(u, last.r), u.splitter, u.embed);
      }
    }
  }

  /** Every job of this key has the same path, and the document behind it always reads the same. */
  ghost predicate OneDocument(u: Setup, es: seq<Event>, source: int, owner: string, path: string, sections: seq<string>) {
    forall k :: 0 <= k < |es| && es[k].Fetch? && es[k].r.message.Chunk? && Keyed(es[k].r.message.job, source, owner) ==>
      es[k].r.message.job.path == path && SameDocument(es[k].r.env, AttemptsOf(u, es[k].r), sections)
  }

  /** The records of a document, which do not depend on the id of the job. */
  function DocumentRecords(u: Setup, source: int, owner: string, path: string, sections: seq<string>): seq<Rows.Entry>
    requires SecondComponent(path).Some?
  {
    Records(Job(0, owner, source, path), SecondComponent(path).value, sections, u.splitter, u.embed)
  }

  lemma SameChildren(job: Job, id: nat, project: int, pair: ChunkPair, embed: string -> Vector)
    ensures Children(job, project, pair, embed) == Children(job.(id := id), project, pair, embed)
  {
    var a, b := Children(job, project, pair, embed), Children(job.(id := id), project, pair, embed);
    forall j | 0 <= j < |a| ensures a[j] == b[j] {
      var c := pair.children[j];
      assert a[j] == ChildOf(job, project, c, embed(c.text)) == ChildOf(job.(id := id), project, c, embed(c.text)) == b[j];
    }
  }

  lemma AnyJobId(job: Job, id: nat, project: int, sections: seq<string>, s: Splitter, embed: string -> Vector)
    ensures Records(job, project, sections, s, embed) == Records(job.(id := id), project, sections, s, embed)
  {
    var a, b := Records(job, project, sections, s, embed), Records(job.(id := id), project, sections, s, embed);
    var pairs := PairsOf(sections, s);
    forall k | 0 <= k < |pairs| ensures a[k] == b[k] {
      SameChildren(job, id, project, pairs[k], embed);
    }
  }

  lemma {:induction false} CopiesAddUp<T>(a: seq<T>, m: nat, n: nat)
    ensures Copies(a, m) + Copies(a, n) == Copies(a, m + n)
  {
    if n == 0 {
    } else {
      CopiesAddUp(a, m, n - 1);
      assert Copies(a, m) + (Copies(a, n - 1) + a) == (Copies(a, m) + Copies(a, n - 1)) + a;
    }
  }

  /**
   * With one document behind a key, the store holds one copy of its records per committed save,
   * summed over all attempts of all deliveries since the last effective cancel.
   */
  lemma {:induction false} StoredIsCopies(u: Setup, s: Offsets.State, es: seq<Event>, source: int, owner: string, path: string, sections: seq<string>)
    requires SecondComponent(path).Some? && OneDocument(u, es, source, owner, path, sections)
    ensures Stored(u, s, es, source, owner)
      == Copies(DocumentRecords(u, source, owner, path, sections), SaveTotal(u, s, es, source, owner))
  {
    hide SecondComponent, Records;
    if es == [] {
    } else {
      var most, last := es[..|es| - 1], es[|es| - 1];
      StoredIsCopies(u, s, most, source, owner, path, sections);
      if last.Fetch? && last.r.message.Chunk? && Keyed(last.r.message.job, source, owner) {
        var job, n := last.r.message.job, AttemptsOf(u, last.r);
        WrittenIsCopies(job, last.r.env, n, sections, u.splitter, u.embed);
        AnyJobId(job, 0, SecondComponent(path).value, sections, u.splitter, u.embed);
        CopiesAddUp(DocumentRecords(u, source, owner, path, sections), SaveTotal(u, s, most, source, owner),
                    SaveCount(job, last.r.env, n, u.splitter, u.embed));
      }
    }
  }

  // ---- where the rows come from --------------------------------------------------------------------------

  /** The save of a document for this job. */
  ghost predicate SavesDocument(u: Setup, op: Rows.Op, job: Job, sections: seq<string>) {
    && SecondComponent(job.path).Some?
    && op == Rows.Committed(Records(job, SecondComponent(job.path).value, sections, u.splitter, u.embed))
  }

  lemma {:induction false} JobOpsSaveDocuments(u: Setup, job: Job, env: nat -> Attempt, n: nat, k: nat) returns (sections: seq<string>)
    requires k < |JobOps(job, env, n, u.splitter, u.embed)| && JobOps(job, env, n, u.splitter, u.embed)[k].Committed?
    ensures SavesDocument(u, JobOps(job, env, n, u.splitter, u.embed)[k], job, sections)
  {
    hide Records, Rows.Statements, SecondComponent;
    if k < |JobOps(job, env, n - 1, u.splitter, u.embed)| {
      sections := JobOpsSaveDocuments(u, job, env, n - 1, k);
    } else {
      sections := env(n - 1).parsed.value;
    }
  }

  /** Every committed save of a run is that of a document for a job that was fetched. */
  lemma {:induction false} HistorySavesDocuments(u: Setup, s: Offsets.State, es: seq<Event>, k: nat) returns (j: nat, sections: seq<string>)
    requires k < |History(u, s, es)| && History(u, s, es)[k].Committed?
    ensures j < |es| && es[j].Fetch? && es[j].r.message.Chunk?
    ensures SavesDocument(u, History(u, s, es)[k], es[j].r.message.job, sections)
  {
    hide SavesDocument;
    var most, last := es[..|es| - 1], es[|es| - 1];
    if k < |History(u, s, most)| {
      j, sections := HistorySavesDocuments(u, s, most, k);
    } else {
      j := |es| - 1;
      sections := JobOpsSaveDocuments(u, last.r.message.job, last.r.env, AttemptsOf(u, last.r), k - |History(u, s, most)|);
    }
  }

  lemma RecordsAreUniform(job: Job, project: int, sections: seq<string>, s: Splitter, embed: string -> Vector, k: nat)
    requires k < |Records(job, project, sections, s, embed)|
    ensures var e := Records(job, project, sections, s, embed)[k];
      Rows.UniformEntry(e) && e.parent.source == job.source && e.parent.owner == job.owner && e.parent.project == project
  {
    var e, pair := Records(job, project, sections, s, embed)[k], PairsOf(sections, s)[k];
    assert e.children == Children(job, project, pair, embed);
    forall j | 0 <= j < |e.children| ensures Rows.Agree(e.parent, e.children[j]) {
      assert e.children[j] == ChildOf(job, project, pair.children[j], embed(pair.children[j].text));
    }
  }

  /** In every state the consumer can reach, each child agrees with its parent on source, project and owner. */
  lemma ChildrenAgree(u: Setup, s: Offsets.State, es: seq<Event>)
    ensures Rows.Uniform(History(u, s, es)) && Rows.Consistent(Rows.Replay(Rows.EMPTY, History(u, s, es)))
  {
    var history := History(u, s, es);
    forall k, i | 0 <= k < |history| && history[k].Committed? && 0 <= i < |history[k].entries|
      ensures Rows.UniformEntry(history[k].entries[i])
    {
      var j, sections := HistorySavesDocuments(u, s, es, k);
      var job := es[j].r.message.job;
      RecordsAreUniform(job, SecondComponent(job.path).value, sections, u.splitter, u.embed, i);
    }
    Rows.ChildrenAgreeWithParents(history);
  }

  /** The filter on the child's columns isolates the parents in every such state. */
  lemma SearchIsIsolated(u: Setup, s: Offsets.State, es: seq<Event>, hits: seq<Rows.Hit>, owner: string, project: int, topK: nat, k: nat)
    requires Rows.IsSearch(hits, Rows.Replay(Rows.EMPTY, History(u, s, es)), owner, project, topK) && k < |hits|
    ensures hits[k].parent.rec.owner == owner && hits[k].parent.rec.project == project
    ensures hits[k].parent.rec.source == hits[k].child.rec.source
  {
    ChildrenAgree(u, s, es);
    hide History;
    Rows.SearchIsIsolated(History(u, s, es), hits, owner, project, topK, k);
  }

  // ---- deliveries ----------------------------------------------------------------------------------------

  /** Event k hands the record at offset o of partition p to its handler. */
  predicate HandsOver(u: Setup, start: Offsets.Positions, es: seq<Event>, k: nat, p: Offsets.Partition, o: nat) {
    Offsets.Handles(start, OffsetEvents(u, es), k, p, o)
  }

  /** Event k handles its record and commits. */
  predicate CommitsAt(u: Setup, start: Offsets.Positions, es: seq<Event>, k: nat) {
    Offsets.CommitsAt(start, OffsetEvents(u, es), k)
  }

  /** A record comes a second time only if the session of its first time ended without any commit from there on. */
  lemma ComesAgain(u: Setup, start: Offsets.Positions, es: seq<Event>, i: nat, j: nat, p: Offsets.Partition, o: nat) returns (r: nat)
    requires i < j && HandsOver(u, start, es, i, p, o) && HandsOver(u, start, es, j, p, o)
    ensures i < r < j && es[r].Restart? && forall k: nat :: i <= k < r ==> !CommitsAt(u, start, es, k)
  {
    var events := OffsetEvents(u, es);
    r := Offsets.HandledTwice(start, events, i, j, p, o);
    forall k: nat | i <= k < r ensures !CommitsAt(u, start, es, k) {
      assert events[..r][..k] == events[..k];
      assert !Offsets.CommitsAt(start, events[..r], k);
    }
  }

  /**
   * Once a record was handed over and that, or anything after it in the same session, was committed,
   * it never comes again: what it has stored by then is all it ever stores.
   */
  lemma CommittedIsFinal(u: Setup, start: Offsets.Positions, es: seq<Event>, i: nat, c: nat, j: nat, p: Offsets.Partition, o: nat)
    requires HandsOver(u, start, es, i, p, o) && i <= c < j
    requires CommitsAt(u, start, es, c) && forall k :: i < k <= c ==> !es[k].Restart?
    ensures !HandsOver(u, start, es, j, p, o)
  {
    hide HandsOver, CommitsAt;
    if HandsOver(u, start, es, j, p, o) {
      var r := ComesAgain(u, start, es, i, j, p, o);
      assert false;
    }
  }

  /** One event more, for what is stored. */
  lemma StoredOne(u: Setup, s: Offsets.State, es: seq<Event>, e: Event, source: int, owner: string)
    ensures Positions(u, s, es + [e]) == Offsets.Next(Positions(u, s, es), OffsetEvent(u, e))
    ensures Stored(u, s, es + [e], source, owner) ==
      if !Handles(u, s, es, e) || !Keyed(e.r.message.job, source, owner) then Stored(u, s, es, source, owner)
      else if e.r.message.Chunk?
      then Stored(u, s, es, source, owner) + Written(e.r.message.job, e.r.env, AttemptsOf(u, e.r), u.splitter, u.embed)
      else if e.r.erases then [] else Stored(u, s, es, source, owner)
  {
    assert (es + [e])[..|es|] == es;
    assert OffsetEvents(u, es + [e]) == OffsetEvents(u, es) + [OffsetEvent(u, e)];
    Offsets.PlayOne(s, OffsetEvents(u, es), OffsetEvent(u, e));
  }

  /** Where the record of event k comes from. */
  lemma HandsOverAt(u: Setup, start: Offsets.Positions, es: seq<Event>, k: nat, p: Offsets.Partition, o: nat)
    requires k < |es|
    ensures var s := Positions(u, Offsets.State(start, start, true), es[..k]);
      HandsOver(u, start, es, k, p, o) <==> es[k].Fetch? && es[k].r.p == p && s.running && Offsets.At(s.position, p) == o
  {
    assert OffsetEvents(u, es)[..k] == OffsetEvents(u, es[..k]);
  }

  lemma CommitsAtExactly(u: Setup, start: Offsets.Positions, es: seq<Event>, k: nat)
    requires k < |es|
    ensures CommitsAt(u, start, es, k)
      <==> Handles(u, Offsets.State(start, start, true), es[..k], es[k]) && Handled(u, es[k].r) && es[k].r.committed
  {
    assert OffsetEvents(u, es)[..k] == OffsetEvents(u, es[..k]);
  }

  lemma CancelHandled(u: Setup, r: Record)
    requires r.message.Cancel?
    ensures Handled(u, r) <==> r.erases
  {}

  /** The first attempt works, and its `done` gets out. */
  function Smooth(sections: seq<string>): nat -> Attempt {
    (i: nat) => Attempt(Some(sections), true, true, None, true)
  }

  lemma SmoothWorks(u: Setup, r: Record, sections: seq<string>)
    requires u.maxRetries >= 1 && r.message.Chunk? && SecondComponent(r.message.job.path).Some? && sections != [] && r.env == Smooth(sections)
    ensures AttemptsOf(u, r) == 1 && Handled(u, r)
    ensures var job := r.message.job;
      Written(job, r.env, 1, u.splitter, u.embed) == Records(job, SecondComponent(job.path).value, sections, u.splitter, u.embed)
  {
    hide SecondComponent, Records, Rows.Statements;
    assert Succeeds(r.message.job, r.env(0), u.splitter, u.embed);
    assert Written(r.message.job, r.env, 0, u.splitter, u.embed) == [];
  }

  const FRESH: Offsets.State := Offsets.State(map[], map[], true)

  lemma FreshRun(u: Setup, source: int, owner: string)
    ensures Positions(u, FRESH, []) == FRESH && Stored(u, FRESH, [], source, owner) == []
  {}

  /** A job was handled, its commit was lost, and the consumer has started again. */
  lemma AfterLostCommit(u: Setup, r: Record)
    requires Handled(u, r) && r.message.Chunk? && r.p == 0 && !r.committed
    ensures var es, job := [Fetch(r)] + [Restart], r.message.job;
      && Positions(u, FRESH, es) == FRESH
      && Stored(u, FRESH, es, job.source, job.owner) == Written(job, r.env, AttemptsOf(u, r), u.splitter, u.embed)
  {
    var job := r.message.job;
    FreshRun(u, job.source, job.owner);
    hide Stored, Positions, OffsetEvents, Handled, AttemptsOf, Written;
    assert [] + [Fetch(r)] == [Fetch(r)];
    StoredOne(u, FRESH, [], Fetch(r), job.source, job.owner);
    StoredOne(u, FRESH, [Fetch(r)], Restart, job.source, job.owner);
  }

  /** The restarted consumer fetches the same record, and handles it like the first time. */
  lemma LostCommitStored(u: Setup, r: Record)
    requires Handled(u, r) && r.message.Chunk? && r.p == 0 && !r.committed
    ensures var job := r.message.job; var written := Written(job, r.env, AttemptsOf(u, r), u.splitter, u.embed);
      Stored(u, FRESH, [Fetch(r)] + [Restart] + [Fetch(r)], job.source, job.owner) == written + written
  {
    AfterLostCommit(u, r);
    hide Handled, AttemptsOf, Written, Positions, Stored, OffsetEvents;
    StoredOne(u, FRESH, [Fetch(r)] + [Restart], Fetch(r), r.message.job.source, r.message.job.owner);
  }

  lemma LostCommitHandsOver(u: Setup, r: Record)
    requires Handled(u, r) && r.message.Chunk? && r.p == 0 && !r.committed
    ensures var es := [Fetch(r)] + [Restart] + [Fetch(r)];
      HandsOver(u, map[], es, 0, 0, 0) && HandsOver(u, map[], es, 2, 0, 0)
  {
    AfterLostCommit(u, r);
    FreshRun(u, 0, "");
    hide Handled, AttemptsOf, Written, Positions, Stored, OffsetEvents, HandsOver;
    var es := [Fetch(r)] + [Restart] + [Fetch(r)];
    assert es[..2] == [Fetch(r)] + [Restart] && es[..0] == [];
    HandsOverAt(u, map[], es, 0, 0, 0);
    HandsOverAt(u, map[], es, 2, 0, 0);
  }

  /** `done` was published, only the commit was lost: after a restart the job is stored a second time. */
  lemma LostCommitStoresTwice(u: Setup, job: Job, sections: seq<string>) returns (es: seq<Event>)
    requires u.maxRetries >= 1 && SecondComponent(job.path).Some? && sections != []
    ensures var records := Records(job, SecondComponent(job.path).value, sections, u.splitter, u.embed);
      && (forall k :: 0 <= k < |es| && es[k].Fetch? ==> Handled(u, es[k].r))
      && HandsOver(u, map[], es, 0, 0, 0) && HandsOver(u, map[], es, 2, 0, 0)
      && Stored(u, FRESH, es, job.source, job.owner) == records + records
  {
    hide Records, Written, AttemptsOf, Handled, HandsOver, Stored;
    var r := Record(0, Chunk(job), Smooth(sections), true, true, false);
    SmoothWorks(u, r, sections);
    LostCommitStored(u, r);
    LostCommitHandsOver(u, r);
    es := [Fetch(r)] + [Restart] + [Fetch(r)];
  }

  /** A cancel is handled and committed, and nothing is stored. */
  lemma AfterCancel(u: Setup, c: Record)
    requires c.message.Cancel? && c.erases
    ensures Positions(u, FRESH, [Fetch(c)]).running
    ensures Stored(u, FRESH, [Fetch(c)], c.message.job.source, c.message.job.owner) == []
  {
    var job := c.message.job;
    FreshRun(u, job.source, job.owner);
    CancelHandled(u, c);
    hide Stored, Positions, OffsetEvents, Handled;
    assert [] + [Fetch(c)] == [Fetch(c)];
    StoredOne(u, FRESH, [], Fetch(c), job.source, job.owner);
  }

  /** A cancel that is handled before the job it is meant for removes nothing: the chunks stay. */
  lemma CancelledTooEarly(u: Setup, job: Job, sections: seq<string>) returns (es: seq<Event>)
    requires u.maxRetries >= 1 && SecondComponent(job.path).Some? && sections != []
    ensures (forall k :: 0 <= k < |es| ==> CommitsAt(u, map[], es, k))
    ensures |es| == 2 && es[0].Fetch? && es[0].r.message == Cancel(job)
    ensures Stored(u, FRESH, es, job.source, job.owner)
      == Records(job, SecondComponent(job.path).value, sections, u.splitter, u.embed) != []
  {
    var c := Record(1, Cancel(job), Smooth(sections), true, true, true);
    var r := Record(0, Chunk(job), Smooth(sections), true, true, true);
    SmoothWorks(u, r, sections);
    RecordsPerSection(job, SecondComponent(job.path).value, sections, u.splitter, u.embed);
    AfterCancel(u, c);
    CancelHandled(u, c);
    FreshRun(u, job.source, job.owner);
    hide Records, Written, AttemptsOf, Handled, CommitsAt, Positions, Stored, OffsetEvents;
    es := [Fetch(c)] + [Fetch(r)];
    StoredOne(u, FRESH, [Fetch(c)], Fetch(r), job.source, job.owner);
    assert es[..0] == [] && es[..1] == [Fetch(c)];
    CommitsAtExactly(u, map[], es, 0);
    CommitsAtExactly(u, map[], es, 1);
  }

  // ---- the loop ------------------------------------------------------------------------------------------

  function Fetches(records: seq<Record>): seq<Event> {
    seq(|records|, k requires 0 <= k < |records| => Fetch(records[k]))
  }

  /** What the loop goes through: all records, or a stop that is noticed with the next fetch. */
  function Trace(records: seq<Record>, stopAfter: nat): seq<Event> {
    if |records| <= stopAfter then Fetches(records)
    else Fetches(records[..stopAfter]) + [Stop] + [Fetch(records[stopAfter])]
  }

  /** One event more. */
  lemma RunOne(u: Setup, s: Offsets.State, es: seq<Event>, e: Event, t: Rows.Tables)
    ensures Positions(u, s, es + [e]) == Offsets.Next(Positions(u, s, es), OffsetEvent(u, e))
    ensures Rows.Replay(t, History(u, s, es + [e])) ==
      Rows.Replay(Rows.Replay(t, History(u, s, es)), if Handles(u, s, es, e) then Ops(u, e.r) else [])
  {
    assert (es + [e])[..|es|] == es;
    assert OffsetEvents(u, es + [e]) == OffsetEvents(u, es) + [OffsetEvent(u, e)];
    Offsets.PlayOne(s, OffsetEvents(u, es), OffsetEvent(u, e));
    Rows.ReplayOn(t, History(u, s, es), if Handles(u, s, es, e) then Ops(u, e.r) else []);
  }

  lemma NothingDone(t: Rows.Tables)
    ensures Rows.Replay(t, []) == t
  {}

  lemma NothingFetched(u: Setup, s: Offsets.State, t: Rows.Tables)
    ensures Positions(u, s, Fetches([])) == s && Rows.Replay(t, History(u, s, Fetches([]))) == t
  {}

  /** All that the handling of these records does to the tables. */
  function OpsOf(u: Setup, records: seq<Record>): seq<Rows.Op> {
    if records == [] then [] else OpsOf(u, records[..|records| - 1]) + Ops(u, records[|records| - 1])
  }

  /** How many of the records are of partition p. */
  function CountOf(records: seq<Record>, p: Offsets.Partition): nat {
    if records == [] then 0
    else CountOf(records[..|records| - 1], p) + (if records[|records| - 1].p == p then 1 else 0)
  }

  lemma OneRecordMore(u: Setup, records: seq<Record>, n: nat, t: Rows.Tables)
    requires n < |records|
    ensures Rows.Replay(t, OpsOf(u, records[..n + 1])) == Rows.Replay(Rows.Replay(t, OpsOf(u, records[..n])), Ops(u, records[n]))
    ensures forall p :: CountOf(records[..n + 1], p) == CountOf(records[..n], p) + (if records[n].p == p then 1 else 0)
  {
    assert records[..n + 1][..n] == records[..n];
    Rows.ReplayOn(t, OpsOf(u, records[..n]), Ops(u, records[n]));
  }

  lemma NoRecordsYet(u: Setup, records: seq<Record>, t: Rows.Tables)
    ensures Rows.Replay(t, OpsOf(u, records[..0])) == t && forall p :: CountOf(records[..0], p) == 0
  {}

  class Consumer {
    const worker: ChunkingConsumer
    var position: Offsets.Positions
    var committed: Offsets.Positions
    var running: bool

    function View(): Offsets.State
      reads this
    {
      Offsets.State(position, committed, running)
    }

    constructor (worker: ChunkingConsumer, start: Offsets.Positions)
      ensures this.worker == worker && View() == Offsets.State(start, start, true)
    {
      this.worker := worker;
      position, committed, running := start, start, true;
    }

    /** The tools the worker is given are those of the setup, and the embedding service answers as it should. */
    ghost predicate Fits(maxRetries: int, tools: Tools, u: Setup) {
      && u.maxRetries == maxRetries && u.splitter == tools.splitter
      && forall n, batch :: IsResponse(tools.create(n, batch), batch, u.embed)
    }

    /** Dispatch by topic; commit only after success; an exception of the handler or of the commit is swallowed. */
    method HandleRecord(r: Record, maxRetries: int, tools: Tools, ghost u: Setup)
      requires running && Fits(maxRetries, tools, u) && Rows.Valid(worker.store.tables)
      modifies `committed, worker, worker.store
      ensures committed == if Handled(u, r) && r.committed then position else old(committed)
      ensures r.message.Chunk? ==>
        var succeeds := exists k: nat :: k < maxRetries && Works(r.message.job, r.env(k), u.splitter, u.embed) && r.env(k).published;
        committed == if succeeds && r.committed then position else old(committed)
      ensures r.message.Cancel? ==> committed == if r.erases && r.committed then position else old(committed)
      ensures worker.store.tables == Rows.Replay(old(worker.store.tables), Ops(u, r)) && Rows.Valid(worker.store.tables)
    {
      hide Rows.Valid, Rows.Holds, Rows.Replay, JobOps, Written, Works;
      HandledExactly(u, r);
      var raised;
      match r.message {
        case Chunk(job) =>
          ghost var attempts;
          JobOpsGain(worker.store.tables, job, r.env, AttemptsOf(u, r), u.splitter, u.embed);
          raised, attempts := worker.ProcessChunking(job, maxRetries, r.env, r.failedPublished, tools, u.embed);
        case Cancel(job) =>
          var deleted;
          raised, deleted := worker.ProcessCancel(job, r.erases);
      }
      if !raised && r.committed {
        committed := position;
      }
    }

    method StopRunning()
      modifies `running
      ensures View() == Offsets.Next(old(View()), Offsets.Stop)
    {
      running := false;
    }

    /** Reads on until `stopAfter` records were handled; the stop is only noticed with the next one. */
    method RunLoop(records: seq<Record>, stopAfter: nat, maxRetries: int, tools: Tools, ghost u: Setup)
      requires running && Fits(maxRetries, tools, u) && Rows.Valid(worker.store.tables)
      modifies this, worker, worker.store
      ensures View() == Positions(u, old(View()), Trace(records, stopAfter))
      ensures worker.store.tables == Rows.Replay(old(worker.store.tables), History(u, old(View()), Trace(records, stopAfter)))
      ensures running <==> |records| <= stopAfter
      ensures var handled := if |records| <= stopAfter then records else records[..stopAfter];
        worker.store.tables == Rows.Replay(old(worker.store.tables), OpsOf(u, handled))
      ensures forall p :: var fetched := if |records| <= stopAfter then records else records[..stopAfter + 1];
        Offsets.At(position, p) == Offsets.At(old(position), p) + CountOf(fetched, p)
    {
      hide Rows.Valid, Rows.Replay, Handled, Ops, OpsOf, CountOf, Positions, History;
      NoRecordsYet(u, records, worker.store.tables);
      ghost var s, t := View(), worker.store.tables;
      var n := 0;
      NothingFetched(u, s, t);
      while n < |records|
        invariant n <= |records| && n <= stopAfter && running && Rows.Valid(worker.store.tables)
        invariant View() == Positions(u, s, Fetches(records[..n]))
        invariant worker.store.tables == Rows.Replay(t, History(u, s, Fetches(records[..n])))
        invariant worker.store.tables == Rows.Replay(t, OpsOf(u, records[..n]))
        invariant forall p :: Offsets.At(position, p) == Offsets.At(old(position), p) + CountOf(records[..n], p)
      {
        var r := records[n];
        OneRecordMore(u, records, n, t);
        ghost var es := Fetches(records[..n]);
        assert Fetches(records[..n + 1]) == es + [Fetch(r)];
        if n == stopAfter {
          RunOne(u, s, es, Stop, t);
          RunOne(u, s, es + [Stop], Fetch(r), t);
          NothingDone(worker.store.tables);
          StopRunning();
        } else {
          RunOne(u, s, es, Fetch(r), t);
        }
        position := position[r.p := Offsets.At(position, r.p) + 1];
        if !running {
          return;
        }
        HandleRecord(r, maxRetries, tools, u);
        n := n + 1;
      }
      assert records[..n] == records;
    }
  }
}
