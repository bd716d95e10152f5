/**
 * The whole ingest path: from the messages the sources service can announce, over
 * the worker's saves, to the contexts a query gets back.
 */
module EndToEnd {
  import opened Options
  import opened ObjectNames
  import opened SourceTable
  import Protocol = SourceProtocol
  import ProtocolInvariant
  import ProtocolTheorems
  import Chunking
  import Embedding
  import Worker
  import Rows = VectorStore
  import Retrieval
  import Ingest
  import Offsets

  /** The project column the worker derives from the path. */
  function ProjectColumn(m: Protocol.CreateJob): int {
    if m.kind.URL? then 0 else m.source
  }

  /** An entry that carries the key of a message in its parent and all its children. */
  predicate OfMessage(e: Rows.Entry, m: Protocol.CreateJob) {
    && e.parent.source == m.source && e.parent.owner == m.owner && e.parent.project == ProjectColumn(m)
    && Rows.UniformEntry(e)
  }

  /**
   * For every message of every run the worker finds a project in the path, and it is the
   * source's own id (0 for a URL), not the project the source was uploaded to.
   */
  lemma ProjectColumnIsTheSourceId(es: seq<Protocol.Event>, m: Protocol.CreateJob)
    requires Protocol.GoodEvents(es) && m in Protocol.Run(es).chunking
    ensures SecondComponent(m.path) == Some(ProjectColumn(m))
  {
    ProtocolTheorems.MessagesAreTraceable(es);
  }

  /** Whatever the worker saves for a message carries the key of that message. */
  lemma SavesAreOfMessage(es: seq<Protocol.Event>, m: Protocol.CreateJob, sections: seq<string>, s: Chunking.Splitter, embed: string -> Embedding.Vector)
    requires Protocol.GoodEvents(es) && m in Protocol.Run(es).chunking
    ensures SecondComponent(m.path).Some?
    ensures forall e :: e in Worker.Records(Worker.Job(m.job, m.owner, m.source, m.path), SecondComponent(m.path).value, sections, s, embed) ==> OfMessage(e, m)
  {
    ProjectColumnIsTheSourceId(es, m);
    var records := Worker.Records(Worker.Job(m.job, m.owner, m.source, m.path), SecondComponent(m.path).value, sections, s, embed);
    forall k | 0 <= k < |records| ensures OfMessage(records[k], m) {
      Ingest.RecordsAreUniform(Worker.Job(m.job, m.owner, m.source, m.path), SecondComponent(m.path).value, sections, s, embed, k);
    }
  }

  /** The chunking jobs that the consumer fetches are messages that the service has announced. */
  ghost predicate FetchesMessages(fetched: seq<Ingest.Event>, w: Protocol.World) {
    forall k :: 0 <= k < |fetched| && fetched[k].Fetch? && fetched[k].r.message.Chunk? ==>
      exists m :: m in w.chunking && fetched[k].r.message.job == Worker.Job(m.job, m.owner, m.source, m.path)
  }

  ghost predicate AnswersMessage(e: Rows.Entry, w: Protocol.World) {
    exists m :: m in w.chunking && OfMessage(e, m)
  }

  /** Every save in the history answers a message announced in `w`. */
  ghost predicate ServesMessages(history: seq<Rows.Op>, w: Protocol.World) {
    forall k, j :: 0 <= k < |history| && history[k].Committed? && 0 <= j < |history[k].entries| ==>
      AnswersMessage(history[k].entries[j], w)
  }

  /** A consumer that fetches what the service has announced saves nothing else, in any number of sessions. */
  lemma WorkerServesMessages(es: seq<Protocol.Event>, u: Ingest.Setup, s: Offsets.State, fetched: seq<Ingest.Event>)
    requires Protocol.GoodEvents(es) && FetchesMessages(fetched, Protocol.Run(es))
    ensures ServesMessages(Ingest.History(u, s, fetched), Protocol.Run(es))
  {
    var history, w := Ingest.History(u, s, fetched), Protocol.Run(es);
    hide Ingest.History, Protocol.Run, OfMessage;
    forall k, j | 0 <= k < |history| && history[k].Committed? && 0 <= j < |history[k].entries|
      ensures AnswersMessage(history[k].entries[j], w)
    {
      var i, sections := Ingest.HistorySavesDocuments(u, s, fetched, k);
      var m :| m in w.chunking && fetched[i].r.message.job == Worker.Job(m.job, m.owner, m.source, m.path);
      SavesAreOfMessage(es, m, sections, u.splitter, u.embed);
      assert history[k].entries[j] in history[k].entries;
    }
  }

  /** A parent row was written by some committed save. */
  ghost predicate Saved(history: seq<Rows.Op>, p: Rows.ParentRecord) {
    exists k, j :: 0 <= k < |history| && history[k].Committed? && 0 <= j < |history[k].entries| && history[k].entries[j].parent == p
  }

  lemma {:induction false} InsertedParents(t: Rows.Tables, entries: seq<Rows.Entry>, p: Rows.ParentRow)
    requires p in Rows.InsertAll(t, entries).parents
    ensures p in t.parents || exists j :: 0 <= j < |entries| && entries[j].parent == p.rec
  {
    if entries == [] {
    } else {
      var most := entries[..|entries| - 1];
      if p in Rows.InsertAll(t, most).parents {
        InsertedParents(t, most, p);
        if j :| 0 <= j < |most| && most[j].parent == p.rec {
          assert entries[j].parent == p.rec;
        }
      } else {
        assert entries[|entries| - 1].parent == p.rec;
      }
    }
  }

  lemma {:induction false} ParentsWereSaved(history: seq<Rows.Op>, p: Rows.ParentRow)
    requires p in Rows.Replay(Rows.EMPTY, history).parents
    ensures Saved(history, p.rec)
  {
    var most, last := history[..|history| - 1], history[|history| - 1];
    var before := Rows.Replay(Rows.EMPTY, most);
    match last {
      case Committed(entries) => InsertedParents(before, entries, p);
      case Aborted(_, _) =>
      case Deleted(s, o) =>
        Rows.TablesReplayTheHistory(most, s, o);
        Rows.WithoutExactly(before.parents, s, o);
    }
    if p in before.parents {
      ParentsWereSaved(most, p);
      var k, j :| 0 <= k < |most| && most[k].Committed? && 0 <= j < |most[k].entries| && most[k].entries[j].parent == p.rec;
      assert history[k].entries[j].parent == p.rec;
    } else {
      var j :| 0 <= j < |last.entries| && last.entries[j].parent == p.rec;
      assert history[|history| - 1].entries[j].parent == p.rec;
    }
  }

  function RowOf(h: Rows.Hit): Retrieval.Row {
    Retrieval.Row(h.parent.id, h.parent.rec.content, h.child.rec.source, h.score)
  }

  function RowsOf(hits: seq<Rows.Hit>): seq<Retrieval.Row> {
    seq(|hits|, k requires 0 <= k < |hits| => RowOf(hits[k]))
  }

  /** The context shows this parent row. */
  predicate StandsIn(c: Retrieval.Context, p: Rows.ParentRow) {
    p.id == c.parent && p.rec.content == c.content && p.rec.source == c.source
  }

  lemma AnnouncedParent(es: seq<Protocol.Event>, history: seq<Rows.Op>, p: Rows.ParentRecord)
    requires ServesMessages(history, Protocol.Run(es)) && Saved(history, p)
    ensures exists m :: m in Protocol.Run(es).chunking && m.owner == p.owner && m.source == p.source && ProjectColumn(m) == p.project
  {
    hide Protocol.Run;
    var k, j :| 0 <= k < |history| && history[k].Committed? && 0 <= j < |history[k].entries| && history[k].entries[j].parent == p;
    assert AnswersMessage(history[k].entries[j], Protocol.Run(es));
  }

  /**
   * Whatever uploads, retries and deletes run at the same time, and whatever the consumer fetches
   * of what they announce, over any number of sessions: every context a query gets for (owner,
   * project) stands in a stored parent row of that owner and project, and goes back to a message of
   * that owner; for a project other than 0 its source is the one whose id equals the project asked for.
   */
  lemma ContextsAreIsolated(es: seq<Protocol.Event>, u: Ingest.Setup, s: Offsets.State, fetched: seq<Ingest.Event>,
                            hits: seq<Rows.Hit>, owner: string, project: int, topK: nat,
                            r: seq<Retrieval.Context>, k: int, query: string, score: (string, string) -> real, i: nat)
    requires Protocol.GoodEvents(es) && FetchesMessages(fetched, Protocol.Run(es))
    requires Rows.IsSearch(hits, Rows.Replay(Rows.EMPTY, Ingest.History(u, s, fetched)), owner, project, topK)
    requires Retrieval.IsRetrieval(r, RowsOf(hits), k, query, score) && i < |r|
    ensures exists p :: p in Rows.Replay(Rows.EMPTY, Ingest.History(u, s, fetched)).parents && StandsIn(r[i], p) && p.rec.owner == owner && p.rec.project == project
    ensures exists m :: m in Protocol.Run(es).chunking && m.owner == owner && m.source == r[i].source && ProjectColumn(m) == project
    ensures project != 0 ==> r[i].source == project
    ensures exists n :: 0 <= n < |hits| && hits[n].parent.id == r[i].parent && hits[n].score == r[i].bestChild
    ensures forall n :: 0 <= n < |hits| && hits[n].parent.id == r[i].parent ==> hits[n].score <= r[i].bestChild
  {
    var history := Ingest.History(u, s, fetched);
    WorkerServesMessages(es, u, s, fetched);
    hide Ingest.History, Protocol.Run;
    Retrieval.RetrievalPromises(r, RowsOf(hits), k, query, score);
    var n :| 0 <= n < |RowsOf(hits)| && RowsOf(hits)[n] == Retrieval.Row(r[i].parent, r[i].content, r[i].source, r[i].bestChild);
    Ingest.SearchIsIsolated(u, s, fetched, hits, owner, project, topK, n);
    ParentsWereSaved(history, hits[n].parent);
    assert StandsIn(r[i], hits[n].parent);
    assert RowsOf(hits)[n] == RowOf(hits[n]);
    forall m | 0 <= m < |hits| && hits[m].parent.id == r[i].parent ensures hits[m].score <= r[i].bestChild {
      assert RowsOf(hits)[m] == RowOf(hits[m]);
    }
    AnnouncedParent(es, history, hits[n].parent.rec);
  }
}
