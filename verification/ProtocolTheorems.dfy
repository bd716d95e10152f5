/** What holds after every run, that is, in every interleaving of the calls. */
module ProtocolTheorems {
  import opened Options
  import opened ObjectNames
  import opened SourceTable
  import opened SourceProtocol
  import opened ProtocolInvariant
  import opened ProtocolSteps

  /** An announced file is where its row says it is, under the name that belongs to it alone. */
  lemma AnnouncedFileIsStored(es: seq<Event>, id: nat)
    requires GoodEvents(es) && id in Run(es).rows
    ensures var r := Run(es).rows[id];
      Announced(r.status) && !r.kind.URL? ==> r.path == ObjectName(r.owner, id, r.name) && r.path in Run(es).objects
  {
    RunInv(es);
    assert RowOk(Run(es), id);
  }

  /** Every pending row is backed by a message with exactly its own fields. */
  lemma PendingRowHasItsMessage(es: seq<Event>, id: nat)
    requires GoodEvents(es) && id in Run(es).rows
    ensures var r := Run(es).rows[id];
      r.status.Pending? ==> r.job.Some? && CreateJob(r.job.value, r.owner, id, r.path, r.kind, r.url) in Run(es).chunking
  {
    RunInv(es);
    assert RowOk(Run(es), id);
  }

  ghost predicate Forward(w: World, v: World, id: nat) {
    && (id in w.rows && id in v.rows ==>
          SameIdentity(w.rows[id], v.rows[id]) && Rank(w.rows[id].status) <= Rank(v.rows[id].status))
    && (id !in w.rows && id < w.nextId ==> id !in v.rows)
    && w.nextId <= v.nextId
  }

  lemma UploadForward(w: World, pid: nat, req: Request, pc: UploadPc, o: Outcome, id: nat)
    requires Inv(w) && pid < |w.calls| && w.calls[pid] == Upload(req, pc)
    ensures Forward(w, StepUpload(w, pid, req, pc, o), id)
  {
    hide ObjectName, SecondComponent;
    assert UploadOk(w, req, pc) by { assert CallOk(w, w.calls[pid]); }
    if id in w.rows { assert RowOk(w, id); }
  }

  lemma RetryForward(w: World, pid: nat, c: Call, o: Outcome, id: nat)
    requires Inv(w) && pid < |w.calls| && w.calls[pid] == c && c.Retry?
    ensures Forward(w, StepRetry(w, pid, c, o), id)
  {
    hide ObjectName, SecondComponent;
    assert CallOk(w, c);
  }

  /** One event: a surviving row keeps its identity and its status moves only forward. */
  lemma StepForward(w: World, e: Event, id: nat)
    requires Inv(w)
    ensures Forward(w, Next(w, e), id)
  {
    hide ObjectName, SecondComponent;
    if e.Advance? && e.pid < |w.calls| {
      match w.calls[e.pid]
      case Upload(req, pc) => UploadForward(w, e.pid, req, pc, e.outcome, id);
      case Retry(_, _, _, _) => RetryForward(w, e.pid, w.calls[e.pid], e.outcome, id);
      case Delete(_, _, _, _) =>
    }
  }

  /** Over any stretch of any run the statuses go uploading, uploaded, pending, and a deleted id stays deleted. */
  lemma {:induction false} StatusNeverMovesBack(es: seq<Event>, k: nat, id: nat)
    requires GoodEvents(es) && k <= |es|
    ensures Forward(Run(es[..k]), Run(es), id)
  {
    if k == |es| {
      assert es[..k] == es;
    } else {
      var most := es[..|es| - 1];
      assert most[..k] == es[..k];
      StatusNeverMovesBack(most, k, id);
      RunInv(most);
      StepForward(Run(most), es[|es| - 1], id);
      if id in Run(es[..k]).rows {
        RunInv(es[..k]);
        assert RowOk(Run(es[..k]), id);
      }
    }
  }

  /** No status beyond these three is ever reached by this service. */
  lemma OnlyThreeStatuses(es: seq<Event>, id: nat)
    requires GoodEvents(es) && id in Run(es).rows
    ensures Run(es).rows[id].status in {Uploading, Uploaded, Pending}
  {
    RunInv(es);
    assert RowOk(Run(es), id);
  }

  /** Nothing lies in the bucket without a live row, a call at work on it, or a known loss. */
  lemma EveryObjectIsAccountedFor(es: seq<Event>, p: string)
    requires GoodEvents(es) && p in Run(es).objects
    ensures Accounted(Run(es), p)
  {
    RunInv(es);
  }

  /** Every message can be traced by its path, and every cancel follows its job and its row's removal. */
  lemma MessagesAreTraceable(es: seq<Event>)
    requires GoodEvents(es)
    ensures forall m :: m in Run(es).chunking ==> MessageOk(m)
    ensures forall c :: c in Run(es).cancels ==>
      c.source !in Run(es).rows && exists m :: m in Run(es).chunking && m.job == c.job && m.owner == c.owner && m.source == c.source
  {
    RunInv(es);
    forall c | c in Run(es).cancels
      ensures c.source !in Run(es).rows
      ensures exists m :: m in Run(es).chunking && m.job == c.job && m.owner == c.owner && m.source == c.source
    {
      assert CancelOk(Run(es), c);
    }
  }

  // ---- what an accepted upload is worth --------------------------------------------

  /** A delete removes the row of `id`. */
  predicate RemovesRow(w: World, e: Event, id: nat) {
    && e.Advance? && e.outcome.Success? && e.pid < |w.calls|
    && w.calls[e.pid].Delete? && w.calls[e.pid].dp.DRow? && w.calls[e.pid].id == id
    && Find(w.rows, id, w.calls[e.pid].project, w.calls[e.pid].owner).Some?
  }

  predicate DeletedIn(es: seq<Event>, id: nat) {
    es != [] && (DeletedIn(es[..|es| - 1], id) || RemovesRow(Run(es[..|es| - 1]), es[|es| - 1], id))
  }

  lemma {:induction false} DeletedIdsAreOld(es: seq<Event>, id: nat)
    requires GoodEvents(es) && DeletedIn(es, id)
    ensures id < Run(es).nextId
  {
    var most := es[..|es| - 1];
    RunInv(most);
    StepForward(Run(most), es[|es| - 1], id);
    if DeletedIn(most, id) {
      DeletedIdsAreOld(most, id);
    } else {
      assert RowOk(Run(most), id);
    }
  }

  /** The row of an upload at work or accepted goes away by a delete and in no other way. */
  ghost predicate KeepsRow(w: World, v: World, removed: bool, k: nat, id: nat) {
    k < |v.calls| && UploadId(v.calls[k]) == Some(id) ==>
      && k < |w.calls|
      && (UploadId(w.calls[k]) == Some(id) ==> (id in v.rows <==> id in w.rows && !removed))
      && (UploadId(w.calls[k]) != Some(id) ==> id == w.nextId && id in v.rows && !removed)
  }

  lemma UploadKeepsRow(w: World, pid: nat, req: Request, pc: UploadPc, o: Outcome, k: nat, id: nat)
    requires Inv(w) && pid < |w.calls| && w.calls[pid] == Upload(req, pc)
    ensures KeepsRow(w, StepUpload(w, pid, req, pc, o), false, k, id)
  {
    hide ObjectName, SecondComponent;
    if k < |w.calls| && k != pid {
      Others(w, pid, k);
      assert CallOk(w, w.calls[k]);
    }
  }

  lemma DeleteKeepsRow(w: World, pid: nat, c: Call, o: Outcome, k: nat, id: nat)
    requires Inv(w) && pid < |w.calls| && w.calls[pid] == c && c.Delete?
    ensures KeepsRow(w, StepDelete(w, pid, c, o), RemovesRow(w, Advance(pid, o), id), k, id)
  {
    hide ObjectName, SecondComponent;
  }

  lemma RetryKeepsRow(w: World, pid: nat, c: Call, o: Outcome, k: nat, id: nat)
    requires Inv(w) && pid < |w.calls| && w.calls[pid] == c && c.Retry?
    ensures KeepsRow(w, StepRetry(w, pid, c, o), false, k, id)
  {
    hide Inv;
  }

  lemma StepKeepsRow(w: World, e: Event, k: nat, id: nat)
    requires Inv(w)
    ensures KeepsRow(w, Next(w, e), RemovesRow(w, e, id), k, id)
  {
    hide Inv, StepUpload, StepRetry, StepDelete;
    if e.Advance? && e.pid < |w.calls| {
      match w.calls[e.pid]
      case Upload(req, pc) => UploadKeepsRow(w, e.pid, req, pc, e.outcome, k, id);
      case Retry(_, _, _, _) => RetryKeepsRow(w, e.pid, w.calls[e.pid], e.outcome, k, id);
      case Delete(_, _, _, _) => DeleteKeepsRow(w, e.pid, w.calls[e.pid], e.outcome, k, id);
    }
  }

  lemma {:induction false} UploadRowUnlessDeleted(es: seq<Event>, k: nat, id: nat)
    requires GoodEvents(es) && k < |Run(es).calls| && UploadId(Run(es).calls[k]) == Some(id)
    ensures id in Run(es).rows <==> !DeletedIn(es, id)
  {
    var most := es[..|es| - 1];
    RunInv(most);
    StepKeepsRow(Run(most), es[|es| - 1], k, id);
    if UploadId(Run(most).calls[k]) == Some(id) {
      UploadRowUnlessDeleted(most, k, id);
    } else if DeletedIn(most, id) {
      DeletedIdsAreOld(most, id);
    }
  }

  /**
   * What an answer "accepted" promises: the row is there, announced and as requested,
   * if and only if no delete has removed it; and a job id in the answer has its message.
   */
  lemma AcceptedMeans(es: seq<Event>, k: nat)
    requires GoodEvents(es) && k < |Run(es).calls|
    requires Run(es).calls[k].Upload? && Run(es).calls[k].up.UDone? && Run(es).calls[k].up.reply.Accepted?
    ensures var w := Run(es); var req := w.calls[k].req; var reply := w.calls[k].up.reply;
      && (reply.id in w.rows <==> !DeletedIn(es, reply.id))
      && (reply.id in w.rows ==> SameIdentity(w.rows[reply.id], NewRow(reply.id, req)) && Announced(w.rows[reply.id].status))
      && (reply.job.Some? ==> UploadMessage(req, reply.id, reply.job.value) in w.chunking)
  {
    RunInv(es);
    assert CallOk(Run(es), Run(es).calls[k]);
    UploadRowUnlessDeleted(es, k, Run(es).calls[k].up.reply.id);
  }

  // ---- when the bucket is clean -----------------------------------------------

  predicate StepLosesNothing(w: World, c: Call, o: Outcome) {
    match c
    case Upload(_, UUndoObject(_)) => o.Success?
    case Delete(_, _, _, DObject(_)) => o.Success?
    case Delete(_, _, _, DRow(src)) => o.Success? ==> !LeavesObject(w, src)
    case _ => true
  }

  /**
   * The events that lose nothing: no crash of a call with an object on its hands,
   * no failing storage delete, and no row deleted by a call that had read it
   * before the path of its object was recorded.
   */
  predicate LosesNothing(w: World, e: Event) {
    match e
    case Crash(pid) => pid < |w.calls| ==> Holding(w.calls[pid]).None?
    case Advance(pid, o) => pid < |w.calls| ==> StepLosesNothing(w, w.calls[pid], o)
    case _ => true
  }

  predicate LossFree(es: seq<Event>) {
    forall k :: 0 <= k < |es| ==> LosesNothing(Run(es[..k]), es[k])
  }

  lemma LossFreeStep(w: World, e: Event)
    requires LosesNothing(w, e)
    ensures Next(w, e).lost == w.lost
  {}

  lemma {:induction false} LossFreeRunLosesNothing(es: seq<Event>)
    requires LossFree(es)
    ensures Run(es).lost == {}
  {
    if es == [] {
    } else {
      var most, last := es[..|es| - 1], es[|es| - 1];
      assert LosesNothing(Run(most), last);
      assert Run(es) == Next(Run(most), last);
      hide Run, Next, LosesNothing;
      forall k | 0 <= k < |most| ensures LosesNothing(Run(most[..k]), most[k]) {
        assert most[..k] == es[..k] && most[k] == es[k];
        assert LosesNothing(Run(es[..k]), es[k]);
      }
      LossFreeRunLosesNothing(most);
      LossFreeStep(Run(most), last);
    }
  }

  predicate Quiet(w: World) {
    forall k :: 0 <= k < |w.calls| ==> Holding(w.calls[k]).None?
  }

  /**
   * Crashes and failing deletes included: without those losses, and with no call at work on an
   * object, each object is the path of exactly one live row, and every announced file has its object.
   */
  lemma BucketMatchesTable(es: seq<Event>, p: string)
    requires GoodEvents(es) && LossFree(es) && Quiet(Run(es))
    ensures p in Run(es).objects ==> exists id :: NamesAlone(Run(es), id, p)
    ensures forall id :: id in Run(es).rows && Announced(Run(es).rows[id].status) && !Run(es).rows[id].kind.URL? ==>
      Run(es).rows[id].path in Run(es).objects
  {
    RunInv(es);
    LossFreeRunLosesNothing(es);
    var w := Run(es);
    forall id | id in w.rows && Announced(w.rows[id].status) && !w.rows[id].kind.URL? ensures w.rows[id].path in w.objects {
      assert RowOk(w, id);
    }
    if p in w.objects {
      assert Accounted(w, p) && NamesSource(w, p);
      var id :| id in w.rows && w.rows[id].path == p;
      OnlyOneNames(w, id, p);
    }
  }
}
