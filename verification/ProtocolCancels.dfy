/** Which announced jobs a run cancels, and which of them no continuation can cancel any more. */
module ProtocolCancels {
  import opened Options
  import opened SourceTable
  import opened ObjectNames
  import opened SourceProtocol
  import opened ProtocolInvariant
  import opened ProtocolSteps
  import opened ProtocolTheorems

  // ---- what delete `pid` has done so far -------------------------------------------

  /** Call `pid` is a delete, and this event is the success of its next external call. */
  predicate DeleteSucceeds(w: World, e: Event, pid: nat) {
    e == Advance(pid, Success) && pid < |w.calls| && w.calls[pid].Delete?
  }

  function FoundBy(w: World, pid: nat): Option<Row>
    requires pid < |w.calls| && w.calls[pid].Delete?
  {
    Find(w.rows, w.calls[pid].id, w.calls[pid].project, w.calls[pid].owner)
  }

  /** The row this event reads for delete `pid`. */
  function Reads(w: World, e: Event, pid: nat): Option<Row> {
    if DeleteSucceeds(w, e, pid) && w.calls[pid].dp.DFind? then FoundBy(w, pid) else None
  }

  /** This event removes a row for delete `pid`. */
  predicate Removes(w: World, e: Event, pid: nat) {
    DeleteSucceeds(w, e, pid) && w.calls[pid].dp.DRow? && FoundBy(w, pid).Some?
  }

  /** The broker takes the cancel message of delete `pid`. */
  predicate Publishes(w: World, e: Event, pid: nat) {
    DeleteSucceeds(w, e, pid) && w.calls[pid].dp.DCancel?
  }

  function RowRead(es: seq<Event>, pid: nat): Option<Row> {
    if es == [] then None
    else
      var found := Reads(Run(es[..|es| - 1]), es[|es| - 1], pid);
      if found.Some? then found else RowRead(es[..|es| - 1], pid)
  }

  predicate RowRemoved(es: seq<Event>, pid: nat) {
    es != [] && (RowRemoved(es[..|es| - 1], pid) || Removes(Run(es[..|es| - 1]), es[|es| - 1], pid))
  }

  predicate CancelPublished(es: seq<Event>, pid: nat) {
    es != [] && (CancelPublished(es[..|es| - 1], pid) || Publishes(Run(es[..|es| - 1]), es[|es| - 1], pid))
  }

  /** The message a delete owes for a row it read. */
  predicate Owes(read: Option<Row>, m: CancelJob) {
    && read.Some? && read.value.status.Pending?
    && read.value.job == Some(m.job) && read.value.owner == m.owner && read.value.id == m.source
  }

  /** Delete `pid` read a pending row with this job, removed it, and got its publish through. */
  predicate CancelledBy(es: seq<Event>, pid: nat, m: CancelJob) {
    Owes(RowRead(es, pid), m) && RowRemoved(es, pid) && CancelPublished(es, pid)
  }

  /** The next event completes that. */
  predicate CancelsNow(es: seq<Event>, e: Event, pid: nat, m: CancelJob) {
    Publishes(Run(es), e, pid) && Owes(RowRead(es, pid), m)
  }

  // ---- a cancel message for exactly those -------------------------------------------

  /** Where delete `pid` stands, given what it has read, removed and published. */
  predicate Stands(w: World, pid: nat, read: Option<Row>, removed: bool, published: bool) {
    if pid >= |w.calls| || !w.calls[pid].Delete? then read.None? && !removed && !published
    else
      var dp := w.calls[pid].dp;
      && (dp.DAccess? || dp.DFind? ==> read.None? && !removed && !published)
      && (dp.DRow? ==> read == Some(dp.src) && !removed && !published)
      && (dp.DCancel? ==> read == Some(dp.src) && removed && !published && NeedsCancel(dp.src))
      && (published ==> read.Some? && removed && NeedsCancel(read.value))
  }

  /** One step moves one call, and a delete stays a delete. */
  lemma StepMovesOne(w: World, pid: nat, o: Outcome)
    requires pid < |w.calls|
    ensures var v := Step(w, pid, o);
      |v.calls| == |w.calls| && v.calls == w.calls[pid := v.calls[pid]] && (v.calls[pid].Delete? <==> w.calls[pid].Delete?)
  {
    hide UploadName, IdsOf;
    match w.calls[pid]
    case Upload(_, _) =>
    case Retry(_, _, _, _) =>
    case Delete(_, _, _, _) =>
  }

  lemma StepIsDelete(w: World, pid: nat, o: Outcome)
    requires pid < |w.calls| && w.calls[pid].Delete?
    ensures Step(w, pid, o) == StepDelete(w, pid, w.calls[pid], o)
  {}

  lemma DeleteStands(w: World, pid: nat, o: Outcome, read: Option<Row>, removed: bool, published: bool)
    requires pid < |w.calls| && w.calls[pid].Delete? && Stands(w, pid, read, removed, published)
    ensures var e := Advance(pid, o); var found := Reads(w, e, pid);
      Stands(StepDelete(w, pid, w.calls[pid], o), pid, if found.Some? then found else read,
             removed || Removes(w, e, pid), published || Publishes(w, e, pid))
  {}

  lemma StandsStep(w: World, e: Event, pid: nat, read: Option<Row>, removed: bool, published: bool)
    requires Stands(w, pid, read, removed, published)
    ensures var found := Reads(w, e, pid);
      Stands(Next(w, e), pid, if found.Some? then found else read,
             removed || Removes(w, e, pid), published || Publishes(w, e, pid))
  {
    hide Step;
    if e.Advance? && e.pid < |w.calls| {
      StepMovesOne(w, e.pid, e.outcome);
      if e.pid == pid && w.calls[pid].Delete? {
        DeleteStands(w, pid, e.outcome, read, removed, published);
        assert Step(w, pid, e.outcome) == StepDelete(w, pid, w.calls[pid], e.outcome) by { StepIsDelete(w, pid, e.outcome); }
      }
    }
  }

  lemma {:induction false} RunStands(es: seq<Event>, pid: nat)
    ensures Stands(Run(es), pid, RowRead(es, pid), RowRemoved(es, pid), CancelPublished(es, pid))
  {
    if es == [] {
    } else {
      RunStands(es[..|es| - 1], pid);
      StandsStep(Run(es[..|es| - 1]), es[|es| - 1], pid,
                 RowRead(es[..|es| - 1], pid), RowRemoved(es[..|es| - 1], pid), CancelPublished(es[..|es| - 1], pid));
    }
  }

  /** The only event that adds to the cancel topic, and what it adds. */
  lemma CancelsGrow(w: World, e: Event)
    ensures var v := Next(w, e);
      if e.Advance? && Publishes(w, e, e.pid) && w.calls[e.pid].dp.src.job.Some?
      then
        var c := w.calls[e.pid];
        v.cancels == w.cancels + [CancelJob(c.dp.src.job.value, c.owner, c.dp.src.id)]
      else v.cancels == w.cancels
  {
    hide UploadName, IdsOf;
  }

  /** What delete `pid` has read, removed and published stays so. */
  lemma CancelledByOneMore(es: seq<Event>, pid: nat, m: CancelJob)
    requires es != []
    ensures CancelledBy(es, pid, m)
      <==> CancelledBy(es[..|es| - 1], pid, m) || CancelsNow(es[..|es| - 1], es[|es| - 1], pid, m)
  {
    RunStands(es[..|es| - 1], pid);
  }

  lemma CancelAdded(es: seq<Event>, e: Event, m: CancelJob)
    requires GoodEvents(es)
    ensures m in Next(Run(es), e).cancels <==> m in Run(es).cancels || exists pid: nat :: CancelsNow(es, e, pid, m)
  {
    var w := Run(es);
    RunInv(es);
    CancelsGrow(w, e);
    if e.Advance? && Publishes(w, e, e.pid) {
      RunStands(es, e.pid);
      assert CallOk(w, w.calls[e.pid]);
      hide Run, Next, Inv, RowRead;
      var c := w.calls[e.pid];
      assert CancelsNow(es, e, e.pid, m) <==> m == CancelJob(c.dp.src.job.value, c.owner, c.dp.src.id);
    }
  }

  /**
   * In every run there is a cancel message for a job if and only if some delete read its row
   * as pending with just this job, removed the row, and got the message through.
   */
  lemma {:induction false} CancelsExactlyWhatWasReadPending(es: seq<Event>, m: CancelJob)
    requires GoodEvents(es)
    ensures m in Run(es).cancels <==> exists pid: nat :: CancelledBy(es, pid, m)
  {
    if es == [] {
    } else {
      var most, last := es[..|es| - 1], es[|es| - 1];
      CancelsExactlyWhatWasReadPending(most, m);
      CancelAdded(most, last, m);
      assert Run(es) == Next(Run(most), last);
      forall pid: nat ensures CancelledBy(es, pid, m) <==> CancelledBy(most, pid, m) || CancelsNow(most, last, pid, m) {
        CancelledByOneMore(es, pid, m);
      }
    }
  }

  // ---- what can still be cancelled -----------------------------------------------------

  predicate Cancelled(w: World, job: JobId) {
    exists k :: 0 <= k < |w.cancels| && w.cancels[k].job == job
  }

  /** A call that can still bring this job to the cancel topic, or to a live row. */
  predicate Carries(w: World, c: Call, job: JobId) {
    match c
    case Upload(_, UPending(id, j)) => j == job && id in w.rows
    case Retry(_, _, _, RMark(src, j)) => j == job && src.id in w.rows
    case Delete(id, project, owner, DRow(src)) => src.job == Some(job) && Find(w.rows, id, project, owner).Some?
    case Delete(_, _, _, DCancel(src)) => src.job == Some(job)
    case _ => false
  }

  predicate InRow(w: World, job: JobId) {
    exists id :: id in w.rows && w.rows[id].job == Some(job)
  }

  /** A live row or a call at work still knows the job. */
  predicate Cancellable(w: World, job: JobId) {
    InRow(w, job) || exists k :: 0 <= k < |w.calls| && Carries(w, w.calls[k], job)
  }

  /** A row that is not found once is not found later, and a row that is gone stays gone. */
  lemma CarriesNotLater(w: World, v: World, c: Call, job: JobId)
    requires CallOk(w, c) && w.nextId <= v.nextId
    requires forall id :: id in v.rows && id < w.nextId ==> id in w.rows && SameIdentity(w.rows[id], v.rows[id])
    ensures Carries(v, c, job) ==> Carries(w, c, job)
  {
    hide NameOf, SecondComponent;
  }

  lemma UploadCarriesNothing(w: World, pid: nat, req: Request, pc: UploadPc, o: Outcome, job: JobId)
    requires pid < |w.calls| && w.calls[pid] == Upload(req, pc) && job < w.nextJob && !InRow(w, job) && !Carries(w, w.calls[pid], job)
    ensures var v := StepUpload(w, pid, req, pc, o);
      job < v.nextJob && !InRow(v, job) && v.calls == w.calls[pid := v.calls[pid]] && !Carries(v, v.calls[pid], job)
  {
    hide UploadName, IdsOf;
    assert forall id :: id in w.rows ==> w.rows[id].job != Some(job);
  }

  lemma RetryCarriesNothing(w: World, pid: nat, c: Call, o: Outcome, job: JobId)
    requires pid < |w.calls| && w.calls[pid] == c && c.Retry? && job < w.nextJob && !InRow(w, job) && !Carries(w, c, job)
    ensures var v := StepRetry(w, pid, c, o);
      job < v.nextJob && !InRow(v, job) && v.calls == w.calls[pid := v.calls[pid]] && !Carries(v, v.calls[pid], job)
  {
    hide UploadName, IdsOf;
    assert forall id :: id in w.rows ==> w.rows[id].job != Some(job);
  }

  lemma DeleteCarriesNothing(w: World, pid: nat, c: Call, o: Outcome, job: JobId)
    requires pid < |w.calls| && w.calls[pid] == c && c.Delete? && job < w.nextJob && !InRow(w, job) && !Carries(w, c, job)
    ensures var v := StepDelete(w, pid, c, o);
      job < v.nextJob && !InRow(v, job) && v.calls == w.calls[pid := v.calls[pid]] && !Carries(v, v.calls[pid], job)
  {
    hide UploadName, IdsOf;
    assert forall id :: id in w.rows ==> w.rows[id].job != Some(job);
  }

  /** The call that moves on does not take up, or write to a row, an old job no row and no call knew. */
  lemma MovedCarriesNothing(w: World, pid: nat, o: Outcome, job: JobId)
    requires pid < |w.calls| && job < w.nextJob && !InRow(w, job) && !Carries(w, w.calls[pid], job)
    ensures var v := Step(w, pid, o);
      job < v.nextJob && !InRow(v, job) && v.calls == w.calls[pid := v.calls[pid]] && !Carries(v, v.calls[pid], job)
  {
    match w.calls[pid]
    case Upload(req, pc) => UploadCarriesNothing(w, pid, req, pc, o, job);
    case Retry(_, _, _, _) => RetryCarriesNothing(w, pid, w.calls[pid], o, job);
    case Delete(_, _, _, _) => DeleteCarriesNothing(w, pid, w.calls[pid], o, job);
  }

  lemma Survivors(w: World, e: Event)
    requires Inv(w)
    ensures w.nextId <= Next(w, e).nextId
    ensures forall id :: id in Next(w, e).rows && id < w.nextId ==> id in w.rows && SameIdentity(w.rows[id], Next(w, e).rows[id])
  {
    hide Next, Inv;
    StepForward(w, e, 0);
    forall id | id in Next(w, e).rows && id < w.nextId
      ensures id in w.rows && SameIdentity(w.rows[id], Next(w, e).rows[id])
    {
      StepForward(w, e, id);
    }
  }

  lemma OthersCarryNothing(w: World, e: Event, k: nat, job: JobId)
    requires Inv(w) && k < |w.calls| && !Carries(w, w.calls[k], job)
    ensures !Carries(Next(w, e), w.calls[k], job)
  {
    assert CallOk(w, w.calls[k]);
    hide Next, Inv, Carries;
    Survivors(w, e);
    CarriesNotLater(w, Next(w, e), w.calls[k], job);
  }

  lemma NotCancellableAgain(w: World, e: Event, job: JobId)
    requires Inv(w) && job < w.nextJob && !Cancellable(w, job)
    ensures !Cancellable(Next(w, e), job) && job < Next(w, e).nextJob
  {
    hide Step, Inv;
    var v := Next(w, e);
    if e.Advance? && e.pid < |w.calls| {
      MovedCarriesNothing(w, e.pid, e.outcome, job);
    } else {
      assert v.rows == w.rows && v.nextJob == w.nextJob;
      assert forall id :: id in v.rows ==> w.rows[id].job != Some(job);
    }
    forall k | 0 <= k < |v.calls| ensures !Carries(v, v.calls[k], job) {
      if k < |w.calls| && v.calls[k] == w.calls[k] {
        OthersCarryNothing(w, e, k, job);
      }
    }
  }

  lemma NotCancelledNow(w: World, e: Event, job: JobId)
    requires !Cancellable(w, job) && Cancelled(Next(w, e), job)
    ensures Cancelled(w, job)
  {
    var v := Next(w, e);
    CancelsGrow(w, e);
    hide Next;
    var k :| 0 <= k < |v.cancels| && v.cancels[k].job == job;
    assert e.Advance? && Publishes(w, e, e.pid) ==> !Carries(w, w.calls[e.pid], job);
    assert w.cancels[k].job == job;
  }

  // ---- and how -----------------------------------------------------------------------------

  lemma GoodSnoc(es: seq<Event>, e: Event)
    requires GoodEvents(es) && GoodEvent(e)
    ensures GoodEvents(es + [e]) && Run(es + [e]) == Next(Run(es), e)
  {
    RunSnoc(es, e);
  }

  lemma Prepend(es: seq<Event>, e: Event, rest: seq<Event>)
    ensures es + ([e] + rest) == (es + [e]) + rest
  {}

  predicate AboutToCancel(w: World, pid: nat, job: JobId) {
    pid < |w.calls| && w.calls[pid].Delete? && w.calls[pid].dp.DCancel? && w.calls[pid].dp.src.job == Some(job)
  }

  /** A call that is about to publish the cancel does so. */
  lemma PublishNow(es: seq<Event>, pid: nat, job: JobId) returns (more: seq<Event>)
    requires GoodEvents(es) && AboutToCancel(Run(es), pid, job)
    ensures GoodEvents(es + more) && Cancelled(Run(es + more), job)
  {
    hide Run;
    more := [Advance(pid, Success)];
    GoodSnoc(es, Advance(pid, Success));
    var v := Run(es + more);
    assert v.cancels[|v.cancels| - 1].job == job;
  }

  predicate AboutToRemove(w: World, pid: nat, job: JobId) {
    && pid < |w.calls| && w.calls[pid].Delete? && w.calls[pid].dp.DRow? && w.calls[pid].dp.src.job == Some(job)
    && FoundBy(w, pid).Some?
  }

  /** Removing an active row leads to its cancel. */
  lemma RemoveLeadsToCancel(w: World, pid: nat, job: JobId)
    requires Inv(w) && AboutToRemove(w, pid, job)
    ensures AboutToCancel(Next(w, Advance(pid, Success)), pid, job)
  {
    assert CallOk(w, w.calls[pid]);
    assert NeedsCancel(w.calls[pid].dp.src);
    hide Inv, CallOk, LeavesObject;
  }

  lemma RemoveNow(es: seq<Event>, pid: nat, job: JobId) returns (more: seq<Event>)
    requires GoodEvents(es) && AboutToRemove(Run(es), pid, job)
    ensures GoodEvents(es + more) && Cancelled(Run(es + more), job)
  {
    RunInv(es);
    hide Run, Inv, Next, Cancelled, GoodEvents, AboutToRemove, AboutToCancel;
    var e := Advance(pid, Success);
    RemoveLeadsToCancel(Run(es), pid, job);
    GoodSnoc(es, e);
    var rest := PublishNow(es + [e], pid, job);
    more := [e] + rest;
    Prepend(es, e, rest);
  }

  /** A delete of a live row gets as far as removing it. */
  lemma DeleteLeadsToRemove(w: World, id: nat, job: JobId)
    requires Inv(w) && id in w.rows && w.rows[id].job == Some(job)
    ensures var row, pid := w.rows[id], |w.calls|;
      AboutToRemove(Next(Next(Next(w, StartDelete(id, row.project, row.owner)), Advance(pid, Success)), Advance(pid, Success)), pid, job)
    ensures SlashFree(w.rows[id].owner)
  {
    assert RowOk(w, id);
    hide Inv, RowOk;
  }

  /** A user deletes the source whose row knows the job. */
  lemma DeleteNow(es: seq<Event>, id: nat, job: JobId) returns (more: seq<Event>)
    requires GoodEvents(es) && id in Run(es).rows && Run(es).rows[id].job == Some(job)
    ensures GoodEvents(es + more) && Cancelled(Run(es + more), job)
  {
    RunInv(es);
    hide Run, Inv, Next, Cancelled, GoodEvents, AboutToRemove;
    var row, pid := Run(es).rows[id], |Run(es).calls|;
    DeleteLeadsToRemove(Run(es), id, job);
    var e1, e2 := StartDelete(id, row.project, row.owner), Advance(pid, Success);
    GoodSnoc(es, e1);
    GoodSnoc(es + [e1], e2);
    GoodSnoc(es + [e1] + [e2], e2);
    var rest := RemoveNow(es + [e1] + [e2] + [e2], pid, job);
    more := [e1] + ([e2] + ([e2] + rest));
    Prepend(es + [e1] + [e2], e2, rest);
    Prepend(es + [e1], e2, [e2] + rest);
    Prepend(es, e1, [e2] + ([e2] + rest));
  }

  /** A call that has announced the job marks the row with it. */
  lemma MarkNow(es: seq<Event>, pid: nat, id: nat, job: JobId) returns (more: seq<Event>)
    requires GoodEvents(es) && pid < |Run(es).calls| && id in Run(es).rows
    requires var c := Run(es).calls[pid];
      (c.Upload? && c.up == UPending(id, job)) || (c.Retry? && c.rp.RMark? && c.rp.src.id == id && c.rp.job == job)
    ensures GoodEvents(es + more) && Cancelled(Run(es + more), job)
  {
    hide Run;
    var e := Advance(pid, Success);
    GoodSnoc(es, e);
    var rest := DeleteNow(es + [e], id, job);
    more := [e] + rest;
    Prepend(es, e, rest);
  }

  lemma CancelNow(es: seq<Event>, job: JobId) returns (more: seq<Event>)
    requires GoodEvents(es) && Cancellable(Run(es), job)
    ensures GoodEvents(es + more) && Cancelled(Run(es + more), job)
  {
    hide Run;
    var w := Run(es);
    if id :| id in w.rows && w.rows[id].job == Some(job) {
      more := DeleteNow(es, id, job);
    } else {
      var k: nat :| 0 <= k < |w.calls| && Carries(w, w.calls[k], job);
      match w.calls[k]
      case Upload(_, UPending(id, _)) => more := MarkNow(es, k, id, job);
      case Retry(_, _, _, RMark(src, _)) => more := MarkNow(es, k, src.id, job);
      case Delete(_, _, _, DRow(_)) => more := RemoveNow(es, k, job);
      case Delete(_, _, _, DCancel(_)) => more := PublishNow(es, k, job);
    }
  }

  lemma {:induction false} NeverCancelled(es: seq<Event>, more: seq<Event>, job: JobId)
    requires GoodEvents(es + more) && job < Run(es).nextJob && !Cancellable(Run(es), job)
    ensures !Cancellable(Run(es + more), job) && job < Run(es + more).nextJob
    ensures Cancelled(Run(es + more), job) ==> Cancelled(Run(es), job)
  {
    if more == [] {
      assert es + more == es;
    } else {
      var all := es + more;
      var most := more[..|more| - 1];
      assert all[..|all| - 1] == es + most;
      NeverCancelled(es, most, job);
      RunInv(es + most);
      assert Run(all) == Next(Run(es + most), all[|all| - 1]);
      hide Run, Next, Inv, Cancellable, Cancelled;
      NotCancellableAgain(Run(es + most), all[|all| - 1], job);
      if Cancelled(Run(all), job) { NotCancelledNow(Run(es + most), all[|all| - 1], job); }
    }
  }

  predicate LeadsToCancel(es: seq<Event>, more: seq<Event>, job: JobId) {
    GoodEvents(es + more) && Cancelled(Run(es + more), job)
  }

  /**
   * A job that was drawn and is not cancelled yet can still be cancelled, by whatever may happen
   * next, if and only if a live row or a call at work still knows it.
   */
  lemma CancelledLaterExactly(es: seq<Event>, job: JobId)
    requires GoodEvents(es) && job < Run(es).nextJob && !Cancelled(Run(es), job)
    ensures Cancellable(Run(es), job) <==> exists more :: LeadsToCancel(es, more, job)
  {
    hide Run;
    if Cancellable(Run(es), job) {
      var more := CancelNow(es, job);
      assert LeadsToCancel(es, more, job);
    } else {
      forall more | GoodEvents(es + more) ensures !LeadsToCancel(es, more, job) {
        NeverCancelled(es, more, job);
      }
    }
  }

  // ---- sources that are gone -----------------------------------------------------------

  /** Every job id is announced at most once. */
  ghost predicate JobsInOrder(w: World) {
    && (forall i, j :: 0 <= i < j < |w.chunking| ==> w.chunking[i].job < w.chunking[j].job)
    && (forall i :: 0 <= i < |w.chunking| ==> w.chunking[i].job < w.nextJob)
  }

  lemma JobsStayInOrder(w: World, e: Event)
    requires JobsInOrder(w)
    ensures JobsInOrder(Next(w, e))
  {
    hide UploadName, IdsOf;
  }

  lemma {:induction false} RunJobsInOrder(es: seq<Event>)
    ensures JobsInOrder(Run(es))
  {
    if es == [] {
    } else {
      RunJobsInOrder(es[..|es| - 1]);
      JobsStayInOrder(Run(es[..|es| - 1]), es[|es| - 1]);
    }
  }

  predicate AtRest(c: Call) {
    match c
    case Upload(_, pc) => pc.UDone? || pc.UCrashed?
    case Retry(_, _, _, pc) => pc.RDone? || pc.RCrashed?
    case Delete(_, _, _, pc) => pc.DDone? || pc.DCrashed?
  }

  /**
   * A job that was announced for a source that is gone, with no call at work: it is cancelled
   * by now exactly if the delete had read the row as pending with this job and got through
   * to the broker, and if it is not, then no continuation ever cancels it.
   */
  lemma JobsOfDeletedSources(es: seq<Event>, m: CreateJob)
    requires GoodEvents(es) && m in Run(es).chunking && m.source !in Run(es).rows
    requires forall k :: 0 <= k < |Run(es).calls| ==> AtRest(Run(es).calls[k])
    ensures CancelJob(m.job, m.owner, m.source) in Run(es).cancels
      <==> exists pid: nat :: CancelledBy(es, pid, CancelJob(m.job, m.owner, m.source))
    ensures !Cancelled(Run(es), m.job) ==> forall more :: !LeadsToCancel(es, more, m.job)
  {
    CancelsExactlyWhatWasReadPending(es, CancelJob(m.job, m.owner, m.source));
    RunInv(es);
    RunJobsInOrder(es);
    hide Run, NameOf, SecondComponent;
    var w := Run(es);
    forall id | id in w.rows ensures w.rows[id].job != Some(m.job) {
      assert RowOk(w, id);
    }
    forall k | 0 <= k < |w.calls| ensures !Carries(w, w.calls[k], m.job) {
      assert AtRest(w.calls[k]);
    }
    if !Cancelled(w, m.job) {
      CancelledLaterExactly(es, m.job);
    }
  }
}
