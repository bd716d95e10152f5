/** What an answer says about the run that led to it, and who may take away or change a row. */
module ProtocolAnswers {
  import opened Options
  import opened ObjectNames
  import opened SourceTable
  import opened SourceProtocol
  import opened ProtocolInvariant
  import opened ProtocolSteps
  import opened ProtocolCancels

  // ---- calls keep what they were asked ---------------------------------------------------

  predicate SameRequest(c: Call, d: Call) {
    match c
    case Upload(req, _) => d.Upload? && d.req == req
    case Retry(id, project, owner, _) => d.Retry? && d.id == id && d.project == project && d.owner == owner
    case Delete(id, project, owner, _) => d.Delete? && d.id == id && d.project == project && d.owner == owner
  }

  /** A call in the state it was started in. */
  predicate AtAccess(c: Call) {
    match c
    case Upload(_, pc) => pc == UAccess
    case Retry(_, _, _, pc) => pc == RAccess
    case Delete(_, _, _, pc) => pc == DAccess
  }

  /** The call has got, or is getting, more than a refusal. */
  predicate BeyondAccess(c: Call) {
    match c
    case Upload(_, pc) => !pc.UAccess? && !pc.UCrashed? && !(pc.UDone? && pc.reply.Refused?)
    case Retry(_, _, _, pc) => !pc.RAccess? && !pc.RCrashed? && !(pc.RDone? && pc.reply.Refused?)
    case Delete(_, _, _, pc) => !pc.DAccess? && !pc.DCrashed? && !(pc.DDone? && pc.reply.Refused?)
  }

  function ReplyOf(c: Call): Option<Reply> {
    match c
    case Upload(_, pc) => if pc.UDone? then Some(pc.reply) else None
    case Retry(_, _, _, pc) => if pc.RDone? then Some(pc.reply) else None
    case Delete(_, _, _, pc) => if pc.DDone? then Some(pc.reply) else None
  }

  /** Why call `c`, moved on with outcome `o` in state `w`, is refused with this error. */
  ghost predicate Reason(w: World, c: Call, o: Outcome, error: Error) {
    match error
    case PermissionDenied => AtAccess(c) && o.Denied?
    case NotFound =>
      && o.Success? && (c.Retry? || c.Delete?)
      && (c.id !in w.rows || w.rows[c.id].project != c.project || w.rows[c.id].owner != c.owner)
    case InvalidArgument =>
      && o.Success? && c.Retry? && c.id in w.rows && w.rows[c.id].project == c.project && w.rows[c.id].owner == c.owner
      && w.rows[c.id].status != Uploaded && w.rows[c.id].status != Failed
    case LimitExceeded =>
      && o.Success? && c.Upload?
      && |set id | id in w.rows && w.rows[id].project == c.req.project && w.rows[id].owner == c.req.owner| >= 20
    case Database => !o.Success? && (c.Retry? || c.Delete?)
    case Unavailable => !o.Success? || (c.Upload? && c.up.UUndoRow?)
  }

  /** What one step makes of the call it moves, given the state and the outcome. */
  ghost predicate Moves(w: World, pid: nat, o: Outcome, v: World)
    requires pid < |w.calls|
  {
    && |v.calls| == |w.calls| && v.calls == w.calls[pid := v.calls[pid]]
    && SameRequest(w.calls[pid], v.calls[pid])
    && (AtRest(w.calls[pid]) ==> v.calls[pid] == w.calls[pid])
    && (BeyondAccess(v.calls[pid]) ==> BeyondAccess(w.calls[pid]) || (o == Success && AtAccess(w.calls[pid])))
    && forall error :: ReplyOf(v.calls[pid]) == Some(Refused(error)) ==>
         ReplyOf(w.calls[pid]) == Some(Refused(error)) || Reason(w, w.calls[pid], o, error)
  }

  lemma UploadMoves(w: World, pid: nat, req: Request, pc: UploadPc, o: Outcome)
    requires pid < |w.calls| && w.calls[pid] == Upload(req, pc)
    ensures Moves(w, pid, o, StepUpload(w, pid, req, pc, o))
  {
    hide UploadName, SetStatus, SetPath, NewRow, UploadMessage;
    assert IdsOf(w.rows, req.project, req.owner)
        == set id | id in w.rows && w.rows[id].project == req.project && w.rows[id].owner == req.owner;
  }

  lemma RetryMoves(w: World, pid: nat, c: Call, o: Outcome)
    requires pid < |w.calls| && w.calls[pid] == c && c.Retry?
    ensures Moves(w, pid, o, StepRetry(w, pid, c, o))
  {
    hide SetStatus, RowMessage;
  }

  lemma DeleteMoves(w: World, pid: nat, c: Call, o: Outcome)
    requires pid < |w.calls| && w.calls[pid] == c && c.Delete?
    ensures Moves(w, pid, o, StepDelete(w, pid, c, o))
  {
    hide NameOf, LeavesObject, Remove;
  }

  lemma StepMoves(w: World, pid: nat, o: Outcome)
    requires pid < |w.calls|
    ensures Moves(w, pid, o, Step(w, pid, o))
  {
    hide Moves, StepUpload, StepRetry, StepDelete;
    match w.calls[pid]
    case Upload(req, pc) => UploadMoves(w, pid, req, pc, o);
    case Retry(_, _, _, _) => RetryMoves(w, pid, w.calls[pid], o);
    case Delete(_, _, _, _) => DeleteMoves(w, pid, w.calls[pid], o);
  }

  /** Every event leaves the calls as they are but the one it moves, and a call at rest for good. */
  lemma EventsMoveOne(w: World, e: Event, pid: nat)
    requires pid < |w.calls|
    ensures pid < |Next(w, e).calls| && SameRequest(w.calls[pid], Next(w, e).calls[pid])
    ensures AtRest(w.calls[pid]) ==> Next(w, e).calls[pid] == w.calls[pid]
    ensures !(e.Advance? && e.pid == pid) && !(e.Crash? && e.pid == pid) ==> Next(w, e).calls[pid] == w.calls[pid]
    ensures e.Crash? && e.pid == pid ==> AtRest(Next(w, e).calls[pid])
  {
    hide Step, Reason, BeyondAccess, ReplyOf;
    if e.Advance? && e.pid < |w.calls| {
      StepMoves(w, e.pid, e.outcome);
    }
  }

  /** Whatever happens later, a call stays the one that was asked for. */
  lemma {:induction false} CallsStay(es: seq<Event>, more: seq<Event>, pid: nat)
    requires pid < |Run(es).calls|
    ensures pid < |Run(es + more).calls| && SameRequest(Run(es).calls[pid], Run(es + more).calls[pid])
    ensures AtRest(Run(es).calls[pid]) ==> Run(es + more).calls[pid] == Run(es).calls[pid]
  {
    if more == [] {
      assert es + more == es;
    } else {
      var most := more[..|more| - 1];
      CallsStay(es, most, pid);
      assert (es + more)[..|es + more| - 1] == es + most;
      assert Run(es + more) == Next(Run(es + most), more[|more| - 1]);
      hide Run, Next, AtRest;
      EventsMoveOne(Run(es + most), more[|more| - 1], pid);
    }
  }

  /** A started call has the arguments of its start, now and later. */
  lemma StartedAsAsked(es: seq<Event>, e: Event, more: seq<Event>)
    ensures var pid, calls := |Run(es).calls|, Run(es + [e] + more).calls;
      match e
      case StartUpload(req) => pid < |calls| && calls[pid].Upload? && calls[pid].req == req
      case StartRetry(id, project, owner) =>
        pid < |calls| && calls[pid].Retry? && calls[pid].id == id && calls[pid].project == project && calls[pid].owner == owner
      case StartDelete(id, project, owner) =>
        pid < |calls| && calls[pid].Delete? && calls[pid].id == id && calls[pid].project == project && calls[pid].owner == owner
      case _ => true
  {
    RunSnoc(es, e);
    if e.StartUpload? || e.StartRetry? || e.StartDelete? {
      CallsStay(es + [e], more, |Run(es).calls|);
    }
  }

  // ---- access ---------------------------------------------------------------------------------

  /** Event k of the run is the outcome of the access check of call `pid`. */
  predicate AccessAnswer(es: seq<Event>, k: nat, pid: nat, o: Outcome) {
    && k < |es| && es[k] == Advance(pid, o)
    && pid < |Run(es[..k]).calls| && AtAccess(Run(es[..k]).calls[pid])
  }

  lemma AccessStep(w: World, e: Event, pid: nat)
    requires pid < |Next(w, e).calls| && BeyondAccess(Next(w, e).calls[pid])
    ensures pid < |w.calls|
    ensures BeyondAccess(w.calls[pid]) || (e == Advance(pid, Success) && AtAccess(w.calls[pid]))
  {
    hide Step, Reason, ReplyOf;
    if e.Advance? && e.pid < |w.calls| {
      StepMoves(w, e.pid, e.outcome);
    }
  }

  /** Nothing is done for a call unless its access check has answered yes. */
  lemma {:induction false} AccessWasGranted(es: seq<Event>, pid: nat) returns (k: nat)
    requires pid < |Run(es).calls| && BeyondAccess(Run(es).calls[pid])
    ensures AccessAnswer(es, k, pid, Success)
  {
    var most, last := es[..|es| - 1], es[|es| - 1];
    AccessStep(Run(most), last, pid);
    if BeyondAccess(Run(most).calls[pid]) {
      k := AccessWasGranted(most, pid);
      assert es[..k] == most[..k];
    } else {
      k := |es| - 1;
    }
  }

  // ---- refusals ----------------------------------------------------------------------------------

  lemma RefusalStep(w: World, e: Event, pid: nat, error: Error)
    requires pid < |Next(w, e).calls| && ReplyOf(Next(w, e).calls[pid]) == Some(Refused(error))
    requires pid < |w.calls| ==> ReplyOf(w.calls[pid]) != Some(Refused(error))
    ensures pid < |w.calls| && e.Advance? && e.pid == pid && Reason(w, w.calls[pid], e.outcome, error)
  {
    hide Step, Reason, BeyondAccess;
    if e.Advance? && e.pid < |w.calls| {
      StepMoves(w, e.pid, e.outcome);
    }
  }

  /** Every refusal had its reason at the moment of the run it was given. */
  lemma {:induction false} RefusedMeans(es: seq<Event>, pid: nat, error: Error) returns (k: nat)
    requires pid < |Run(es).calls| && ReplyOf(Run(es).calls[pid]) == Some(Refused(error))
    ensures k < |es| && es[k].Advance? && es[k].pid == pid && pid < |Run(es[..k]).calls|
    ensures Reason(Run(es[..k]), Run(es[..k]).calls[pid], es[k].outcome, error)
  {
    var most, last := es[..|es| - 1], es[|es| - 1];
    if pid < |Run(most).calls| && ReplyOf(Run(most).calls[pid]) == Some(Refused(error)) {
      k := RefusedMeans(most, pid, error);
      assert es[..k] == most[..k];
    } else {
      RefusalStep(Run(most), last, pid, error);
      k := |es| - 1;
    }
  }

  // ---- who may take away or change a row ---------------------------------------------------------

  predicate ReadMatches(c: Call) {
    match c
    case Upload(_, _) => true
    case Retry(id, project, owner, pc) =>
      (pc.RPublish? || pc.RMark?) ==> pc.src.id == id && pc.src.project == project && pc.src.owner == owner
    case Delete(id, project, owner, pc) =>
      (pc.DRow? || pc.DCancel? || pc.DObject?) ==> pc.src.id == id && pc.src.project == project && pc.src.owner == owner
  }

  /** What a retry or a delete has read is a row of the source, project and owner it was asked for. */
  ghost predicate ReadsMatch(w: World) {
    forall k :: 0 <= k < |w.calls| ==> ReadMatches(w.calls[k])
  }

  lemma RetryReads(w: World, pid: nat, c: Call, o: Outcome)
    requires pid < |w.calls| && w.calls[pid] == c && c.Retry? && ReadMatches(c) && (c.id in w.rows ==> w.rows[c.id].id == c.id)
    ensures ReadMatches(StepRetry(w, pid, c, o).calls[pid])
  {}

  lemma DeleteReads(w: World, pid: nat, c: Call, o: Outcome)
    requires pid < |w.calls| && w.calls[pid] == c && c.Delete? && ReadMatches(c) && (c.id in w.rows ==> w.rows[c.id].id == c.id)
    ensures ReadMatches(StepDelete(w, pid, c, o).calls[pid])
  {}

  lemma ReadsMatchStep(w: World, e: Event)
    requires Inv(w) && ReadsMatch(w)
    ensures ReadsMatch(Next(w, e))
  {
    if e.Advance? && e.pid < |w.calls| {
      StepMoves(w, e.pid, e.outcome);
      var c := w.calls[e.pid];
      assert !c.Upload? && c.id in w.rows ==> RowOk(w, c.id);
      hide StepUpload, StepRetry, StepDelete, Inv, Reason, BeyondAccess, ReplyOf, RowOk;
      match c
      case Upload(_, _) =>
      case Retry(_, _, _, _) => RetryReads(w, e.pid, c, e.outcome);
      case Delete(_, _, _, _) => DeleteReads(w, e.pid, c, e.outcome);
    }
  }

  lemma {:induction false} RunReadsMatch(es: seq<Event>)
    requires GoodEvents(es)
    ensures ReadsMatch(Run(es))
  {
    if es == [] {
    } else {
      RunReadsMatch(es[..|es| - 1]);
      RunInv(es[..|es| - 1]);
      ReadsMatchStep(Run(es[..|es| - 1]), es[|es| - 1]);
    }
  }

  /** The call speaks for the row: it was made for its id, project and owner. */
  predicate SpeaksFor(c: Call, row: Row) {
    match c
    case Upload(req, _) => req.project == row.project && req.owner == row.owner
    case Retry(id, project, owner, _) => row.id == id && row.project == project && row.owner == owner
    case Delete(id, project, owner, _) => row.id == id && row.project == project && row.owner == owner
  }

  /** The one event that can take away row `id`. */
  predicate MayRemove(w: World, e: Event, id: nat)
    requires id in w.rows
  {
    && e.Advance? && e.outcome == Success && e.pid < |w.calls| && SpeaksFor(w.calls[e.pid], w.rows[id])
    && (w.calls[e.pid].Delete? || (w.calls[e.pid].Upload? && w.calls[e.pid].up == UUndoRow(id)))
  }

  /** The events that can change row `id`. */
  predicate MayChange(w: World, e: Event, id: nat)
    requires id in w.rows
  {
    && e.Advance? && e.outcome == Success && e.pid < |w.calls| && SpeaksFor(w.calls[e.pid], w.rows[id])
    && (w.calls[e.pid].Retry? || (w.calls[e.pid].Upload? && UploadId(w.calls[e.pid]) == Some(id)))
  }

  lemma UploadTouches(w: World, pid: nat, req: Request, pc: UploadPc, o: Outcome, id: nat)
    requires Inv(w) && pid < |w.calls| && w.calls[pid] == Upload(req, pc) && id in w.rows
    ensures var v := StepUpload(w, pid, req, pc, o);
      && (id !in v.rows ==> MayRemove(w, Advance(pid, o), id))
      && (id in v.rows && v.rows[id] != w.rows[id] ==> MayChange(w, Advance(pid, o), id))
  {
    assert CallOk(w, w.calls[pid]) && RowOk(w, id);
    hide Inv, RowOk, UploadName, IdsOf, UploadMessage;
  }

  lemma RetryTouches(w: World, pid: nat, c: Call, o: Outcome, id: nat)
    requires Inv(w) && ReadsMatch(w) && pid < |w.calls| && w.calls[pid] == c && c.Retry? && id in w.rows
    ensures var v := StepRetry(w, pid, c, o);
      id in v.rows && (v.rows[id] != w.rows[id] ==> MayChange(w, Advance(pid, o), id))
  {
    assert CallOk(w, c) && RowOk(w, id) && ReadMatches(c);
    hide Inv, RowOk, UploadName, IdsOf, UploadMessage;
  }

  lemma DeleteTouches(w: World, pid: nat, c: Call, o: Outcome, id: nat)
    requires Inv(w) && pid < |w.calls| && w.calls[pid] == c && c.Delete? && id in w.rows
    ensures var v := StepDelete(w, pid, c, o);
      if id in v.rows then v.rows[id] == w.rows[id] else MayRemove(w, Advance(pid, o), id)
  {
    assert RowOk(w, id);
    hide Inv, RowOk, UploadName, IdsOf, UploadMessage;
  }

  lemma OldId(w: World, id: nat)
    requires Inv(w) && id in w.rows
    ensures id < w.nextId
  {
    assert RowOk(w, id);
  }

  /**
   * In every run a row goes away only by a delete of its own id, project and owner, or by the
   * undo of the upload that made it, and changes only by that upload or by a retry of its own
   * id, project and owner.
   */
  lemma RowsAreTouchedByTheirOwn(es: seq<Event>, e: Event, id: nat)
    requires GoodEvents(es) && id in Run(es).rows
    ensures id !in Run(es + [e]).rows ==> MayRemove(Run(es), e, id)
    ensures id in Run(es + [e]).rows && Run(es + [e]).rows[id] != Run(es).rows[id] ==> MayChange(Run(es), e, id)
  {
    RunSnoc(es, e);
    RunInv(es);
    RunReadsMatch(es);
    hide Run, StepUpload, StepRetry, StepDelete, MayRemove, MayChange, Inv;
    var w := Run(es);
    assert id < w.nextId by { OldId(w, id); }
    if e.Advance? && e.pid < |w.calls| {
      match w.calls[e.pid]
      case Upload(req, pc) => UploadTouches(w, e.pid, req, pc, e.outcome, id);
      case Retry(_, _, _, _) => RetryTouches(w, e.pid, w.calls[e.pid], e.outcome, id);
      case Delete(_, _, _, _) => DeleteTouches(w, e.pid, w.calls[e.pid], e.outcome, id);
    }
  }

  // ---- good answers --------------------------------------------------------------------------------

  /** What a call that is well under way, or has answered well, has brought about. */
  ghost predicate Achieved(w: World, c: Call) {
    match c
    case Upload(_, _) => true
    case Retry(id, _, owner, pc) =>
      && (pc.RMark? ==> exists m :: m in w.chunking && m.job == pc.job && m.owner == owner && m.source == id)
      && (pc.RDone? && pc.reply.Retried? ==>
            exists m :: m in w.chunking && m.job == pc.reply.newJob && m.owner == owner && m.source == id)
      && (pc.RDone? ==> pc.reply.Retried? || pc.reply.Refused?)
    case Delete(id, _, _, pc) =>
      && (pc.DCancel? || pc.DObject? || (pc.DDone? && pc.reply.Deleted?) ==> id !in w.rows && id < w.nextId)
      && (pc.DDone? ==> pc.reply.Deleted? || pc.reply.Refused?)
  }

  /** A call keeps what it has achieved. */
  lemma AchievedStays(w: World, v: World, c: Call)
    requires Achieved(w, c) && w.nextId <= v.nextId
    requires forall m :: m in w.chunking ==> m in v.chunking
    requires forall id :: id < w.nextId && id !in w.rows ==> id !in v.rows
    ensures Achieved(v, c)
  {}

  lemma CrashedAchievesNothing(w: World, pid: nat)
    requires pid < |w.calls| && Achieved(w, w.calls[pid])
    ensures Achieved(Stop(w, pid), Stop(w, pid).calls[pid])
  {}

  lemma StartAchievesNothing(w: World, e: Event, pid: nat)
    requires |w.calls| <= pid < |Next(w, e).calls|
    ensures Achieved(Next(w, e), Next(w, e).calls[pid])
  {
    hide Step;
    if e.Advance? && e.pid < |w.calls| { StepMoves(w, e.pid, e.outcome); }
  }

  lemma MessagesStay(w: World, e: Event)
    ensures forall m :: m in w.chunking ==> m in Next(w, e).chunking
  {
    hide UploadName, IdsOf, SetStatus, SetPath, NewRow, UploadMessage;
  }

  lemma RetryAchieves(w: World, pid: nat, c: Call, o: Outcome)
    requires Inv(w) && pid < |w.calls| && w.calls[pid] == c && c.Retry? && Achieved(w, c)
    ensures Achieved(StepRetry(w, pid, c, o), StepRetry(w, pid, c, o).calls[pid])
  {
    assert CallOk(w, c);
    hide Inv, NameOf, SetStatus;
    if c.rp.RPublish? && o.Success? {
      var v := StepRetry(w, pid, c, o);
      assert v.chunking[|v.chunking| - 1].job == w.nextJob;
    }
  }

  lemma DeleteAchieves(w: World, pid: nat, c: Call, o: Outcome)
    requires Inv(w) && pid < |w.calls| && w.calls[pid] == c && c.Delete? && Achieved(w, c)
    ensures Achieved(StepDelete(w, pid, c, o), StepDelete(w, pid, c, o).calls[pid])
  {
    assert CallOk(w, c);
    assert c.dp.DRow? ==> c.id < w.nextId;
    hide Inv, CallOk, NameOf, LeavesObject;
  }

  lemma AchievedMove(w: World, pid: nat, o: Outcome)
    requires Inv(w) && pid < |w.calls| && Achieved(w, w.calls[pid])
    ensures Achieved(Step(w, pid, o), Step(w, pid, o).calls[pid])
  {
    hide Inv, StepUpload, StepRetry, StepDelete;
    match w.calls[pid]
    case Upload(req, pc) => UploadMoves(w, pid, req, pc, o);
    case Retry(_, _, _, _) => RetryAchieves(w, pid, w.calls[pid], o);
    case Delete(_, _, _, _) => DeleteAchieves(w, pid, w.calls[pid], o);
  }

  lemma AchievedStep(w: World, e: Event, pid: nat)
    requires Inv(w) && pid < |Next(w, e).calls| && (pid < |w.calls| ==> Achieved(w, w.calls[pid]))
    ensures Achieved(Next(w, e), Next(w, e).calls[pid])
  {
    hide Inv, Step, Achieved;
    if pid < |w.calls| {
      EventsMoveOne(w, e, pid);
      MessagesStay(w, e);
      Survivors(w, e);
      if Next(w, e).calls[pid] == w.calls[pid] {
        AchievedStays(w, Next(w, e), w.calls[pid]);
      } else if e.Advance? {
        AchievedMove(w, pid, e.outcome);
      } else {
        CrashedAchievesNothing(w, pid);
      }
    } else {
      StartAchievesNothing(w, e, pid);
    }
  }

  lemma {:induction false} AnswersAreAchieved(es: seq<Event>, pid: nat)
    requires GoodEvents(es) && pid < |Run(es).calls|
    ensures Achieved(Run(es), Run(es).calls[pid])
  {
    var most, last := es[..|es| - 1], es[|es| - 1];
    var w, v := Run(most), Run(es);
    RunInv(most);
    if pid < |w.calls| {
      AnswersAreAchieved(most, pid);
    }
    AchievedStep(w, last, pid);
  }

  /** A delete whose next step comes after the removal of its row. */
  predicate PastRow(c: Call) {
    c.Delete? && (c.dp.DCancel? || c.dp.DObject? || (c.dp.DDone? && c.dp.reply.Deleted?))
  }

  lemma DeletePastRow(w: World, pid: nat, o: Outcome)
    requires pid < |w.calls| && PastRow(Step(w, pid, o).calls[pid])
    ensures PastRow(w.calls[pid]) || Removes(w, Advance(pid, o), pid)
  {
    hide UploadName, IdsOf, SetStatus, SetPath, NewRow, UploadMessage, LeavesObject;
  }

  lemma PastRowStep(w: World, e: Event, pid: nat)
    requires pid < |Next(w, e).calls| && PastRow(Next(w, e).calls[pid])
    requires pid < |w.calls| && w.calls[pid].Delete? && w.calls[pid].dp.DDone? ==> w.calls[pid].dp.reply.Deleted? || w.calls[pid].dp.reply.Refused?
    ensures pid < |w.calls| && (PastRow(w.calls[pid]) || Removes(w, e, pid))
  {
    hide Step;
    if e.Advance? && e.pid < |w.calls| {
      StepMoves(w, e.pid, e.outcome);
      if e.pid == pid { DeletePastRow(w, pid, e.outcome); }
    }
  }

  /** The answer "deleted" is given only by the delete that removed the row, and the row stays away. */
  lemma {:induction false} DeletedMeans(es: seq<Event>, pid: nat)
    requires GoodEvents(es) && pid < |Run(es).calls| && PastRow(Run(es).calls[pid])
    ensures RowRemoved(es, pid) && Run(es).calls[pid].id !in Run(es).rows
  {
    var most, last := es[..|es| - 1], es[|es| - 1];
    AnswersAreAchieved(es, pid);
    if pid < |Run(most).calls| { AnswersAreAchieved(most, pid); }
    PastRowStep(Run(most), last, pid);
    if PastRow(Run(most).calls[pid]) {
      DeletedMeans(most, pid);
    }
  }

  /** The answer "retried" comes with a message for the source and owner that were asked for. */
  lemma RetriedMeans(es: seq<Event>, pid: nat)
    requires GoodEvents(es) && pid < |Run(es).calls| && Run(es).calls[pid].Retry?
    requires Run(es).calls[pid].rp.RDone? && Run(es).calls[pid].rp.reply.Retried?
    ensures var c := Run(es).calls[pid];
      exists m :: m in Run(es).chunking && m.job == c.rp.reply.newJob && m.owner == c.owner && m.source == c.id
  {
    AnswersAreAchieved(es, pid);
  }

  // ---- the call that decides -------------------------------------------------------------------------

  /** The external call after which the answer can only be a good one succeeds: the mark of an upload, the publish of a retry, the removal of a delete. */
  predicate Decides(w: World, e: Event, pid: nat) {
    && e == Advance(pid, Success) && pid < |w.calls|
    && match w.calls[pid]
       case Upload(_, pc) => pc.UMark?
       case Retry(_, _, _, pc) => pc.RPublish?
       case Delete(id, project, owner, pc) =>
         pc.DRow? && id in w.rows && w.rows[id].project == project && w.rows[id].owner == owner
  }

  predicate Decided(es: seq<Event>, pid: nat) {
    es != [] && (Decided(es[..|es| - 1], pid) || Decides(Run(es[..|es| - 1]), es[|es| - 1], pid))
  }

  predicate Crashed(c: Call) {
    match c
    case Upload(_, pc) => pc.UCrashed?
    case Retry(_, _, _, pc) => pc.RCrashed?
    case Delete(_, _, _, pc) => pc.DCrashed?
  }

  predicate PastDecision(c: Call) {
    match c
    case Upload(_, pc) => pc.UPublish? || pc.UPending? || (pc.UDone? && pc.reply.Accepted?)
    case Retry(_, _, _, pc) => pc.RMark? || (pc.RDone? && pc.reply.Retried?)
    case Delete(_, _, _, pc) => pc.DCancel? || pc.DObject? || (pc.DDone? && pc.reply.Deleted?)
  }

  /** Where call `pid` stands, given whether its deciding call has succeeded. */
  predicate StandsDecided(w: World, pid: nat, decided: bool) {
    if pid >= |w.calls| then !decided else Crashed(w.calls[pid]) || (PastDecision(w.calls[pid]) <==> decided)
  }

  lemma UploadDecides(w: World, pid: nat, req: Request, pc: UploadPc, o: Outcome)
    requires pid < |w.calls| && w.calls[pid] == Upload(req, pc)
    ensures var d := StepUpload(w, pid, req, pc, o).calls[pid];
      !Crashed(d) ==> !Crashed(w.calls[pid]) && (PastDecision(d) <==> PastDecision(w.calls[pid]) || Decides(w, Advance(pid, o), pid))
  {
    hide UploadName, SetStatus, SetPath, NewRow, UploadMessage, IdsOf;
  }

  lemma RetryDecides(w: World, pid: nat, c: Call, o: Outcome)
    requires pid < |w.calls| && w.calls[pid] == c && c.Retry?
    ensures var d := StepRetry(w, pid, c, o).calls[pid];
      !Crashed(d) ==> !Crashed(c) && (PastDecision(d) <==> PastDecision(c) || Decides(w, Advance(pid, o), pid))
  {
    hide SetStatus, RowMessage;
  }

  lemma DeleteDecides(w: World, pid: nat, c: Call, o: Outcome)
    requires pid < |w.calls| && w.calls[pid] == c && c.Delete?
    ensures var d := StepDelete(w, pid, c, o).calls[pid];
      !Crashed(d) ==> !Crashed(c) && (PastDecision(d) <==> PastDecision(c) || Decides(w, Advance(pid, o), pid))
  {
    hide NameOf, LeavesObject, Remove;
  }

  lemma StandsDecidedStep(w: World, e: Event, pid: nat, decided: bool)
    requires StandsDecided(w, pid, decided)
    ensures StandsDecided(Next(w, e), pid, decided || Decides(w, e, pid))
  {
    hide StepUpload, StepRetry, StepDelete, Reason, BeyondAccess, ReplyOf;
    if e.Advance? && e.pid < |w.calls| {
      StepMoves(w, e.pid, e.outcome);
      if e.pid == pid {
        match w.calls[pid]
        case Upload(req, pc) => UploadDecides(w, pid, req, pc, e.outcome);
        case Retry(_, _, _, _) => RetryDecides(w, pid, w.calls[pid], e.outcome);
        case Delete(_, _, _, _) => DeleteDecides(w, pid, w.calls[pid], e.outcome);
      }
    }
  }

  lemma {:induction false} RunStandsDecided(es: seq<Event>, pid: nat)
    ensures StandsDecided(Run(es), pid, Decided(es, pid))
  {
    if es == [] {
    } else {
      RunStandsDecided(es[..|es| - 1], pid);
      StandsDecidedStep(Run(es[..|es| - 1]), es[|es| - 1], pid, Decided(es[..|es| - 1], pid));
    }
  }

  /**
   * In every run an answer is a good one if and only if the deciding external call has succeeded:
   * what fails later, or has been taken away by others in the meantime, does not turn it into a refusal.
   */
  lemma AnsweredWellExactly(es: seq<Event>, pid: nat)
    requires pid < |Run(es).calls| && ReplyOf(Run(es).calls[pid]).Some?
    ensures match Run(es).calls[pid]
      case Upload(_, _) => ReplyOf(Run(es).calls[pid]).value.Accepted? <==> Decided(es, pid)
      case Retry(_, _, _, _) => ReplyOf(Run(es).calls[pid]).value.Retried? <==> Decided(es, pid)
      case Delete(_, _, _, _) => ReplyOf(Run(es).calls[pid]).value.Deleted? <==> Decided(es, pid)
  {
    RunStandsDecided(es, pid);
    hide Run, Decided;
  }
}
