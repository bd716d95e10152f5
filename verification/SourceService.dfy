/**
 * The service as it is written: methods over mutable state that make one external
 * call after the other, with deferred compensations. A single call is shown to be
 * a solo run of the interleaved system, and what it leaves behind is stated outright.
 */
module SourceService {
  import opened Options
  import opened ObjectNames
  import opened SourceTable
  import opened SourceProtocol
  import opened ProtocolInvariant
  import opened ProtocolSteps

  /** Call 0 alone, advanced n times with the outcomes the oracle deals. */
  function Drive(w: World, oracle: nat -> Outcome, from: nat, n: nat): World {
    if n == 0 then w else Next(Drive(w, oracle, from, n - 1), Advance(0, oracle(from + n - 1)))
  }

  lemma {:induction false} DriveInv(w: World, oracle: nat -> Outcome, from: nat, n: nat)
    requires Inv(w)
    ensures Inv(Drive(w, oracle, from, n))
  {
    if n == 0 {
    } else {
      DriveInv(w, oracle, from, n - 1);
      NextInv(Drive(w, oracle, from, n - 1), Advance(0, oracle(from + n - 1)));
    }
  }

  /** The state between two calls is good if it was good with the finished one still listed. */
  lemma FinishInv(w: World)
    requires Inv(w) && |w.calls| == 1 && Holding(w.calls[0]).None?
    ensures Inv(w.(calls := []))
  {
    var u := w.(calls := []);
    forall id | id in u.rows ensures RowOk(u, id) { assert RowOk(w, id); }
    forall p | p in u.objects ensures NamesSource(u, p) && Accounted(u, p) { assert Accounted(w, p); }
    forall m | m in u.cancels ensures CancelOk(u, m) { assert CancelOk(w, m); }
  }

  /** Between calls every object belongs to exactly one live row, or its delete call failed. */
  lemma ObjectsAreConserved(w: World, p: string)
    requires Inv(w) && w.calls == [] && p in w.objects && p !in w.lost
    ensures exists id :: NamesAlone(w, id, p)
  {
    assert Accounted(w, p) && NamesSource(w, p);
    var id :| id in w.rows && w.rows[id].path == p;
    OnlyOneNames(w, id, p);
  }

  /** The start of a call gives every upload an id and an object name nobody has used. */
  lemma FreshName(w: World, req: Request)
    requires Inv(w) && SlashFree(req.owner)
    ensures w.nextId !in w.rows && UploadName(req, w.nextId) !in w.objects
  {
    forall id | id in w.rows ensures id != w.nextId { assert RowOk(w, id); }
    forall p | p in w.objects ensures p != UploadName(req, w.nextId) {
      assert NamesSource(w, p);
      SecondComponentOfObjectName(req.owner, w.nextId, req.name);
    }
  }

  lemma NotAdvanced(start: World, oracle: nat -> Outcome, from: nat)
    ensures Drive(start, oracle, from, 0) == start
  {}

  /** One more external call of the solo run takes the call one step on. */
  lemma Advanced(start: World, oracle: nat -> Outcome, from: nat, n: nat, w: World)
    requires Drive(start, oracle, from, n) == w && |w.calls| == 1
    ensures Drive(start, oracle, from, n + 1) == Step(w, 0, oracle(from + n))
  {}

  /** The state `w` with just this call in flight. */
  function With(w: World, c: Call): World {
    w.(calls := [c])
  }

  // ---- what a call promises, by the outcomes of its external calls alone ------------

  /** What an upload leaves when it is accepted. */
  ghost predicate Added(before: World, after: World, req: Request, id: nat, job: Option<JobId>, last: Outcome) {
    var path := if req.kind.URL? then "" else req.owner + "/" + Decimal(id) + "/" + req.name;
    var pending := job.Some? && last.Success?;
    && after.nextId == before.nextId + 1 && after.nextJob == before.nextJob + 1
    && after.lost == before.lost && after.cancels == before.cancels && after.calls == before.calls
    && after.objects == (if req.kind.URL? then before.objects else before.objects + {path})
    && after.chunking == before.chunking +
         (if job.Some? then [CreateJob(job.value, req.owner, id, path, req.kind, req.url)] else [])
    && after.rows == before.rows[id :=
         Row(id, req.project, req.owner, req.name, req.kind, if pending then Pending else Uploaded,
             req.size, path, if pending then job else None, req.url)]
  }

  /**
   * What it leaves when it is refused after the insert: exactly what a failed compensation could
   * not undo. `first` and `end` number the external calls, from the first one behind the insert.
   */
  ghost predicate Undone(before: World, after: World, req: Request, id: nat, oracle: nat -> Outcome, first: nat, end: nat)
    requires end >= 2
  {
    var name := req.owner + "/" + Decimal(id) + "/" + req.name;
    var stored := !req.kind.URL? && oracle(first).Success?;
    var path := if stored && oracle(first + 1).Success? then name else "";
    var left := if stored && !oracle(end - 2).Success? then {name} else {};
    && after.nextId == before.nextId + 1 && after.nextJob == before.nextJob && after.calls == before.calls
    && after.chunking == before.chunking && after.cancels == before.cancels
    && after.objects == before.objects + left && after.lost == before.lost + left
    && after.rows == (if oracle(end - 1).Success? then before.rows else before.rows[id :=
         Row(id, req.project, req.owner, req.name, req.kind, Uploading, req.size, path, None, req.url)])
  }

  /** The number of the call that marks the source `uploaded`, when all before it have worked. */
  function MarkCall(req: Request, first: nat): nat {
    if req.kind.URL? then first else first + 2
  }

  /** The calls that store the file, its path and the mark all work. */
  predicate Marks(req: Request, oracle: nat -> Outcome, first: nat) {
    if req.kind.URL? then oracle(first).Success?
    else oracle(first).Success? && oracle(first + 1).Success? && oracle(first + 2).Success?
  }

  /** The answer of an upload that has inserted its row under `id`, and with the next job id in `job`. */
  ghost predicate SavedAnswer(req: Request, id: nat, job: JobId, oracle: nat -> Outcome, first: nat, end: nat, reply: Reply) {
    var published := oracle(MarkCall(req, first) + 1).Success?;
    if Marks(req, oracle, first)
    then reply == Accepted(id, if published then Some(job) else None) && end == MarkCall(req, first) + (if published then 3 else 2)
    else reply == Refused(Unavailable) && end >= first + 2
  }

  /** The answer and the state after it, from the state before the insert on. */
  ghost predicate SavedOutcome(w: World, v: World, req: Request, oracle: nat -> Outcome, first: nat, end: nat, reply: Reply) {
    && end >= 2 && SavedAnswer(req, w.nextId, w.nextJob, oracle, first, end, reply)
    && (reply.Accepted? ==> Added(w, v, req, w.nextId, reply.job, oracle(end - 1)))
    && (reply.Refused? ==> Undone(w, v, req, w.nextId, oracle, first, end))
  }

  /** All that an upload answers and leaves, given the outcome of each of its external calls. */
  ghost predicate UploadPromise(w: World, v: World, req: Request, oracle: nat -> Outcome, from: nat, end: nat, reply: Reply) {
    var count := |set id | id in w.rows && w.rows[id].project == req.project && w.rows[id].owner == req.owner|;
    if !oracle(from).Success? then
      v == w && end == from + 1 && reply == Refused(if oracle(from).Denied? then PermissionDenied else Unavailable)
    else if !oracle(from + 1).Success? then v == w && end == from + 2 && reply == Refused(Unavailable)
    else if count >= 20 then v == w && end == from + 2 && reply == Refused(LimitExceeded)
    else if !oracle(from + 2).Success? then v == w && end == from + 3 && reply == Refused(Unavailable)
    else SavedOutcome(w, v, req, oracle, from + 3, end, reply)
  }

  /** What an upload that is not let in answers. */
  function Admission(w: World, req: Request, oracle: nat -> Outcome, from: nat): Option<Error> {
    if !oracle(from).Success? then Some(if oracle(from).Denied? then PermissionDenied else Unavailable)
    else if !oracle(from + 1).Success? then Some(Unavailable)
    else if |set id | id in w.rows && w.rows[id].project == req.project && w.rows[id].owner == req.owner| >= 20
    then Some(LimitExceeded)
    else None
  }

  lemma PromiseUnsaved(w: World, req: Request, oracle: nat -> Outcome, from: nat, end: nat, error: Error)
    requires match Admission(w, req, oracle, from)
      case Some(e) => error == e && end == from + (if oracle(from).Success? then 2 else 1)
      case None => !oracle(from + 2).Success? && error == Unavailable && end == from + 3
    ensures UploadPromise(w, w, req, oracle, from, end, Refused(error))
  {
    hide SavedOutcome;
  }

  lemma PromiseSaved(w: World, v: World, req: Request, oracle: nat -> Outcome, from: nat, end: nat, reply: Reply)
    requires Admission(w, req, oracle, from).None? && oracle(from + 2).Success? && end >= from + 5
    requires SavedOutcome(w, v, req, oracle, from + 3, end, reply)
    ensures UploadPromise(w, v, req, oracle, from, end, reply)
    ensures reply.Accepted? || reply.Refused?
    ensures reply.Accepted? ==> reply.id == w.nextId && Added(w, v, req, w.nextId, reply.job, oracle(end - 1))
    ensures reply.Refused? ==> Undone(w, v, req, w.nextId, oracle, from + 3, end)
  {
    hide Added, Undone;
  }

  ghost predicate RetryPromise(w: World, v: World, id: nat, project: int, owner: string, oracle: nat -> Outcome, from: nat, end: nat, reply: Reply) {
    if !oracle(from).Success? then
      v == w && end == from + 1 && reply == Refused(if oracle(from).Denied? then PermissionDenied else Unavailable)
    else if !oracle(from + 1).Success? then v == w && end == from + 2 && reply == Refused(Database)
    else if NoSuchRow(w.rows, id, project, owner) then v == w && end == from + 2 && reply == Refused(NotFound)
    else
      var src := w.rows[id];
      if src.status != Uploaded && src.status != Failed then v == w && end == from + 2 && reply == Refused(InvalidArgument)
      else if !oracle(from + 2).Success? then
        v == w.(nextJob := w.nextJob + 1) && end == from + 3 && reply == Refused(Unavailable)
      else
        && end == from + 4 && reply == Retried(w.nextJob)
        && v == w.(nextJob := w.nextJob + 1,
                   chunking := w.chunking + [CreateJob(w.nextJob, owner, id, src.path, src.kind, src.url)],
                   rows := if oracle(from + 3).Success? then w.rows[id := src.(status := Pending, job := Some(w.nextJob))] else w.rows)
  }

  /**
   * What a delete leaves: the row is gone, a job read as active is cancelled if the broker
   * takes the message, and the object is gone unless its own delete failed.
   */
  ghost predicate Erased(before: World, after: World, src: Row, oracle: nat -> Outcome, next: nat) {
    var active := src.job.Some? && (src.status == Pending || src.status == Processing);
    var last := if active then next + 1 else next;
    && after.rows == before.rows - {src.id}
    && after.cancels == before.cancels +
         (if active && oracle(next).Success? then [CancelJob(src.job.value, src.owner, src.id)] else [])
    && after.objects == (if src.path != "" && oracle(last).Success? then before.objects - {src.path} else before.objects)
    && after.lost == (if src.path != "" && !oracle(last).Success? then before.lost + {src.path} else before.lost)
    && after.chunking == before.chunking && after.nextId == before.nextId && after.nextJob == before.nextJob
  }

  ghost predicate DeletePromise(w: World, v: World, id: nat, project: int, owner: string, oracle: nat -> Outcome, from: nat, end: nat, reply: Reply) {
    if !oracle(from).Success? then
      v == w && end == from + 1 && reply == Refused(if oracle(from).Denied? then PermissionDenied else Unavailable)
    else if !oracle(from + 1).Success? then v == w && end == from + 2 && reply == Refused(Database)
    else if NoSuchRow(w.rows, id, project, owner) then v == w && end == from + 2 && reply == Refused(NotFound)
    else if !oracle(from + 2).Success? then v == w && end == from + 3 && reply == Refused(Database)
    else reply == Deleted && Erased(w, v, w.rows[id], oracle, from + 3)
  }

  /** A retry that has read its row, and then what the broker and the table answer. */
  lemma RetryPublished(w: World, v: World, id: nat, project: int, owner: string, oracle: nat -> Outcome, from: nat)
    requires oracle(from).Success? && oracle(from + 1).Success? && oracle(from + 2).Success? && !NoSuchRow(w.rows, id, project, owner)
    requires var src := w.rows[id];
      && (src.status.Uploaded? || src.status.Failed?)
      && v == w.(nextJob := w.nextJob + 1,
                 chunking := w.chunking + [CreateJob(w.nextJob, owner, id, src.path, src.kind, src.url)],
                 rows := if oracle(from + 3).Success? then SetStatus(w.rows, id, Pending, Some(w.nextJob)) else w.rows)
    ensures RetryPromise(w, v, id, project, owner, oracle, from, from + 4, Retried(w.nextJob))
  {}

  lemma RetryUnpublished(w: World, id: nat, project: int, owner: string, oracle: nat -> Outcome, from: nat)
    requires oracle(from).Success? && oracle(from + 1).Success? && !oracle(from + 2).Success? && !NoSuchRow(w.rows, id, project, owner)
    requires w.rows[id].status.Uploaded? || w.rows[id].status.Failed?
    ensures RetryPromise(w, w.(nextJob := w.nextJob + 1), id, project, owner, oracle, from, from + 3, Refused(Unavailable))
  {}

  /** A delete that has read its row, and then what the table answers. */
  lemma DeleteErased(w: World, v: World, id: nat, project: int, owner: string, oracle: nat -> Outcome, from: nat, end: nat)
    requires oracle(from).Success? && oracle(from + 1).Success? && oracle(from + 2).Success? && !NoSuchRow(w.rows, id, project, owner)
    requires Erased(w, v, w.rows[id], oracle, from + 3)
    ensures DeletePromise(w, v, id, project, owner, oracle, from, end, Deleted)
  {
    hide Erased;
  }

  /** The row goes first, and the rest after it. */
  lemma ErasedFrom(w: World, removed: World, v: World, src: Row, oracle: nat -> Outcome, next: nat)
    requires removed == w.(rows := w.rows - {src.id}) && v.rows == removed.rows
    requires Erased(removed, v.(rows := removed.rows - {src.id}), src, oracle, next)
    ensures Erased(w, v, src, oracle, next)
  {}

  lemma DeleteFailed(w: World, id: nat, project: int, owner: string, oracle: nat -> Outcome, from: nat)
    requires oracle(from).Success? && oracle(from + 1).Success? && !oracle(from + 2).Success? && !NoSuchRow(w.rows, id, project, owner)
    ensures DeletePromise(w, w, id, project, owner, oracle, from, from + 3, Refused(Database))
  {
    hide Erased;
  }

  lemma RetryMeans(w: World, v: World, id: nat, project: int, owner: string, oracle: nat -> Outcome, from: nat, end: nat, reply: Reply)
    requires RetryPromise(w, v, id, project, owner, oracle, from, end, reply)
    ensures !reply.Retried? ==> v == w.(nextJob := v.nextJob)
    ensures reply.Retried? ==> !NoSuchRow(w.rows, id, project, owner) && (w.rows[id].status.Uploaded? || w.rows[id].status.Failed?)
  {}

  lemma DeleteMeans(w: World, v: World, id: nat, project: int, owner: string, oracle: nat -> Outcome, from: nat, end: nat, reply: Reply)
    requires DeletePromise(w, v, id, project, owner, oracle, from, end, reply)
    ensures !reply.Deleted? ==> v == w
    ensures reply.Deleted? ==> !NoSuchRow(w.rows, id, project, owner) && Erased(w, v, w.rows[id], oracle, from + 3)
  {
    hide Erased;
  }

  /** An update of the status and the job of one row, if it is there. */
  predicate StatusSet(w: World, v: World, id: nat, status: Status, job: Option<JobId>) {
    v == if id in w.rows then w.(rows := w.rows[id := w.rows[id].(status := status, job := job)]) else w
  }

  predicate PathSet(w: World, v: World, id: nat, path: string) {
    v == if id in w.rows then w.(rows := w.rows[id := w.rows[id].(path := path)]) else w
  }

  // ---- the solo run and its phases -------------------------------------------------------

  /** The state before the insert of this row. */
  function Uninserted(w: World, id: nat): World
    requires w.nextId > 0
  {
    w.(nextId := w.nextId - 1, rows := w.rows - {id})
  }

  /** The state after the file, if there is one, and then its path have been stored as far as they were. */
  function WithFile(w: World, req: Request, id: nat, stored: bool, recorded: bool): World {
    w.(objects := if stored then w.objects + {UploadName(req, id)} else w.objects,
       rows := if recorded then SetPath(w.rows, id, UploadName(req, id)) else w.rows)
  }

  /** The state after an upload was marked, and announced under `job` if there is one. */
  function WithMarks(w: World, req: Request, id: nat, job: Option<JobId>, last: Outcome): World {
    var rows := SetStatus(w.rows, id, Uploaded, None);
    w.(nextJob := w.nextJob + 1,
       chunking := w.chunking + (if job.Some? then [UploadMessage(req, id, job.value)] else []),
       rows := if job.Some? && last.Success? then SetStatus(rows, id, Pending, job) else rows)
  }

  /** The state after the compensations. */
  function WithoutFile(w: World, req: Request, id: nat, stored: bool, undo: Outcome, last: Outcome): World {
    (if stored then DropObject(w, UploadName(req, id), undo) else w).(rows := if last.Success? then w.rows - {id} else w.rows)
  }

  /** Neither the calls nor the ids have changed, and the row is still that of the same source. */
  predicate OnlyRowMoved(w: World, v: World, id: nat) {
    && v.calls == w.calls && v.nextId == w.nextId
    && (id in w.rows ==> id in v.rows && v.rows[id].project == w.rows[id].project && v.rows[id].owner == w.rows[id].owner)
  }

  lemma NoFile(w: World, req: Request, id: nat)
    ensures WithFile(w, req, id, false, false) == w && OnlyRowMoved(w, w, id)
  {}

  lemma AcceptedAdds(w: World, req: Request, id: nat, job: Option<JobId>, last: Outcome)
    requires id in w.rows && w.rows[id] == NewRow(id, req) && w.nextId > 0
    ensures var file := !req.kind.URL?;
      Added(Uninserted(w, id), WithMarks(WithFile(w, req, id, file, file), req, id, job, last), req, id, job, last)
  {
    hide Decimal;
  }

  lemma RefusedUndoes(w: World, req: Request, id: nat, oracle: nat -> Outcome, first: nat, end: nat)
    requires id in w.rows && w.rows[id] == NewRow(id, req) && w.nextId > 0 && end >= 2 && UploadName(req, id) !in w.objects
    ensures var stored := !req.kind.URL? && oracle(first).Success?; var recorded := stored && oracle(first + 1).Success?;
      Undone(Uninserted(w, id),
             WithoutFile(WithFile(w, req, id, stored, recorded), req, id, stored, oracle(end - 2), oracle(end - 1)),
             req, id, oracle, first, end)
  {
    hide Decimal;
  }

  lemma AcceptedOutcome(w: World, v: World, req: Request, id: nat, oracle: nat -> Outcome, first: nat, mark: nat, end: nat, reply: Reply)
    requires id in w.rows && w.rows[id] == NewRow(id, req) && w.nextId == id + 1
    requires mark == MarkCall(req, first) && oracle(mark).Success? && (req.kind.URL? || (oracle(first).Success? && oracle(first + 1).Success?))
    requires reply == Accepted(id, if oracle(mark + 1).Success? then Some(w.nextJob) else None)
    requires end == mark + (if reply.job.Some? then 3 else 2)
    requires v == WithMarks(WithFile(w, req, id, !req.kind.URL?, !req.kind.URL?), req, id, reply.job, oracle(end - 1))
    ensures SavedOutcome(Uninserted(w, id), v, req, oracle, first, end, reply)
  {
    AcceptedAdds(w, req, id, reply.job, oracle(end - 1));
    hide Added, Undone, WithMarks, WithFile;
  }

  lemma RefusedOutcome(w: World, v: World, req: Request, id: nat, oracle: nat -> Outcome, first: nat, end: nat, undo: Outcome)
    requires id in w.rows && w.rows[id] == NewRow(id, req) && w.nextId == id + 1 && UploadName(req, id) !in w.objects
    requires !Marks(req, oracle, first) && end >= first + 2
    requires var stored := !req.kind.URL? && oracle(first).Success?; var recorded := stored && oracle(first + 1).Success?;
      && v == WithoutFile(WithFile(w, req, id, stored, recorded), req, id, stored, undo, oracle(end - 1))
      && (stored ==> undo == oracle(end - 2))
    ensures SavedOutcome(Uninserted(w, id), v, req, oracle, first, end, Refused(Unavailable))
  {
    RefusedUndoes(w, req, id, oracle, first, end);
    hide Added, Undone, WithFile;
  }

  /** Every compensation that was due went through. */
  predicate Compensated(req: Request, oracle: nat -> Outcome, first: nat, end: nat)
    requires end >= 2
  {
    oracle(end - 1).Success? && (req.kind.URL? || !oracle(first).Success? || oracle(end - 2).Success?)
  }

  /** Successful compensations restore rows, objects and topics; only the id is used up. */
  lemma CompensatedRestores(before: World, after: World, req: Request, id: nat, oracle: nat -> Outcome, first: nat, end: nat)
    requires end >= 2 && Undone(before, after, req, id, oracle, first, end)
    ensures Compensated(req, oracle, first, end) ==> after == before.(nextId := after.nextId)
  {
    hide Decimal;
    assert before.objects + {} == before.objects && before.lost + {} == before.lost;
  }

  lemma RowsKnowTheirId(w: World, id: nat)
    requires Inv(w)
    ensures id in w.rows ==> w.rows[id].id == id
  {
    assert id in w.rows ==> RowOk(w, id);
  }

  class Service {
    /** The outcome of the n-th external call. */
    const oracle: nat -> Outcome
    var clock: nat
    /** The table, the bucket and the topics behind the service's clients. */
    var world: World

    /** Between calls: the invariant of the interleaved system with nothing in flight. */
    ghost predicate Valid()
      reads this
    {
      Inv(world) && world.calls == []
    }

    constructor (oracle: nat -> Outcome)
      ensures Valid() && world == INITIAL && clock == 0 && this.oracle == oracle
    {
      this.oracle := oracle;
      clock, world := 0, INITIAL;
    }

    // ---- external calls -----------------------------------------------------------

    method Ask() returns (o: Outcome)
      modifies `clock
      ensures o == oracle(old(clock)) && clock == old(clock) + 1
    {
      o := oracle(clock);
      clock := clock + 1;
    }

    method Save(req: Request) returns (o: Outcome, id: nat)
      modifies this
      ensures o == oracle(old(clock)) && clock == old(clock) + 1 && id == old(world.nextId)
      ensures world == if o.Success? then old(world).(
          rows := old(world.rows)[id := Row(id, req.project, req.owner, req.name, req.kind, Uploading, req.size, "", None, req.url)],
          nextId := id + 1)
        else old(world)
    {
      o := Ask();
      id := world.nextId;
      if o.Success? {
        world := world.(rows := world.rows[id := NewRow(id, req)], nextId := id + 1);
      }
    }

    method UpdateStatus(id: nat, status: Status, job: Option<JobId>) returns (o: Outcome)
      modifies this
      ensures o == oracle(old(clock)) && clock == old(clock) + 1
      ensures if o.Success? then StatusSet(old(world), world, id, status, job) else world == old(world)
      ensures o.Success? ==> world == old(world).(rows := SetStatus(old(world.rows), id, status, job))
    {
      o := Ask();
      if o.Success? {
        world := world.(rows := SetStatus(world.rows, id, status, job));
      }
    }

    method UpdateMinioPath(id: nat, path: string) returns (o: Outcome)
      modifies this
      ensures o == oracle(old(clock)) && clock == old(clock) + 1
      ensures if o.Success? then PathSet(old(world), world, id, path) else world == old(world)
      ensures o.Success? ==> world == old(world).(rows := SetPath(old(world.rows), id, path))
    {
      o := Ask();
      if o.Success? {
        world := world.(rows := SetPath(world.rows, id, path));
      }
    }

    method DeleteRow(id: nat, project: int, owner: string) returns (o: Outcome, error: Option<Error>)
      modifies this
      ensures o == oracle(old(clock)) && clock == old(clock) + 1
      ensures error == (if !o.Success? then Some(Database)
        else if id in old(world.rows) && old(world.rows)[id].project == project && old(world.rows)[id].owner == owner then None
        else Some(NotFound))
      ensures world == if error.None? then old(world).(rows := old(world.rows) - {id}) else old(world)
    {
      o := Ask();
      if !o.Success? {
        error := Some(Database);
      } else if Find(world.rows, id, project, owner).None? {
        error := Some(NotFound);
      } else {
        error := None;
        world := world.(rows := Remove(world.rows, id));
      }
    }

    method PutObject(name: string) returns (o: Outcome)
      modifies this
      ensures o == oracle(old(clock)) && clock == old(clock) + 1
      ensures world == if o.Success? then old(world).(objects := old(world.objects) + {name}) else old(world)
    {
      o := Ask();
      if o.Success? {
        world := world.(objects := world.objects + {name});
      }
    }

    /** Its error is ignored by every caller; the name then goes on the books as lost. */
    method DeleteObject(name: string) returns (o: Outcome)
      modifies this
      ensures o == oracle(old(clock)) && clock == old(clock) + 1
      ensures world == if o.Success? then old(world).(objects := old(world.objects) - {name})
        else old(world).(lost := old(world.lost) + {name})
    {
      o := Ask();
      if o.Success? {
        world := world.(objects := world.objects - {name});
      } else {
        world := world.(lost := world.lost + {name});
      }
    }

    method NewJobId() returns (job: JobId)
      modifies `world
      ensures job == old(world.nextJob) && world == old(world).(nextJob := job + 1)
    {
      job := world.nextJob;
      world := world.(nextJob := job + 1);
    }

    method PublishCreateJob(m: CreateJob) returns (o: Outcome)
      modifies this
      ensures o == oracle(old(clock)) && clock == old(clock) + 1
      ensures world == if o.Success? then old(world).(chunking := old(world.chunking) + [m]) else old(world)
    {
      o := Ask();
      if o.Success? {
        world := world.(chunking := world.chunking + [m]);
      }
    }

    method PublishCancelJob(m: CancelJob) returns (o: Outcome)
      modifies this
      ensures o == oracle(old(clock)) && clock == old(clock) + 1
      ensures world == if o.Success? then old(world).(cancels := old(world.cancels) + [m]) else old(world)
    {
      o := Ask();
      if o.Success? {
        world := world.(cancels := world.cancels + [m]);
      }
    }

    // ---- UploadSource ---------------------------------------------------------------

    /** Upload of the file and of its path; the compensation for the object is registered in between. */
    method StoreFile(req: Request, id: nat, ghost start: World, ghost from: nat, ghost n: nat)
        returns (stored: bool, ok: bool, path: string, ghost m: nat)
      requires !req.kind.URL? && clock == from + n && Drive(start, oracle, from, n) == With(world, Upload(req, UPut(id)))
      modifies this
      ensures clock == from + m && m > n && path == if ok then UploadName(req, id) else ""
      ensures stored == oracle(old(clock)).Success? && ok == (stored && oracle(old(clock) + 1).Success?)
      ensures clock == old(clock) + (if stored then 2 else 1)
      ensures Drive(start, oracle, from, m) ==
        With(world, Upload(req, if ok then UMark(id) else if stored then UUndoObject(id) else UUndoRow(id)))
      ensures world == WithFile(old(world), req, id, stored, ok)
      ensures OnlyRowMoved(old(world), world, id) && world.nextJob == old(world.nextJob)
    {
      hide Drive;
      var objectName := UploadName(req, id);
      stored, ok, path := false, false, "";
      Advanced(start, oracle, from, n, With(world, Upload(req, UPut(id))));
      var put := PutObject(objectName);
      m := n + 1;
      if put.Success? {
        stored := true;
        Advanced(start, oracle, from, m, With(world, Upload(req, UPath(id))));
        var recorded := UpdateMinioPath(id, objectName);
        m := m + 1;
        if recorded.Success? {
          ok, path := true, objectName;
        }
      }
    }

    /** Mark, publish, mark again: once the source is marked nothing is undone any more. */
    method Announce(req: Request, id: nat, path: string, ghost start: World, ghost from: nat, ghost n: nat)
        returns (success: bool, reply: Reply, ghost m: nat)
      requires clock == from + n && Drive(start, oracle, from, n) == With(world, Upload(req, UMark(id)))
      requires path == UploadPath(req, id)
      modifies this
      ensures clock == from + m && m > n && (success ==> m > n + 1)
      ensures success == reply.Accepted? == oracle(old(clock)).Success? && (success || reply == Refused(Unavailable))
      ensures success ==> reply.job == if oracle(old(clock) + 1).Success? then Some(old(world.nextJob)) else None
      ensures success ==> clock == old(clock) + (if reply.job.Some? then 3 else 2)
      ensures !success ==> world == old(world)
      ensures !success ==>
        Drive(start, oracle, from, m) == With(world, Upload(req, if req.kind.URL? then UUndoRow(id) else UUndoObject(id)))
      ensures success ==> reply.id == id && Drive(start, oracle, from, m) == With(world, Upload(req, UDone(reply)))
      ensures success ==> world == WithMarks(old(world), req, id, reply.job, oracle(clock - 1)) 
      ensures success ==> world.calls == old(world.calls) && world.nextId == old(world.nextId)
    {
      hide Drive, UploadName, UploadPath, StepRetry, StepDelete, SetStatus, StatusSet;
      Advanced(start, oracle, from, n, With(world, Upload(req, UMark(id))));
      var marked := UpdateStatus(id, Uploaded, None);
      m := n + 1;
      if !marked.Success? {
        return false, Refused(Unavailable), m;
      }
      Advanced(start, oracle, from, m, With(world, Upload(req, UPublish(id))));
      var job := NewJobId();
      var published := PublishCreateJob(CreateJob(job, req.owner, id, path, req.kind, req.url));
      m := m + 1;
      if !published.Success? {
        return true, Accepted(id, None), m;
      }
      Advanced(start, oracle, from, m, With(world, Upload(req, UPending(id, job))));
      var pending := UpdateStatus(id, Pending, Some(job));
      return true, Accepted(id, Some(job)), m + 1;
    }

    /** The deferred functions, last registered first; their own errors are only logged. */
    method Compensate(req: Request, id: nat, stored: bool, ghost start: World, ghost from: nat, ghost n: nat)
      requires clock == from + n
      requires Drive(start, oracle, from, n) == With(world, Upload(req, if stored then UUndoObject(id) else UUndoRow(id)))
      requires id in world.rows && world.rows[id].project == req.project && world.rows[id].owner == req.owner
      modifies this
      ensures clock == from + n + (if stored then 2 else 1)
      ensures Drive(start, oracle, from, clock - from) == With(world, Upload(req, UDone(Refused(Unavailable))))
      ensures world == WithoutFile(old(world), req, id, stored, oracle(old(clock)), oracle(clock - 1))
      ensures world.calls == old(world.calls) && world.nextId == old(world.nextId)
    {
      hide Drive;
      ghost var m := n;
      if stored {
        Advanced(start, oracle, from, m, With(world, Upload(req, UUndoObject(id))));
        var dropped := DeleteObject(UploadName(req, id));
        m := m + 1;
      }
      Advanced(start, oracle, from, m, With(world, Upload(req, UUndoRow(id))));
      var deleted, error := DeleteRow(id, req.project, req.owner);
    }

    /** A URL has no file to store. */
    method StoreIfFile(req: Request, id: nat, ghost start: World, ghost from: nat, ghost n: nat)
        returns (stored: bool, ok: bool, path: string)
      requires clock == from + n
      requires Drive(start, oracle, from, n) == With(world, Upload(req, if req.kind.URL? then UMark(id) else UPut(id)))
      modifies this
      ensures stored == (!req.kind.URL? && oracle(old(clock)).Success?)
      ensures ok == (req.kind.URL? || (stored && oracle(old(clock) + 1).Success?)) && (ok ==> path == UploadPath(req, id))
      ensures clock == old(clock) + (if req.kind.URL? then 0 else if stored then 2 else 1)
      ensures Drive(start, oracle, from, clock - from) ==
        With(world, Upload(req, if ok then UMark(id) else if stored then UUndoObject(id) else UUndoRow(id)))
      ensures world == WithFile(old(world), req, id, stored, stored && ok)
      ensures OnlyRowMoved(old(world), world, id) && world.nextJob == old(world.nextJob)
    {
      hide Drive, UploadName, Step, WithFile;
      if req.kind.URL? {
        NoFile(world, req, id);
        return false, true, "";
      }
      ghost var m;
      stored, ok, path, m := StoreFile(req, id, start, from, n);
    }

    /** The rest of an upload, under the two deferred compensations. */
    method UploadSaved(req: Request, id: nat, ghost start: World, ghost from: nat, ghost n: nat) returns (reply: Reply)
      requires clock == from + n
      requires Drive(start, oracle, from, n) == With(world, Upload(req, if req.kind.URL? then UMark(id) else UPut(id)))
      requires id in world.rows && world.rows[id] == NewRow(id, req) && UploadName(req, id) !in world.objects && world.nextId == id + 1
      modifies this
      ensures clock >= from + n + 2 && world.calls == old(world.calls) && world.nextId == old(world.nextId)
      ensures Drive(start, oracle, from, clock - from) == With(world, Upload(req, UDone(reply)))
      ensures SavedOutcome(Uninserted(old(world), id), world, req, oracle, old(clock), clock, reply)
    {
      hide Drive, UploadName, UploadPath, Step, WithFile, WithMarks, WithoutFile, SavedOutcome, Uninserted;
      ghost var before, first := world, clock;
      var stored, ok, path := StoreIfFile(req, id, start, from, n);
      ghost var next := clock;
      if ok {
        var success, answer;
        ghost var m;
        success, answer, m := Announce(req, id, path, start, from, clock - from);
        if success {
          AcceptedOutcome(before, world, req, id, oracle, first, next, clock, answer);
          return answer;
        }
      }
      next := clock;
      Compensate(req, id, stored, start, from, clock - from);
      RefusedOutcome(before, world, req, id, oracle, first, clock, oracle(next));
      return Refused(Unavailable);
    }

    /** `checkProjectAccess` and `checkLimits`; neither changes anything. */
    method Admit(req: Request, ghost start: World) returns (refusal: Option<Error>)
      requires start == With(world, Upload(req, UAccess))
      modifies `clock
      ensures clock > old(clock) && (refusal.None? ==> clock == old(clock) + 2)
      ensures clock == old(clock) + (if oracle(old(clock)).Success? then 2 else 1)
      ensures refusal == Admission(world, req, oracle, old(clock))
      ensures Drive(start, oracle, old(clock), clock - old(clock)) ==
        With(world, Upload(req, if refusal.None? then USave else UDone(Refused(refusal.value))))
    {
      hide Drive, UploadName, StepRetry, StepDelete;
      ghost var from := clock;
      NotAdvanced(start, oracle, from);
      Advanced(start, oracle, from, 0, start);
      var access := Ask();
      if !access.Success? {
        return Some(AccessError(access));
      }
      Advanced(start, oracle, from, 1, With(world, Upload(req, ULimit)));
      var counted := Ask();
      if !counted.Success? {
        return Some(Unavailable);
      }
      assert IdsOf(world.rows, req.project, req.owner)
          == set id | id in world.rows && world.rows[id].project == req.project && world.rows[id].owner == req.owner;
      if |IdsOf(world.rows, req.project, req.owner)| >= MAX_SOURCES_PER_PROJECT {
        return Some(LimitExceeded);
      }
      return None;
    }

    method UploadChecked(req: Request) returns (reply: Reply)
      requires world.nextId !in world.rows && UploadName(req, world.nextId) !in world.objects && world.calls == []
      modifies this
      ensures clock > old(clock) && world.calls == [] && (reply.Accepted? || reply.Refused?)
      ensures With(world, Upload(req, UDone(reply))) ==
        Drive(With(old(world), Upload(req, UAccess)), oracle, old(clock), clock - old(clock))
      ensures reply.Accepted? ==>
        reply.id == old(world.nextId) && Added(old(world), world, req, reply.id, reply.job, oracle(clock - 1))
      ensures reply.Refused? ==>
        if world.nextId == old(world.nextId) then world == old(world)
        else clock >= old(clock) + 5 && Undone(old(world), world, req, old(world.nextId), oracle, old(clock) + 3, clock)
      ensures UploadPromise(old(world), world, req, oracle, old(clock), clock, reply)
    {
      hide Drive, UploadName, StepRetry, StepDelete, UploadPromise, SavedOutcome, Added, Undone, Admission;
      ghost var start, from := With(world, Upload(req, UAccess)), clock;
      var refusal := Admit(req, start);
      if refusal.Some? {
        PromiseUnsaved(world, req, oracle, from, clock, refusal.value);
        return Refused(refusal.value);
      }
      Advanced(start, oracle, from, 2, With(world, Upload(req, USave)));
      ghost var before := world;
      var saved, id := Save(req);
      if !saved.Success? {
        PromiseUnsaved(before, req, oracle, from, clock, Unavailable);
        return Refused(Unavailable);
      }
      assert before.rows[id := NewRow(id, req)] - {id} == before.rows;
      assert Uninserted(world, id) == before;
      reply := UploadSaved(req, id, start, from, 3);
      PromiseSaved(before, world, req, oracle, from, clock, reply);
    }

    method UploadSource(req: Request) returns (reply: Reply)
      requires Valid() && SlashFree(req.owner)
      modifies this
      ensures Valid() && clock > old(clock) && (reply.Accepted? || reply.Refused?)
      ensures With(world, Upload(req, UDone(reply))) ==
        Drive(With(old(world), Upload(req, UAccess)), oracle, old(clock), clock - old(clock))
      ensures reply.Accepted? ==>
        reply.id == old(world.nextId) && Added(old(world), world, req, reply.id, reply.job, oracle(clock - 1))
      ensures reply.Refused? ==>
        if world.nextId == old(world.nextId) then world == old(world)
        else clock >= old(clock) + 5 && Undone(old(world), world, req, old(world.nextId), oracle, old(clock) + 3, clock)
      ensures UploadPromise(old(world), world, req, oracle, old(clock), clock, reply)
      ensures reply.Refused? && (clock >= old(clock) + 5 ==> Compensated(req, oracle, old(clock) + 3, clock)) ==>
        world == old(world).(nextId := world.nextId)
    {
      hide Drive, RowsOk, CallsOk, UploadsDistinct, ObjectsOk, MessagesOk, Added, Undone, UploadPromise;
      ghost var start := With(world, Upload(req, UAccess));
      assert start == world.(calls := world.calls + [Upload(req, UAccess)]);
      FreshName(world, req);
      StartInv(world, Upload(req, UAccess));
      ghost var from := clock;
      reply := UploadChecked(req);
      if world.nextId != old(world.nextId) && reply.Refused? {
        CompensatedRestores(old(world), world, req, old(world.nextId), oracle, from + 3, clock);
      }
      DriveInv(start, oracle, from, clock - from);
      FinishInv(With(world, Upload(req, UDone(reply))));
    }

    // ---- RetryJob and DeleteSource ----------------------------------------------------

    /** Access, and a row in a retryable state. */
    method FindRetryable(id: nat, project: int, owner: string, ghost c: Call, ghost start: World)
        returns (found: Option<Row>, refusal: Error)
      requires c == Retry(id, project, owner, RAccess) && start == With(world, c)
      modifies `clock
      ensures clock > old(clock) && (found.Some? ==> clock == old(clock) + 2)
      ensures found.Some? <==>
        && oracle(old(clock)).Success? && oracle(old(clock) + 1).Success? && !NoSuchRow(world.rows, id, project, owner)
        && (world.rows[id].status.Uploaded? || world.rows[id].status.Failed?)
      ensures found.Some? ==> found.value == world.rows[id]
      ensures found.None? ==> RetryPromise(world, world, id, project, owner, oracle, old(clock), clock, Refused(refusal))
      ensures Drive(start, oracle, old(clock), clock - old(clock)) ==
        With(world, c.(rp := if found.Some? then RPublish(found.value) else RDone(Refused(refusal))))
    {
      hide Drive, StepUpload, StepDelete;
      ghost var from := clock;
      NotAdvanced(start, oracle, from);
      Advanced(start, oracle, from, 0, start);
      var access := Ask();
      if !access.Success? {
        return None, AccessError(access);
      }
      Advanced(start, oracle, from, 1, With(world, c.(rp := RFind)));
      var read := Ask();
      if !read.Success? {
        return None, Database;
      }
      found := Find(world.rows, id, project, owner);
      if found.None? {
        return None, NotFound;
      }
      if !found.value.status.Uploaded? && !found.value.status.Failed? {
        return None, InvalidArgument;
      }
      return found, InvalidArgument;
    }

    /** The new job is published, and then marked; the last error is only logged. */
    method PublishRetry(source: Row, owner: string, ghost c: Call, ghost start: World, ghost from: nat) returns (published: bool, job: JobId)
      requires c.Retry? && c.owner == owner == source.owner && clock == from + 2
      requires Drive(start, oracle, from, 2) == With(world, c.(rp := RPublish(source)))
      modifies this
      ensures published == oracle(old(clock)).Success? && clock == old(clock) + (if published then 2 else 1) && job == old(world.nextJob)
      ensures Drive(start, oracle, from, clock - from) ==
        With(world, c.(rp := RDone(if published then Retried(job) else Refused(Unavailable))))
      ensures world == old(world).(
        nextJob := job + 1,
        chunking := old(world.chunking) + (if published then [CreateJob(job, owner, source.id, source.path, source.kind, source.url)] else []),
        rows := if published && oracle(clock - 1).Success?
                then SetStatus(old(world.rows), source.id, Pending, Some(job)) else old(world.rows))
    {
      hide Drive, UploadName, StepUpload, StepDelete, SetStatus, StatusSet;
      Advanced(start, oracle, from, 2, With(world, c.(rp := RPublish(source))));
      job := NewJobId();
      var m := CreateJob(job, owner, source.id, source.path, source.kind, source.url);
      var answer := PublishCreateJob(m);
      if !answer.Success? {
        return false, job;
      }
      assert m == RowMessage(source, job).(owner := owner);
      Advanced(start, oracle, from, 3, With(world, c.(rp := RMark(source, job))));
      var marked := UpdateStatus(source.id, Pending, Some(job));
      return true, job;
    }

    method RetryChecked(id: nat, project: int, owner: string) returns (reply: Reply)
      requires id in world.rows ==> world.rows[id].id == id
      requires world.calls == []
      modifies this
      ensures clock > old(clock) && world.calls == []
      ensures With(world, Retry(id, project, owner, RDone(reply))) ==
        Drive(With(old(world), Retry(id, project, owner, RAccess)), oracle, old(clock), clock - old(clock))
      ensures RetryPromise(old(world), world, id, project, owner, oracle, old(clock), clock, reply)
    {
      hide Drive, UploadName, Step, SetStatus, RetryPromise;
      ghost var c := Retry(id, project, owner, RAccess);
      ghost var start, from, before := With(world, c), clock, world;
      var found, refusal := FindRetryable(id, project, owner, c, start);
      if found.None? {
        return Refused(refusal);
      }
      var published, job := PublishRetry(found.value, owner, c, start, from);
      if !published {
        assert before.chunking + [] == before.chunking;
        RetryUnpublished(before, id, project, owner, oracle, from);
        return Refused(Unavailable);
      }
      RetryPublished(before, world, id, project, owner, oracle, from);
      return Retried(job);
    }

    method RetryJob(id: nat, project: int, owner: string) returns (reply: Reply)
      requires Valid() && SlashFree(owner)
      modifies this
      ensures Valid() && clock > old(clock)
      ensures With(world, Retry(id, project, owner, RDone(reply))) ==
        Drive(With(old(world), Retry(id, project, owner, RAccess)), oracle, old(clock), clock - old(clock))
      ensures !reply.Retried? ==> world == old(world).(nextJob := world.nextJob)
      ensures reply.Retried? ==>
        && id in old(world.rows) && old(world.rows)[id].project == project && old(world.rows)[id].owner == owner
        && (old(world.rows)[id].status.Uploaded? || old(world.rows)[id].status.Failed?)
      ensures RetryPromise(old(world), world, id, project, owner, oracle, old(clock), clock, reply)
    {
      hide Drive, RowsOk, CallsOk, UploadsDistinct, ObjectsOk, MessagesOk, RetryPromise;
      ghost var start := With(world, Retry(id, project, owner, RAccess));
      assert start == world.(calls := world.calls + [Retry(id, project, owner, RAccess)]);
      RowsKnowTheirId(world, id);
      StartInv(world, Retry(id, project, owner, RAccess));
      ghost var from := clock;
      reply := RetryChecked(id, project, owner);
      RetryMeans(old(world), world, id, project, owner, oracle, from, clock, reply);
      DriveInv(start, oracle, from, clock - from);
      FinishInv(With(world, Retry(id, project, owner, RDone(reply))));
    }

    /** The best-effort tail of a delete: the cancel message and the object. */
    method CleanUp(source: Row, ghost c: Call, ghost start: World, ghost from: nat)
      requires clock == from + 3 && c.Delete? && c.owner == source.owner && world.calls == []
      requires Drive(start, oracle, from, 3) == With(world, c.(dp := AfterRow(source)))
      modifies this
      ensures clock >= from + 3 && world.calls == []
      ensures Drive(start, oracle, from, clock - from) == With(world, c.(dp := DDone(Deleted)))
      ensures Erased(old(world), world.(rows := old(world.rows) - {source.id}), source, oracle, old(clock)) && world.rows == old(world.rows)
    {
      hide Drive;
      if source.job.Some? && (source.status.Pending? || source.status.Processing?) {
        Advanced(start, oracle, from, clock - from, With(world, c.(dp := DCancel(source))));
        var cancelled := PublishCancelJob(CancelJob(source.job.value, source.owner, source.id));
      }
      if source.path != "" {
        Advanced(start, oracle, from, clock - from, With(world, c.(dp := DObject(source))));
        var dropped := DeleteObject(source.path);
      }
    }

    /** Access, and the row as it is read before it is deleted. */
    method FindDeletable(id: nat, project: int, owner: string, ghost c: Call, ghost start: World)
        returns (found: Option<Row>, refusal: Error)
      requires c == Delete(id, project, owner, DAccess) && start == With(world, c)
      modifies `clock
      ensures clock > old(clock) && (found.Some? ==> clock == old(clock) + 2)
      ensures found.Some? <==>
        oracle(old(clock)).Success? && oracle(old(clock) + 1).Success? && !NoSuchRow(world.rows, id, project, owner)
      ensures found.Some? ==> found.value == world.rows[id]
      ensures found.None? ==> DeletePromise(world, world, id, project, owner, oracle, old(clock), clock, Refused(refusal))
      ensures Drive(start, oracle, old(clock), clock - old(clock)) ==
        With(world, c.(dp := if found.Some? then DRow(found.value) else DDone(Refused(refusal))))
    {
      hide Drive, StepUpload, StepRetry, Erased;
      ghost var from := clock;
      NotAdvanced(start, oracle, from);
      Advanced(start, oracle, from, 0, start);
      var access := Ask();
      if !access.Success? {
        return None, AccessError(access);
      }
      Advanced(start, oracle, from, 1, With(world, c.(dp := DFind)));
      var read := Ask();
      if !read.Success? {
        return None, Database;
      }
      found := Find(world.rows, id, project, owner);
      if found.None? {
        return None, NotFound;
      }
      return found, NotFound;
    }

    method DeleteChecked(id: nat, project: int, owner: string) returns (reply: Reply)
      requires id in world.rows ==> world.rows[id].id == id
      requires world.calls == []
      modifies this
      ensures clock > old(clock) && world.calls == []
      ensures With(world, Delete(id, project, owner, DDone(reply))) ==
        Drive(With(old(world), Delete(id, project, owner, DAccess)), oracle, old(clock), clock - old(clock))
      ensures DeletePromise(old(world), world, id, project, owner, oracle, old(clock), clock, reply)
    {
      hide Drive, StepUpload, StepRetry, Erased, DeletePromise;
      ghost var c := Delete(id, project, owner, DAccess);
      ghost var start, from, before := With(world, c), clock, world;
      var found, refusal := FindDeletable(id, project, owner, c, start);
      if found.None? {
        return Refused(refusal);
      }
      var source := found.value;
      Advanced(start, oracle, from, 2, With(world, c.(dp := DRow(source))));
      assert !LeavesObject(With(world, c.(dp := DRow(source))), source);
      var deleted, error := DeleteRow(id, project, owner);
      if error.Some? {
        DeleteFailed(before, id, project, owner, oracle, from);
        return Refused(error.value);
      }
      ghost var removed := world;
      CleanUp(source, c, start, from);
      ErasedFrom(before, removed, world, source, oracle, from + 3);
      DeleteErased(before, world, id, project, owner, oracle, from, clock);
      return Deleted;
    }

    method DeleteSource(id: nat, project: int, owner: string) returns (reply: Reply)
      requires Valid() && SlashFree(owner)
      modifies this
      ensures Valid() && clock > old(clock)
      ensures With(world, Delete(id, project, owner, DDone(reply))) ==
        Drive(With(old(world), Delete(id, project, owner, DAccess)), oracle, old(clock), clock - old(clock))
      ensures !reply.Deleted? ==> world == old(world)
      ensures reply.Deleted? ==>
        && id in old(world.rows) && old(world.rows)[id].project == project && old(world.rows)[id].owner == owner
        && Erased(old(world), world, old(world.rows)[id], oracle, old(clock) + 3)
      ensures DeletePromise(old(world), world, id, project, owner, oracle, old(clock), clock, reply)
    {
      hide Drive, RowsOk, CallsOk, UploadsDistinct, ObjectsOk, MessagesOk, Erased, DeletePromise;
      ghost var start := With(world, Delete(id, project, owner, DAccess));
      assert start == world.(calls := world.calls + [Delete(id, project, owner, DAccess)]);
      RowsKnowTheirId(world, id);
      StartInv(world, Delete(id, project, owner, DAccess));
      ghost var from := clock;
      reply := DeleteChecked(id, project, owner);
      DeleteMeans(old(world), world, id, project, owner, oracle, from, clock, reply);
      DriveInv(start, oracle, from, clock - from);
      FinishInv(With(world, Delete(id, project, owner, DDone(reply))));
    }
  }
}
