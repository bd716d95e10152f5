/**
 * The source lifecycle as an interleaved system. Every call in flight has a
 * program counter that stands in front of its next external call (projects
 * service, table, bucket or broker); one event advances one call by one external
 * call, which succeeds or fails without effect, or stops the call for good.
 */
module SourceProtocol {
  import opened Options
  import opened ObjectNames
  import opened SourceTable

  const MAX_SOURCES_PER_PROJECT := 20

  datatype Error = NotFound | PermissionDenied | InvalidArgument | LimitExceeded | Unavailable | Database

  /** `Accepted` carries the job id of an upload, None for the empty one. */
  datatype Reply = Accepted(id: nat, job: Option<JobId>) | Retried(newJob: JobId) | Deleted | Refused(error: Error)

  /** `Denied` is the projects service answering "no access"; elsewhere it is just a failure. */
  datatype Outcome = Success | Denied | Failure

  /** A message in `jobs.chunking`. */
  datatype CreateJob = CreateJob(job: JobId, owner: string, source: nat, path: string, kind: SourceType, url: string)

  /** A message in `jobs.cancel`. */
  datatype CancelJob = CancelJob(job: JobId, owner: string, source: nat)

  datatype UploadPc =
    | UAccess | ULimit | USave
    | UPut(id: nat) | UPath(id: nat) | UMark(id: nat) | UPublish(id: nat) | UPending(id: nat, job: JobId)
    | UUndoObject(id: nat) | UUndoRow(id: nat)
    | UDone(reply: Reply) | UCrashed

  datatype RetryPc = RAccess | RFind | RPublish(src: Row) | RMark(src: Row, job: JobId) | RDone(reply: Reply) | RCrashed

  datatype DeletePc = DAccess | DFind | DRow(src: Row) | DCancel(src: Row) | DObject(src: Row) | DDone(reply: Reply) | DCrashed

  datatype Call =
    | Upload(req: Request, up: UploadPc)
    | Retry(id: nat, project: int, owner: string, rp: RetryPc)
    | Delete(id: nat, project: int, owner: string, dp: DeletePc)

  /**
   * `lost` is a history variable: the names of objects that some event left
   * without anyone responsible for them.
   */
  datatype World = World(rows: Rows, nextId: nat, objects: set<string>,
                         chunking: seq<CreateJob>, cancels: seq<CancelJob>, nextJob: JobId,
                         calls: seq<Call>, lost: set<string>)

  datatype Event =
    | StartUpload(req: Request)
    | StartRetry(id: nat, project: int, owner: string)
    | StartDelete(id: nat, project: int, owner: string)
    | Advance(pid: nat, outcome: Outcome)
    | Crash(pid: nat)

  const INITIAL: World := World(map[], 1, {}, [], [], 0, [], {})

  // ---- helpers -------------------------------------------------------------

  function NameOf(r: Row): string {
    ObjectName(r.owner, r.id, r.name)
  }

  function UploadName(req: Request, id: nat): string {
    ObjectName(req.owner, id, req.name)
  }

  /** `source.MinioPath` as the upload holds it once the path step is behind it. */
  function UploadPath(req: Request, id: nat): string {
    if req.kind.URL? then "" else UploadName(req, id)
  }

  function UploadMessage(req: Request, id: nat, job: JobId): CreateJob {
    CreateJob(job, req.owner, id, UploadPath(req, id), req.kind, req.url)
  }

  /** The message a row's own fields describe. */
  function RowMessage(r: Row, job: JobId): CreateJob {
    CreateJob(job, r.owner, r.id, r.path, r.kind, r.url)
  }

  function AccessError(o: Outcome): Error {
    if o.Denied? then PermissionDenied else Unavailable
  }

  /** Only a row that was read as active is worth a cancel message. */
  predicate NeedsCancel(r: Row) {
    r.job.Some? && (r.status.Pending? || r.status.Processing?)
  }

  function AfterCancel(src: Row): DeletePc {
    if src.path != "" then DObject(src) else DDone(Deleted)
  }

  function AfterRow(src: Row): DeletePc {
    if NeedsCancel(src) then DCancel(src) else AfterCancel(src)
  }

  /** An upload that has a row but has not yet recorded where its object goes. */
  predicate BeforePath(c: Call, id: nat) {
    c.Upload? && (c.up == UPut(id) || c.up == UPath(id))
  }

  /** The name of an object the call itself still has to record or delete. */
  function Holding(c: Call): Option<string> {
    match c
    case Upload(req, UPath(id)) => Some(UploadName(req, id))
    case Upload(req, UUndoObject(id)) => Some(UploadName(req, id))
    case Delete(_, _, _, DCancel(src)) => if src.path == "" then None else Some(src.path)
    case Delete(_, _, _, DObject(src)) => Some(src.path)
    case _ => None
  }

  /**
   * A delete that read an empty path removes the row of a file whose path was
   * recorded after the read, or whose upload has yet to record it.
   */
  predicate LeavesObject(w: World, src: Row) {
    && src.path == "" && !src.kind.URL? && src.id in w.rows
    && (w.rows[src.id].path != "" || exists k :: 0 <= k < |w.calls| && BeforePath(w.calls[k], src.id))
  }

  // ---- steps ---------------------------------------------------------------

  function Goto(w: World, pid: nat, c: Call): World
    requires pid < |w.calls|
  {
    w.(calls := w.calls[pid := c])
  }

  /** `storage.Delete`: a failed call leaves the object behind. */
  function DropObject(w: World, name: string, o: Outcome): World {
    if o.Success? then w.(objects := w.objects - {name}) else w.(lost := w.lost + {name})
  }

  function StepUpload(w: World, pid: nat, req: Request, pc: UploadPc, o: Outcome): World
    requires pid < |w.calls|
  {
    match pc
    case UAccess =>
      Goto(w, pid, Upload(req, if o.Success? then ULimit else UDone(Refused(AccessError(o)))))
    case ULimit =>
      Goto(w, pid, Upload(req,
        if !o.Success? then UDone(Refused(Unavailable))
        else if |IdsOf(w.rows, req.project, req.owner)| >= MAX_SOURCES_PER_PROJECT then UDone(Refused(LimitExceeded))
        else USave))
    case USave =>
      if !o.Success? then Goto(w, pid, Upload(req, UDone(Refused(Unavailable))))
      else
        var id := w.nextId;
        Goto(w.(rows := w.rows[id := NewRow(id, req)], nextId := id + 1), pid,
             Upload(req, if req.kind.URL? then UMark(id) else UPut(id)))
    case UPut(id) =>
      if !o.Success? then Goto(w, pid, Upload(req, UUndoRow(id)))
      else Goto(w.(objects := w.objects + {UploadName(req, id)}), pid, Upload(req, UPath(id)))
    case UPath(id) =>
      if !o.Success? then Goto(w, pid, Upload(req, UUndoObject(id)))
      else Goto(w.(rows := SetPath(w.rows, id, UploadName(req, id))), pid, Upload(req, UMark(id)))
    case UMark(id) =>
      if !o.Success? then Goto(w, pid, Upload(req, if req.kind.URL? then UUndoRow(id) else UUndoObject(id)))
      else Goto(w.(rows := SetStatus(w.rows, id, Uploaded, None)), pid, Upload(req, UPublish(id)))
    case UPublish(id) =>
      var job := w.nextJob;
      if !o.Success? then Goto(w.(nextJob := job + 1), pid, Upload(req, UDone(Accepted(id, None))))
      else Goto(w.(nextJob := job + 1, chunking := w.chunking + [UploadMessage(req, id, job)]), pid,
                Upload(req, UPending(id, job)))
    case UPending(id, job) =>
      Goto(if o.Success? then w.(rows := SetStatus(w.rows, id, Pending, Some(job))) else w, pid,
           Upload(req, UDone(Accepted(id, Some(job)))))
    case UUndoObject(id) =>
      Goto(DropObject(w, UploadName(req, id), o), pid, Upload(req, UUndoRow(id)))
    case UUndoRow(id) =>
      Goto(if o.Success? then w.(rows := Remove(w.rows, id)) else w, pid,
           Upload(req, UDone(Refused(Unavailable))))
    case UDone(_) => w
    case UCrashed => w
  }

  function StepRetry(w: World, pid: nat, c: Call, o: Outcome): World
    requires pid < |w.calls| && c.Retry?
  {
    match c.rp
    case RAccess =>
      Goto(w, pid, c.(rp := if o.Success? then RFind else RDone(Refused(AccessError(o)))))
    case RFind =>
      var found := Find(w.rows, c.id, c.project, c.owner);
      Goto(w, pid, c.(rp :=
        if !o.Success? then RDone(Refused(Database))
        else if found.None? then RDone(Refused(NotFound))
        else if !found.value.status.Uploaded? && !found.value.status.Failed? then RDone(Refused(InvalidArgument))
        else RPublish(found.value)))
    case RPublish(src) =>
      var job := w.nextJob;
      if !o.Success? then Goto(w.(nextJob := job + 1), pid, c.(rp := RDone(Refused(Unavailable))))
      else Goto(w.(nextJob := job + 1, chunking := w.chunking + [RowMessage(src, job).(owner := c.owner)]), pid,
                c.(rp := RMark(src, job)))
    case RMark(src, job) =>
      Goto(if o.Success? then w.(rows := SetStatus(w.rows, src.id, Pending, Some(job))) else w, pid,
           c.(rp := RDone(Retried(job))))
    case RDone(_) => w
    case RCrashed => w
  }

  function StepDelete(w: World, pid: nat, c: Call, o: Outcome): World
    requires pid < |w.calls| && c.Delete?
  {
    match c.dp
    case DAccess =>
      Goto(w, pid, c.(dp := if o.Success? then DFind else DDone(Refused(AccessError(o)))))
    case DFind =>
      var found := Find(w.rows, c.id, c.project, c.owner);
      Goto(w, pid, c.(dp :=
        if !o.Success? then DDone(Refused(Database))
        else if found.None? then DDone(Refused(NotFound))
        else DRow(found.value)))
    case DRow(src) =>
      if !o.Success? then Goto(w, pid, c.(dp := DDone(Refused(Database))))
      else if Find(w.rows, c.id, c.project, c.owner).None? then Goto(w, pid, c.(dp := DDone(Refused(NotFound))))
      else Goto(w.(rows := Remove(w.rows, c.id),
                   lost := if LeavesObject(w, src) then w.lost + {NameOf(src)} else w.lost),
                pid, c.(dp := AfterRow(src)))
    case DCancel(src) =>
      Goto(if o.Success? && src.job.Some? then w.(cancels := w.cancels + [CancelJob(src.job.value, c.owner, src.id)]) else w,
           pid, c.(dp := AfterCancel(src)))
    case DObject(src) =>
      Goto(DropObject(w, src.path, o), pid, c.(dp := DDone(Deleted)))
    case DDone(_) => w
    case DCrashed => w
  }

  function Step(w: World, pid: nat, o: Outcome): World
    requires pid < |w.calls|
  {
    match w.calls[pid]
    case Upload(req, pc) => StepUpload(w, pid, req, pc, o)
    case Retry(_, _, _, _) => StepRetry(w, pid, w.calls[pid], o)
    case Delete(_, _, _, _) => StepDelete(w, pid, w.calls[pid], o)
  }

  /** A process dies in the middle of a call: nothing deferred runs. */
  function Stopped(c: Call): Call {
    match c
    case Upload(_, pc) => if pc.UDone? then c else c.(up := UCrashed)
    case Retry(_, _, _, pc) => if pc.RDone? then c else c.(rp := RCrashed)
    case Delete(_, _, _, pc) => if pc.DDone? then c else c.(dp := DCrashed)
  }

  function Stop(w: World, pid: nat): World
    requires pid < |w.calls|
  {
    var held := Holding(w.calls[pid]);
    Goto(if held.Some? then w.(lost := w.lost + {held.value}) else w, pid, Stopped(w.calls[pid]))
  }

  function Next(w: World, e: Event): World {
    match e
    case StartUpload(req) => w.(calls := w.calls + [Upload(req, UAccess)])
    case StartRetry(id, project, owner) => w.(calls := w.calls + [Retry(id, project, owner, RAccess)])
    case StartDelete(id, project, owner) => w.(calls := w.calls + [Delete(id, project, owner, DAccess)])
    case Advance(pid, o) => if pid < |w.calls| then Step(w, pid, o) else w
    case Crash(pid) => if pid < |w.calls| then Stop(w, pid) else w
  }

  /** The state after a sequence of events, from the empty system. */
  function Run(es: seq<Event>): World {
    if es == [] then INITIAL else Next(Run(es[..|es| - 1]), es[|es| - 1])
  }

  lemma RunSnoc(es: seq<Event>, e: Event)
    ensures Run(es + [e]) == Next(Run(es), e)
  {
    assert (es + [e])[..|es|] == es;
  }

  /** The authenticated owner ids of the calls contain no slash. */
  predicate GoodEvent(e: Event) {
    match e
    case StartUpload(req) => SlashFree(req.owner)
    case StartRetry(_, _, owner) => SlashFree(owner)
    case StartDelete(_, _, owner) => SlashFree(owner)
    case _ => true
  }

  predicate GoodEvents(es: seq<Event>) {
    forall k :: 0 <= k < |es| ==> GoodEvent(es[k])
  }
}
