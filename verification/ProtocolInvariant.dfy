/**
 * The inductive invariant of the source lifecycle: it ties every program
 * counter to its row, its object and its message, and holds in every
 * interleaving of failing and crashing calls.
 */
module ProtocolInvariant {
  import opened Options
  import opened ObjectNames
  import opened SourceTable
  import opened SourceProtocol

  /** The part of a row no operation of the service changes. */
  predicate SameIdentity(a: Row, b: Row) {
    a.id == b.id && a.project == b.project && a.owner == b.owner && a.name == b.name &&
    a.kind == b.kind && a.size == b.size && a.url == b.url
  }

  function Rank(s: Status): int {
    match s
    case Uploading => 0
    case Uploaded => 1
    case Pending => 2
    case _ => 3
  }

  predicate Announced(s: Status) {
    s.Uploaded? || s.Pending?
  }

  /** Rows: known statuses only, and what a visible status promises. */
  ghost predicate RowOk(w: World, id: nat)
    requires id in w.rows
  {
    var r := w.rows[id];
    && r.id == id && 0 < id < w.nextId && SlashFree(r.owner)
    && (r.status.Uploading? || Announced(r.status))
    && (r.path == "" || (!r.kind.URL? && r.path == NameOf(r)))
    && (Announced(r.status) && !r.kind.URL? ==> r.path == NameOf(r) && r.path in w.objects)
    && (r.job.Some? <==> r.status.Pending?)
    && (r.status.Pending? ==> RowMessage(r, r.job.value) in w.chunking && r.job.value < w.nextJob)
  }

  /** A copy of a row read earlier still has the right shape. */
  predicate CopyOk(w: World, src: Row) {
    && 0 < src.id < w.nextId && SlashFree(src.owner)
    && (src.status.Uploading? || Announced(src.status))
    && (src.job.Some? <==> src.status.Pending?)
    && (src.job.Some? ==> RowMessage(src, src.job.value) in w.chunking)
    && (src.path == "" || (!src.kind.URL? && src.path == NameOf(src)))
  }

  /** The id an upload works under, or was accepted with. */
  function UploadId(c: Call): Option<nat> {
    if !c.Upload? then None else
      match c.up
      case UPut(id) => Some(id)
      case UPath(id) => Some(id)
      case UMark(id) => Some(id)
      case UPublish(id) => Some(id)
      case UPending(id, _) => Some(id)
      case UUndoObject(id) => Some(id)
      case UUndoRow(id) => Some(id)
      case UDone(Accepted(id, _)) => Some(id)
      case _ => None
  }

  /** The row of an upload, as long as nobody has deleted it. */
  ghost predicate OwnRow(w: World, req: Request, id: nat) {
    && 0 < id < w.nextId && SlashFree(req.owner)
    && (id in w.rows ==> SameIdentity(w.rows[id], NewRow(id, req)))
  }

  ghost predicate UploadOk(w: World, req: Request, pc: UploadPc) {
    match pc
    case UPut(id) =>
      && OwnRow(w, req, id) && !req.kind.URL?
      && (id in w.rows ==> w.rows[id].status.Uploading? && w.rows[id].path == "")
      && (id !in w.rows ==> UploadName(req, id) in w.lost)
      && UploadName(req, id) !in w.objects
    case UPath(id) =>
      && OwnRow(w, req, id) && !req.kind.URL?
      && (id in w.rows ==> w.rows[id].status.Uploading? && w.rows[id].path == "" && UploadName(req, id) in w.objects)
      && (id !in w.rows ==> UploadName(req, id) in w.lost)
    case UMark(id) =>
      && OwnRow(w, req, id)
      && (id in w.rows ==> w.rows[id].status.Uploading? && w.rows[id].path == UploadPath(req, id) &&
                           (!req.kind.URL? ==> UploadName(req, id) in w.objects))
    case UPublish(id) =>
      OwnRow(w, req, id) && (id in w.rows ==> Announced(w.rows[id].status))
    case UPending(id, job) =>
      && OwnRow(w, req, id) && (id in w.rows ==> Announced(w.rows[id].status))
      && UploadMessage(req, id, job) in w.chunking && job < w.nextJob
    case UUndoObject(id) =>
      OwnRow(w, req, id) && !req.kind.URL? && (id in w.rows ==> w.rows[id].status.Uploading?)
    case UUndoRow(id) =>
      && OwnRow(w, req, id) && (id in w.rows ==> w.rows[id].status.Uploading?)
      && (!req.kind.URL? && UploadName(req, id) in w.objects ==> UploadName(req, id) in w.lost)
    case UDone(Accepted(id, job)) =>
      && OwnRow(w, req, id) && (id in w.rows ==> Announced(w.rows[id].status))
      && (job.Some? ==> UploadMessage(req, id, job.value) in w.chunking)
    case _ => SlashFree(req.owner)
  }

  /** A row read as `uploaded` can since only have become `pending`, or be gone. */
  ghost predicate RetrySource(w: World, src: Row) {
    && CopyOk(w, src) && (!src.kind.URL? ==> src.path == NameOf(src))
    && (src.id in w.rows ==>
          SameIdentity(w.rows[src.id], src) && w.rows[src.id].path == src.path && Announced(w.rows[src.id].status))
  }

  ghost predicate CallOk(w: World, c: Call) {
    match c
    case Upload(req, pc) => UploadOk(w, req, pc)
    case Retry(id, _, owner, pc) =>
      && SlashFree(owner)
      && (pc.RPublish? || pc.RMark? ==> pc.src.id == id && pc.src.owner == owner && RetrySource(w, pc.src))
      && (pc.RMark? ==> RowMessage(pc.src, pc.job) in w.chunking && pc.job < w.nextJob)
    case Delete(id, _, owner, pc) =>
      && SlashFree(owner)
      && (pc.DRow? || pc.DCancel? || pc.DObject? ==> pc.src.id == id && pc.src.owner == owner && CopyOk(w, pc.src))
      && (pc.DRow? && id in w.rows ==>
            SameIdentity(w.rows[id], pc.src) && (pc.src.path == "" || w.rows[id].path == pc.src.path))
      && (pc.DCancel? || pc.DObject? ==> id !in w.rows)
      && (pc.DObject? ==> pc.src.path != "")
  }

  /** Why an object is in the bucket: a live row names it, a call holds it, or an event lost it. */
  ghost predicate Accounted(w: World, p: string) {
    || (exists id :: id in w.rows && w.rows[id].path == p)
    || (exists k :: 0 <= k < |w.calls| && Holding(w.calls[k]) == Some(p))
    || p in w.lost
  }

  /** Every object was named after an id that has been given out. */
  predicate NamesSource(w: World, p: string) {
    var second := SecondComponent(p);
    p != "" && second.Some? && 0 < second.value < w.nextId
  }

  /** What every message promises about its own path. */
  predicate MessageOk(m: CreateJob) {
    if m.kind.URL? then m.path == "" else SecondComponent(m.path) == Some(m.source) && !SlashFree(m.path)
  }

  /** A cancel message speaks of a source that is gone and of a job that was announced for it. */
  ghost predicate CancelOk(w: World, m: CancelJob) {
    && m.source < w.nextId && m.source !in w.rows
    && exists c :: c in w.chunking && c.job == m.job && c.owner == m.owner && c.source == m.source
  }

  ghost predicate ObjectsOk(w: World) {
    forall p :: p in w.objects ==> NamesSource(w, p) && Accounted(w, p)
  }

  ghost predicate UploadsDistinct(w: World) {
    forall j, k :: 0 <= j < k < |w.calls| && UploadId(w.calls[j]).Some? ==> UploadId(w.calls[j]) != UploadId(w.calls[k])
  }

  ghost predicate RowsOk(w: World) {
    forall id :: id in w.rows ==> RowOk(w, id)
  }

  ghost predicate CallsOk(w: World) {
    forall k :: 0 <= k < |w.calls| ==> CallOk(w, w.calls[k])
  }

  ghost predicate MessagesOk(w: World) {
    && (forall m :: m in w.chunking ==> MessageOk(m) && m.source < w.nextId)
    && (forall m :: m in w.cancels ==> CancelOk(w, m))
  }

  ghost predicate Inv(w: World) {
    0 < w.nextId && RowsOk(w) && CallsOk(w) && UploadsDistinct(w) && ObjectsOk(w) && MessagesOk(w)
  }

  /** `p` is the path of this row and of no other. */
  ghost predicate NamesAlone(w: World, id: nat, p: string) {
    && id in w.rows && w.rows[id].path == p
    && forall other :: other in w.rows && w.rows[other].path == p ==> other == id
  }

  lemma OnlyOneNames(w: World, id: nat, p: string)
    requires RowsOk(w) && id in w.rows && w.rows[id].path == p && p != ""
    ensures NamesAlone(w, id, p)
  {
    forall other | other in w.rows && w.rows[other].path == p ensures other == id {
      assert RowOk(w, id) && RowOk(w, other);
      ObjectNameInjective(w.rows[id].owner, id, w.rows[id].name, w.rows[other].owner, other, w.rows[other].name);
    }
  }
}
