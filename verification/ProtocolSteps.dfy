/** The invariant survives every step of every kind of call. */
module ProtocolSteps {
  import opened Options
  import opened ObjectNames
  import opened SourceTable
  import opened SourceProtocol
  import opened ProtocolInvariant
  import opened ProtocolPreservation

  /** A file's object name always reads back as its source id. */
  lemma MessageShape(m: CreateJob, path: string, owner: string, name: string)
    requires SlashFree(owner) && path == ObjectName(owner, m.source, name)
    requires m.path == if m.kind.URL? then "" else path
    ensures MessageOk(m)
  {
    SecondComponentOfObjectName(owner, m.source, name);
    SplitObjectName(owner, m.source, name);
  }

  /** Publishing a create message, by an upload or a retry. */
  lemma PublishInv(w: World, v: World, pid: nat, c: Call, m: CreateJob)
    requires Inv(w) && pid < |w.calls|
    requires v == w.(chunking := w.chunking + [m], nextJob := w.nextJob + 1)
    requires MessageOk(m) && m.source < w.nextId && CallOk(v, c)
    requires UploadId(c).None? || UploadId(c) == UploadId(w.calls[pid])
    requires Holding(w.calls[pid]).None?
    ensures Inv(Goto(v, pid, c))
  {
    hide ObjectName, SecondComponent;
    forall k | 0 <= k < |w.calls| && k != pid ensures CallOk(v, w.calls[k]) {
      StablePublish(w, v, w.calls[k], m);
    }
    forall id | id in v.rows ensures RowOk(v, id) { assert RowOk(w, id); }
    forall p | p in v.objects ensures NamesSource(v, p) && AccountedWith(v, pid, c, p) {
      Carry(w, v, pid, c, p);
    }
    forall x | x in v.cancels ensures CancelOk(v, x) { assert CancelOk(w, x); }
    GotoInv(w, v, pid, c);
  }

  /** Two calls never upload under the same id. */
  lemma Others(w: World, pid: nat, k: nat)
    requires UploadsDistinct(w) && pid < |w.calls| && k < |w.calls| && k != pid
    ensures UploadId(w.calls[pid]).Some? ==> UploadId(w.calls[k]) != UploadId(w.calls[pid])
  {}

  /** Marking a source `uploaded` or `pending`. */
  lemma StatusInv(w: World, v: World, pid: nat, c: Call, id: nat, s: Status, job: Option<JobId>)
    requires Inv(w) && pid < |w.calls| && Announced(s)
    requires v == w.(rows := SetStatus(w.rows, id, s, job))
    requires id in w.rows ==> RowOk(v, id)
    requires id in w.rows ==> Announced(w.rows[id].status) || UploadId(w.calls[pid]) == Some(id)
    requires CallOk(v, c)
    requires UploadId(c).None? || UploadId(c) == UploadId(w.calls[pid])
    requires Holding(w.calls[pid]).None?
    ensures Inv(Goto(v, pid, c))
  {
    hide ObjectName, SecondComponent;
    forall k | 0 <= k < |w.calls| && k != pid ensures CallOk(v, w.calls[k]) {
      Others(w, pid, k);
      StableStatus(w, v, w.calls[k], id, s, job);
    }
    forall i | i in v.rows ensures RowOk(v, i) { assert RowOk(w, i); }
    forall p | p in v.objects ensures NamesSource(v, p) && AccountedWith(v, pid, c, p) {
      Carry(w, v, pid, c, p);
    }
    forall x | x in v.cancels ensures CancelOk(v, x) { assert CancelOk(w, x); }
    GotoInv(w, v, pid, c);
  }

  lemma SaveInv(w: World, pid: nat, req: Request)
    requires Inv(w) && pid < |w.calls| && w.calls[pid] == Upload(req, USave)
    ensures Inv(StepUpload(w, pid, req, USave, Success))
  {
    hide ObjectName, SecondComponent;
    var id := w.nextId;
    var v := w.(rows := w.rows[id := NewRow(id, req)], nextId := id + 1);
    var c := Upload(req, if req.kind.URL? then UMark(id) else UPut(id));
    assert CallOk(w, w.calls[pid]);
    NameFacts();
    forall i | i in w.rows ensures i != id { assert RowOk(w, i); }
    forall k | 0 <= k < |w.calls| && k != pid ensures CallOk(v, w.calls[k]) {
      StableNewRow(w, v, w.calls[k], NewRow(id, req));
    }
    forall i | i in v.rows ensures RowOk(v, i) { if i != id { assert RowOk(w, i); } }
    forall p | p in v.objects ensures NamesSource(v, p) && AccountedWith(v, pid, c, p) {
      assert NamesSource(w, p);
      assert id !in w.rows;
      Carry(w, v, pid, c, p);
    }
    forall x | x in v.cancels ensures CancelOk(v, x) { assert CancelOk(w, x); }
    forall p | p in w.objects ensures p != UploadName(req, id) { assert NamesSource(w, p); }
    GotoInv(w, v, pid, c);
  }

  lemma PutInv(w: World, pid: nat, req: Request, id: nat)
    requires Inv(w) && pid < |w.calls| && w.calls[pid] == Upload(req, UPut(id))
    ensures Inv(StepUpload(w, pid, req, UPut(id), Success))
  {
    hide ObjectName, SecondComponent;
    var name := UploadName(req, id);
    var v := w.(objects := w.objects + {name});
    var c := Upload(req, UPath(id));
    assert CallOk(w, w.calls[pid]);
    NameFacts();
    forall k | 0 <= k < |w.calls| && k != pid ensures CallOk(v, w.calls[k]) {
      Others(w, pid, k);
      StablePut(w, v, w.calls[k], name, id);
    }
    forall i | i in v.rows ensures RowOk(v, i) { assert RowOk(w, i); }
    forall p | p in v.objects ensures NamesSource(v, p) && AccountedWith(v, pid, c, p) {
      if p != name { Carry(w, v, pid, c, p); }
    }
    forall x | x in v.cancels ensures CancelOk(v, x) { assert CancelOk(w, x); }
    GotoInv(w, v, pid, c);
  }

  lemma PathInv(w: World, pid: nat, req: Request, id: nat)
    requires Inv(w) && pid < |w.calls| && w.calls[pid] == Upload(req, UPath(id))
    ensures Inv(StepUpload(w, pid, req, UPath(id), Success))
  {
    hide ObjectName, SecondComponent;
    var name := UploadName(req, id);
    var v := w.(rows := SetPath(w.rows, id, name));
    var c := Upload(req, UMark(id));
    assert CallOk(w, w.calls[pid]);
    NameFacts();
    forall k | 0 <= k < |w.calls| && k != pid ensures CallOk(v, w.calls[k]) {
      Others(w, pid, k);
      StablePath(w, v, w.calls[k], id, name);
    }
    forall i | i in v.rows ensures RowOk(v, i) { assert RowOk(w, i); }
    forall p | p in v.objects ensures NamesSource(v, p) && AccountedWith(v, pid, c, p) {
      assert NamesSource(w, p);
      if p == name {
        if id in w.rows { assert v.rows[id].path == p; }
      } else {
        Carry(w, v, pid, c, p);
      }
    }
    forall x | x in v.cancels ensures CancelOk(v, x) { assert CancelOk(w, x); }
    GotoInv(w, v, pid, c);
  }

  /** Deleting an object no announced row can name. */
  lemma DropInv(w: World, pid: nat, c: Call, name: string, id: nat, o: Outcome)
    requires Inv(w) && pid < |w.calls|
    requires SecondComponent(name) == Some(id)
    requires Holding(w.calls[pid]) == Some(name) && Holding(c).None?
    requires id in w.rows ==> UploadId(w.calls[pid]) == Some(id) && w.rows[id].status.Uploading?
    requires CallOk(DropObject(w, name, o), c)
    requires UploadId(c).None? || UploadId(c) == UploadId(w.calls[pid])
    ensures Inv(Goto(DropObject(w, name, o), pid, c))
  {
    hide ObjectName, SecondComponent;
    var v := DropObject(w, name, o);
    NameFacts();
    forall k | 0 <= k < |w.calls| && k != pid ensures CallOk(v, w.calls[k]) {
      Others(w, pid, k);
      StableDrop(w, v, w.calls[k], name, id, o);
    }
    forall i | i in v.rows ensures RowOk(v, i) { assert RowOk(w, i); }
    forall p | p in v.objects ensures NamesSource(v, p) && AccountedWith(v, pid, c, p) {
      assert NamesSource(w, p);
      if p == name { assert p in v.lost; } else { Carry(w, v, pid, c, p); }
    }
    forall x | x in v.cancels ensures CancelOk(v, x) { assert CancelOk(w, x); }
    GotoInv(w, v, pid, c);
  }

  /** Deleting a row, by the undo of an upload or by a delete. */
  lemma RemoveInv(w: World, v: World, pid: nat, c: Call, id: nat, lost: set<string>)
    requires Inv(w) && pid < |w.calls| && w.lost <= lost && id in w.rows
    requires v == w.(rows := Remove(w.rows, id), lost := lost)
    requires UploadId(c).None? && CallOk(v, c) && Holding(w.calls[pid]).None?
    requires w.rows[id].path in w.objects ==> w.rows[id].path in lost || Holding(c) == Some(w.rows[id].path)
    requires forall k :: 0 <= k < |w.calls| && k != pid && BeforePath(w.calls[k], id) ==> UploadName(w.calls[k].req, id) in lost
    ensures Inv(Goto(v, pid, c))
  {
    hide ObjectName, SecondComponent;
    forall k | 0 <= k < |w.calls| && k != pid ensures CallOk(v, w.calls[k]) {
      StableRemove(w, v, w.calls[k], id, lost);
    }
    forall i | i in v.rows ensures RowOk(v, i) { assert RowOk(w, i); }
    forall p | p in v.objects ensures NamesSource(v, p) && AccountedWith(v, pid, c, p) {
      Carry(w, v, pid, c, p);
    }
    forall x | x in v.cancels ensures CancelOk(v, x) { assert CancelOk(w, x); }
    GotoInv(w, v, pid, c);
  }

  lemma MarkInv(w: World, pid: nat, req: Request, id: nat, o: Outcome)
    requires Inv(w) && pid < |w.calls| && w.calls[pid] == Upload(req, UMark(id))
    ensures Inv(StepUpload(w, pid, req, UMark(id), o))
  {
    hide ObjectName, SecondComponent;
    assert CallOk(w, w.calls[pid]);
    NameFacts();
    if o.Success? {
      var v := w.(rows := SetStatus(w.rows, id, Uploaded, None));
      if id in w.rows { assert RowOk(w, id); }
      StatusInv(w, v, pid, Upload(req, UPublish(id)), id, Uploaded, None);
    } else {
      QuietInv(w, w, pid, Upload(req, if req.kind.URL? then UUndoRow(id) else UUndoObject(id)));
    }
  }

  lemma UploadMessageInv(w: World, pid: nat, req: Request, id: nat, m: CreateJob)
    requires Inv(w) && pid < |w.calls| && w.calls[pid] == Upload(req, UPublish(id))
    requires m == UploadMessage(req, id, w.nextJob)
    ensures Inv(Goto(w.(nextJob := m.job + 1, chunking := w.chunking + [m]), pid, Upload(req, UPending(id, m.job))))
  {
    hide ObjectName, SecondComponent;
    var v := w.(chunking := w.chunking + [m], nextJob := m.job + 1);
    var c := Upload(req, UPending(id, m.job));
    assert CallOk(w, w.calls[pid]);
    assert CallOk(v, c) by { assert m in v.chunking; }
    assert MessageOk(m) by { MessageShape(m, UploadName(req, id), req.owner, req.name); }
    PublishInv(w, v, pid, c, m);
  }

  lemma UploadPublishInv(w: World, pid: nat, req: Request, id: nat, o: Outcome)
    requires Inv(w) && pid < |w.calls| && w.calls[pid] == Upload(req, UPublish(id))
    ensures Inv(StepUpload(w, pid, req, UPublish(id), o))
  {
    hide ObjectName, SecondComponent;
    assert CallOk(w, w.calls[pid]);
    hide RowsOk, CallsOk, UploadsDistinct, ObjectsOk, MessagesOk;
    var job := w.nextJob;
    if o.Success? {
      var m := UploadMessage(req, id, job);
      UploadMessageInv(w, pid, req, id, m);
      assert StepUpload(w, pid, req, UPublish(id), o)
          == Goto(w.(nextJob := m.job + 1, chunking := w.chunking + [m]), pid, Upload(req, UPending(id, m.job)));
    } else {
      QuietInv(w, w.(nextJob := job + 1), pid, Upload(req, UDone(Accepted(id, None))));
    }
  }

  lemma UploadPendingInv(w: World, pid: nat, req: Request, id: nat, job: JobId, o: Outcome)
    requires Inv(w) && pid < |w.calls| && w.calls[pid] == Upload(req, UPending(id, job))
    ensures Inv(StepUpload(w, pid, req, UPending(id, job), o))
  {
    hide ObjectName, SecondComponent;
    assert CallOk(w, w.calls[pid]);
    var c := Upload(req, UDone(Accepted(id, Some(job))));
    if o.Success? {
      var v := w.(rows := SetStatus(w.rows, id, Pending, Some(job)));
      if id in w.rows { assert RowOk(w, id); assert RowMessage(v.rows[id], job) == UploadMessage(req, id, job); }
      StatusInv(w, v, pid, c, id, Pending, Some(job));
    } else {
      QuietInv(w, w, pid, c);
    }
  }

  lemma UndoRowInv(w: World, pid: nat, req: Request, id: nat, o: Outcome)
    requires Inv(w) && pid < |w.calls| && w.calls[pid] == Upload(req, UUndoRow(id))
    ensures Inv(StepUpload(w, pid, req, UUndoRow(id), o))
  {
    hide ObjectName, SecondComponent;
    assert CallOk(w, w.calls[pid]);
    var c := Upload(req, UDone(Refused(Unavailable)));
    if o.Success? && id in w.rows {
      var v := w.(rows := Remove(w.rows, id), lost := w.lost);
      assert RowOk(w, id);
      NameFacts();
      forall p | p == w.rows[id].path && p in w.objects ensures p in w.lost {
        assert NamesSource(w, p);
      }
      forall k | 0 <= k < |w.calls| && k != pid && BeforePath(w.calls[k], id) ensures false {
        Others(w, pid, k);
      }
      RemoveInv(w, v, pid, c, id, w.lost);
    } else {
      assert Remove(w.rows, id) == w.rows || !o.Success?;
      QuietInv(w, w, pid, c);
    }
  }

  lemma UploadInv(w: World, pid: nat, req: Request, pc: UploadPc, o: Outcome)
    requires Inv(w) && pid < |w.calls| && w.calls[pid] == Upload(req, pc)
    ensures Inv(StepUpload(w, pid, req, pc, o))
  {
    hide ObjectName, SecondComponent;
    assert CallOk(w, w.calls[pid]);
    hide RowsOk, CallsOk, UploadsDistinct, ObjectsOk, MessagesOk;
    match pc
    case USave => if o.Success? { SaveInv(w, pid, req); } else { QuietInv(w, w, pid, Upload(req, UDone(Refused(Unavailable)))); }
    case UPut(id) => if o.Success? { PutInv(w, pid, req, id); } else { QuietInv(w, w, pid, Upload(req, UUndoRow(id))); }
    case UPath(id) => if o.Success? { PathInv(w, pid, req, id); } else { QuietInv(w, w, pid, Upload(req, UUndoObject(id))); }
    case UMark(id) => MarkInv(w, pid, req, id, o);
    case UPublish(id) => UploadPublishInv(w, pid, req, id, o);
    case UPending(id, job) => UploadPendingInv(w, pid, req, id, job, o);
    case UUndoObject(id) =>
      NameFacts();
      DropInv(w, pid, Upload(req, UUndoRow(id)), UploadName(req, id), id, o);
    case UUndoRow(id) => UndoRowInv(w, pid, req, id, o);
    case UDone(_) =>
    case UCrashed =>
    case _ => QuietInv(w, w, pid, StepUpload(w, pid, req, pc, o).calls[pid]);
  }

  lemma RetryMessageInv(w: World, pid: nat, c: Call, src: Row, m: CreateJob)
    requires Inv(w) && pid < |w.calls| && w.calls[pid] == c && c.Retry? && c.rp == RPublish(src)
    requires m == RowMessage(src, w.nextJob)
    ensures Inv(Goto(w.(nextJob := m.job + 1, chunking := w.chunking + [m]), pid, c.(rp := RMark(src, m.job))))
  {
    hide ObjectName, SecondComponent;
    var v := w.(chunking := w.chunking + [m], nextJob := m.job + 1);
    var d := c.(rp := RMark(src, m.job));
    assert CallOk(w, c);
    assert CallOk(v, d) by { assert m in v.chunking; }
    assert MessageOk(m) by { MessageShape(m, NameOf(src), src.owner, src.name); }
    PublishInv(w, v, pid, d, m);
  }

  lemma RetryPublishInv(w: World, pid: nat, c: Call, src: Row, o: Outcome)
    requires Inv(w) && pid < |w.calls| && w.calls[pid] == c && c.Retry? && c.rp == RPublish(src)
    ensures Inv(StepRetry(w, pid, c, o))
  {
    hide ObjectName, SecondComponent;
    assert CallOk(w, c);
    hide RowsOk, CallsOk, UploadsDistinct, ObjectsOk, MessagesOk;
    var job := w.nextJob;
    if o.Success? {
      var m := RowMessage(src, job);
      assert m == m.(owner := c.owner);
      RetryMessageInv(w, pid, c, src, m);
      assert StepRetry(w, pid, c, o) == Goto(w.(nextJob := m.job + 1, chunking := w.chunking + [m]), pid, c.(rp := RMark(src, m.job)));
    } else {
      QuietInv(w, w.(nextJob := job + 1), pid, c.(rp := RDone(Refused(Unavailable))));
    }
  }

  lemma RetryMarkInv(w: World, pid: nat, c: Call, src: Row, job: JobId, o: Outcome)
    requires Inv(w) && pid < |w.calls| && w.calls[pid] == c && c.Retry? && c.rp == RMark(src, job)
    ensures Inv(StepRetry(w, pid, c, o))
  {
    hide ObjectName, SecondComponent;
    assert CallOk(w, c);
    var d := c.(rp := RDone(Retried(job)));
    if o.Success? {
      var v := w.(rows := SetStatus(w.rows, src.id, Pending, Some(job)));
      if src.id in w.rows {
        assert RowOk(w, src.id);
        assert RowMessage(v.rows[src.id], job) == RowMessage(src, job);
      }
      StatusInv(w, v, pid, d, src.id, Pending, Some(job));
    } else {
      QuietInv(w, w, pid, d);
    }
  }

  lemma RetryInv(w: World, pid: nat, c: Call, o: Outcome)
    requires Inv(w) && pid < |w.calls| && w.calls[pid] == c && c.Retry?
    ensures Inv(StepRetry(w, pid, c, o))
  {
    hide ObjectName, SecondComponent;
    assert CallOk(w, c);
    match c.rp
    case RFind =>
      var found := Find(w.rows, c.id, c.project, c.owner);
      if found.Some? { assert RowOk(w, c.id); }
      QuietInv(w, w, pid, StepRetry(w, pid, c, o).calls[pid]);
    case RPublish(src) => RetryPublishInv(w, pid, c, src, o);
    case RMark(src, job) => RetryMarkInv(w, pid, c, src, job, o);
    case RDone(_) =>
    case RCrashed =>
    case _ => QuietInv(w, w, pid, StepRetry(w, pid, c, o).calls[pid]);
  }

  lemma DeleteRowInv(w: World, pid: nat, c: Call, src: Row)
    requires Inv(w) && pid < |w.calls| && w.calls[pid] == c && c.Delete? && c.dp == DRow(src)
    requires c.id in w.rows
    ensures Inv(Goto(w.(rows := Remove(w.rows, c.id),
                        lost := if LeavesObject(w, src) then w.lost + {NameOf(src)} else w.lost),
                     pid, c.(dp := AfterRow(src))))
  {
    hide ObjectName, SecondComponent;
    var id := c.id;
    var lost := if LeavesObject(w, src) then w.lost + {NameOf(src)} else w.lost;
    var v := w.(rows := Remove(w.rows, id), lost := lost);
    var d := c.(dp := AfterRow(src));
    assert CallOk(w, c) && RowOk(w, id);
    NameFacts();
    forall k | 0 <= k < |w.calls| && k != pid && BeforePath(w.calls[k], id)
      ensures UploadName(w.calls[k].req, id) in lost
    {
      assert CallOk(w, w.calls[k]);
      assert LeavesObject(w, src);
    }
    var p := w.rows[id].path;
    if p in w.objects {
      assert NamesSource(w, p);
      if src.path == "" { assert LeavesObject(w, src); } else { assert Holding(d) == Some(p); }
    }
    RemoveInv(w, v, pid, d, id, lost);
  }

  lemma CancelInv(w: World, pid: nat, c: Call, src: Row, o: Outcome)
    requires Inv(w) && pid < |w.calls| && w.calls[pid] == c && c.Delete? && c.dp == DCancel(src)
    ensures Inv(StepDelete(w, pid, c, o))
  {
    hide ObjectName, SecondComponent;
    assert CallOk(w, c);
    var d := c.(dp := AfterCancel(src));
    if o.Success? && src.job.Some? {
      var m := CancelJob(src.job.value, c.owner, src.id);
      assert CancelOk(w, m) by { assert RowMessage(src, src.job.value) in w.chunking; }
      var v := w.(cancels := w.cancels + [m]);
      QuietInv(w, v, pid, d);
    } else {
      QuietInv(w, w, pid, d);
    }
  }

  lemma DeleteInv(w: World, pid: nat, c: Call, o: Outcome)
    requires Inv(w) && pid < |w.calls| && w.calls[pid] == c && c.Delete?
    ensures Inv(StepDelete(w, pid, c, o))
  {
    hide ObjectName, SecondComponent;
    assert CallOk(w, c);
    assert c.id in w.rows ==> RowOk(w, c.id);
    hide RowsOk, CallsOk, UploadsDistinct, ObjectsOk, MessagesOk;
    match c.dp
    case DFind =>
      QuietInv(w, w, pid, StepDelete(w, pid, c, o).calls[pid]);
    case DRow(src) =>
      if o.Success? && Find(w.rows, c.id, c.project, c.owner).Some? {
        DeleteRowInv(w, pid, c, src);
      } else {
        QuietInv(w, w, pid, StepDelete(w, pid, c, o).calls[pid]);
      }
    case DCancel(src) => CancelInv(w, pid, c, src, o);
    case DObject(src) =>
      NameFacts();
      DropInv(w, pid, c.(dp := DDone(Deleted)), src.path, src.id, o);
    case DDone(_) =>
    case DCrashed =>
    case _ => QuietInv(w, w, pid, StepDelete(w, pid, c, o).calls[pid]);
  }

  lemma StopInv(w: World, pid: nat)
    requires Inv(w) && pid < |w.calls|
    ensures Inv(Stop(w, pid))
  {
    var c := w.calls[pid];
    assert CallOk(w, c);
    var held := Holding(c);
    var v := if held.Some? then w.(lost := w.lost + {held.value}) else w;
    QuietInv(w, v, pid, Stopped(c));
  }

  lemma StartInv(w: World, c: Call)
    requires Inv(w) && CallOk(w, c) && UploadId(c).None? && Holding(c).None?
    ensures Inv(w.(calls := w.calls + [c]))
  {
    var u := w.(calls := w.calls + [c]);
    forall id | id in u.rows ensures RowOk(u, id) { assert RowOk(w, id); }
    forall k | 0 <= k < |u.calls| ensures CallOk(u, u.calls[k]) {
      if k < |w.calls| { assert CallOk(w, w.calls[k]); }
      StableOther(w, u, u.calls[k]);
    }
    forall p | p in u.objects ensures NamesSource(u, p) && Accounted(u, p) {
      assert Accounted(w, p);
      if k :| 0 <= k < |w.calls| && Holding(w.calls[k]) == Some(p) {
        assert Holding(u.calls[k]) == Some(p);
      }
    }
    forall m | m in u.cancels ensures CancelOk(u, m) { assert CancelOk(w, m); }
  }

  lemma NextInv(w: World, e: Event)
    requires Inv(w) && GoodEvent(e)
    ensures Inv(Next(w, e))
  {
    match e
    case StartUpload(req) => StartInv(w, Upload(req, UAccess));
    case StartRetry(id, project, owner) => StartInv(w, Retry(id, project, owner, RAccess));
    case StartDelete(id, project, owner) => StartInv(w, Delete(id, project, owner, DAccess));
    case Advance(pid, o) =>
      if pid < |w.calls| {
        match w.calls[pid]
        case Upload(req, pc) => UploadInv(w, pid, req, pc, o);
        case Retry(_, _, _, _) => RetryInv(w, pid, w.calls[pid], o);
        case Delete(_, _, _, _) => DeleteInv(w, pid, w.calls[pid], o);
      }
    case Crash(pid) => if pid < |w.calls| { StopInv(w, pid); }
  }

  lemma {:induction false} RunInv(es: seq<Event>)
    requires GoodEvents(es)
    ensures Inv(Run(es))
  {
    if es == [] {
    } else {
      RunInv(es[..|es| - 1]);
      NextInv(Run(es[..|es| - 1]), es[|es| - 1]);
    }
  }
}
