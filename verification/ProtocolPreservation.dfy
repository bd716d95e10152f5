/** Every event preserves the invariant: one lemma per effect, then one per kind of call. */
module ProtocolPreservation {
  import opened Options
  import opened ObjectNames
  import opened SourceTable
  import opened SourceProtocol
  import opened ProtocolInvariant

  lemma NameFacts()
    ensures forall o, i: nat, n :: SlashFree(o) ==>
      SecondComponent(ObjectName(o, i, n)) == Some(i) && ObjectName(o, i, n) != "" && !SlashFree(ObjectName(o, i, n))
  {
    forall o, i: nat, n | SlashFree(o)
      ensures SecondComponent(ObjectName(o, i, n)) == Some(i) && ObjectName(o, i, n) != "" && !SlashFree(ObjectName(o, i, n))
    {
      SecondComponentOfObjectName(o, i, n);
      SplitObjectName(o, i, n);
    }
  }

  // ---- what one effect does to the other calls -------------------------------

  lemma StableStatus(w: World, v: World, c: Call, id: nat, s: Status, job: Option<JobId>)
    requires CallOk(w, c) && Announced(s)
    requires v == w.(rows := SetStatus(w.rows, id, s, job))
    requires id in w.rows ==> Announced(w.rows[id].status) || UploadId(c) != Some(id)
    ensures CallOk(v, c)
  {
    hide ObjectName, SecondComponent;
  }

  lemma StablePath(w: World, v: World, c: Call, id: nat, path: string)
    requires CallOk(w, c) && UploadId(c) != Some(id)
    requires v == w.(rows := SetPath(w.rows, id, path))
    requires id in w.rows ==> w.rows[id].status.Uploading? && w.rows[id].path == ""
    ensures CallOk(v, c)
  {
    hide ObjectName, SecondComponent;
    if c.Delete? && c.dp.DRow? && c.id == id && id in w.rows {
      assert c.dp.src.path == "";
    }
  }

  lemma StableNewRow(w: World, v: World, c: Call, row: Row)
    requires CallOk(w, c) && row.id == w.nextId
    requires v == w.(rows := w.rows[row.id := row], nextId := row.id + 1)
    ensures CallOk(v, c)
  {
    hide ObjectName, SecondComponent;
  }

  lemma StableRemove(w: World, v: World, c: Call, id: nat, lost: set<string>)
    requires CallOk(w, c) && w.lost <= lost
    requires v == w.(rows := Remove(w.rows, id), lost := lost)
    requires UploadId(c) == Some(id) && BeforePath(c, id) ==> UploadName(c.req, id) in lost
    ensures CallOk(v, c)
  {
    hide ObjectName, SecondComponent;
  }

  lemma StablePut(w: World, v: World, c: Call, name: string, id: nat)
    requires CallOk(w, c) && UploadId(c) != Some(id)
    requires v == w.(objects := w.objects + {name})
    requires SecondComponent(name) == Some(id)
    ensures CallOk(v, c)
  {
    hide ObjectName, SecondComponent;
    NameFacts();
  }

  lemma StableDrop(w: World, v: World, c: Call, name: string, id: nat, o: Outcome)
    requires CallOk(w, c) && v == DropObject(w, name, o)
    requires SecondComponent(name) == Some(id)
    requires id in w.rows ==> UploadId(c) != Some(id)
    ensures CallOk(v, c)
  {
    hide ObjectName, SecondComponent;
    NameFacts();
  }

  lemma StablePublish(w: World, v: World, c: Call, m: CreateJob)
    requires CallOk(w, c)
    requires v == w.(chunking := w.chunking + [m], nextJob := w.nextJob + 1)
    ensures CallOk(v, c)
  {
    hide ObjectName, SecondComponent;
  }

  lemma StableOther(w: World, v: World, c: Call)
    requires CallOk(w, c) && w.lost <= v.lost && w.nextJob <= v.nextJob
    requires v.rows == w.rows && v.nextId == w.nextId && v.objects == w.objects && v.chunking == w.chunking
    ensures CallOk(v, c)
  {
    hide ObjectName, SecondComponent;
  }

  // ---- moving one call on ------------------------------------------------------

  ghost predicate Live(w: World, p: string) {
    exists id :: id in w.rows && w.rows[id].path == p
  }

  /** `Accounted`, once call `pid` has become `c`. */
  ghost predicate AccountedWith(v: World, pid: nat, c: Call, p: string) {
    || Live(v, p)
    || (exists k :: 0 <= k < |v.calls| && k != pid && Holding(v.calls[k]) == Some(p))
    || Holding(c) == Some(p)
    || p in v.lost
  }

  /** An object keeps its reason when its row, its holder, or the new holder does. */
  lemma Carry(w: World, v: World, pid: nat, c: Call, p: string)
    requires pid < |w.calls| && Accounted(w, p) && v.calls == w.calls && w.lost <= v.lost
    requires forall id :: id in w.rows && w.rows[id].path == p ==>
      (id in v.rows && v.rows[id].path == p) || p in v.lost || Holding(c) == Some(p)
    requires Holding(w.calls[pid]) == Some(p) ==> Holding(c) == Some(p) || p in v.lost || Live(v, p)
    ensures AccountedWith(v, pid, c, p)
  {}

  lemma DistinctAfter(w: World, pid: nat, c: Call, calls: seq<Call>)
    requires UploadsDistinct(w) && CallsOk(w) && pid < |w.calls| && calls == w.calls[pid := c]
    requires UploadId(c).None? || UploadId(c) == UploadId(w.calls[pid]) || UploadId(c) == Some(w.nextId)
    ensures forall j, k :: 0 <= j < k < |calls| && UploadId(calls[j]).Some? ==> UploadId(calls[j]) != UploadId(calls[k])
  {
    forall j, k | 0 <= j < k < |calls| && UploadId(calls[j]).Some?
      ensures UploadId(calls[j]) != UploadId(calls[k])
    {
      assert CallOk(w, w.calls[j]) && CallOk(w, w.calls[k]);
    }
  }

  lemma GotoInv(w: World, v: World, pid: nat, c: Call)
    requires Inv(w) && pid < |w.calls| && v.calls == w.calls && w.nextId <= v.nextId
    requires RowsOk(v) && MessagesOk(v) && CallOk(v, c)
    requires forall k :: 0 <= k < |w.calls| && k != pid ==> CallOk(v, w.calls[k])
    requires UploadId(c).None? || UploadId(c) == UploadId(w.calls[pid]) || UploadId(c) == Some(w.nextId)
    requires forall p :: p in v.objects ==> NamesSource(v, p) && AccountedWith(v, pid, c, p)
    ensures Inv(Goto(v, pid, c))
  {
    hide ObjectName, SecondComponent;
    var u := Goto(v, pid, c);
    assert forall id :: id in u.rows ==> RowOk(v, id);
    assert RowsOk(u);
    forall k | 0 <= k < |u.calls| ensures CallOk(u, u.calls[k]) {
      assert CallOk(v, u.calls[k]);
      StableOther(v, u, u.calls[k]);
    }
    forall p | p in u.objects ensures Accounted(u, p) {
      assert AccountedWith(v, pid, c, p);
      if Holding(c) == Some(p) {
        assert Holding(u.calls[pid]) == Some(p);
      } else if k :| 0 <= k < |v.calls| && k != pid && Holding(v.calls[k]) == Some(p) {
        assert Holding(u.calls[k]) == Some(p);
      } else if Live(v, p) {
        var id :| id in v.rows && v.rows[id].path == p;
        assert id in u.rows && u.rows[id].path == p;
      }
    }
    DistinctAfter(w, pid, c, u.calls);
    assert MessagesOk(u) by {
      forall m | m in u.cancels ensures CancelOk(u, m) { assert CancelOk(v, m); }
    }
  }

  /** Steps that only change the call, the logs, the job counter or `lost`. */
  lemma QuietInv(w: World, v: World, pid: nat, c: Call)
    requires Inv(w) && pid < |w.calls| && CallOk(v, c)
    requires v.rows == w.rows && v.objects == w.objects && v.nextId == w.nextId && v.calls == w.calls
    requires v.chunking == w.chunking && w.nextJob <= v.nextJob && w.lost <= v.lost
    requires v.cancels == w.cancels || (exists m :: v.cancels == w.cancels + [m] && CancelOk(w, m))
    requires UploadId(c).None? || UploadId(c) == UploadId(w.calls[pid])
    requires Holding(w.calls[pid]).Some? ==>
      var p := Holding(w.calls[pid]).value;
      Holding(c) == Some(p) || p in v.lost || Live(v, p) || p !in w.objects
    ensures Inv(Goto(v, pid, c))
  {
    hide ObjectName, SecondComponent;
    forall k | 0 <= k < |w.calls| && k != pid ensures CallOk(v, w.calls[k]) {
      StableOther(w, v, w.calls[k]);
    }
    assert forall id :: id in v.rows ==> RowOk(w, id);
    forall p | p in v.objects ensures NamesSource(v, p) && AccountedWith(v, pid, c, p) {
      Carry(w, v, pid, c, p);
    }
    forall m | m in v.cancels ensures CancelOk(v, m) { assert CancelOk(w, m); }
    GotoInv(w, v, pid, c);
  }
}
