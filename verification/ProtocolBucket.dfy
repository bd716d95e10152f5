/**
 * What the bucket contains, exactly, after any run without crashes and without failing
 * storage deletes: the guard in front of a delete's last call decides which objects are orphaned.
 */
module ProtocolBucket {
  import opened Options
  import opened ObjectNames
  import opened SourceTable
  import opened SourceProtocol
  import opened ProtocolInvariant
  import opened ProtocolPreservation
  import opened ProtocolSteps
  import opened ProtocolTheorems
  import opened ProtocolCancels

  // ---- runs without crashes and failing storage deletes --------------------------------

  predicate DropsObject(c: Call) {
    (c.Upload? && c.up.UUndoObject?) || (c.Delete? && c.dp.DObject?)
  }

  predicate Clean(w: World, e: Event) {
    && !e.Crash?
    && (e.Advance? && e.pid < |w.calls| && DropsObject(w.calls[e.pid]) ==> e.outcome.Success?)
  }

  predicate CleanRun(es: seq<Event>) {
    es != [] ==> CleanRun(es[..|es| - 1]) && Clean(Run(es[..|es| - 1]), es[|es| - 1])
  }

  /** The id whose row this event removes although its delete has read no path. */
  function RemovedBlindly(w: World, e: Event): set<nat> {
    if e.Advance? && Removes(w, e, e.pid) && w.calls[e.pid].dp.src.path == "" then {w.calls[e.pid].id} else {}
  }

  /** The ids whose row was removed by a delete that had read no path. */
  function Blind(es: seq<Event>): set<nat> {
    if es == [] then {} else Blind(es[..|es| - 1]) + RemovedBlindly(Run(es[..|es| - 1]), es[|es| - 1])
  }

  // ---- the invariant --------------------------------------------------------------------

  /** A file upload that has stored its object and not taken it back. */
  function StoredId(c: Call): Option<nat> {
    if c.Upload? && !c.req.kind.URL? && (c.up.UPath? || c.up.UMark? || c.up.UPublish? || c.up.UPending? || c.up.UUndoObject?)
    then Some(c.up.id)
    else if c.Upload? && !c.req.kind.URL? && c.up.UDone? && c.up.reply.Accepted? then Some(c.up.reply.id)
    else None
  }

  /** A delete that has removed the row of a source and will delete its object. */
  function HeldId(c: Call): Option<nat> {
    if c.Delete? && (c.dp.DCancel? || c.dp.DObject?) && c.dp.src.path != "" then Some(c.dp.src.id) else None
  }

  predicate Keeps(c: Call, p: string) {
    StoredId(c).Some? && UploadName(c.req, StoredId(c).value) == p
  }

  ghost predicate Held(w: World, id: nat) {
    exists k :: 0 <= k < |w.calls| && HeldId(w.calls[k]) == Some(id)
  }

  ghost predicate Stays(w: World, blind: set<nat>, id: nat) {
    id in w.rows || id in blind || Held(w, id)
  }

  ghost predicate AllKept(w: World) {
    forall p :: p in w.objects ==> exists k :: 0 <= k < |w.calls| && Keeps(w.calls[k], p)
  }

  ghost predicate ExactFor(w: World, blind: set<nat>, c: Call)
    requires StoredId(c).Some?
  {
    var id := StoredId(c).value;
    && (UploadName(c.req, id) in w.objects <==> Stays(w, blind, id))
    && forall j :: 0 <= j < |w.calls| && HeldId(w.calls[j]) == Some(id) ==> w.calls[j].dp.src.path == UploadName(c.req, id)
  }

  ghost predicate Exact(w: World, blind: set<nat>) {
    forall k :: 0 <= k < |w.calls| && StoredId(w.calls[k]).Some? ==> ExactFor(w, blind, w.calls[k])
  }

  /** An upload in front of its put still has its row, unless a delete removed it, which then read no path. */
  ghost predicate Waiting(w: World, blind: set<nat>) {
    forall k :: 0 <= k < |w.calls| && w.calls[k].Upload? && w.calls[k].up.UPut? ==>
      w.calls[k].up.id in w.rows || w.calls[k].up.id in blind
  }

  ghost predicate HoldersOk(w: World, blind: set<nat>) {
    && (forall id :: id in blind ==> id !in w.rows && id < w.nextId && !Held(w, id))
    && (forall j, k :: 0 <= j < k < |w.calls| && HeldId(w.calls[j]).Some? ==> HeldId(w.calls[j]) != HeldId(w.calls[k]))
  }

  ghost predicate BucketInv(w: World, blind: set<nat>) {
    AllKept(w) && Exact(w, blind) && Waiting(w, blind) && HoldersOk(w, blind)
  }

  // ---- every step keeps it ------------------------------------------------------------------

  /** What the invariant can tell of a call is the same of both. */
  predicate Alike(c: Call, d: Call) {
    && StoredId(c) == StoredId(d) && (StoredId(c).Some? ==> c.req == d.req)
    && HeldId(c) == HeldId(d) && (HeldId(c).Some? ==> c.dp.src.path == d.dp.src.path)
  }

  lemma IdsAreOld(w: World, k: nat)
    requires Inv(w) && k < |w.calls|
    ensures StoredId(w.calls[k]).Some? ==> StoredId(w.calls[k]) == UploadId(w.calls[k]) && StoredId(w.calls[k]).value < w.nextId
    ensures HeldId(w.calls[k]).Some? ==> HeldId(w.calls[k]).value < w.nextId && HeldId(w.calls[k]).value !in w.rows
  {
    hide NameOf, UploadName, SecondComponent;
    assert CallOk(w, w.calls[k]);
  }

  lemma Transfer(w: World, v: World, blind: set<nat>)
    requires Inv(w) && AllKept(w) && Exact(w, blind) && HoldersOk(w, blind)
    requires |v.calls| == |w.calls| && v.objects == w.objects && w.nextId <= v.nextId
    requires forall k :: 0 <= k < |w.calls| ==> Alike(w.calls[k], v.calls[k])
    requires forall id :: id < w.nextId ==> (id in v.rows <==> id in w.rows)
    ensures AllKept(v) && Exact(v, blind) && HoldersOk(v, blind)
  {
    hide Inv, UploadName;
    forall p | p in v.objects ensures exists k :: 0 <= k < |v.calls| && Keeps(v.calls[k], p) {
      var k :| 0 <= k < |w.calls| && Keeps(w.calls[k], p);
      assert Keeps(v.calls[k], p);
    }
    forall id: nat ensures Held(v, id) <==> Held(w, id) {
      if k :| 0 <= k < |w.calls| && HeldId(w.calls[k]) == Some(id) { assert HeldId(v.calls[k]) == Some(id); }
      if k :| 0 <= k < |v.calls| && HeldId(v.calls[k]) == Some(id) { assert HeldId(w.calls[k]) == Some(id); }
    }
    forall k | 0 <= k < |v.calls| && StoredId(v.calls[k]).Some? ensures ExactFor(v, blind, v.calls[k]) {
      IdsAreOld(w, k);
      assert ExactFor(w, blind, w.calls[k]);
    }
  }

  /** Steps that leave the bucket alone and neither remove a row nor change what a call stores or holds. */
  lemma NothingMoves(w: World, v: World, pid: nat, c: Call, blind: set<nat>)
    requires Inv(w) && BucketInv(w, blind) && pid < |w.calls|
    requires v.calls == w.calls[pid := c] && Alike(w.calls[pid], c) && v.objects == w.objects && w.nextId <= v.nextId
    requires forall id :: id < w.nextId ==> (id in v.rows <==> id in w.rows)
    requires c.Upload? && c.up.UPut? ==> c.up.id in v.rows || w.calls[pid] == c
    ensures BucketInv(v, blind)
  {
    forall k | 0 <= k < |w.calls| ensures Alike(w.calls[k], v.calls[k]) {}
    Transfer(w, v, blind);
    forall k | 0 <= k < |v.calls| && v.calls[k].Upload? && v.calls[k].up.UPut?
      ensures v.calls[k].up.id in v.rows || v.calls[k].up.id in blind
    {
      if k != pid || w.calls[pid] == c { assert CallOk(w, w.calls[k]); }
    }
  }

  /** Names of different sources differ. */
  lemma OtherName(w: World, c: Call, name: string, id: nat)
    requires CallOk(w, c) && StoredId(c).Some? && StoredId(c) != Some(id) && SecondComponent(name) == Some(id)
    ensures UploadName(c.req, StoredId(c).value) != name
  {
    hide ObjectName, SecondComponent;
    assert SlashFree(c.req.owner);
    SecondComponentOfObjectName(c.req.owner, StoredId(c).value, c.req.name);
  }

  /** No holder comes or goes with this call. */
  lemma SameHolders(w: World, v: World, pid: nat)
    requires pid < |w.calls| == |v.calls| && v.calls == w.calls[pid := v.calls[pid]]
    requires HeldId(w.calls[pid]) == HeldId(v.calls[pid])
    ensures forall i: nat :: Held(v, i) <==> Held(w, i)
  {
    forall i: nat ensures Held(v, i) <==> Held(w, i) {
      if k :| 0 <= k < |w.calls| && HeldId(w.calls[k]) == Some(i) { assert HeldId(v.calls[k]) == Some(i); }
      if k :| 0 <= k < |v.calls| && HeldId(v.calls[k]) == Some(i) { assert HeldId(w.calls[k]) == Some(i); }
    }
  }

  lemma KeeperStays(w: World, v: World, pid: nat, p: string)
    requires AllKept(w) && p in w.objects && pid < |w.calls| == |v.calls| && v.calls == w.calls[pid := v.calls[pid]]
    requires !Keeps(w.calls[pid], p)
    ensures exists k :: 0 <= k < |v.calls| && Keeps(v.calls[k], p)
  {
    hide UploadName;
    var k :| 0 <= k < |w.calls| && Keeps(w.calls[k], p);
    assert Keeps(v.calls[k], p);
  }

  /** Another upload's object is not the one of upload `pid`. */
  lemma OneStore(w: World, pid: nat, k: nat, name: string, id: nat)
    requires Inv(w) && pid < |w.calls| && k < |w.calls| && k != pid && UploadId(w.calls[pid]) == Some(id)
    requires StoredId(w.calls[k]).Some? && SecondComponent(name) == Some(id)
    ensures StoredId(w.calls[k]) != Some(id) && UploadName(w.calls[k].req, StoredId(w.calls[k]).value) != name
  {
    IdsAreOld(w, k);
    Others(w, pid, k);
    assert CallOk(w, w.calls[k]);
    hide Inv;
    OtherName(w, w.calls[k], name, id);
  }

  /** An object that one upload stores or takes back says nothing about the others. */
  lemma OthersExact(w: World, v: World, pid: nat, k: nat, name: string, id: nat, blind: set<nat>)
    requires Inv(w) && pid < |w.calls| && k < |w.calls| && k != pid && UploadId(w.calls[pid]) == Some(id)
    requires StoredId(w.calls[k]).Some? && ExactFor(w, blind, w.calls[k]) && SecondComponent(name) == Some(id)
    requires v.rows == w.rows && (forall p :: p != name ==> (p in v.objects <==> p in w.objects))
    requires |v.calls| == |w.calls| && v.calls == w.calls[pid := v.calls[pid]] && HeldId(w.calls[pid]).None? && HeldId(v.calls[pid]).None?
    ensures ExactFor(v, blind, v.calls[k])
  {
    OneStore(w, pid, k, name, id);
    SameHolders(w, v, pid);
    hide Inv, UploadName, SecondComponent, Held;
  }

  /** Rows and holders stay as they are. */
  lemma HoldersStay(w: World, v: World, pid: nat, blind: set<nat>)
    requires Waiting(w, blind) && HoldersOk(w, blind)
    requires pid < |w.calls| == |v.calls| && v.calls == w.calls[pid := v.calls[pid]] && HeldId(w.calls[pid]) == HeldId(v.calls[pid])
    requires !(v.calls[pid].Upload? && v.calls[pid].up.UPut?) && v.rows == w.rows && v.nextId == w.nextId
    ensures Waiting(v, blind) && HoldersOk(v, blind)
    ensures forall i: nat :: Held(v, i) <==> Held(w, i)
  {
    SameHolders(w, v, pid);
    hide Held;
  }

  /** No delete holds the object of an upload that has yet to store it. */
  lemma NotHeldYet(w: World, pid: nat, id: nat, blind: set<nat>)
    requires Inv(w) && Waiting(w, blind) && HoldersOk(w, blind) && pid < |w.calls|
    requires w.calls[pid].Upload? && w.calls[pid].up == UPut(id)
    ensures forall k :: 0 <= k < |w.calls| ==> HeldId(w.calls[k]) != Some(id)
  {
    hide Inv;
    forall k | 0 <= k < |w.calls| ensures HeldId(w.calls[k]) != Some(id) {
      IdsAreOld(w, k);
      assert HeldId(w.calls[k]) == Some(id) ==> Held(w, id);
    }
  }

  /** The upload that has just stored its object. */
  lemma OwnExact(w: World, v: World, pid: nat, id: nat, blind: set<nat>)
    requires pid < |w.calls| == |v.calls| && v.calls == w.calls[pid := v.calls[pid]] && v.rows == w.rows
    requires Waiting(w, blind) && w.calls[pid].Upload? && w.calls[pid].up == UPut(id)
    requires StoredId(v.calls[pid]) == Some(id) && UploadName(v.calls[pid].req, id) in v.objects
    requires forall k :: 0 <= k < |w.calls| ==> HeldId(w.calls[k]) != Some(id)
    ensures ExactFor(v, blind, v.calls[pid])
  {
    hide UploadName, Held;
  }

  lemma PutKeeps(w: World, pid: nat, req: Request, id: nat, blind: set<nat>)
    requires Inv(w) && BucketInv(w, blind) && pid < |w.calls| && w.calls[pid] == Upload(req, UPut(id))
    ensures BucketInv(StepUpload(w, pid, req, UPut(id), Success), blind)
  {
    var name, v := UploadName(req, id), StepUpload(w, pid, req, UPut(id), Success);
    assert CallOk(w, w.calls[pid]);
    SecondComponentOfObjectName(req.owner, id, req.name);
    hide Inv, CallOk, UploadName, SecondComponent, Held, HoldersOk, Waiting, ExactFor;
    NotHeldYet(w, pid, id, blind);
    HoldersStay(w, v, pid, blind);
    OwnExact(w, v, pid, id, blind);
    forall p | p in v.objects ensures exists k :: 0 <= k < |v.calls| && Keeps(v.calls[k], p) {
      if p == name { assert Keeps(v.calls[pid], p); } else { KeeperStays(w, v, pid, p); }
    }
    forall k | 0 <= k < |v.calls| && StoredId(v.calls[k]).Some? ensures ExactFor(v, blind, v.calls[k]) {
      if k != pid { OthersExact(w, v, pid, k, name, id, blind); }
    }
  }

  /** An upload takes back its object. */
  lemma UndoKeeps(w: World, pid: nat, req: Request, id: nat, blind: set<nat>)
    requires Inv(w) && BucketInv(w, blind) && pid < |w.calls| && w.calls[pid] == Upload(req, UUndoObject(id))
    ensures BucketInv(StepUpload(w, pid, req, UUndoObject(id), Success), blind)
  {
    var name, v := UploadName(req, id), StepUpload(w, pid, req, UUndoObject(id), Success);
    assert CallOk(w, w.calls[pid]);
    SecondComponentOfObjectName(req.owner, id, req.name);
    HoldersStay(w, v, pid, blind);
    hide Inv, CallOk, UploadName, SecondComponent, Held, HoldersOk, Waiting;
    forall p | p in v.objects ensures exists k :: 0 <= k < |v.calls| && Keeps(v.calls[k], p) {
      KeeperStays(w, v, pid, p);
    }
    forall k | 0 <= k < |v.calls| && StoredId(v.calls[k]).Some? ensures ExactFor(v, blind, v.calls[k]) {
      OthersExact(w, v, pid, k, name, id, blind);
    }
  }

  lemma UndoRowExact(w: World, v: World, k: nat, id: nat, blind: set<nat>)
    requires k < |w.calls| && StoredId(w.calls[k]).Some? && StoredId(w.calls[k]) != Some(id) && ExactFor(w, blind, w.calls[k])
    requires v.rows == Remove(w.rows, id) && v.objects == w.objects && (forall i: nat :: Held(v, i) <==> Held(w, i))
    requires forall j :: 0 <= j < |v.calls| && HeldId(v.calls[j]).Some? ==> j < |w.calls| && v.calls[j] == w.calls[j]
    ensures ExactFor(v, blind, w.calls[k])
  {
    hide UploadName, Held;
  }

  /** An upload takes back its row. */
  lemma UndoRowKeeps(w: World, pid: nat, req: Request, id: nat, blind: set<nat>)
    requires Inv(w) && BucketInv(w, blind) && pid < |w.calls| && w.calls[pid] == Upload(req, UUndoRow(id))
    ensures BucketInv(StepUpload(w, pid, req, UUndoRow(id), Success), blind)
  {
    var v := StepUpload(w, pid, req, UUndoRow(id), Success);
    SameHolders(w, v, pid);
    forall k | 0 <= k < |w.calls| ensures k != pid ==> UploadId(w.calls[k]) != Some(id) {
      if k != pid { Others(w, pid, k); }
    }
    assert Waiting(v, blind);
    assert HoldersOk(v, blind) by { hide Held, Inv; }
    hide Waiting, HoldersOk, UploadName, Held;
    forall p | p in v.objects ensures exists k :: 0 <= k < |v.calls| && Keeps(v.calls[k], p) {
      KeeperStays(w, v, pid, p);
    }
    forall k | 0 <= k < |v.calls| && StoredId(v.calls[k]).Some? ensures ExactFor(v, blind, v.calls[k]) {
      IdsAreOld(w, k);
      hide Inv;
      UndoRowExact(w, v, k, id, blind);
    }
  }

  lemma DropExact(w: World, v: World, k: nat, src: Row, blind: set<nat>)
    requires Inv(w) && k < |w.calls| && StoredId(w.calls[k]).Some? && ExactFor(w, blind, w.calls[k])
    requires Held(w, src.id) && src.id !in w.rows && src.id !in blind && SecondComponent(src.path) == Some(src.id)
    requires exists j :: 0 <= j < |w.calls| && HeldId(w.calls[j]) == Some(src.id) && w.calls[j].dp.src.path == src.path
    requires v.rows == w.rows && v.objects == w.objects - {src.path}
    requires forall i: nat :: Held(v, i) <==> Held(w, i) && i != src.id
    requires forall j :: 0 <= j < |v.calls| && HeldId(v.calls[j]).Some? ==> j < |w.calls| && v.calls[j] == w.calls[j]
    ensures ExactFor(v, blind, w.calls[k])
  {
    var c := w.calls[k];
    assert CallOk(w, c);
    hide Inv, CallOk, UploadName, SecondComponent, Held;
    if StoredId(c) != Some(src.id) { OtherName(w, c, src.path, src.id); }
  }

  lemma BlindNotHeld(w: World, id: nat, blind: set<nat>)
    requires HoldersOk(w, blind) && Held(w, id)
    ensures id !in blind
  {}

  lemma DropHolders(w: World, v: World, pid: nat, id: nat, blind: set<nat>)
    requires HoldersOk(w, blind) && pid < |w.calls| && HeldId(w.calls[pid]) == Some(id)
    requires |v.calls| == |w.calls| && v.calls == w.calls[pid := v.calls[pid]] && HeldId(v.calls[pid]).None?
    requires v.rows == w.rows && v.nextId == w.nextId
    ensures Held(w, id) && HoldersOk(v, blind)
    ensures forall i: nat :: Held(v, i) <==> Held(w, i) && i != id
  {
    assert Held(w, id);
    forall i: nat ensures Held(v, i) <==> Held(w, i) && i != id {
      if k :| 0 <= k < |w.calls| && HeldId(w.calls[k]) == Some(i) && i != id { assert HeldId(v.calls[k]) == Some(i); }
      if k :| 0 <= k < |v.calls| && HeldId(v.calls[k]) == Some(i) { assert HeldId(w.calls[k]) == Some(i); }
    }
  }

  /** A delete drops the object whose row it has removed. */
  lemma DropKeeps(w: World, pid: nat, c: Call, src: Row, blind: set<nat>)
    requires Inv(w) && BucketInv(w, blind) && pid < |w.calls| && w.calls[pid] == c && c.Delete? && c.dp == DObject(src)
    ensures BucketInv(StepDelete(w, pid, c, Success), blind)
  {
    var v := StepDelete(w, pid, c, Success);
    assert CallOk(w, c);
    SecondComponentOfObjectName(src.owner, src.id, src.name);
    assert SecondComponent(src.path) == Some(src.id);
    IdsAreOld(w, pid);
    DropHolders(w, v, pid, src.id, blind);
    hide Inv, CallOk, UploadName, SecondComponent, NameOf, Held, HoldersOk;
    assert src.id !in blind by { BlindNotHeld(w, src.id, blind); }
    forall p | p in v.objects ensures exists k :: 0 <= k < |v.calls| && Keeps(v.calls[k], p) {
      KeeperStays(w, v, pid, p);
    }
    forall k | 0 <= k < |v.calls| && StoredId(v.calls[k]).Some? ensures ExactFor(v, blind, v.calls[k]) {
      DropExact(w, v, k, src, blind);
    }
  }

  /** The row of an upload that has stored its object is its own, if it is there. */
  lemma StoredOwnsRow(w: World, k: nat)
    requires Inv(w) && k < |w.calls| && StoredId(w.calls[k]).Some?
    ensures var c := w.calls[k]; var id := StoredId(c).value;
      !c.req.kind.URL? && (id in w.rows ==> SameIdentity(w.rows[id], NewRow(id, c.req)))
  {
    assert CallOk(w, w.calls[k]);
    hide ObjectName, SecondComponent, RowsOk, CallsOk, UploadsDistinct, ObjectsOk, MessagesOk;
  }

  lemma RemoveExact(w: World, v: World, k: nat, src: Row, blind: set<nat>, more: set<nat>)
    requires Inv(w) && k < |w.calls| && StoredId(w.calls[k]).Some? && ExactFor(w, blind, w.calls[k])
    requires src.id in w.rows && SameIdentity(w.rows[src.id], src) && (src.path == "" || (!src.kind.URL? && src.path == NameOf(src)))
    requires !Held(w, src.id) && more == blind + (if src.path == "" then {src.id} else {})
    requires v.rows == Remove(w.rows, src.id) && v.objects == w.objects
    requires forall i: nat :: Held(v, i) <==> Held(w, i) || (i == src.id && src.path != "")
    requires forall j :: 0 <= j < |v.calls| && HeldId(v.calls[j]).Some? ==>
      (j < |w.calls| && v.calls[j] == w.calls[j]) || (v.calls[j].dp.src == src)
    ensures ExactFor(v, more, w.calls[k])
  {
    var c := w.calls[k];
    StoredOwnsRow(w, k);
    hide Inv, ObjectName, Held;
    if StoredId(c) == Some(src.id) && src.path != "" {
      assert src.path == UploadName(c.req, src.id);
    }
  }

  /** A delete that still finds the row of an upload in front of its put has read no path. */
  lemma WaitingRead(w: World, pid: nat, k: nat)
    requires Inv(w) && pid < |w.calls| && w.calls[pid].Delete? && w.calls[pid].dp.DRow? && w.calls[pid].id in w.rows
    requires k < |w.calls| && w.calls[k].Upload? && w.calls[k].up == UPut(w.calls[pid].id)
    ensures w.calls[pid].dp.src.path == ""
  {
    assert CallOk(w, w.calls[k]) && CallOk(w, w.calls[pid]);
    hide ObjectName, SecondComponent, RowsOk, CallsOk, UploadsDistinct, ObjectsOk, MessagesOk;
  }

  lemma RemoveHolders(w: World, v: World, pid: nat, src: Row, blind: set<nat>, more: set<nat>)
    requires Inv(w) && HoldersOk(w, blind) && pid < |w.calls| && src.id in w.rows && w.nextId <= v.nextId
    requires HeldId(w.calls[pid]).None? && |v.calls| == |w.calls| && v.calls == w.calls[pid := v.calls[pid]]
    requires HeldId(v.calls[pid]) == (if src.path != "" then Some(src.id) else None)
    requires v.rows == Remove(w.rows, src.id) && more == blind + (if src.path == "" then {src.id} else {})
    ensures !Held(w, src.id) && HoldersOk(v, more)
    ensures forall i: nat :: Held(v, i) <==> Held(w, i) || (i == src.id && src.path != "")
  {
    assert RowOk(w, src.id);
    forall k | 0 <= k < |w.calls| ensures HeldId(w.calls[k]) != Some(src.id) { IdsAreOld(w, k); }
    hide Inv;
    forall i: nat ensures Held(v, i) <==> Held(w, i) || (i == src.id && src.path != "") {
      if k :| 0 <= k < |w.calls| && HeldId(w.calls[k]) == Some(i) { assert HeldId(v.calls[k]) == Some(i); }
      if k :| 0 <= k < |v.calls| && HeldId(v.calls[k]) == Some(i) { assert k != pid ==> HeldId(w.calls[k]) == Some(i); }
      if i == src.id && src.path != "" { assert HeldId(v.calls[pid]) == Some(src.id); }
    }
  }

  /** A delete removes a row: it will delete the object, or it has read no path and leaves it. */
  lemma RemoveKeeps(w: World, pid: nat, c: Call, src: Row, blind: set<nat>)
    requires Inv(w) && BucketInv(w, blind) && pid < |w.calls| && w.calls[pid] == c && c.Delete? && c.dp == DRow(src)
    requires Find(w.rows, c.id, c.project, c.owner).Some?
    ensures BucketInv(StepDelete(w, pid, c, Success), blind + (if src.path == "" then {c.id} else {}))
  {
    var v := StepDelete(w, pid, c, Success);
    var more := blind + (if src.path == "" then {c.id} else {});
    assert CallOk(w, c);
    RemoveHolders(w, v, pid, src, blind, more);
    forall k | 0 <= k < |v.calls| && v.calls[k].Upload? && v.calls[k].up.UPut?
      ensures v.calls[k].up.id in v.rows || v.calls[k].up.id in more
    {
      if v.calls[k].up.id == c.id { WaitingRead(w, pid, k); }
    }
    hide Inv, UploadName, NameOf, Held, HoldersOk;
    forall p | p in v.objects ensures exists k :: 0 <= k < |v.calls| && Keeps(v.calls[k], p) {
      KeeperStays(w, v, pid, p);
    }
    forall k | 0 <= k < |v.calls| && StoredId(v.calls[k]).Some? ensures ExactFor(v, more, v.calls[k]) {
      RemoveExact(w, v, k, src, blind, more);
    }
  }

  lemma StartKeeps(w: World, c: Call, blind: set<nat>)
    requires BucketInv(w, blind) && StoredId(c).None? && HeldId(c).None? && !(c.Upload? && c.up.UPut?)
    ensures BucketInv(w.(calls := w.calls + [c]), blind)
  {
    var v := w.(calls := w.calls + [c]);
    hide UploadName;
    forall p | p in v.objects ensures exists k :: 0 <= k < |v.calls| && Keeps(v.calls[k], p) {
      var k :| 0 <= k < |w.calls| && Keeps(w.calls[k], p);
      assert Keeps(v.calls[k], p);
    }
    forall i: nat ensures Held(v, i) <==> Held(w, i) {
      if k :| 0 <= k < |w.calls| && HeldId(w.calls[k]) == Some(i) { assert HeldId(v.calls[k]) == Some(i); }
      if k :| 0 <= k < |v.calls| && HeldId(v.calls[k]) == Some(i) { assert HeldId(w.calls[k]) == Some(i); }
    }
    forall k | 0 <= k < |v.calls| && StoredId(v.calls[k]).Some? ensures ExactFor(v, blind, v.calls[k]) {
      assert ExactFor(w, blind, w.calls[k]);
    }
  }

  lemma QuietUploadCall(w: World, pid: nat, req: Request, pc: UploadPc, o: Outcome)
    requires pid < |w.calls| && w.calls[pid] == Upload(req, pc)
    requires !pc.UUndoObject? && (pc.UPut? || pc.UUndoRow? ==> !o.Success?)
    ensures var v := StepUpload(w, pid, req, pc, o);
      |v.calls| == |w.calls| && v.calls == w.calls[pid := v.calls[pid]] && Alike(w.calls[pid], v.calls[pid])
  {
    hide UploadName, IdsOf, NewRow, SetPath, SetStatus, UploadMessage;
  }

  lemma QuietUploadRows(w: World, pid: nat, req: Request, pc: UploadPc, o: Outcome)
    requires pid < |w.calls| && w.calls[pid] == Upload(req, pc)
    requires !pc.UUndoObject? && (pc.UPut? || pc.UUndoRow? ==> !o.Success?)
    ensures var v := StepUpload(w, pid, req, pc, o);
      && v.objects == w.objects && w.nextId <= v.nextId
      && (forall id :: id < w.nextId ==> (id in v.rows <==> id in w.rows))
      && (v.calls[pid].Upload? && v.calls[pid].up.UPut? ==> v.calls[pid].up.id in v.rows || w.calls[pid] == v.calls[pid])
  {
    hide UploadName, IdsOf, UploadMessage;
  }

  lemma UploadKeeps(w: World, pid: nat, req: Request, pc: UploadPc, o: Outcome, blind: set<nat>)
    requires Inv(w) && BucketInv(w, blind) && pid < |w.calls| && w.calls[pid] == Upload(req, pc)
    requires pc.UUndoObject? ==> o.Success?
    ensures BucketInv(StepUpload(w, pid, req, pc, o), blind)
  {
    if pc.UPut? && o.Success? {
      PutKeeps(w, pid, req, pc.id, blind);
    } else if pc.UUndoObject? {
      UndoKeeps(w, pid, req, pc.id, blind);
    } else if pc.UUndoRow? && o.Success? {
      UndoRowKeeps(w, pid, req, pc.id, blind);
    } else {
      QuietUploadCall(w, pid, req, pc, o);
      QuietUploadRows(w, pid, req, pc, o);
      hide Inv, BucketInv, StepUpload;
      var v := StepUpload(w, pid, req, pc, o);
      NothingMoves(w, v, pid, v.calls[pid], blind);
    }
  }

  lemma RetryKeeps(w: World, pid: nat, c: Call, o: Outcome, blind: set<nat>)
    requires Inv(w) && BucketInv(w, blind) && pid < |w.calls| && w.calls[pid] == c && c.Retry?
    ensures BucketInv(StepRetry(w, pid, c, o), blind)
  {
    hide UploadName, NameOf, SecondComponent, BucketInv, Inv;
    var v := StepRetry(w, pid, c, o);
    NothingMoves(w, v, pid, v.calls[pid], blind);
  }

  lemma QuietDelete(w: World, pid: nat, c: Call, o: Outcome)
    requires pid < |w.calls| && w.calls[pid] == c && c.Delete? && !c.dp.DObject? && !Removes(w, Advance(pid, o), pid)
    ensures var v := StepDelete(w, pid, c, o);
      && |v.calls| == |w.calls| && v.calls == w.calls[pid := v.calls[pid]] && Alike(w.calls[pid], v.calls[pid]) && v.calls[pid].Delete?
      && v.objects == w.objects && v.nextId == w.nextId && v.rows == w.rows
  {
    hide ObjectName;
  }

  lemma DeleteKeeps(w: World, pid: nat, c: Call, o: Outcome, blind: set<nat>)
    requires Inv(w) && BucketInv(w, blind) && pid < |w.calls| && w.calls[pid] == c && c.Delete?
    requires c.dp.DObject? ==> o.Success?
    ensures BucketInv(StepDelete(w, pid, c, o), blind + RemovedBlindly(w, Advance(pid, o)))
  {
    hide BucketInv, Inv, StepDelete;
    if c.dp.DObject? {
      DropKeeps(w, pid, c, c.dp.src, blind);
      assert blind + {} == blind;
    } else if Removes(w, Advance(pid, o), pid) {
      RemoveKeeps(w, pid, c, c.dp.src, blind);
    } else {
      QuietDelete(w, pid, c, o);
      assert blind + {} == blind;
      var v := StepDelete(w, pid, c, o);
      NothingMoves(w, v, pid, v.calls[pid], blind);
    }
  }

  lemma StepBucket(w: World, e: Event, blind: set<nat>)
    requires Inv(w) && BucketInv(w, blind) && Clean(w, e)
    ensures BucketInv(Next(w, e), blind + RemovedBlindly(w, e))
  {
    hide Inv, BucketInv, StepUpload, StepRetry, StepDelete;
    assert blind + {} == blind;
    match e
    case StartUpload(req) => StartKeeps(w, Upload(req, UAccess), blind);
    case StartRetry(id, project, owner) => StartKeeps(w, Retry(id, project, owner, RAccess), blind);
    case StartDelete(id, project, owner) => StartKeeps(w, Delete(id, project, owner, DAccess), blind);
    case Advance(pid, o) =>
      if pid < |w.calls| {
        match w.calls[pid]
        case Upload(req, pc) => UploadKeeps(w, pid, req, pc, o, blind);
        case Retry(_, _, _, _) => RetryKeeps(w, pid, w.calls[pid], o, blind);
        case Delete(_, _, _, _) => DeleteKeeps(w, pid, w.calls[pid], o, blind);
      }
  }

  lemma {:induction false} RunBucket(es: seq<Event>)
    requires GoodEvents(es) && CleanRun(es)
    ensures BucketInv(Run(es), Blind(es))
  {
    if es == [] {
    } else {
      var most, last := es[..|es| - 1], es[|es| - 1];
      RunBucket(most);
      RunInv(most);
      StepBucket(Run(most), last, Blind(most));
    }
  }

  // ---- the bucket, exactly ------------------------------------------------------------------

  predicate AllDone(w: World) {
    forall k :: 0 <= k < |w.calls| ==> AtRest(w.calls[k])
  }

  /** Call k is a file upload that was accepted, and p is the name of its object. */
  predicate AcceptedFile(w: World, k: nat, p: string) {
    && k < |w.calls| && w.calls[k].Upload? && !w.calls[k].req.kind.URL?
    && w.calls[k].up.UDone? && w.calls[k].up.reply.Accepted?
    && UploadName(w.calls[k].req, w.calls[k].up.reply.id) == p
  }

  /** Its row is live, or was removed by a delete that had read no path. */
  predicate LiveOrBlind(es: seq<Event>, k: nat)
    requires k < |Run(es).calls| && Run(es).calls[k].Upload? && Run(es).calls[k].up.UDone? && Run(es).calls[k].up.reply.Accepted?
  {
    var id := Run(es).calls[k].up.reply.id;
    id in Run(es).rows || id in Blind(es)
  }

  lemma StoredWhenDone(w: World, k: nat, p: string)
    requires k < |w.calls| && AtRest(w.calls[k])
    ensures Keeps(w.calls[k], p) <==> AcceptedFile(w, k, p)
  {
    hide UploadName;
  }

  /**
   * For any number of concurrent calls, once all of them are done: an object is in the bucket
   * if and only if its upload was accepted and its row is live, or was removed by a delete
   * whose copy of the row had no path, which is the guard in front of the delete of the object.
   */
  lemma BucketHoldsExactly(es: seq<Event>, p: string)
    requires GoodEvents(es) && CleanRun(es) && AllDone(Run(es))
    ensures p in Run(es).objects <==> exists k: nat :: AcceptedFile(Run(es), k, p) && LiveOrBlind(es, k)
  {
    RunBucket(es);
    hide Run, Blind, UploadName, CleanRun;
    var w, blind := Run(es), Blind(es);
    assert forall id :: !Held(w, id) by {
      forall k | 0 <= k < |w.calls| ensures HeldId(w.calls[k]).None? { assert AtRest(w.calls[k]); }
    }
    forall k: nat | AcceptedFile(w, k, p) ensures p in w.objects <==> LiveOrBlind(es, k) {
      assert ExactFor(w, blind, w.calls[k]);
    }
    if p in w.objects {
      var k :| 0 <= k < |w.calls| && Keeps(w.calls[k], p);
      StoredWhenDone(w, k, p);
      assert AcceptedFile(w, k, p) && LiveOrBlind(es, k);
    }
  }

  lemma NoRowNames(w: World, k: nat, p: string)
    requires Inv(w) && AcceptedFile(w, k, p) && w.calls[k].up.reply.id !in w.rows
    ensures forall id :: !NamesAlone(w, id, p)
  {
    var c := w.calls[k];
    assert CallOk(w, c);
    hide ObjectName, SecondComponent, CallOk;
    SecondComponentOfObjectName(c.req.owner, c.up.reply.id, c.req.name);
    forall id | id in w.rows ensures w.rows[id].path != p {
      assert RowOk(w, id);
      SecondComponentOfObjectName(w.rows[id].owner, id, w.rows[id].name);
    }
  }

  lemma OrphanIsNobodys(es: seq<Event>, k: nat, p: string)
    requires GoodEvents(es) && CleanRun(es) && AllDone(Run(es))
    requires AcceptedFile(Run(es), k, p) && Run(es).calls[k].up.reply.id in Blind(es)
    ensures p in Run(es).objects && forall id :: !NamesAlone(Run(es), id, p)
  {
    RunInv(es);
    RunBucket(es);
    BucketHoldsExactly(es, p);
    assert LiveOrBlind(es, k);
    hide Run, Blind, CleanRun, Inv;
    NoRowNames(Run(es), k, p);
  }

  lemma LiveFileNamesAlone(w: World, k: nat, p: string)
    requires Inv(w) && AcceptedFile(w, k, p) && w.calls[k].up.reply.id in w.rows
    ensures NamesAlone(w, w.calls[k].up.reply.id, p)
  {
    var id := w.calls[k].up.reply.id;
    assert CallOk(w, w.calls[k]) && RowOk(w, id);
    OnlyOneNames(w, id, p);
  }

  /**
   * So every object belongs to exactly one live row if and only if no accepted file lost its
   * row to a delete that had read it before its path was recorded.
   */
  lemma BucketIsCleanExactly(es: seq<Event>)
    requires GoodEvents(es) && CleanRun(es) && AllDone(Run(es))
    ensures (forall p :: p in Run(es).objects ==> exists id :: NamesAlone(Run(es), id, p))
      <==> forall k: nat, p :: AcceptedFile(Run(es), k, p) ==> Run(es).calls[k].up.reply.id !in Blind(es)
  {
    RunInv(es);
    RunBucket(es);
    var w := Run(es);
    forall k: nat, p | AcceptedFile(w, k, p) && w.calls[k].up.reply.id in Blind(es)
      ensures p in w.objects && forall id :: !NamesAlone(w, id, p)
    {
      OrphanIsNobodys(es, k, p);
    }
    forall p | p in w.objects && (forall k: nat :: AcceptedFile(w, k, p) ==> w.calls[k].up.reply.id !in Blind(es))
      ensures exists id :: NamesAlone(w, id, p)
    {
      BucketHoldsExactly(es, p);
      var k: nat :| AcceptedFile(w, k, p) && LiveOrBlind(es, k);
      LiveFileNamesAlone(w, k, p);
    }
  }
}
