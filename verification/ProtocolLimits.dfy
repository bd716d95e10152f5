/** The limit of sources per project, which the check and the insert enforce only loosely. */
module ProtocolLimits {
  import opened Options
  import opened SourceTable
  import opened SourceProtocol
  import opened Sets

  /** An upload that has passed the limit check and not yet inserted its row. */
  predicate InWindow(c: Call, project: int, owner: string) {
    c.Upload? && c.up.USave? && c.req.project == project && c.req.owner == owner
  }

  function Window(w: World, project: int, owner: string): set<nat> {
    set k | 0 <= k < |w.calls| && InWindow(w.calls[k], project, owner)
  }

  function RowCount(w: World, project: int, owner: string): nat {
    |IdsOf(w.rows, project, owner)|
  }

  /** At no point of the run were more than k uploads between their check and their insert. */
  predicate AtMostInWindow(es: seq<Event>, project: int, owner: string, k: nat) {
    |Window(Run(es), project, owner)| <= k && (es == [] || AtMostInWindow(es[..|es| - 1], project, owner, k))
  }

  /** Fresh ids, all that the counting argument needs of the table. */
  ghost predicate FreshIds(w: World) {
    forall id :: id in w.rows ==> id < w.nextId
  }

  lemma StepFresh(w: World, e: Event)
    requires FreshIds(w)
    ensures FreshIds(Next(w, e))
  {
    hide UploadName;
  }

  lemma {:induction false} RunFresh(es: seq<Event>)
    ensures FreshIds(Run(es))
  {
    if es == [] {
    } else {
      RunFresh(es[..|es| - 1]);
      StepFresh(Run(es[..|es| - 1]), es[|es| - 1]);
    }
  }

  function Load(w: World, project: int, owner: string): nat {
    RowCount(w, project, owner) + |Window(w, project, owner)|
  }

  /** Neither a row nor a window is added. */
  lemma NoGrowth(w: World, v: World, project: int, owner: string)
    requires forall id :: id in v.rows ==>
      id in w.rows && w.rows[id].project == v.rows[id].project && w.rows[id].owner == v.rows[id].owner
    requires forall k :: 0 <= k < |v.calls| && v.calls[k].Upload? && v.calls[k].up.USave? ==> k < |w.calls| && w.calls[k] == v.calls[k]
    ensures Load(v, project, owner) <= Load(w, project, owner)
  {
    hide UploadName;
    SubsetSize(IdsOf(v.rows, project, owner), IdsOf(w.rows, project, owner));
    SubsetSize(Window(v, project, owner), Window(w, project, owner));
  }

  lemma RowAdded(rows: Rows, row: Row)
    requires row.id !in rows
    ensures |IdsOf(rows[row.id := row], row.project, row.owner)| == |IdsOf(rows, row.project, row.owner)| + 1
  {
    assert IdsOf(rows[row.id := row], row.project, row.owner) == IdsOf(rows, row.project, row.owner) + {row.id};
  }

  lemma WindowCloses(w: World, v: World, pid: nat, project: int, owner: string)
    requires pid < |w.calls| == |v.calls| && InWindow(w.calls[pid], project, owner) && !InWindow(v.calls[pid], project, owner)
    requires forall k :: 0 <= k < |w.calls| && k != pid ==> v.calls[k] == w.calls[k]
    ensures |Window(v, project, owner)| == |Window(w, project, owner)| - 1
  {
    assert Window(v, project, owner) == Window(w, project, owner) - {pid};
  }

  /** An insert trades the window of its call for one row. */
  lemma InsertTrades(w: World, pid: nat, req: Request, project: int, owner: string)
    requires FreshIds(w) && pid < |w.calls| && w.calls[pid] == Upload(req, USave)
    ensures Load(StepUpload(w, pid, req, USave, Success), project, owner) <= Load(w, project, owner)
  {
    var v := StepUpload(w, pid, req, USave, Success);
    if req.project == project && req.owner == owner {
      WindowCloses(w, v, pid, project, owner);
      RowAdded(w.rows, NewRow(w.nextId, req));
    } else {
      SubsetSize(IdsOf(v.rows, project, owner), IdsOf(w.rows, project, owner));
      SubsetSize(Window(v, project, owner), Window(w, project, owner));
    }
  }

  lemma CheckOpens(w: World, pid: nat, req: Request, o: Outcome, project: int, owner: string)
    requires pid < |w.calls| && w.calls[pid] == Upload(req, ULimit)
    ensures var v := StepUpload(w, pid, req, ULimit, o);
      Load(v, project, owner) <= Load(w, project, owner) || RowCount(v, project, owner) < MAX_SOURCES_PER_PROJECT
  {
    var v := StepUpload(w, pid, req, ULimit, o);
    assert IdsOf(v.rows, project, owner) == IdsOf(w.rows, project, owner);
    if !InWindow(v.calls[pid], project, owner) {
      SubsetSize(Window(v, project, owner), Window(w, project, owner));
    }
  }

  lemma UploadShrinks(w: World, pid: nat, req: Request, pc: UploadPc, o: Outcome, project: int, owner: string)
    requires pid < |w.calls| && w.calls[pid] == Upload(req, pc) && !pc.ULimit? && !pc.USave?
    ensures Load(StepUpload(w, pid, req, pc, o), project, owner) <= Load(w, project, owner)
  {
    hide UploadName;
    NoGrowth(w, StepUpload(w, pid, req, pc, o), project, owner);
  }

  lemma RetryShrinks(w: World, pid: nat, c: Call, o: Outcome, project: int, owner: string)
    requires pid < |w.calls| && w.calls[pid] == c && c.Retry?
    ensures Load(StepRetry(w, pid, c, o), project, owner) <= Load(w, project, owner)
  {
    hide UploadName, Load;
    NoGrowth(w, StepRetry(w, pid, c, o), project, owner);
  }

  lemma DeleteShrinks(w: World, pid: nat, c: Call, o: Outcome, project: int, owner: string)
    requires pid < |w.calls| && w.calls[pid] == c && c.Delete?
    ensures Load(StepDelete(w, pid, c, o), project, owner) <= Load(w, project, owner)
  {
    hide UploadName, Load;
    NoGrowth(w, StepDelete(w, pid, c, o), project, owner);
  }

  lemma OtherEvents(w: World, e: Event, project: int, owner: string)
    requires e.Advance? && e.pid < |w.calls| && w.calls[e.pid].Upload? ==> !w.calls[e.pid].up.ULimit? && !w.calls[e.pid].up.USave?
    ensures Load(Next(w, e), project, owner) <= Load(w, project, owner)
  {
    hide Load, StepUpload, StepRetry, StepDelete;
    if e.Advance? && e.pid < |w.calls| {
      match w.calls[e.pid]
      case Upload(req, pc) => UploadShrinks(w, e.pid, req, pc, e.outcome, project, owner);
      case Retry(_, _, _, _) => RetryShrinks(w, e.pid, w.calls[e.pid], e.outcome, project, owner);
      case Delete(_, _, _, _) => DeleteShrinks(w, e.pid, w.calls[e.pid], e.outcome, project, owner);
    } else {
      NoGrowth(w, Next(w, e), project, owner);
    }
  }

  /** Rows plus open windows only grow when a call passes the check, which it does below the limit. */
  lemma StepLimit(w: World, e: Event, project: int, owner: string)
    requires FreshIds(w)
    ensures var v := Next(w, e);
      Load(v, project, owner) <= Load(w, project, owner) || RowCount(v, project, owner) < MAX_SOURCES_PER_PROJECT
  {
    if e.Advance? && e.pid < |w.calls| && w.calls[e.pid].Upload? && w.calls[e.pid].up.ULimit? {
      CheckOpens(w, e.pid, w.calls[e.pid].req, e.outcome, project, owner);
    } else if e.Advance? && e.pid < |w.calls| && w.calls[e.pid].Upload? && w.calls[e.pid].up.USave? {
      if e.outcome.Success? {
        InsertTrades(w, e.pid, w.calls[e.pid].req, project, owner);
      } else {
        NoGrowth(w, Next(w, e), project, owner);
      }
    } else {
      OtherEvents(w, e, project, owner);
    }
  }

  /**
   * With at most k uploads between check and insert, an owner never gets beyond
   * 19 + k rows in a project, whatever else happens at the same time.
   */
  lemma {:induction false} RowsStayBounded(es: seq<Event>, project: int, owner: string, k: nat)
    requires AtMostInWindow(es, project, owner, k)
    ensures Load(Run(es), project, owner) <= 19 + k
    ensures k == 1 ==> RowCount(Run(es), project, owner) <= 20
  {
    if es == [] {
      assert IdsOf(INITIAL.rows, project, owner) == {};
      assert Window(INITIAL, project, owner) == {};
    } else {
      var most := es[..|es| - 1];
      RowsStayBounded(most, project, owner, k);
      RunFresh(most);
      StepLimit(Run(most), es[|es| - 1], project, owner);
    }
  }

  // ---- the bound is reached -----------------------------------------------------

  /** An upload of this project and owner that has not answered yet. */
  predicate Unfinished(c: Call, project: int, owner: string) {
    c.Upload? && !c.up.UDone? && !c.up.UCrashed? && c.req.project == project && c.req.owner == owner
  }

  function InFlight(w: World, project: int, owner: string): set<nat> {
    set k | 0 <= k < |w.calls| && Unfinished(w.calls[k], project, owner)
  }

  /** At no point of the run were more than k uploads at work. */
  predicate AtMostInFlight(es: seq<Event>, project: int, owner: string, k: nat) {
    |InFlight(Run(es), project, owner)| <= k && (es == [] || AtMostInFlight(es[..|es| - 1], project, owner, k))
  }

  lemma {:induction false} FlightBoundsWindow(es: seq<Event>, project: int, owner: string, k: nat)
    requires AtMostInFlight(es, project, owner, k)
    ensures AtMostInWindow(es, project, owner, k)
  {
    hide Run;
    SubsetSize(Window(Run(es), project, owner), InFlight(Run(es), project, owner));
    if es == [] {
    } else {
      FlightBoundsWindow(es[..|es| - 1], project, owner, k);
    }
  }

  /** The n-th upload of a URL, finished and pending under job n - 1. */
  function FinishedRow(req: Request, n: nat): Row
    requires n > 0
  {
    NewRow(n, req).(status := Pending, job := Some(n - 1))
  }

  /** n uploads of a URL are finished, and m more have passed the check. */
  function Stage(req: Request, n: nat, m: nat): World {
    World(map id: nat | 1 <= id <= n :: FinishedRow(req, id), n + 1, {},
          seq(n, (i: nat) => UploadMessage(req, i + 1, i)), [], n,
          seq(n, (i: nat) => Upload(req, UDone(Accepted(i + 1, Some(i))))) + seq(m, (i: nat) => Upload(req, USave)), {})
  }

  lemma StageRows(req: Request, n: nat, m: nat)
    ensures RowCount(Stage(req, n, m), req.project, req.owner) == n
  {
    hide UploadMessage;
    assert IdsOf(Stage(req, n, m).rows, req.project, req.owner) == Range(1, n);
  }

  /** Only the calls from number n on can be at work. */
  lemma StageFlight(w: World, n: nat, m: nat, project: int, owner: string)
    requires forall k :: 0 <= k < |w.calls| && Unfinished(w.calls[k], project, owner) ==> n <= k < n + m
    ensures |InFlight(w, project, owner)| <= m
  {
    SubsetSize(InFlight(w, project, owner), Range(n, m));
  }

  lemma Extend(es: seq<Event>, e: Event, n: nat, m: nat, project: int, owner: string, k: nat)
    requires AtMostInFlight(es, project, owner, k) && m <= k
    requires forall j :: 0 <= j < |Next(Run(es), e).calls| && Unfinished(Next(Run(es), e).calls[j], project, owner) ==> n <= j < n + m
    ensures AtMostInFlight(es + [e], project, owner, k) && Run(es + [e]) == Next(Run(es), e)
  {
    hide Next;
    RunSnoc(es, e);
    assert (es + [e])[..|es|] == es;
    StageFlight(Next(Run(es), e), n, m, project, owner);
  }

  /** One more upload starts and passes the check. */
  lemma OpenOne(es: seq<Event>, req: Request, n: nat, m: nat, k: nat) returns (more: seq<Event>)
    requires Run(es) == Stage(req, n, m) && AtMostInFlight(es, req.project, req.owner, k)
    requires n < MAX_SOURCES_PER_PROJECT && m < k
    ensures Run(more) == Stage(req, n, m + 1) && AtMostInFlight(more, req.project, req.owner, k)
  {
    hide Run, AtMostInFlight, UploadMessage;
    var pid := n + m;
    StageRows(req, n, m);
    var w0 := Stage(req, n, m);
    var w1 := w0.(calls := w0.calls + [Upload(req, UAccess)]);
    var w2 := w0.(calls := w0.calls + [Upload(req, ULimit)]);
    var e1, e2, e3 := StartUpload(req), Advance(pid, Success), Advance(pid, Success);
    Extend(es, e1, n, m + 1, req.project, req.owner, k);
    assert Next(w1, e2) == w2;
    Extend(es + [e1], e2, n, m + 1, req.project, req.owner, k);
    assert Next(w2, e3) == Stage(req, n, m + 1);
    Extend(es + [e1] + [e2], e3, n, m + 1, req.project, req.owner, k);
    more := es + [e1] + [e2] + [e3];
  }

  /** The stage in which upload n has got past its insert. */
  function During(req: Request, n: nat, m: nat, row: Row, pc: UploadPc): World {
    var w := Stage(req, n, m + 1);
    w.(rows := w.rows[n + 1 := row], nextId := n + 2, calls := w.calls[n := Upload(req, pc)])
  }

  lemma StageGrows(req: Request, n: nat, m: nat, w: World)
    requires w.rows == Stage(req, n, m + 1).rows[n + 1 := NewRow(n + 1, req).(status := Uploaded)] && w.nextId == n + 2
    requires w.nextJob == n + 1 && w.chunking == Stage(req, n, m + 1).chunking + [UploadMessage(req, n + 1, n)]
    requires w.calls == Stage(req, n, m + 1).calls[n := Upload(req, UPending(n + 1, n))]
    requires w.objects == {} && w.cancels == [] && w.lost == {}
    ensures Next(w, Advance(n, Success)) == Stage(req, n + 1, m)
  {
    hide UploadMessage;
    var v, u := Next(w, Advance(n, Success)), Stage(req, n + 1, m);
    assert v.rows == u.rows;
    assert v.chunking == u.chunking;
    assert v.calls == u.calls;
  }

  /** The first upload that passed the check inserts its row and goes on to its answer. */
  lemma FinishOne(es: seq<Event>, req: Request, n: nat, m: nat, k: nat) returns (more: seq<Event>)
    requires Run(es) == Stage(req, n, m + 1) && AtMostInFlight(es, req.project, req.owner, k)
    requires req.kind.URL? && m < k
    ensures Run(more) == Stage(req, n + 1, m) && AtMostInFlight(more, req.project, req.owner, k)
  {
    hide Run, AtMostInFlight, UploadMessage;
    var e := Advance(n, Success);
    var row, msg := NewRow(n + 1, req), UploadMessage(req, n + 1, n);
    var w0 := Stage(req, n, m + 1);
    var w1 := During(req, n, m, row, UMark(n + 1));
    var w2 := During(req, n, m, row.(status := Uploaded), UPublish(n + 1));
    var w3 := w2.(nextJob := n + 1, chunking := w2.chunking + [msg], calls := w0.calls[n := Upload(req, UPending(n + 1, n))]);
    var p, o := req.project, req.owner;
    assert w0.calls[n] == Upload(req, USave);
    Extend(es, e, n, m + 1, p, o, k);
    assert Next(w0, e) == w1;
    Extend(es + [e], e, n, m + 1, p, o, k);
    assert Next(w1, e) == w2;
    Extend(es + [e] + [e], e, n, m + 1, p, o, k);
    assert Next(w2, e) == w3;
    Extend(es + [e] + [e] + [e], e, n, m + 1, p, o, k);
    StageGrows(req, n, m, w3);
    more := es + [e] + [e] + [e] + [e];
  }

  /**
   * For every k there is a run with never more than k uploads at work, all of which succeed,
   * that leaves exactly 19 + k rows.
   */
  lemma BoundIsReached(req: Request, k: nat) returns (es: seq<Event>)
    requires req.kind.URL? && k >= 1
    ensures AtMostInFlight(es, req.project, req.owner, k) && AtMostInWindow(es, req.project, req.owner, k)
    ensures InFlight(Run(es), req.project, req.owner) == {}
    ensures RowCount(Run(es), req.project, req.owner) == 19 + k
  {
    es := [];
    StageFlight(INITIAL, 0, 0, req.project, req.owner);
    var n := 0;
    assert INITIAL == Stage(req, 0, 0);
    while n < MAX_SOURCES_PER_PROJECT - 1
      invariant n <= MAX_SOURCES_PER_PROJECT - 1
      invariant Run(es) == Stage(req, n, 0) && AtMostInFlight(es, req.project, req.owner, k)
    {
      hide Run, AtMostInFlight;
      es := OpenOne(es, req, n, 0, k);
      es := FinishOne(es, req, n, 0, k);
      n := n + 1;
    }
    var m := 0;
    while m < k
      invariant m <= k
      invariant Run(es) == Stage(req, n, m) && AtMostInFlight(es, req.project, req.owner, k)
    {
      hide Run, AtMostInFlight;
      es := OpenOne(es, req, n, m, k);
      m := m + 1;
    }
    while m > 0
      invariant m <= k && n == MAX_SOURCES_PER_PROJECT - 1 + k - m
      invariant Run(es) == Stage(req, n, m) && AtMostInFlight(es, req.project, req.owner, k)
    {
      hide Run, AtMostInFlight;
      es := FinishOne(es, req, n, m - 1, k);
      n, m := n + 1, m - 1;
    }
    StageRows(req, n, 0);
    FlightBoundsWindow(es, req.project, req.owner, k);
  }
}
