/** Concrete runs that bound what the service can promise. */
module ProtocolRaces {
  import opened Options
  import opened SourceTable
  import opened SourceProtocol
  import opened ProtocolCancels

  /** One event more, with its outcome spelled out. */
  lemma Play(es: seq<Event>, e: Event, w: World)
    requires w == Next(Run(es), e)
    ensures Run(es + [e]) == w
  {
    RunSnoc(es, e);
  }

  /** A file upload that has inserted its row and is about to store its object. */
  lemma UploadStarted(req: Request) returns (es: seq<Event>)
    requires !req.kind.URL?
    ensures Run(es) == World(map[1 := NewRow(1, req)], 2, {}, [], [], 0, [Upload(req, UPut(1))], {})
  {
    assert Run([]) == INITIAL;
    hide Run;
    var w1 := INITIAL.(calls := [Upload(req, UAccess)]);
    var w2 := INITIAL.(calls := [Upload(req, ULimit)]);
    var w3 := INITIAL.(calls := [Upload(req, USave)]);
    var w4 := World(map[1 := NewRow(1, req)], 2, {}, [], [], 0, [Upload(req, UPut(1))], {});
    var e1, e2 := StartUpload(req), Advance(0, Success);
    Play([], e1, w1);
    Play([] + [e1], e2, w2);
    assert IdsOf(w2.rows, req.project, req.owner) == {};
    Play([] + [e1] + [e2], e2, w3);
    Play([] + [e1] + [e2] + [e2], e2, w4);
    es := [] + [e1] + [e2] + [e2] + [e2];
  }

  /** A delete reads that row before its path is known, and removes it. */
  lemma DeletedMeanwhile(req: Request) returns (es: seq<Event>)
    requires !req.kind.URL?
    ensures Run(es) == World(map[], 2, {}, [], [], 0,
      [Upload(req, UPut(1)), Delete(1, req.project, req.owner, DDone(Deleted))], {UploadName(req, 1)})
  {
    hide Run;
    var start := UploadStarted(req);
    var w := Run(start);
    var c := Delete(1, req.project, req.owner, DAccess);
    var e1, e2 := StartDelete(1, req.project, req.owner), Advance(1, Success);
    var src := NewRow(1, req);
    Play(start, e1, w.(calls := w.calls + [c]));
    Play(start + [e1], e2, w.(calls := w.calls + [c.(dp := DFind)]));
    Play(start + [e1] + [e2], e2, w.(calls := w.calls + [c.(dp := DRow(src))]));
    var v := w.(calls := w.calls + [c.(dp := DRow(src))]);
    assert BeforePath(v.calls[0], 1);
    assert LeavesObject(v, src);
    assert Remove(v.rows, 1) == map[];
    es := start + [e1] + [e2] + [e2] + [e2];
    Play(start + [e1] + [e2] + [e2], e2, World(map[], 2, {}, [], [], 0,
      [Upload(req, UPut(1)), Delete(1, req.project, req.owner, DDone(Deleted))], {UploadName(req, 1)}));
  }

  /**
   * Every call succeeds, both answer success, and yet the accepted source has no row,
   * its object stays behind, and its job is announced and never cancelled.
   */
  lemma AcceptedUploadMayHaveNoRow(req: Request) returns (es: seq<Event>)
    requires !req.kind.URL?
    ensures var w := Run(es);
      && w.calls[..] == [Upload(req, UDone(Accepted(1, Some(0)))), Delete(1, req.project, req.owner, DDone(Deleted))]
      && w.rows == map[] && w.objects == {UploadName(req, 1)}
      && w.chunking == [UploadMessage(req, 1, 0)] && w.cancels == [] && !Cancellable(w, 0)
  {
    hide Run;
    var start := DeletedMeanwhile(req);
    var w := Run(start);
    var e := Advance(0, Success);
    var name := UploadName(req, 1);
    var d := w.calls[1];
    var w1 := w.(objects := {name}, calls := [Upload(req, UPath(1)), d]);
    var w2 := w1.(calls := [Upload(req, UMark(1)), d]);
    var w3 := w1.(calls := [Upload(req, UPublish(1)), d]);
    var w4 := w1.(nextJob := 1, chunking := [UploadMessage(req, 1, 0)], calls := [Upload(req, UPending(1, 0)), d]);
    var w5 := w4.(calls := [Upload(req, UDone(Accepted(1, Some(0)))), d]);
    Play(start, e, w1);
    Play(start + [e], e, w2);
    Play(start + [e] + [e], e, w3);
    Play(start + [e] + [e] + [e], e, w4);
    Play(start + [e] + [e] + [e] + [e], e, w5);
    es := start + [e] + [e] + [e] + [e] + [e];
  }

  /** A retry announces a second job between the mark and the publish of an upload and the mark of its job. */
  lemma RetriedMeanwhile(req: Request) returns (es: seq<Event>)
    requires !req.kind.URL?
    ensures var row := NewRow(1, req).(path := UploadName(req, 1), status := Pending, job := Some(1));
      Run(es) == World(map[1 := row], 2, {UploadName(req, 1)}, [UploadMessage(req, 1, 0), UploadMessage(req, 1, 1)], [], 2,
        [Upload(req, UDone(Accepted(1, Some(0)))), Retry(1, req.project, req.owner, RDone(Retried(1)))], {})
  {
    hide Run, UploadName;
    var start := UploadStarted(req);
    var w := Run(start);
    var e, f := Advance(0, Success), Advance(1, Success);
    var name := UploadName(req, 1);
    var row := NewRow(1, req).(path := name);
    var c := Retry(1, req.project, req.owner, RAccess);
    var src := row.(status := Uploaded);
    var m0, m1 := UploadMessage(req, 1, 0), UploadMessage(req, 1, 1);
    var w1 := w.(objects := {name}, calls := [Upload(req, UPath(1))]);
    var w2 := w1.(rows := map[1 := row], calls := [Upload(req, UMark(1))]);
    var w3 := w2.(rows := map[1 := src], calls := [Upload(req, UPublish(1))]);
    var w4 := w3.(nextJob := 1, chunking := [m0], calls := [Upload(req, UPending(1, 0))]);
    var w5 := w4.(calls := [Upload(req, UPending(1, 0)), c]);
    var w6 := w4.(calls := [Upload(req, UPending(1, 0)), c.(rp := RFind)]);
    var w7 := w4.(calls := [Upload(req, UPending(1, 0)), c.(rp := RPublish(src))]);
    var w8 := w4.(nextJob := 2, chunking := [m0, m1], calls := [Upload(req, UPending(1, 0)), c.(rp := RMark(src, 1))]);
    var w9 := w8.(rows := map[1 := row.(status := Pending, job := Some(0))],
                  calls := [Upload(req, UDone(Accepted(1, Some(0)))), c.(rp := RMark(src, 1))]);
    var w10 := w8.(rows := map[1 := row.(status := Pending, job := Some(1))],
                   calls := [Upload(req, UDone(Accepted(1, Some(0)))), c.(rp := RDone(Retried(1)))]);
    var g := StartRetry(1, req.project, req.owner);
    Play(start, e, w1);
    Play(start + [e], e, w2);
    Play(start + [e] + [e], e, w3);
    Play(start + [e] + [e] + [e], e, w4);
    es := start + [e] + [e] + [e] + [e];
    Play(es, g, w5);
    Play(es + [g], f, w6);
    Play(es + [g] + [f], f, w7);
    Play(es + [g] + [f] + [f], f, w8);
    es := es + [g] + [f] + [f] + [f];
    Play(es, e, w9);
    Play(es + [e], f, w10);
    es := es + [e] + [f];
  }

  /**
   * Every call succeeds and nothing stays behind but the first of two jobs: the row knew only
   * the second, so only that one is cancelled, and the first never will be.
   */
  lemma OverwrittenJobIsNeverCancelled(req: Request) returns (es: seq<Event>)
    requires !req.kind.URL?
    ensures var w := Run(es);
      && w.rows == map[] && w.objects == {} && w.lost == {}
      && w.chunking == [UploadMessage(req, 1, 0), UploadMessage(req, 1, 1)]
      && w.cancels == [CancelJob(1, req.owner, 1)] && !Cancellable(w, 0)
  {
    assert UploadName(req, 1) != "";
    hide Run, UploadName;
    var start := RetriedMeanwhile(req);
    var w := Run(start);
    var c := Delete(1, req.project, req.owner, DAccess);
    var src := w.rows[1];
    var e, f := StartDelete(1, req.project, req.owner), Advance(2, Success);
    var w4 := w.(rows := map[], calls := w.calls + [c.(dp := DCancel(src))]);
    var w5 := w4.(cancels := [CancelJob(1, req.owner, 1)], calls := w.calls + [c.(dp := DObject(src))]);
    var w6 := w5.(objects := {}, calls := w.calls + [c.(dp := DDone(Deleted))]);
    assert Remove(w.rows, 1) == map[];
    Play(start, e, w.(calls := w.calls + [c]));
    Play(start + [e], f, w.(calls := w.calls + [c.(dp := DFind)]));
    Play(start + [e] + [f], f, w.(calls := w.calls + [c.(dp := DRow(src))]));
    Play(start + [e] + [f] + [f], f, w4);
    Play(start + [e] + [f] + [f] + [f], f, w5);
    assert w.objects - {src.path} == {};
    Play(start + [e] + [f] + [f] + [f] + [f], f, w6);
    es := start + [e] + [f] + [f] + [f] + [f] + [f];
  }
}
