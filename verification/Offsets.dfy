/**
 * The consumer's positions and commits. One consumer reads partitions of two topics;
 * `commit()` without arguments commits its position on all of them.
 */
module Offsets {
  type Partition = nat

  type Positions = map<Partition, nat>

  function At(m: Positions, p: Partition): nat {
    if p in m then m[p] else 0
  }

  /** `running` is the flag the loop tests before it handles a record. */
  datatype State = State(position: Positions, committed: Positions, running: bool)

  /**
   * A record of a partition arrives and is handled, or raises, and its commit goes
   * through or raises; the flag is cleared; or a new session starts at what was committed.
   */
  datatype Event = Deliver(p: Partition, handled: bool, committed: bool) | Stop | Restart

  predicate Commits(s: State, e: Event) {
    s.running && e.Deliver? && e.handled && e.committed
  }

  /** After a stop the loop still fetches one record, and leaves without handling it. */
  function Next(s: State, e: Event): State {
    match e
    case Deliver(p, _, _) =>
      var moved := s.position[p := At(s.position, p) + 1];
      s.(position := moved, committed := if Commits(s, e) then moved else s.committed)
    case Stop => s.(running := false)
    case Restart => s.(position := s.committed, running := true)
  }

  function Play(s: State, es: seq<Event>): State {
    if es == [] then s else Next(Play(s, es[..|es| - 1]), es[|es| - 1])
  }

  /** A consumer that starts at `start` and has committed just that. */
  function Run(start: Positions, es: seq<Event>): State {
    Play(State(start, start, true), es)
  }

  /** The state before event k. */
  function Before(start: Positions, es: seq<Event>, k: nat): State
    requires k <= |es|
  {
    Run(start, es[..k])
  }

  /** Event k hands the record at offset o of partition p to its handler. */
  predicate Handles(start: Positions, es: seq<Event>, k: nat, p: Partition, o: nat) {
    && k < |es| && es[k].Deliver? && es[k].p == p
    && Before(start, es, k).running && At(Before(start, es, k).position, p) == o
  }

  /** Event k handles its record and commits. */
  predicate CommitsAt(start: Positions, es: seq<Event>, k: nat) {
    k < |es| && Commits(Before(start, es, k), es[k])
  }

  /** Nothing is committed from event i on. */
  predicate NoCommit(start: Positions, es: seq<Event>, i: nat) {
    forall j :: i <= j < |es| ==> !CommitsAt(start, es, j)
  }

  /** Event k was the last commit, and what it committed still stands. */
  predicate LastCommit(start: Positions, es: seq<Event>, k: nat) {
    && CommitsAt(start, es, k) && NoCommit(start, es, k + 1)
    && Run(start, es).committed == Before(start, es, k + 1).position
  }

  lemma Shorter(start: Positions, es: seq<Event>, k: nat)
    requires es != [] && k <= |es| - 1
    ensures Before(start, es[..|es| - 1], k) == Before(start, es, k)
  {
    assert es[..|es| - 1][..k] == es[..k];
  }

  /** The last event, seen from the whole sequence. */
  lemma OneMore(start: Positions, es: seq<Event>)
    requires es != []
    ensures Run(start, es) == Next(Run(start, es[..|es| - 1]), es[|es| - 1])
    ensures Before(start, es, |es| - 1) == Run(start, es[..|es| - 1]) && Before(start, es, |es|) == Run(start, es)
  {
    assert es[..|es|] == es;
  }

  lemma AfterEvent(start: Positions, es: seq<Event>, i: nat)
    requires i < |es|
    ensures Before(start, es, i + 1) == Next(Before(start, es, i), es[i])
  {
    assert es[..i + 1][..i] == es[..i];
  }

  lemma NothingAfter(start: Positions, es: seq<Event>)
    ensures NoCommit(start, es, |es|)
  {}

  lemma CommitsAtShorter(start: Positions, es: seq<Event>, k: nat)
    requires es != [] && k < |es| - 1
    ensures CommitsAt(start, es[..|es| - 1], k) <==> CommitsAt(start, es, k)
  {
    Shorter(start, es, k);
    hide Run, Commits;
  }

  lemma NoCommitOneMore(start: Positions, es: seq<Event>, i: nat)
    requires es != [] && i < |es|
    ensures NoCommit(start, es, i) <==> NoCommit(start, es[..|es| - 1], i) && !CommitsAt(start, es, |es| - 1)
  {
    hide CommitsAt;
    var most := es[..|es| - 1];
    forall j | i <= j < |most| ensures CommitsAt(start, most, j) <==> CommitsAt(start, es, j) {
      CommitsAtShorter(start, es, j);
    }
    if NoCommit(start, es, i) {
      assert !CommitsAt(start, es, |es| - 1);
    }
  }

  lemma {:induction false} CommittedNeverAhead(start: Positions, es: seq<Event>, p: Partition)
    ensures At(Run(start, es).committed, p) <= At(Run(start, es).position, p)
    ensures At(start, p) <= At(Run(start, es).committed, p)
  {
    if es == [] {
    } else {
      CommittedNeverAhead(start, es[..|es| - 1], p);
    }
  }

  /** Over any sequence of sessions and restarts no committed offset ever goes back. */
  lemma {:induction false} CommittedNeverDecreases(start: Positions, es: seq<Event>, k: nat, p: Partition)
    requires k <= |es|
    ensures At(Before(start, es, k).committed, p) <= At(Run(start, es).committed, p)
  {
    if k < |es| {
      var most := es[..|es| - 1];
      Shorter(start, es, k);
      CommittedNeverDecreases(start, most, k, p);
      CommittedNeverAhead(start, most, p);
    } else {
      assert es[..k] == es;
    }
  }

  /** The committed offsets are the positions right after the last commit that went through. */
  lemma {:induction false} CommittedIsLastCommit(start: Positions, es: seq<Event>)
    ensures (Run(start, es).committed == start && NoCommit(start, es, 0)) || exists k: nat :: LastCommit(start, es, k)
  {
    if es == [] {
      assert NoCommit(start, es, 0);
    } else {
      var most, last := es[..|es| - 1], |es| - 1;
      CommittedIsLastCommit(start, most);
      OneMore(start, es);
      hide Play, NoCommit;
      if Commits(Run(start, most), es[last]) {
        NothingAfter(start, es);
        assert LastCommit(start, es, last);
      } else if k: nat :| LastCommit(start, most, k) {
        Shorter(start, es, k);
        Shorter(start, es, k + 1);
        NoCommitOneMore(start, es, k + 1);
        assert LastCommit(start, es, k);
      } else {
        NoCommitOneMore(start, es, 0);
      }
    }
  }

  /** While the loop runs, every record behind the position has been given to its handler. */
  lemma {:induction false} PositionWasHandled(start: Positions, es: seq<Event>, p: Partition, o: nat)
    requires At(start, p) <= o
    requires o < At(Run(start, es).committed, p) || (Run(start, es).running && o < At(Run(start, es).position, p))
    ensures exists k :: Handles(start, es, k, p, o)
  {
    var most, last := es[..|es| - 1], |es| - 1;
    var s := Run(start, most);
    assert es[..last] == most;
    if o < At(s.committed, p) || (s.running && o < At(s.position, p)) {
      PositionWasHandled(start, most, p, o);
      var k :| Handles(start, most, k, p, o);
      Shorter(start, es, k);
      assert Handles(start, es, k, p, o);
    } else {
      assert Handles(start, es, last, p, o);
    }
  }

  /** Every record below the committed offset was handled at least once. */
  lemma NothingIsSkippedUnhandled(start: Positions, es: seq<Event>, p: Partition, o: nat)
    requires At(start, p) <= o < At(Run(start, es).committed, p)
    ensures exists k :: Handles(start, es, k, p, o)
  {
    PositionWasHandled(start, es, p, o);
  }

  /** No event from i on starts a new session. */
  predicate OneSession(es: seq<Event>, i: nat) {
    forall j :: i <= j < |es| ==> !es[j].Restart?
  }

  lemma {:induction false} PositionMovesOn(start: Positions, es: seq<Event>, i: nat, p: Partition)
    requires i <= |es| && OneSession(es, i)
    ensures At(Before(start, es, i).position, p) <= At(Run(start, es).position, p)
  {
    if i < |es| {
      Shorter(start, es, i);
      PositionMovesOn(start, es[..|es| - 1], i, p);
    } else {
      assert es[..i] == es;
    }
  }

  /**
   * A record that was handed over is read again after the next restart if and only if neither
   * its own commit nor that of any later record, of any partition, went through before: one
   * success on either topic skips every earlier failure for good.
   */
  lemma {:induction false} RedeliveredUnlessLaterCommit(start: Positions, es: seq<Event>, i: nat, p: Partition, o: nat)
    requires Handles(start, es, i, p, o) && OneSession(es, i + 1)
    ensures At(Next(Run(start, es), Restart).position, p) <= o <==> NoCommit(start, es, i)
  {
    var most, last := es[..|es| - 1], |es| - 1;
    OneMore(start, es);
    NoCommitOneMore(start, es, i);
    hide Play, NoCommit;
    if i == last {
      CommittedNeverAhead(start, most, p);
      NothingAfter(start, most);
    } else {
      Shorter(start, es, i);
      RedeliveredUnlessLaterCommit(start, most, i, p, o);
      AfterEvent(start, es, i);
      Shorter(start, es, i + 1);
      PositionMovesOn(start, most, i + 1, p);
    }
  }

  /** The first restart from event i on. */
  lemma {:induction false} FirstRestart(es: seq<Event>, i: nat) returns (r: nat)
    requires i <= |es| && !OneSession(es, i)
    ensures i <= r < |es| && es[r] == Restart && OneSession(es[..r], i)
    decreases |es| - i
  {
    if es[i].Restart? {
      r := i;
    } else {
      r := FirstRestart(es, i + 1);
    }
  }

  /**
   * A record comes a second time only if the session of its first time ended without any commit
   * from there on, whether it was handled then or not.
   */
  lemma HandledTwice(start: Positions, es: seq<Event>, i: nat, j: nat, p: Partition, o: nat) returns (r: nat)
    requires i < j && Handles(start, es, i, p, o) && Handles(start, es, j, p, o)
    ensures i < r < j && es[r] == Restart && NoCommit(start, es[..r], i)
  {
    AfterEvent(start, es, i);
    assert es[..j][..i + 1] == es[..i + 1];
    if OneSession(es[..j], i + 1) {
      PositionMovesOn(start, es[..j], i + 1, p);
      assert false;
    } else {
      r := FirstRestart(es[..j], i + 1);
      assert es[..j][..r] == es[..r] && es[..r][..i] == es[..i] && es[..j][..r + 1] == es[..r + 1];
      RedeliveredUnlessLaterCommit(start, es[..r], i, p, o);
      AfterEvent(start, es, r);
      CommittedNeverDecreases(start, es[..j], r + 1, p);
      CommittedNeverAhead(start, es[..j], p);
    }
  }

  /** The intended reading, "it will be redelivered", fails on the shortest possible history. */
  lemma FailedRecordMayBeSkipped()
    ensures var es := [Deliver(0, false, false), Deliver(1, true, true)];
      Handles(map[], es, 0, 0, 0) && At(Next(Run(map[], es), Restart).position, 0) == 1
  {
    var es := [Deliver(0, false, false), Deliver(1, true, true)];
    assert es[..1] == [es[0]] && es[..0] == [] && es[..1][..0] == [];
    assert Run(map[], es[..0]) == State(map[], map[], true);
    assert Run(map[], es[..1]) == State(map[0 := 1], map[], true);
  }

  lemma PlayOne(s: State, es: seq<Event>, e: Event)
    ensures Play(s, es + [e]) == Next(Play(s, es), e)
  {
    assert (es + [e])[..|es|] == es;
  }
}
