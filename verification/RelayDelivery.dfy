/** Exactly which events reach the stream, from the attempts that were made to publish them. */
module RelayDelivery {
  import opened Relay

  /** One attempt to publish a row. */
  datatype Try = Try(row: nat, outcome: Publish)

  /** All attempts, those in batches that committed, and those of the batch under way. */
  datatype Diary = Diary(all: seq<Try>, kept: seq<Try>, open: seq<Try>)

  predicate Ends(s: System, a: Action) {
    a.Commit? && s.relay.Running? && |s.relay.edited| == |s.relay.selected|
  }

  /** The diary after an action taken in state `s`. */
  function Note(d: Diary, s: System, a: Action): Diary {
    if a.PublishNext? && CanPublish(s) then
      var t := Try(s.relay.selected[|s.relay.edited|], a.outcome);
      d.(all := d.all + [t], open := d.open + [t])
    else if Ends(s, a) then d.(kept := d.kept + d.open, open := [])
    else if a.Abandon? then d.(open := [])
    else d
  }

  function DiaryOf(actions: seq<Action>, batch: nat): Diary {
    if actions == [] then Diary([], [], [])
    else
      var before := actions[..|actions| - 1];
      Note(DiaryOf(before, batch), Run(Initial(), before, batch), actions[|actions| - 1])
  }

  /** The failed attempts on a row. */
  function Fails(tries: seq<Try>, k: nat): nat {
    if tries == [] then 0
    else
      var t := tries[|tries| - 1];
      Fails(tries[..|tries| - 1], k) + if t.row == k && !t.outcome.Ok? then 1 else 0
  }

  predicate Succeeded(tries: seq<Try>, k: nat) {
    exists i :: 0 <= i < |tries| && tries[i].row == k && tries[i].outcome.Ok?
  }

  /** Some attempt appended the entry, whether or not it was reported as a failure. */
  predicate Landed(tries: seq<Try>, k: nat) {
    exists i :: 0 <= i < |tries| && tries[i].row == k && Appends(tries[i].outcome)
  }

  // ----- Counting -----

  lemma {:induction false} FailsConcat(a: seq<Try>, b: seq<Try>, k: nat)
    ensures Fails(a + b, k) == Fails(a, k) + Fails(b, k)
  {
    if b == [] {
      assert a + b == a;
    } else {
      assert (a + b)[..|a + b| - 1] == a + b[..|b| - 1];
      FailsConcat(a, b[..|b| - 1], k);
    }
  }

  lemma {:induction false} FailsNone(tries: seq<Try>, k: nat)
    requires forall i :: 0 <= i < |tries| ==> tries[i].row != k
    ensures Fails(tries, k) == 0
  {
    if tries != [] { FailsNone(tries[..|tries| - 1], k); }
  }

  predicate DistinctRows(tries: seq<Try>) {
    forall i, j :: 0 <= i < j < |tries| ==> tries[i].row != tries[j].row
  }

  lemma {:induction false} FailsOnce(tries: seq<Try>, i: nat)
    requires DistinctRows(tries) && i < |tries|
    ensures Fails(tries, tries[i].row) == if tries[i].outcome.Ok? then 0 else 1
  {
    var n := |tries| - 1;
    if i < n {
      assert tries[..n][i] == tries[i] && tries[n].row != tries[i].row;
      FailsOnce(tries[..n], i);
    } else {
      FailsNone(tries[..n], tries[i].row);
    }
  }

  lemma {:induction false} SucceededConcat(a: seq<Try>, b: seq<Try>, k: nat)
    ensures Succeeded(a + b, k) <==> Succeeded(a, k) || Succeeded(b, k)
  {
    if Succeeded(a, k) {
      var i :| 0 <= i < |a| && a[i].row == k && a[i].outcome.Ok?;
      assert (a + b)[i] == a[i];
    }
    if Succeeded(b, k) {
      var i :| 0 <= i < |b| && b[i].row == k && b[i].outcome.Ok?;
      assert (a + b)[|a| + i] == b[i];
    }
  }

  lemma {:induction false} LandedAppend(tries: seq<Try>, t: Try, k: nat)
    ensures Landed(tries + [t], k) <==> Landed(tries, k) || (t.row == k && Appends(t.outcome))
  {
    if Landed(tries, k) {
      var i :| 0 <= i < |tries| && tries[i].row == k && Appends(tries[i].outcome);
      assert (tries + [t])[i] == tries[i];
    }
    assert (tries + [t])[|tries|] == t;
  }

  // ----- The diary and the rows -----

  ghost predicate RowsTold(rows: seq<Row>, kept: seq<Try>) {
    && (forall i :: 0 <= i < |kept| ==> kept[i].row < |rows|)
    && (forall k :: 0 <= k < |rows| ==>
          rows[k].retries == Fails(kept, k) && (rows[k].status.Published? <==> Succeeded(kept, k)))
  }

  ghost predicate StreamTold(rows: seq<Row>, stream: seq<Event>, all: seq<Try>) {
    && (forall i :: 0 <= i < |all| ==> all[i].row < |rows|)
    && (forall k :: 0 <= k < |rows| ==> (rows[k].event in stream <==> Landed(all, k)))
  }

  ghost predicate OpenTold(s: System, open: seq<Try>) {
    if s.relay.Idle? then open == []
    else
      && |open| == |s.relay.edited| <= |s.relay.selected|
      && forall i :: 0 <= i < |open| ==>
           open[i].row == s.relay.selected[i] && open[i].row < |s.rows|
           && s.relay.edited[i] == Attempt(s.rows[open[i].row], open[i].outcome)
  }

  ghost predicate Told(s: System, d: Diary) {
    RowsTold(s.rows, d.kept) && StreamTold(s.rows, s.stream, d.all) && OpenTold(s, d.open)
  }

  lemma {:induction false} NewRowIsUntold(rows: seq<Row>, kept: seq<Try>, row: Row)
    requires RowsTold(rows, kept) && row.retries == 0 && row.status.Pending?
    ensures RowsTold(rows + [row], kept)
  {
    FailsNone(kept, |rows|);
  }

  lemma {:induction false} WriteIsTold(s: System, d: Diary, e: Event, batch: nat)
    requires Inv(s) && Told(s, d) && !IdTaken(s.rows, e.id)
    ensures Told(Next(s, Write(e), batch), d)
  {
    var s' := Next(s, Write(e), batch);
    NewRowIsUntold(s.rows, d.kept, Row(e, Pending, 0));
    assert e !in s.stream by {
      forall i | 0 <= i < |s.stream| ensures s.stream[i] != e {
        assert HasEvent(s.rows, s.stream[i]);
      }
    }
    assert StreamTold(s'.rows, s'.stream, d.all);
  }

  lemma {:induction false} PublishIsTold(s: System, d: Diary, p: Publish, batch: nat)
    requires Inv(s) && Told(s, d) && CanPublish(s)
    ensures Told(Next(s, PublishNext(p), batch), Note(d, s, PublishNext(p)))
  {
    var at := s.relay.selected[|s.relay.edited|];
    var s', t := Next(s, PublishNext(p), batch), Try(at, p);
    forall k | 0 <= k < |s.rows| ensures s.rows[k].event in s'.stream <==> Landed(d.all + [t], k) {
      LandedAppend(d.all, t, k);
      if k != at { assert s.rows[k].event != s.rows[at].event; }
    }
    assert StreamTold(s'.rows, s'.stream, d.all + [t]);
    assert OpenTold(s', d.open + [t]);
  }

  /** A row of the batch, before and after its commit. */
  lemma {:induction false} SelectedIsTold(s: System, d: Diary, i: nat, batch: nat)
    requires Inv(s) && Told(s, d) && Ends(s, Commit) && i < |d.open|
    ensures var k := d.open[i].row; var row := Next(s, Commit, batch).rows[k];
      row.retries == Fails(d.kept + d.open, k) && (row.status.Published? <==> Succeeded(d.kept + d.open, k))
  {
    var k := d.open[i].row;
    SelectedRow(s, d.open, i, batch);
    OnceMore(d.kept, d.open, i);
    assert s.rows[k].retries == Fails(d.kept, k) && !Succeeded(d.kept, k);
  }

  lemma {:induction false} SelectedRow(s: System, open: seq<Try>, i: nat, batch: nat)
    requires Inv(s) && OpenTold(s, open) && Ends(s, Commit) && i < |open|
    ensures DistinctRows(open) && s.rows[open[i].row].status.Pending?
    ensures Next(s, Commit, batch).rows[open[i].row] == Attempt(s.rows[open[i].row], open[i].outcome)
  {
    WriteBackAt(s.rows, s.relay.selected, s.relay.edited, open[i].row);
  }

  lemma {:induction false} OnceMore(kept: seq<Try>, open: seq<Try>, i: nat)
    requires DistinctRows(open) && i < |open|
    ensures var t := open[i];
      && Fails(kept + open, t.row) == Fails(kept, t.row) + (if t.outcome.Ok? then 0 else 1)
      && (Succeeded(kept + open, t.row) <==> Succeeded(kept, t.row) || t.outcome.Ok?)
  {
    var k := open[i].row;
    FailsOnce(open, i);
    FailsConcat(kept, open, k);
    SucceededConcat(kept, open, k);
    if Succeeded(open, k) {
      var j :| 0 <= j < |open| && open[j].row == k && open[j].outcome.Ok?;
      assert j == i;
    }
  }

  /** A row outside the batch. */
  lemma {:induction false} OthersAreTold(s: System, d: Diary, k: nat, batch: nat)
    requires Inv(s) && Told(s, d) && Ends(s, Commit) && k < |s.rows|
    requires forall i :: 0 <= i < |d.open| ==> d.open[i].row != k
    ensures var row := Next(s, Commit, batch).rows[k];
      row.retries == Fails(d.kept + d.open, k) && (row.status.Published? <==> Succeeded(d.kept + d.open, k))
  {
    forall i | 0 <= i < |s.relay.selected| ensures s.relay.selected[i] != k {
      assert d.open[i].row == s.relay.selected[i];
    }
    AfterCommit(s, batch, k);
    FailsNone(d.open, k);
    FailsConcat(d.kept, d.open, k);
    SucceededConcat(d.kept, d.open, k);
  }

  lemma {:induction false} CommitIsTold(s: System, d: Diary, batch: nat)
    requires Inv(s) && Told(s, d) && Ends(s, Commit)
    ensures Told(Next(s, Commit, batch), Note(d, s, Commit))
  {
    var s', kept := Next(s, Commit, batch), d.kept + d.open;
    forall k | 0 <= k < |s.rows|
      ensures s'.rows[k].retries == Fails(kept, k) && (s'.rows[k].status.Published? <==> Succeeded(kept, k))
      ensures s'.rows[k].event == s.rows[k].event
    {
      if i :| 0 <= i < |d.open| && d.open[i].row == k {
        SelectedIsTold(s, d, i, batch);
      } else {
        OthersAreTold(s, d, k, batch);
      }
      AfterCommit(s, batch, k);
    }
    assert RowsTold(s'.rows, kept);
    assert StreamTold(s'.rows, s'.stream, d.all);
  }

  lemma {:induction false} NextIsTold(s: System, d: Diary, a: Action, batch: nat)
    requires Inv(s) && Told(s, d)
    ensures Told(Next(s, a, batch), Note(d, s, a))
  {
    match a
    case Write(e) => if !IdTaken(s.rows, e.id) { WriteIsTold(s, d, e, batch); }
    case Begin =>
    case PublishNext(p) => if CanPublish(s) { PublishIsTold(s, d, p, batch); }
    case Commit => if Ends(s, a) { CommitIsTold(s, d, batch); }
    case Abandon =>
  }

  lemma {:induction false} RunIsTold(actions: seq<Action>, batch: nat)
    ensures Told(Run(Initial(), actions, batch), DiaryOf(actions, batch))
  {
    if actions != [] {
      var before := actions[..|actions| - 1];
      RunIsTold(before, batch);
      RunKeepsInv(before, batch);
      NextIsTold(Run(Initial(), before, batch), DiaryOf(before, batch), actions[|actions| - 1], batch);
    }
  }

  /** In every run and for every row: its retry counter is the number of failed attempts in batches that committed, it is
      FAILED exactly when these are five, PUBLISHED exactly when an attempt in a committed batch succeeded, and its event
      is in the stream exactly when some attempt appended it, be it in a batch that was rolled back or one that was
      reported as a failure. */
  lemma {:induction false} ExactDelivery(actions: seq<Action>, batch: nat, k: nat)
    requires k < |Run(Initial(), actions, batch).rows|
    ensures var s, d := Run(Initial(), actions, batch), DiaryOf(actions, batch);
      && s.rows[k].retries == Fails(d.kept, k)
      && (s.rows[k].status.Failed? <==> Fails(d.kept, k) == MAX_RETRIES)
      && (s.rows[k].status.Published? <==> Succeeded(d.kept, k))
      && (s.rows[k].event in s.stream <==> Landed(d.all, k))
  {
    RunIsTold(actions, batch);
    RunKeepsInv(actions, batch);
    assert RetriesOk(Run(Initial(), actions, batch).rows[k]);
  }

  /** At-least-once delivery by the relay, exactly: once every row is settled, all events are in the stream if and only if
      every row that failed five times in committed batches had some attempt that appended it. */
  lemma {:induction false} NothingLostIff(actions: seq<Action>, batch: nat)
    requires forall k :: 0 <= k < |Run(Initial(), actions, batch).rows| ==>
      !Run(Initial(), actions, batch).rows[k].status.Pending?
    ensures var s, d := Run(Initial(), actions, batch), DiaryOf(actions, batch);
      (forall k :: 0 <= k < |s.rows| ==> s.rows[k].event in s.stream)
      <==> (forall k :: 0 <= k < |s.rows| && Fails(d.kept, k) == MAX_RETRIES ==> Landed(d.all, k))
  {
    var s, d := Run(Initial(), actions, batch), DiaryOf(actions, batch);
    RunKeepsInv(actions, batch);
    if forall k :: 0 <= k < |s.rows| ==> s.rows[k].event in s.stream {
      forall k | 0 <= k < |s.rows| && Fails(d.kept, k) == MAX_RETRIES ensures Landed(d.all, k) {
        ExactDelivery(actions, batch, k);
      }
    }
    if forall k :: 0 <= k < |s.rows| && Fails(d.kept, k) == MAX_RETRIES ==> Landed(d.all, k) {
      forall k | 0 <= k < |s.rows| ensures s.rows[k].event in s.stream {
        ExactDelivery(actions, batch, k);
      }
    }
  }

  // ----- An event that is lost -----

  /** A settled row is never tried again. */
  lemma {:induction false} SettledStays(s: System, a: Action, batch: nat, k: nat)
    requires Inv(s) && k < |s.rows| && !s.rows[k].status.Pending?
    ensures k < |Next(s, a, batch).rows| && Next(s, a, batch).rows[k] == s.rows[k]
    ensures s.rows[k].event in Next(s, a, batch).stream <==> s.rows[k].event in s.stream
  {
    if Ends(s, a) { AfterCommit(s, batch, k); }
    if a.PublishNext? && CanPublish(s) {
      var at := s.relay.selected[|s.relay.edited|];
      assert at != k && s.rows[at].event != s.rows[k].event;
    }
  }

  /** What is not in the stream when its row is settled never gets there. */
  lemma {:induction false} LostForGood(s: System, actions: seq<Action>, batch: nat, k: nat)
    requires Inv(s) && k < |s.rows| && !s.rows[k].status.Pending?
    ensures var s' := Run(s, actions, batch);
      Inv(s') && k < |s'.rows| && s'.rows[k] == s.rows[k] && (s.rows[k].event in s'.stream <==> s.rows[k].event in s.stream)
  {
    if actions != [] {
      var before, a := actions[..|actions| - 1], actions[|actions| - 1];
      LostForGood(s, before, batch, k);
      NextKeepsInv(Run(s, before, batch), a, batch);
      SettledStays(Run(s, before, batch), a, batch, k);
    }
  }

  /** A row is written and `n` batches fail to publish it. */
  function Doomed(e: Event, n: nat): seq<Action> {
    if n == 0 then [Write(e)] else Doomed(e, n - 1) + [Begin] + [PublishNext(FailsClean)] + [Commit]
  }

  function AfterFailures(e: Event, n: nat): System {
    System([Row(e, if n >= MAX_RETRIES then Failed else Pending, n)], [], Idle, [n], n)
  }

  lemma {:induction false} RunAppend(s: System, actions: seq<Action>, a: Action, batch: nat)
    ensures Run(s, actions + [a], batch) == Next(Run(s, actions, batch), a, batch)
  {
    assert (actions + [a])[..|actions|] == actions;
  }

  lemma {:induction false} OneFailingBatch(e: Event, n: nat, batch: nat)
    requires n < MAX_RETRIES && batch >= 1
    ensures var s := AfterFailures(e, n);
      Next(Next(Next(s, Begin, batch), PublishNext(FailsClean), batch), Commit, batch) == AfterFailures(e, n + 1)
  {
    FailingBegin(e, n, batch);
    FailingPublish(e, n, batch);
    FailingCommit(e, n, batch);
  }

  /** In the middle of the next failing batch, with `edited` of its one row handled. */
  function AmidFailure(e: Event, n: nat, edited: seq<Row>): System {
    System(AfterFailures(e, n).rows, [], Running([0], edited), [n + 1], n)
  }

  lemma {:induction false} FailingBegin(e: Event, n: nat, batch: nat)
    requires n < MAX_RETRIES && batch >= 1
    ensures Next(AfterFailures(e, n), Begin, batch) == AmidFailure(e, n, [])
  {
    var s := AfterFailures(e, n);
    assert Select(s.rows, 0, batch) == [0] + Select(s.rows, 1, batch - 1) == [0];
    var one: seq<nat> := [0];
    assert one[..0] == [] && Bump(s.picks, one[..0]) == [n];
    assert Bump(s.picks, one) == [n + 1];
  }

  lemma {:induction false} FailingPublish(e: Event, n: nat, batch: nat)
    requires n < MAX_RETRIES
    ensures Next(AmidFailure(e, n, []), PublishNext(FailsClean), batch) == AmidFailure(e, n, AfterFailures(e, n + 1).rows)
  {
    var s := AmidFailure(e, n, []);
    assert CanPublish(s);
    assert [] + [Attempt(s.rows[0], FailsClean)] == AfterFailures(e, n + 1).rows;
  }

  lemma {:induction false} FailingCommit(e: Event, n: nat, batch: nat)
    requires n < MAX_RETRIES
    ensures Next(AmidFailure(e, n, AfterFailures(e, n + 1).rows), Commit, batch) == AfterFailures(e, n + 1)
  {
    var rows, edited := AfterFailures(e, n).rows, AfterFailures(e, n + 1).rows;
    assert edited[..0] == [] && WriteBack(rows, [0], edited[..0]) == rows;
    assert WriteBack(rows, [0], edited) == edited;
  }

  lemma {:induction false} DoomedWrite(e: Event, batch: nat)
    ensures Run(Initial(), Doomed(e, 0), batch) == AfterFailures(e, 0)
  {
    assert [Write(e)] == [] + [Write(e)];
    RunAppend(Initial(), [], Write(e), batch);
    assert !IdTaken([], e.id);
  }

  lemma {:induction false} FailuresAddUp(e: Event, n: nat, batch: nat)
    requires n <= MAX_RETRIES && batch >= 1
    ensures Run(Initial(), Doomed(e, n), batch) == AfterFailures(e, n)
  {
    if n == 0 {
      DoomedWrite(e, batch);
    } else {
      FailuresAddUp(e, n - 1, batch);
      OneFailingBatch(e, n - 1, batch);
      RunThree(Initial(), Doomed(e, n - 1), Begin, PublishNext(FailsClean), Commit, batch);
    }
  }

  lemma {:induction false} RunThree(s: System, actions: seq<Action>, a: Action, b: Action, c: Action, batch: nat)
    ensures Run(s, actions + [a] + [b] + [c], batch) == Next(Next(Next(Run(s, actions, batch), a, batch), b, batch), c, batch)
  {
    RunAppend(s, actions, a, batch);
    RunAppend(s, actions + [a], b, batch);
    RunAppend(s, actions + [a] + [b], c, batch);
  }

  /** Five failing batches lose the event of a committed row: FAILED, and nothing in the stream. */
  lemma {:induction false} FiveFailuresLoseEvent(e: Event, batch: nat)
    requires batch >= 1
    ensures var s := Run(Initial(), Doomed(e, MAX_RETRIES), batch);
      s.rows == [Row(e, Failed, MAX_RETRIES)] && s.stream == []
  {
    FailuresAddUp(e, MAX_RETRIES, batch);
  }
}
