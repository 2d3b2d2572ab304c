/** Safety, duplication, ordering and progress of the outbox relay over all runs. */
module RelayGuarantees {
  import opened Relay

  // ----- Safety -----

  /** In every run, with publish failures, rollbacks and crashes anywhere: a committed PUBLISHED row is in the stream, the
      stream has no entry without a committed row, and retry counters agree with the status. */
  lemma {:induction false} Safety(actions: seq<Action>, batch: nat)
    ensures var s := Run(Initial(), actions, batch);
      && (forall k :: 0 <= k < |s.rows| && s.rows[k].status.Published? ==> s.rows[k].event in s.stream)
      && (forall i :: 0 <= i < |s.stream| ==> HasEvent(s.rows, s.stream[i]))
      && (forall k :: 0 <= k < |s.rows| ==> RetriesOk(s.rows[k]))
  {
    RunKeepsInv(actions, batch);
  }

  // ----- Duplication -----

  function Copies(stream: seq<Event>, e: Event): nat {
    if stream == [] then 0 else Copies(stream[..|stream| - 1], e) + if stream[|stream| - 1] == e then 1 else 0
  }

  lemma {:induction false} CopiesAppend(stream: seq<Event>, x: Event, e: Event)
    ensures Copies(stream + [x], e) == Copies(stream, e) + if x == e then 1 else 0
  {
    assert (stream + [x])[..|stream|] == stream;
  }

  lemma {:induction false} NoCopies(stream: seq<Event>, e: Event)
    requires e !in stream
    ensures Copies(stream, e) == 0
  {
    if stream != [] { NoCopies(stream[..|stream| - 1], e); }
  }

  predicate StillToPublish(s: System, k: nat) {
    s.relay.Running? && exists i :: |s.relay.edited| <= i < |s.relay.selected| && s.relay.selected[i] == k
  }

  ghost predicate DuplicationOk(s: System)
    requires |s.picks| == |s.rows|
  {
    forall k :: 0 <= k < |s.rows| ==>
      Copies(s.stream, s.rows[k].event) + (if StillToPublish(s, k) then 1 else 0) <= s.picks[k]
  }

  predicate Increasing(selected: seq<nat>) {
    forall j, k :: 0 <= j < k < |selected| ==> selected[j] < selected[k]
  }

  lemma {:induction false} BumpAt(picks: seq<nat>, selected: seq<nat>, k: nat)
    requires Increasing(selected) && k < |picks|
    ensures Bump(picks, selected)[k] == picks[k] + if k in selected then 1 else 0
  {
    if selected != [] {
      var n := |selected| - 1;
      BumpAt(picks, selected[..n], k);
      assert forall j :: 0 <= j < n ==> selected[..n][j] == selected[j];
      if k == selected[n] { assert k !in selected[..n]; }
      assert k in selected <==> k in selected[..n] || k == selected[n];
    }
  }

  lemma {:induction false} WriteKeepsDuplication(s: System, e: Event, batch: nat)
    requires Inv(s) && DuplicationOk(s) && !IdTaken(s.rows, e.id)
    ensures DuplicationOk(Next(s, Write(e), batch))
  {
    var s' := Next(s, Write(e), batch);
    assert e !in s.stream by {
      forall i | 0 <= i < |s.stream| ensures s.stream[i] != e {
        assert HasEvent(s.rows, s.stream[i]);
      }
    }
    NoCopies(s.stream, e);
    forall k | 0 <= k < |s'.rows|
      ensures Copies(s'.stream, s'.rows[k].event) + (if StillToPublish(s', k) then 1 else 0) <= s'.picks[k]
    {
      if k < |s.rows| { assert StillToPublish(s, k) == StillToPublish(s', k); }
    }
  }

  lemma {:induction false} BeginKeepsDuplication(s: System, batch: nat)
    requires Inv(s) && DuplicationOk(s) && s.relay.Idle?
    ensures DuplicationOk(Next(s, Begin, batch))
  {
    var s' := Next(s, Begin, batch);
    forall k | 0 <= k < |s'.rows|
      ensures Copies(s'.stream, s'.rows[k].event) + (if StillToPublish(s', k) then 1 else 0) <= s'.picks[k]
    {
      BumpAt(s.picks, s'.relay.selected, k);
    }
  }

  lemma {:induction false} PublishKeepsDuplication(s: System, p: Publish, batch: nat)
    requires Inv(s) && DuplicationOk(s) && CanPublish(s)
    ensures DuplicationOk(Next(s, PublishNext(p), batch))
  {
    var n := |s.relay.edited|;
    var at := s.relay.selected[n];
    var s' := Next(s, PublishNext(p), batch);
    forall k | 0 <= k < |s'.rows|
      ensures Copies(s'.stream, s'.rows[k].event) + (if StillToPublish(s', k) then 1 else 0) <= s'.picks[k]
    {
      CopiesAppend(s.stream, s.rows[at].event, s.rows[k].event);
      if k == at {
        assert StillToPublish(s, k);
        assert !StillToPublish(s', k);
      } else {
        assert s.rows[k].event != s.rows[at].event;
        if StillToPublish(s', k) {
          var i :| n + 1 <= i < |s.relay.selected| && s.relay.selected[i] == k;
          assert StillToPublish(s, k);
        }
      }
    }
  }

  lemma {:induction false} EndKeepsDuplication(s: System, a: Action, batch: nat)
    requires Inv(s) && DuplicationOk(s) && (a.Commit? || a.Abandon?)
    ensures |Next(s, a, batch).picks| == |Next(s, a, batch).rows| && DuplicationOk(Next(s, a, batch))
  {
    var s' := Next(s, a, batch);
    forall k | 0 <= k < |s'.rows|
      ensures Copies(s'.stream, s'.rows[k].event) + (if StillToPublish(s', k) then 1 else 0) <= s'.picks[k]
    {
      if a.Commit? && s.relay.Running? && |s.relay.edited| == |s.relay.selected| { AfterCommit(s, batch, k); }
    }
  }

  /** The copies of an event never exceed the number of batches that selected its row. */
  lemma {:induction false} BoundedDuplication(actions: seq<Action>, batch: nat)
    ensures var s := Run(Initial(), actions, batch); Inv(s) && DuplicationOk(s)
    ensures var s := Run(Initial(), actions, batch);
      forall k :: 0 <= k < |s.rows| ==> Copies(s.stream, s.rows[k].event) <= s.picks[k]
  {
    RunKeepsInv(actions, batch);
    if actions != [] {
      var before, a := actions[..|actions| - 1], actions[|actions| - 1];
      BoundedDuplication(before, batch);
      var s := Run(Initial(), before, batch);
      match a
      case Write(e) => if !IdTaken(s.rows, e.id) { WriteKeepsDuplication(s, e, batch); }
      case Begin => if s.relay.Idle? { BeginKeepsDuplication(s, batch); }
      case PublishNext(p) => if CanPublish(s) { PublishKeepsDuplication(s, p, batch); }
      case Commit => EndKeepsDuplication(s, a, batch);
      case Abandon => EndKeepsDuplication(s, a, batch);
    }
  }

  // ----- Order of first occurrences -----

  function First(stream: seq<Event>, e: Event): (i: nat)
    requires e in stream
    ensures i < |stream| && stream[i] == e
    ensures forall j :: 0 <= j < i ==> stream[j] != e
  {
    if stream[0] == e then 0 else 1 + First(stream[1..], e)
  }

  lemma {:induction false} FirstAppend(stream: seq<Event>, x: Event, e: Event)
    requires e in stream || e == x
    ensures e in stream + [x]
    ensures First(stream + [x], e) == if e in stream then First(stream, e) else |stream|
  {
    assert (stream + [x])[|stream|] == x;
    var i := First(stream + [x], e);
    if e in stream {
      assert (stream + [x])[First(stream, e)] == e;
      assert i < |stream|;
    }
  }

  /** No publish raises; batches may still roll back and the relay may still crash. */
  predicate NoException(actions: seq<Action>) {
    forall k :: 0 <= k < |actions| && actions[k].PublishNext? ==> actions[k].outcome.Ok?
  }

  /** Row `j` was published before row `k`. */
  predicate Before(s: System, j: nat, k: nat)
    requires j < |s.rows| && k < |s.rows|
  {
    s.rows[k].event in s.stream ==>
      s.rows[j].event in s.stream && First(s.stream, s.rows[j].event) < First(s.stream, s.rows[k].event)
  }

  /** The batch leaves out no PENDING row below one it selected. */
  predicate Dense(s: System) {
    s.relay.Running? ==>
      forall i, j :: 0 <= i < |s.relay.selected| && 0 <= j < |s.rows| && s.rows[j].status.Pending? ==>
        (j < s.relay.selected[i] ==> j in s.relay.selected[..i])
  }

  ghost predicate InOrder(s: System) {
    && (forall k :: 0 <= k < |s.rows| ==> !s.rows[k].status.Failed?)
    && (s.relay.Running? ==> forall k :: 0 <= k < |s.relay.edited| ==> s.relay.edited[k].status.Published?)
    && Dense(s)
    && (forall j, k :: 0 <= j < k < |s.rows| ==> Before(s, j, k))
  }

  lemma {:induction false} SelectIsDense(rows: seq<Row>, from: nat, limit: nat, i: nat, j: nat)
    requires from <= j < |rows| && rows[j].status.Pending?
    requires i < |Select(rows, from, limit)| && j < Select(rows, from, limit)[i]
    ensures j in Select(rows, from, limit)[..i]
    decreases |rows| - from
  {
    var r := Select(rows, from, limit);
    if rows[from].status.Pending? {
      var rest := Select(rows, from + 1, limit - 1);
      assert r == [from] + rest;
      if j > from {
        SelectIsDense(rows, from + 1, limit - 1, i - 1, j);
        assert r[..i] == [from] + rest[..i - 1];
      } else {
        assert r[..i][0] == from;
      }
    } else {
      SelectIsDense(rows, from + 1, limit, i, j);
    }
  }

  lemma {:induction false} WriteKeepsOrder(s: System, e: Event, batch: nat)
    requires Inv(s) && InOrder(s) && !IdTaken(s.rows, e.id)
    ensures InOrder(Next(s, Write(e), batch))
  {
    var s' := Next(s, Write(e), batch);
    assert e !in s.stream by {
      forall i | 0 <= i < |s.stream| ensures s.stream[i] != e {
        assert HasEvent(s.rows, s.stream[i]);
      }
    }
    forall j, k | 0 <= j < k < |s'.rows| ensures Before(s', j, k) {
      if k < |s.rows| { assert Before(s, j, k); }
    }
  }

  lemma {:induction false} BeginKeepsOrder(s: System, batch: nat)
    requires Inv(s) && InOrder(s) && s.relay.Idle?
    ensures InOrder(Next(s, Begin, batch))
  {
    var s' := Next(s, Begin, batch);
    var selected := s'.relay.selected;
    forall i, j | 0 <= i < |selected| && 0 <= j < selected[i] && j < |s.rows| && s.rows[j].status.Pending?
      ensures j in selected[..i]
    {
      SelectIsDense(s.rows, 0, batch, i, j);
    }
    forall j, k | 0 <= j < k < |s'.rows| ensures Before(s', j, k) {
      assert Before(s, j, k);
    }
  }

  /** When a row is published, every earlier row is already in the stream. */
  lemma {:induction false} EarlierAreOut(s: System, j: nat)
    requires Inv(s) && InOrder(s) && CanPublish(s) && j < s.relay.selected[|s.relay.edited|]
    ensures s.rows[j].event in s.stream
  {
    var n := |s.relay.edited|;
    if s.rows[j].status.Pending? {
      assert j in s.relay.selected[..n];
      var i :| 0 <= i < n && s.relay.selected[i] == j;
      assert EditOk(s.rows[s.relay.selected[i]], s.relay.edited[i], s.stream);
    }
  }

  lemma {:induction false} PublishKeepsOrder(s: System, batch: nat)
    requires Inv(s) && InOrder(s) && CanPublish(s)
    ensures InOrder(Next(s, PublishNext(Ok), batch))
  {
    var s' := Next(s, PublishNext(Ok), batch);
    var at := s.relay.selected[|s.relay.edited|];
    var x := s.rows[at].event;
    forall j, k | 0 <= j < k < |s'.rows| ensures Before(s', j, k) {
      assert Before(s, j, k);
      if s.rows[k].event in s.stream {
        FirstAppend(s.stream, x, s.rows[k].event);
        FirstAppend(s.stream, x, s.rows[j].event);
      } else if k == at {
        EarlierAreOut(s, j);
        FirstAppend(s.stream, x, s.rows[k].event);
        FirstAppend(s.stream, x, s.rows[j].event);
      } else {
        assert s.rows[k].event != x;
      }
    }
  }

  lemma {:induction false} EndKeepsOrder(s: System, a: Action, batch: nat)
    requires Inv(s) && InOrder(s) && (a.Commit? || a.Abandon?)
    ensures InOrder(Next(s, a, batch))
  {
    var s' := Next(s, a, batch);
    var ends := a.Commit? && s.relay.Running? && |s.relay.edited| == |s.relay.selected|;
    forall k | 0 <= k < |s'.rows| ensures !s'.rows[k].status.Failed? && s'.rows[k].event == s.rows[k].event {
      if ends {
        AfterCommit(s, batch, k);
        WriteBackAt(s.rows, s.relay.selected, s.relay.edited, k);
        if k in s.relay.selected {
          var i :| 0 <= i < |s.relay.selected| && s.relay.selected[i] == k;
        }
      }
    }
    forall j, k | 0 <= j < k < |s'.rows| ensures Before(s', j, k) {
      assert Before(s, j, k);
    }
  }

  /** In a run without publish exceptions the first occurrences of events in the stream are in row order, whatever rolls
      back or crashes: an event appears only after all events written before it. */
  lemma {:induction false} FirstOccurrencesInRowOrder(actions: seq<Action>, batch: nat)
    requires NoException(actions)
    ensures var s := Run(Initial(), actions, batch); Inv(s) && InOrder(s)
    ensures var s := Run(Initial(), actions, batch); forall j, k :: 0 <= j < k < |s.rows| ==> Before(s, j, k)
  {
    RunKeepsInv(actions, batch);
    if actions != [] {
      var before, a := actions[..|actions| - 1], actions[|actions| - 1];
      FirstOccurrencesInRowOrder(before, batch);
      var s := Run(Initial(), before, batch);
      match a
      case Write(e) => if !IdTaken(s.rows, e.id) { WriteKeepsOrder(s, e, batch); }
      case Begin => if s.relay.Idle? { BeginKeepsOrder(s, batch); }
      case PublishNext(p) => if CanPublish(s) { PublishKeepsOrder(s, batch); }
      case Commit => EndKeepsOrder(s, a, batch);
      case Abandon => EndKeepsOrder(s, a, batch);
    }
  }
}
