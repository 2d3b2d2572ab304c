/** The outbox relay: batches of PENDING rows published to an append-only stream inside a transaction that may roll back. */
module Relay {

  datatype Kind = OrderCreated | OrderConfirmed | OrderCancelled | Other(name: string)

  /** An event envelope; the stream entry published for it carries the same id, type and order. */
  datatype Event = Event(id: string, kind: Kind, orderId: string)

  datatype Status = Pending | Published | Failed

  datatype Row = Row(event: Event, status: Status, retries: nat)

  /** A publish succeeds, raises before the entry is appended, or raises although it was appended. */
  datatype Publish = Ok | FailsClean | FailsAfterAppend

  const MAX_RETRIES: nat := 5

  /** `Running` holds the selected row positions and the edited copies of those already handled. */
  datatype Worker = Idle | Running(selected: seq<nat>, edited: seq<Row>)

  /** `picks` counts, per row, the batches that selected it; `commits` the batches that committed. */
  datatype System = System(rows: seq<Row>, stream: seq<Event>, relay: Worker, picks: seq<nat>, commits: nat)

  datatype Action = Write(event: Event) | Begin | PublishNext(outcome: Publish) | Commit | Abandon

  // ----- Steps -----

  /** Positions of the first `limit` PENDING rows from position `from` on, in id order. */
  function Select(rows: seq<Row>, from: nat, limit: nat): (r: seq<nat>)
    requires from <= |rows|
    ensures |r| <= limit
    ensures forall k :: 0 <= k < |r| ==> from <= r[k] < |rows| && rows[r[k]].status.Pending?
    ensures forall j, k :: 0 <= j < k < |r| ==> r[j] < r[k]
    decreases |rows| - from
  {
    if limit == 0 || from == |rows| then []
    else if rows[from].status.Pending? then [from] + Select(rows, from + 1, limit - 1)
    else Select(rows, from + 1, limit)
  }

  /** The row after an attempt to publish it. */
  function Attempt(row: Row, p: Publish): Row {
    if p.Ok? then row.(status := Published)
    else
      var row' := row.(retries := row.retries + 1);
      if row'.retries >= MAX_RETRIES then row'.(status := Failed) else row'
  }

  predicate Appends(p: Publish) {
    p.Ok? || p.FailsAfterAppend?
  }

  function WriteBack(rows: seq<Row>, selected: seq<nat>, edited: seq<Row>): (r: seq<Row>)
    ensures |r| == |rows|
  {
    if edited == [] || |selected| < |edited| then rows
    else
      var n := |edited| - 1;
      var rows' := WriteBack(rows, selected, edited[..n]);
      if selected[n] < |rows| then rows'[selected[n] := edited[n]] else rows'
  }

  function Bump(picks: seq<nat>, selected: seq<nat>): (r: seq<nat>)
    ensures |r| == |picks|
  {
    if selected == [] then picks
    else
      var n := |selected| - 1;
      var picks' := Bump(picks, selected[..n]);
      if selected[n] < |picks| then picks'[selected[n] := picks'[selected[n]] + 1] else picks'
  }

  predicate IdTaken(rows: seq<Row>, id: string) {
    exists k :: 0 <= k < |rows| && rows[k].event.id == id
  }

  predicate CanPublish(s: System) {
    s.relay.Running? && |s.relay.edited| < |s.relay.selected| && s.relay.selected[|s.relay.edited|] < |s.rows|
  }

  /** `batch` is the relay's batch size. A crash of the relay and a rollback are both `Abandon`. */
  function Next(s: System, a: Action, batch: nat): System {
    match a
    case Write(e) =>
      if IdTaken(s.rows, e.id) then s else s.(rows := s.rows + [Row(e, Pending, 0)], picks := s.picks + [0])
    case Begin =>
      if !s.relay.Idle? then s
      else
        var selected := Select(s.rows, 0, batch);
        s.(relay := Running(selected, []), picks := Bump(s.picks, selected))
    case PublishNext(p) =>
      if !CanPublish(s) then s
      else
        var row := s.rows[s.relay.selected[|s.relay.edited|]];
        s.(relay := s.relay.(edited := s.relay.edited + [Attempt(row, p)]),
           stream := if Appends(p) then s.stream + [row.event] else s.stream)
    case Commit =>
      if !s.relay.Running? || |s.relay.edited| != |s.relay.selected| then s
      else s.(rows := WriteBack(s.rows, s.relay.selected, s.relay.edited), relay := Idle, commits := s.commits + 1)
    case Abandon => s.(relay := Idle)
  }

  function Run(s: System, actions: seq<Action>, batch: nat): System {
    if actions == [] then s else Next(Run(s, actions[..|actions| - 1], batch), actions[|actions| - 1], batch)
  }

  function Initial(): System {
    System([], [], Idle, [], 0)
  }

  /** What one attempt does, case by case: a publish that raises may have appended all the same, and the fifth failure gives
      up on the row. */
  lemma {:induction false} PublishTable(s: System, p: Publish, batch: nat)
    requires CanPublish(s)
    ensures var s' := Next(s, PublishNext(p), batch);
      var row := s.rows[s.relay.selected[|s.relay.edited|]];
      var failed := Row(row.event, if row.retries + 1 >= 5 then Failed else row.status, row.retries + 1);
      && s'.rows == s.rows
      && match p {
           case Ok => s'.stream == s.stream + [row.event] && s'.relay.edited == s.relay.edited + [row.(status := Published)]
           case FailsClean => s'.stream == s.stream && s'.relay.edited == s.relay.edited + [failed]
           case FailsAfterAppend => s'.stream == s.stream + [row.event] && s'.relay.edited == s.relay.edited + [failed]
         }
  {
  }

  // ----- The invariant -----

  predicate RetriesOk(r: Row) {
    match r.status
    case Pending => r.retries < MAX_RETRIES
    case Published => r.retries < MAX_RETRIES
    case Failed => r.retries == MAX_RETRIES
  }

  predicate RowsOk(s: System) {
    && (forall j, k :: 0 <= j < k < |s.rows| ==> s.rows[j].event.id != s.rows[k].event.id)
    && (forall k :: 0 <= k < |s.rows| ==> RetriesOk(s.rows[k]) && (s.rows[k].status.Published? ==> s.rows[k].event in s.stream))
  }

  predicate HasEvent(rows: seq<Row>, e: Event) {
    exists k :: 0 <= k < |rows| && rows[k].event == e
  }

  predicate StreamOk(s: System) {
    forall i :: 0 <= i < |s.stream| ==> HasEvent(s.rows, s.stream[i])
  }

  /** An edited copy stands for its row after one attempt. */
  predicate EditOk(row: Row, edit: Row, stream: seq<Event>) {
    && edit.event == row.event && RetriesOk(edit)
    && (edit.status.Pending? ==> edit.retries == row.retries + 1)
    && (edit.status.Published? ==> edit.event in stream)
  }

  predicate BatchOk(s: System) {
    s.relay.Running? ==>
      var selected, edited := s.relay.selected, s.relay.edited;
      && |edited| <= |selected|
      && (forall k :: 0 <= k < |selected| ==> selected[k] < |s.rows| && s.rows[selected[k]].status.Pending?)
      && (forall j, k :: 0 <= j < k < |selected| ==> selected[j] < selected[k])
      && (forall k :: 0 <= k < |edited| ==> EditOk(s.rows[selected[k]], edited[k], s.stream))
  }

  ghost predicate Inv(s: System) {
    RowsOk(s) && StreamOk(s) && BatchOk(s) && |s.picks| == |s.rows|
  }

  // ----- Write-back -----

  lemma {:induction false} WriteBackAt(rows: seq<Row>, selected: seq<nat>, edited: seq<Row>, q: nat)
    requires |edited| <= |selected| && q < |rows|
    requires forall k :: 0 <= k < |selected| ==> selected[k] < |rows|
    requires forall j, k :: 0 <= j < k < |selected| ==> selected[j] < selected[k]
    ensures q !in selected[..|edited|] ==> WriteBack(rows, selected, edited)[q] == rows[q]
    ensures forall k :: 0 <= k < |edited| && selected[k] == q ==> WriteBack(rows, selected, edited)[q] == edited[k]
  {
    if edited != [] {
      var n := |edited| - 1;
      WriteBackAt(rows, selected, edited[..n], q);
      if q !in selected[..|edited|] {
        assert selected[n] in selected[..|edited|];
        assert forall k :: 0 <= k < n ==> selected[..n][k] == selected[..|edited|][k];
      }
    }
  }

  /** After a commit a row is as edited if it was selected, and unchanged otherwise. */
  lemma {:induction false} AfterCommit(s: System, batch: nat, q: nat)
    requires Inv(s) && s.relay.Running? && |s.relay.edited| == |s.relay.selected| && q < |s.rows|
    ensures var q' := Next(s, Commit, batch).rows[q];
      && (q !in s.relay.selected ==> q' == s.rows[q])
      && (q in s.relay.selected ==> s.rows[q].status.Pending? && EditOk(s.rows[q], q', s.stream))
  {
    var selected, edited := s.relay.selected, s.relay.edited;
    WriteBackAt(s.rows, selected, edited, q);
    assert selected[..|edited|] == selected;
    if q in selected {
      var k :| 0 <= k < |selected| && selected[k] == q;
      assert EditOk(s.rows[selected[k]], edited[k], s.stream);
    }
  }

  /** Only a write adds a row, and no step changes the event of a row. */
  lemma {:induction false} NextKeepsEvents(s: System, a: Action, batch: nat)
    requires Inv(s) && !a.Write?
    ensures |Next(s, a, batch).rows| == |s.rows|
    ensures forall k :: 0 <= k < |s.rows| ==> Next(s, a, batch).rows[k].event == s.rows[k].event
  {
    forall k | 0 <= k < |s.rows| ensures Next(s, a, batch).rows[k].event == s.rows[k].event {
      if a.Commit? && s.relay.Running? && |s.relay.edited| == |s.relay.selected| { AfterCommit(s, batch, k); }
    }
  }

  // ----- Every step keeps the invariant -----

  lemma {:induction false} WriteKeepsInv(s: System, e: Event, batch: nat)
    requires Inv(s)
    ensures Inv(Next(s, Write(e), batch))
  {
    if !IdTaken(s.rows, e.id) {
      var s' := Next(s, Write(e), batch);
      forall i | 0 <= i < |s'.stream| ensures HasEvent(s'.rows, s'.stream[i]) {
        var k :| 0 <= k < |s.rows| && s.rows[k].event == s.stream[i];
        assert s'.rows[k].event == s.stream[i];
      }
    }
  }

  lemma {:induction false} AttemptIsOk(row: Row, p: Publish, stream: seq<Event>)
    requires row.status.Pending? && RetriesOk(row)
    ensures EditOk(row, Attempt(row, p), if Appends(p) then stream + [row.event] else stream)
  {
    if Appends(p) { assert (stream + [row.event])[|stream|] == row.event; }
  }

  lemma {:induction false} PublishKeepsInv(s: System, p: Publish, batch: nat)
    requires Inv(s) && CanPublish(s)
    ensures Inv(Next(s, PublishNext(p), batch))
  {
    var n := |s.relay.edited|;
    var row := s.rows[s.relay.selected[n]];
    var s' := Next(s, PublishNext(p), batch);
    AttemptIsOk(row, p, s.stream);
    assert forall e :: e in s.stream ==> e in s'.stream;
    forall k | 0 <= k < |s'.relay.edited| ensures EditOk(s'.rows[s'.relay.selected[k]], s'.relay.edited[k], s'.stream) {
      if k < n { assert EditOk(s.rows[s.relay.selected[k]], s.relay.edited[k], s.stream); }
    }
    forall i | 0 <= i < |s'.stream| ensures HasEvent(s'.rows, s'.stream[i]) {
      if i < |s.stream| { assert HasEvent(s.rows, s.stream[i]); }
    }
  }

  lemma {:induction false} CommitKeepsInv(s: System, batch: nat)
    requires Inv(s) && s.relay.Running? && |s.relay.edited| == |s.relay.selected|
    ensures Inv(Next(s, Commit, batch))
  {
    var s' := Next(s, Commit, batch);
    forall q | 0 <= q < |s.rows|
      ensures s'.rows[q].event == s.rows[q].event && RetriesOk(s'.rows[q])
      ensures s'.rows[q].status.Published? ==> s'.rows[q].event in s'.stream
    {
      AfterCommit(s, batch, q);
    }
    forall i | 0 <= i < |s'.stream| ensures HasEvent(s'.rows, s'.stream[i]) {
      var k :| 0 <= k < |s.rows| && s.rows[k].event == s.stream[i];
      assert s'.rows[k].event == s.stream[i];
    }
  }

  lemma {:induction false} NextKeepsInv(s: System, a: Action, batch: nat)
    requires Inv(s)
    ensures Inv(Next(s, a, batch))
  {
    match a
    case Write(e) => WriteKeepsInv(s, e, batch);
    case Begin =>
    case PublishNext(p) => if CanPublish(s) { PublishKeepsInv(s, p, batch); }
    case Commit => if s.relay.Running? && |s.relay.edited| == |s.relay.selected| { CommitKeepsInv(s, batch); }
    case Abandon =>
  }

  lemma {:induction false} RunKeepsInv(actions: seq<Action>, batch: nat)
    ensures Inv(Run(Initial(), actions, batch))
  {
    if actions != [] {
      RunKeepsInv(actions[..|actions| - 1], batch);
      NextKeepsInv(Run(Initial(), actions[..|actions| - 1], batch), actions[|actions| - 1], batch);
    }
  }
}
