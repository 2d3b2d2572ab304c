/** How many committed batches it takes to settle a row, and the batch method itself. */
module RelayProgress {
  import opened Relay

  // ----- The bound -----

  /** PENDING rows below position `q`. */
  function PendingBefore(rows: seq<Row>, q: nat): nat
    requires q <= |rows|
  {
    if q == 0 then 0 else PendingBefore(rows, q - 1) + if rows[q - 1].status.Pending? then 1 else 0
  }

  /** The 1-based place of a row in the queue of PENDING rows. */
  function Place(rows: seq<Row>, q: nat): nat
    requires q < |rows|
  {
    PendingBefore(rows, q) + 1
  }

  function CeilDiv(a: nat, b: nat): nat
    requires b > 0
  {
    (a + b - 1) / b
  }

  /** Places that `j` committed batches are sure to have settled: one batch for every `MAX_RETRIES` of them. */
  function Frontier(j: nat, batch: nat): nat {
    if j < MAX_RETRIES then 0 else batch + Frontier(j - MAX_RETRIES, batch)
  }

  lemma {:induction false} FrontierIs(j: nat, batch: nat)
    ensures Frontier(j, batch) == batch * (j / MAX_RETRIES)
  {
    if j >= MAX_RETRIES {
      FrontierIs(j - MAX_RETRIES, batch);
      assert j / MAX_RETRIES == (j - MAX_RETRIES) / MAX_RETRIES + 1;
    }
  }

  lemma {:induction false} FrontierStep(j: nat, batch: nat)
    ensures j % MAX_RETRIES == MAX_RETRIES - 1 ==>
      Frontier(j + 1, batch) == Frontier(j, batch) + batch && (j + 1) % MAX_RETRIES == 0
    ensures j % MAX_RETRIES != MAX_RETRIES - 1 ==>
      Frontier(j + 1, batch) == Frontier(j, batch) && (j + 1) % MAX_RETRIES == j % MAX_RETRIES + 1
  {
    if j >= MAX_RETRIES {
      FrontierStep(j - MAX_RETRIES, batch);
    }
  }

  predicate Settled(r: Row) {
    !r.status.Pending?
  }

  /** What `j` committed batches have done to the rows of `rows0`. */
  predicate RowLevel(rows0: seq<Row>, row: Row, q: nat, j: nat, batch: nat)
    requires q < |rows0|
  {
    && (Settled(rows0[q]) ==> Settled(row))
    && (PendingBefore(rows0, q) < Frontier(j, batch) ==> Settled(row))
    && (PendingBefore(rows0, q) < Frontier(j, batch) + batch ==> Settled(row) || row.retries >= j % MAX_RETRIES)
  }

  ghost predicate Level(rows0: seq<Row>, s: System, j: nat, batch: nat) {
    && |rows0| <= |s.rows|
    && (forall q :: 0 <= q < |rows0| ==> RowLevel(rows0, s.rows[q], q, j, batch))
    && (s.relay.Running? ==> forall q :: 0 <= q < |rows0| && !Settled(s.rows[q]) ==>
          (PendingBefore(rows0, q) < Frontier(j, batch) + batch ==> q in s.relay.selected))
  }

  lemma {:induction false} PendingMonotone(rows: seq<Row>, a: nat, b: nat)
    requires a <= b <= |rows|
    ensures PendingBefore(rows, a) <= PendingBefore(rows, b)
  {
    if a < b { PendingMonotone(rows, a, b - 1); }
  }

  /** A PENDING row with fewer than `limit` PENDING rows before it is selected. */
  lemma {:induction false} SelectCovers(rows: seq<Row>, from: nat, limit: nat, q: nat)
    requires from <= q < |rows| && !Settled(rows[q])
    requires PendingBefore(rows, q) < PendingBefore(rows, from) + limit
    ensures q in Select(rows, from, limit)
    decreases q - from
  {
    PendingMonotone(rows, from, q);
    if from < q {
      PendingMonotone(rows, from + 1, q);
      if rows[from].status.Pending? {
        SelectCovers(rows, from + 1, limit - 1, q);
      } else {
        SelectCovers(rows, from + 1, limit, q);
      }
    }
  }

  /** Once the first `settled` places are settled, that many fewer rows are PENDING before any later one. */
  lemma {:induction false} PendingLeft(rows0: seq<Row>, rows: seq<Row>, q: nat, settled: nat)
    requires q <= |rows0| <= |rows|
    requires forall k :: 0 <= k < q && !Settled(rows[k]) ==> !Settled(rows0[k]) && PendingBefore(rows0, k) >= settled
    ensures PendingBefore(rows, q) == 0 || PendingBefore(rows, q) + settled <= PendingBefore(rows0, q)
  {
    if q > 0 { PendingLeft(rows0, rows, q - 1, settled); }
  }

  lemma {:induction false} BeginKeepsLevel(rows0: seq<Row>, s: System, j: nat, batch: nat)
    requires Inv(s) && Level(rows0, s, j, batch) && s.relay.Idle? && batch >= 1
    ensures Level(rows0, Next(s, Begin, batch), j, batch)
  {
    var s' := Next(s, Begin, batch);
    forall q | 0 <= q < |rows0| && !Settled(s'.rows[q]) && PendingBefore(rows0, q) < Frontier(j, batch) + batch
      ensures q in s'.relay.selected
    {
      forall k | 0 <= k < q && !Settled(s.rows[k])
        ensures !Settled(rows0[k]) && PendingBefore(rows0, k) >= Frontier(j, batch)
      {
        assert RowLevel(rows0, s.rows[k], k, j, batch);
      }
      PendingLeft(rows0, s.rows, q, Frontier(j, batch));
      SelectCovers(s.rows, 0, batch, q);
    }
  }

  lemma {:induction false} CommitRowLevel(rows0: seq<Row>, s: System, j: nat, batch: nat, q: nat)
    requires Inv(s) && Level(rows0, s, j, batch) && q < |rows0|
    requires s.relay.Running? && |s.relay.edited| == |s.relay.selected|
    ensures RowLevel(rows0, Next(s, Commit, batch).rows[q], q, j + 1, batch)
  {
    assert RowLevel(rows0, s.rows[q], q, j, batch);
    AfterCommit(s, batch, q);
    FrontierStep(j, batch);
  }

  lemma {:induction false} CommitKeepsLevel(rows0: seq<Row>, s: System, j: nat, batch: nat)
    requires Inv(s) && Level(rows0, s, j, batch)
    requires s.relay.Running? && |s.relay.edited| == |s.relay.selected|
    ensures Level(rows0, Next(s, Commit, batch), j + 1, batch)
  {
    forall q | 0 <= q < |rows0| ensures RowLevel(rows0, Next(s, Commit, batch).rows[q], q, j + 1, batch) {
      CommitRowLevel(rows0, s, j, batch, q);
    }
  }

  lemma {:induction false} PublishKeepsLevel(rows0: seq<Row>, s: System, p: Publish, j: nat, batch: nat)
    requires Level(rows0, s, j, batch) && CanPublish(s)
    ensures Level(rows0, Next(s, PublishNext(p), batch), j, batch)
  {
    var s' := Next(s, PublishNext(p), batch);
    assert s'.rows == s.rows && s'.relay.Running? && s'.relay.selected == s.relay.selected;
  }

  lemma {:induction false} WriteKeepsLevel(rows0: seq<Row>, s: System, e: Event, j: nat, batch: nat)
    requires Level(rows0, s, j, batch) && !IdTaken(s.rows, e.id)
    ensures Level(rows0, Next(s, Write(e), batch), j, batch)
  {
    var s' := Next(s, Write(e), batch);
    assert forall q :: 0 <= q < |rows0| ==> s'.rows[q] == s.rows[q];
  }

  /** Committed batches so far: the step counts one only when it is a commit that ends a batch. */
  function Commits(s: System, a: Action): nat {
    if a.Commit? && s.relay.Running? && |s.relay.edited| == |s.relay.selected| then 1 else 0
  }

  lemma {:induction false} NextKeepsLevel(rows0: seq<Row>, s: System, a: Action, j: nat, batch: nat)
    requires Inv(s) && Level(rows0, s, j, batch) && batch >= 1
    ensures Level(rows0, Next(s, a, batch), j + Commits(s, a), batch)
    ensures Next(s, a, batch).commits == s.commits + Commits(s, a)
  {
    match a
    case Write(e) => if !IdTaken(s.rows, e.id) { WriteKeepsLevel(rows0, s, e, j, batch); }
    case Begin => if s.relay.Idle? { BeginKeepsLevel(rows0, s, j, batch); }
    case PublishNext(p) => if CanPublish(s) { PublishKeepsLevel(rows0, s, p, j, batch); }
    case Commit => if Commits(s, a) == 1 { CommitKeepsLevel(rows0, s, j, batch); }
    case Abandon => assert Next(s, a, batch).rows == s.rows && Next(s, a, batch).relay.Idle?;
  }

  /** `s` is `j` committed batches after `s0`. */
  ghost predicate Later(s0: System, s: System, j: nat, batch: nat) {
    Inv(s) && s.commits == s0.commits + j && Level(s0.rows, s, j, batch)
  }

  lemma {:induction false} StartLater(s: System, batch: nat)
    requires Inv(s) && s.relay.Idle?
    ensures Later(s, s, 0, batch)
  {
  }

  lemma {:induction false} NextLater(s0: System, s: System, a: Action, j: nat, batch: nat) returns (s': System, j': nat)
    requires Later(s0, s, j, batch) && batch >= 1
    ensures s' == Next(s, a, batch)
    ensures Later(s0, s', j', batch)
  {
    NextKeepsInv(s, a, batch);
    NextKeepsLevel(s0.rows, s, a, j, batch);
    s', j' := Next(s, a, batch), j + Commits(s, a);
  }

  lemma {:induction false} RunKeepsLevel(s0: System, actions: seq<Action>, batch: nat) returns (s: System, j: nat)
    requires Inv(s0) && s0.relay.Idle? && batch >= 1
    ensures s == Run(s0, actions, batch)
    ensures Later(s0, s, j, batch)
  {
    if actions == [] {
      StartLater(s0, batch);
      s, j := s0, 0;
    } else {
      s, j := RunKeepsLevel(s0, actions[..|actions| - 1], batch);
      s, j := NextLater(s0, s, actions[|actions| - 1], j, batch);
    }
  }

  lemma {:induction false} EnoughBatches(place: nat, j: nat, batch: nat)
    requires batch >= 1 && j >= MAX_RETRIES * CeilDiv(place, batch)
    ensures place <= Frontier(j, batch)
  {
    var c := CeilDiv(place, batch);
    FrontierIs(j, batch);
    assert batch * c >= place;
    assert j / MAX_RETRIES >= c;
    Multiply(batch, c, j / MAX_RETRIES);
  }

  lemma {:induction false} Multiply(b: nat, c: nat, d: nat)
    requires c <= d
    ensures b * c <= b * d
  {
  }

  /** From any point between two batches of any run: a row at place `p` of the PENDING queue is PUBLISHED or FAILED after at
      most `MAX_RETRIES * ceil(p / batch)` further committed batches, whatever publishes fail, batches roll back, relays
      crash and rows arrive meanwhile. */
  lemma {:induction false} ProgressBound(prefix: seq<Action>, actions: seq<Action>, batch: nat, q: nat)
    requires batch >= 1 && Run(Initial(), prefix, batch).relay.Idle?
    requires q < |Run(Initial(), prefix, batch).rows|
    ensures var s0 := Run(Initial(), prefix, batch);
      var s := Run(s0, actions, batch);
      s.commits >= s0.commits + MAX_RETRIES * CeilDiv(Place(s0.rows, q), batch) ==> q < |s.rows| && Settled(s.rows[q])
  {
    RunKeepsInv(prefix, batch);
    var s0 := Run(Initial(), prefix, batch);
    var s, j := RunKeepsLevel(s0, actions, batch);
    if s.commits >= s0.commits + MAX_RETRIES * CeilDiv(Place(s0.rows, q), batch) {
      EnoughBatches(Place(s0.rows, q), j, batch);
      assert RowLevel(s0.rows, s.rows[q], q, j, batch);
    }
  }

  // ----- The method -----

  function Publishes(outcome: nat -> Publish, n: nat): seq<Action> {
    if n == 0 then [] else Publishes(outcome, n - 1) + [PublishNext(outcome(n - 1))]
  }

  /** The actions of one undisturbed batch over `n` selected rows. */
  function BatchActions(outcome: nat -> Publish, n: nat, commits: bool): seq<Action> {
    [Begin] + Publishes(outcome, n) + [if commits then Commit else Abandon]
  }

  function CountOk(outcome: nat -> Publish, n: nat): nat {
    if n == 0 then 0 else CountOk(outcome, n - 1) + if outcome(n - 1).Ok? then 1 else 0
  }

  /** The count is the number of positions whose publish succeeded. */
  lemma {:induction false} CountOkIsCount(outcome: nat -> Publish, n: nat)
    ensures CountOk(outcome, n) == |set k: nat | k < n && outcome(k) == Ok|
  {
    var upTo := set k: nat | k < n && outcome(k) == Ok;
    if n == 0 {
      assert upTo == {};
    } else {
      CountOkIsCount(outcome, n - 1);
      var before := set k: nat | k < n - 1 && outcome(k) == Ok;
      assert upTo == if outcome(n - 1) == Ok then before + {n - 1} else before;
    }
  }

  lemma {:induction false} RunAppend(s: System, actions: seq<Action>, a: Action, batch: nat)
    ensures Run(s, actions + [a], batch) == Next(Run(s, actions, batch), a, batch)
  {
    assert (actions + [a])[..|actions|] == actions;
  }

  /** The system in the middle of a batch that selected `pending` and has handled the rows in `session`. */
  function During(start: System, pending: seq<nat>, session: seq<Row>, stream: seq<Event>): System {
    System(start.rows, stream, Running(pending, session), Bump(start.picks, pending), start.commits)
  }

  /** So far the batch has done the first `|session|` publishes. */
  ghost predicate Midway(start: System, outcome: nat -> Publish, batch: nat, pending: seq<nat>, session: seq<Row>,
                         stream: seq<Event>)
  {
    Run(start, [Begin] + Publishes(outcome, |session|), batch) == During(start, pending, session, stream)
  }

  lemma {:induction false} BatchBegins(start: System, outcome: nat -> Publish, batch: nat)
    requires start.relay.Idle?
    ensures Midway(start, outcome, batch, Select(start.rows, 0, batch), [], start.stream)
  {
    assert [Begin] + Publishes(outcome, 0) == [] + [Begin];
    RunAppend(start, [], Begin, batch);
  }

  lemma {:induction false} DuringStep(start: System, pending: seq<nat>, session: seq<Row>, stream: seq<Event>, p: Publish,
                                      batch: nat)
    requires |session| < |pending| && pending[|session|] < |start.rows|
    ensures var row := start.rows[pending[|session|]];
      Next(During(start, pending, session, stream), PublishNext(p), batch)
        == During(start, pending, session + [Attempt(row, p)], if Appends(p) then stream + [row.event] else stream)
  {
  }

  lemma {:induction false} PublishesAppend(outcome: nat -> Publish, k: nat)
    ensures [Begin] + Publishes(outcome, k + 1) == [Begin] + Publishes(outcome, k) + [PublishNext(outcome(k))]
  {
  }

  lemma {:induction false} BatchPublishes(start: System, outcome: nat -> Publish, batch: nat, pending: seq<nat>,
                                          session: seq<Row>, stream: seq<Event>, k: nat)
    requires k == |session| < |pending| && pending[k] < |start.rows|
    requires Midway(start, outcome, batch, pending, session, stream)
    ensures var row, p := start.rows[pending[k]], outcome(k);
      Midway(start, outcome, batch, pending, session + [Attempt(row, p)],
             if Appends(p) then stream + [row.event] else stream)
  {
    PublishesAppend(outcome, k);
    RunAppend(start, [Begin] + Publishes(outcome, k), PublishNext(outcome(k)), batch);
    DuringStep(start, pending, session, stream, outcome(k), batch);
  }

  /** The edited copies and the stream after the first `k` publishes of a batch. */
  function Session(rows: seq<Row>, pending: seq<nat>, outcome: nat -> Publish, k: nat): (r: seq<Row>)
    requires k <= |pending| && forall j :: 0 <= j < |pending| ==> pending[j] < |rows|
    ensures |r| == k
  {
    if k == 0 then []
    else Session(rows, pending, outcome, k - 1) + [Attempt(rows[pending[k - 1]], outcome(k - 1))]
  }

  function StreamAfter(stream: seq<Event>, rows: seq<Row>, pending: seq<nat>, outcome: nat -> Publish, k: nat): seq<Event>
    requires k <= |pending| && forall j :: 0 <= j < |pending| ==> pending[j] < |rows|
  {
    if k == 0 then stream
    else
      var before := StreamAfter(stream, rows, pending, outcome, k - 1);
      if Appends(outcome(k - 1)) then before + [rows[pending[k - 1]].event] else before
  }

  lemma {:induction false} OneMoreRow(stream: seq<Event>, rows: seq<Row>, pending: seq<nat>, outcome: nat -> Publish, k: nat)
    requires k < |pending| && forall j :: 0 <= j < |pending| ==> pending[j] < |rows|
    ensures Session(rows, pending, outcome, k + 1)
      == Session(rows, pending, outcome, k) + [Attempt(rows[pending[k]], outcome(k))]
    ensures StreamAfter(stream, rows, pending, outcome, k + 1)
      == StreamAfter(stream, rows, pending, outcome, k) + if Appends(outcome(k)) then [rows[pending[k]].event] else []
    ensures CountOk(outcome, k + 1) == CountOk(outcome, k) + if outcome(k).Ok? then 1 else 0
  {
    assert StreamAfter(stream, rows, pending, outcome, k) + [] == StreamAfter(stream, rows, pending, outcome, k);
  }

  lemma {:induction false} BatchSoFar(start: System, outcome: nat -> Publish, batch: nat, k: nat)
    requires start.relay.Idle? && k <= |Select(start.rows, 0, batch)|
    ensures var pending := Select(start.rows, 0, batch);
      Midway(start, outcome, batch, pending, Session(start.rows, pending, outcome, k),
             StreamAfter(start.stream, start.rows, pending, outcome, k))
  {
    if k == 0 {
      BatchBegins(start, outcome, batch);
    } else {
      var pending := Select(start.rows, 0, batch);
      BatchSoFar(start, outcome, batch, k - 1);
      BatchPublishes(start, outcome, batch, pending, Session(start.rows, pending, outcome, k - 1),
                     StreamAfter(start.stream, start.rows, pending, outcome, k - 1), k - 1);
    }
  }

  lemma {:induction false} DuringEnds(start: System, pending: seq<nat>, session: seq<Row>, stream: seq<Event>, batch: nat)
    requires |session| == |pending|
    ensures Next(During(start, pending, session, stream), Commit, batch)
      == System(WriteBack(start.rows, pending, session), stream, Idle, Bump(start.picks, pending), start.commits + 1)
    ensures Next(During(start, pending, session, stream), Abandon, batch)
      == System(start.rows, stream, Idle, Bump(start.picks, pending), start.commits)
  {
  }

  /** What a whole batch leaves behind. */
  function AfterBatch(start: System, outcome: nat -> Publish, batch: nat, commits: bool): System {
    var pending := Select(start.rows, 0, batch);
    var n := |pending|;
    System(if commits then WriteBack(start.rows, pending, Session(start.rows, pending, outcome, n)) else start.rows,
           StreamAfter(start.stream, start.rows, pending, outcome, n), Idle,
           Bump(start.picks, pending), if commits then start.commits + 1 else start.commits)
  }

  /** The actions of a batch, as long as the number of rows it selects. */
  function WholeBatch(start: System, outcome: nat -> Publish, batch: nat, commits: bool): seq<Action> {
    BatchActions(outcome, |Select(start.rows, 0, batch)|, commits)
  }

  lemma {:induction false} BatchEnds(start: System, outcome: nat -> Publish, batch: nat, commits: bool)
    requires start.relay.Idle?
    ensures Run(start, WholeBatch(start, outcome, batch, commits), batch) == AfterBatch(start, outcome, batch, commits)
  {
    var pending := Select(start.rows, 0, batch);
    var n := |pending|;
    BatchSoFar(start, outcome, batch, n);
    RunAppend(start, [Begin] + Publishes(outcome, n), if commits then Commit else Abandon, batch);
    DuringEnds(start, pending, Session(start.rows, pending, outcome, n),
               StreamAfter(start.stream, start.rows, pending, outcome, n), batch);
  }

  class OutboxRelay {
    const batchSize: nat
    var rows: seq<Row>
    var stream: seq<Event>
    ghost var picks: seq<nat>
    ghost var commits: nat

    constructor (batchSize: nat)
      ensures this.batchSize == batchSize && View() == Initial()
    {
      this.batchSize := batchSize;
      rows, stream, picks, commits := [], [], [], 0;
    }

    ghost function View(): System
      reads this
    {
      System(rows, stream, Idle, picks, commits)
    }

    /** The body of the loop over the selected rows. */
    method PublishEntry(entry: Row, p: Publish) returns (edited: Row)
      modifies this`stream
      ensures edited == Attempt(entry, p)
      ensures stream == old(stream) + if Appends(p) then [entry.event] else []
    {
      edited := entry;
      if Appends(p) {
        stream := stream + [entry.event];
      }
      if p.Ok? {
        edited := edited.(status := Published);
      } else {
        edited := edited.(retries := edited.retries + 1);
        if edited.retries >= MAX_RETRIES {
          edited := edited.(status := Failed);
        }
      }
    }

    /** `relay_batch`: publishes and edits the selected rows in id order, then commits, or rolls the edits back while the
        stream keeps what was appended. The count returned is of successful publishes, even after a rollback. */
    method RelayBatch(outcome: nat -> Publish, commitSucceeds: bool) returns (published: nat)
      modifies this
      ensures View() == Run(old(View()), WholeBatch(old(View()), outcome, batchSize, commitSucceeds), batchSize)
      ensures published == CountOk(outcome, |Select(old(rows), 0, batchSize)|)
    {
      BatchEnds(View(), outcome, batchSize, commitSucceeds);
      var pending := Select(rows, 0, batchSize);
      var session;
      session, published := PublishAll(pending, outcome);
      Finish(pending, session, commitSucceeds);
    }

    /** The loop over the selected rows. */
    method PublishAll(pending: seq<nat>, outcome: nat -> Publish) returns (session: seq<Row>, published: nat)
      requires forall j :: 0 <= j < |pending| ==> pending[j] < |rows|
      modifies this`stream
      ensures session == Session(rows, pending, outcome, |pending|)
      ensures stream == StreamAfter(old(stream), rows, pending, outcome, |pending|)
      ensures published == CountOk(outcome, |pending|)
    {
      session, published := [], 0;
      for k := 0 to |pending|
        invariant published == CountOk(outcome, k)
        invariant session == Session(rows, pending, outcome, k)
        invariant stream == StreamAfter(old(stream), rows, pending, outcome, k)
      {
        OneMoreRow(old(stream), rows, pending, outcome, k);
        var entry := PublishEntry(rows[pending[k]], outcome(k));
        session := session + [entry];
        if outcome(k).Ok? {
          published := published + 1;
        }
      }
    }

    /** The commit, or the rollback that forgets the session. */
    method Finish(pending: seq<nat>, session: seq<Row>, commitSucceeds: bool)
      modifies this`rows, this`picks, this`commits
      ensures rows == if commitSucceeds then WriteBack(old(rows), pending, session) else old(rows)
      ensures picks == Bump(old(picks), pending) && commits == old(commits) + if commitSucceeds then 1 else 0
    {
      picks := Bump(picks, pending);
      if commitSucceeds {
        rows := WriteBack(rows, pending, session);
        commits := commits + 1;
      }
    }
  }
}
