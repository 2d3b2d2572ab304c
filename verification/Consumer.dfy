/** The stream consumer as an acknowledgement protocol: read, handle, acknowledge, dead-letter. */
module Consumer {
  import opened Common

  /** A broker call succeeds, or raises or is cancelled with or without having taken effect. */
  datatype Reply = Ok | Lost(applied: bool) | Cancelled(applied: bool)

  /** Decoding the entry and running the handler. */
  datatype Handling = Completes | Raises | IsCancelled

  /** What happens to one message: the second acknowledgement and the dead-letter append are used on the error path. */
  datatype Script = Script(handling: Handling, ack: Reply, deadLetter: Reply, ackDead: Reply)

  /** One turn of the loop: how many messages the broker hands out, and whether the reply arrives. */
  datatype Turn = Turn(count: nat, reply: Reply)

  datatype Signal = Normal | Failure | Stop

  /** Messages are named by their position in the stream, and `read` is the group's position in it. `tried`, `handled` and
      `dead` list messages in the order in which they were tried, handled and copied to the dead-letter stream; `failures`
      counts the turns that a broker failure or a cancellation cut short. */
  datatype Group = Group(read: nat, pending: set<nat>, acked: set<nat>, tried: seq<nat>, handled: seq<nat>, dead: seq<nat>,
                         failures: nat)

  // ----- Steps -----

  predicate Applies(r: Reply) {
    r.Ok? || r.applied
  }

  function SignalOf(r: Reply): Signal {
    match r
    case Ok => Normal
    case Lost(_) => Failure
    case Cancelled(_) => Stop
  }

  function Ack(g: Group, m: nat, r: Reply): Group {
    if Applies(r) then g.(pending := g.pending - {m}, acked := g.acked + {m}) else g
  }

  function DeadLetter(g: Group, m: nat, t: Script): (Group, Signal) {
    var g1 := if Applies(t.deadLetter) then g.(dead := g.dead + [m]) else g;
    if !t.deadLetter.Ok? then (g1, SignalOf(t.deadLetter)) else (Ack(g1, m, t.ackDead), SignalOf(t.ackDead))
  }

  /** The error path also takes a message that was handled but whose acknowledgement failed. A cancellation is not an
      `Exception` and passes it by. */
  function Message(g: Group, m: nat, t: Script): (Group, Signal) {
    var g0 := g.(tried := g.tried + [m]);
    match t.handling
    case Raises => DeadLetter(g0, m, t)
    case IsCancelled => (g0, Stop)
    case Completes =>
      var g1 := Ack(g0.(handled := g0.handled + [m]), m, t.ack);
      if t.ack.Lost? then DeadLetter(g1, m, t) else (g1, SignalOf(t.ack))
  }

  /** The `n` messages from `from` on. */
  function Messages(g: Group, from: nat, n: nat, scripts: nat -> Script): (Group, Signal)
    decreases n
  {
    if n == 0 then (g, Normal)
    else
      var (g1, signal) := Message(g, from, scripts(from));
      if signal.Normal? then Messages(g1, from + 1, n - 1, scripts) else (g1, signal)
  }

  /** Positions from `a` up to but excluding `b`. */
  function Span(a: nat, b: nat): (r: set<nat>)
    ensures forall m :: m in r <==> a <= m < b
    decreases b
  {
    if a >= b then {} else Span(a, b - 1) + {b - 1}
  }

  function HandedOut(turn: Turn, batch: nat): nat {
    if Applies(turn.reply) then Min(turn.count, batch) else 0
  }

  /** What the broker hands out is pending for this consumer even if the reply never arrives. */
  function HandOut(g: Group, turn: Turn, batch: nat): Group {
    var to := g.read + HandedOut(turn, batch);
    g.(read := to, pending := g.pending + Span(g.read, to))
  }

  function Iterate(g: Group, turn: Turn, batch: nat, scripts: nat -> Script): (Group, Signal) {
    var g1 := HandOut(g, turn, batch);
    var (g2, signal) :=
      if turn.reply.Ok? then Messages(g1, g.read, HandedOut(turn, batch), scripts) else (g1, SignalOf(turn.reply));
    (if signal.Normal? then g2 else g2.(failures := g2.failures + 1), signal)
  }

  function Consume(g: Group, turns: seq<Turn>, batch: nat, scripts: nat -> Script): Group
    decreases |turns|
  {
    if turns == [] then g
    else
      var (g1, signal) := Iterate(g, turns[0], batch, scripts);
      if signal.Stop? then g1 else Consume(g1, turns[1..], batch, scripts)
  }

  function Initial(): Group {
    Group(0, {}, {}, [], [], [], 0)
  }

  // ----- The invariant -----

  /** Strictly increasing, and below `n`. */
  ghost predicate Listed(s: seq<nat>, n: nat) {
    && (forall j, k :: 0 <= j < k < |s| ==> s[j] < s[k])
    && (forall k :: 0 <= k < |s| ==> s[k] < n)
  }

  ghost predicate Accounted(g: Group) {
    && (forall m :: m in g.acked || m in g.pending <==> 0 <= m < g.read)
    && g.pending !! g.acked
    && (forall m :: m in g.acked ==> m in g.handled || m in g.dead)
  }

  /** Messages from `next` on have not been tried. */
  ghost predicate Logs(g: Group, next: nat) {
    Listed(g.tried, next) && Listed(g.handled, next) && Listed(g.dead, next)
  }

  ghost predicate Inv(g: Group) {
    Accounted(g) && Logs(g, g.read)
  }

  lemma {:induction false} ListedAppend(s: seq<nat>, n: nat)
    requires Listed(s, n)
    ensures Listed(s + [n], n + 1)
  {
  }

  lemma {:induction false} AckStep(g: Group, m: nat, r: Reply)
    requires Accounted(g) && m < g.read && (m in g.handled || m in g.dead)
    ensures Accounted(Ack(g, m, r))
    ensures Ack(g, m, r) == g.(pending := Ack(g, m, r).pending, acked := Ack(g, m, r).acked)
    ensures Ack(g, m, r).pending == if Applies(r) then g.pending - {m} else g.pending
  {
  }

  lemma {:induction false} DeadLetterStep(g: Group, m: nat, t: Script)
    requires Accounted(g) && Listed(g.dead, m) && m < g.read
    ensures var (g', signal) := DeadLetter(g, m, t);
      && Accounted(g') && Listed(g'.dead, m + 1)
      && g' == g.(pending := g'.pending, acked := g'.acked, dead := g'.dead)
      && (g'.pending == g.pending - {m} || (g'.pending == g.pending && !signal.Normal?))
      && (signal.Normal? ==> m in g'.acked && m in g'.dead)
  {
    ListedAppend(g.dead, m);
    if Applies(t.deadLetter) {
      var g1 := g.(dead := g.dead + [m]);
      assert g1.dead[|g.dead|] == m;
      if t.deadLetter.Ok? { AckStep(g1, m, t.ackDead); }
    }
  }

  /** A message is tried once: it is acknowledged, or stays pending after a failure, and nothing else changes hands. */
  lemma {:induction false} MessageStep(g: Group, m: nat, t: Script)
    requires Accounted(g) && Logs(g, m) && m in g.pending
    ensures var (g', signal) := Message(g, m, t);
      && Accounted(g') && Logs(g', m + 1)
      && g'.read == g.read && g'.failures == g.failures && g'.tried == g.tried + [m]
      && (g'.pending == g.pending - {m} || (g'.pending == g.pending && !signal.Normal?))
  {
    ListedAppend(g.tried, m);
    ListedAppend(g.handled, m);
    var g0 := g.(tried := g.tried + [m]);
    if t.handling.Raises? {
      DeadLetterStep(g0, m, t);
    } else if t.handling.Completes? {
      var g1 := g0.(handled := g0.handled + [m]);
      assert g1.handled[|g.handled|] == m;
      AckStep(g1, m, t.ack);
      if t.ack.Lost? { DeadLetterStep(Ack(g1, m, t.ack), m, t); }
    }
  }

  /** Only completed handlers count as handled, and only errors lead to the dead-letter stream. */
  ghost predicate Faithful(g: Group, scripts: nat -> Script) {
    && (forall m :: m in g.handled ==> scripts(m).handling.Completes?)
    && (forall m :: m in g.dead ==> scripts(m).handling.Raises? || (scripts(m).handling.Completes? && scripts(m).ack.Lost?))
  }

  lemma {:induction false} MessageIsFaithful(g: Group, m: nat, scripts: nat -> Script)
    requires Faithful(g, scripts)
    ensures Faithful(Message(g, m, scripts(m)).0, scripts)
  {
    var g' := Message(g, m, scripts(m)).0;
    assert g'.handled == g.handled || (g'.handled == g.handled + [m] && scripts(m).handling.Completes?);
    assert g'.dead == g.dead || g'.dead == g.dead + [m];
    assert g'.dead == g.dead || scripts(m).handling.Raises? || (scripts(m).handling.Completes? && scripts(m).ack.Lost?);
  }

  ghost predicate Sound(g: Group, scripts: nat -> Script) {
    Inv(g) && Faithful(g, scripts)
  }

  /** From `g` to `g'` the messages from `cut` on became pending, besides those in `kept`. */
  ghost predicate Leaves(g: Group, g': Group, signal: Signal, kept: set<nat>, cut: nat) {
    && (forall m :: m in g'.pending <==> m in kept || cut <= m < g'.read)
    && g.read <= g'.read
    && (signal.Normal? ==> cut == g'.read)
  }

  lemma {:induction false} LogsRead(g: Group, n: nat, to: nat)
    requires Logs(g, n) && n <= to
    ensures Logs(g, to)
  {
  }

  /** In the middle of a batch: the `n` messages from `from` on are still to be tried. */
  ghost predicate Midway(g: Group, kept: set<nat>, from: nat, n: nat, scripts: nat -> Script) {
    && from + n == g.read && Accounted(g) && Logs(g, from) && Faithful(g, scripts)
    && (forall m :: m in g.pending <==> m in kept || from <= m < g.read)
    && (forall m :: m in kept ==> m < from)
  }

  lemma {:induction false} MidwayStep(g: Group, kept: set<nat>, from: nat, n: nat, scripts: nat -> Script)
    requires Midway(g, kept, from, n, scripts) && n > 0
    ensures var r := Message(g, from, scripts(from));
      && r.0.read == g.read && r.0.failures == g.failures && Sound(r.0, scripts)
      && (Midway(r.0, kept, from + 1, n - 1, scripts) || (!r.1.Normal? && r.0.pending == g.pending))
  {
    MessageStep(g, from, scripts(from));
    MessageIsFaithful(g, from, scripts);
    LogsRead(Message(g, from, scripts(from)).0, from + 1, g.read);
  }

  lemma {:induction false} GoesOn(g: Group, kept: set<nat>, from: nat, n: nat, scripts: nat -> Script) returns (g1: Group)
    requires Midway(g, kept, from, n, scripts) && n > 0 && Message(g, from, scripts(from)).1.Normal?
    ensures g1 == Message(g, from, scripts(from)).0 && Midway(g1, kept, from + 1, n - 1, scripts)
    ensures g1.read == g.read && g1.failures == g.failures
  {
    MidwayStep(g, kept, from, n, scripts);
    g1 := Message(g, from, scripts(from)).0;
  }

  ghost predicate BatchEnds(g: Group, g': Group, signal: Signal, kept: set<nat>, cut: nat, scripts: nat -> Script) {
    Sound(g', scripts) && g'.read == g.read && g'.failures == g.failures && Leaves(g, g', signal, kept, cut)
  }

  ghost predicate Ends(g: Group, from: nat, n: nat, kept: set<nat>, cut: nat, scripts: nat -> Script) {
    BatchEnds(g, Messages(g, from, n, scripts).0, Messages(g, from, n, scripts).1, kept, cut, scripts)
  }

  /** A batch leaves pending what was pending before it and a tail of its own messages, empty unless it was cut short. */
  lemma {:induction false} MessagesStep(g: Group, kept: set<nat>, from: nat, n: nat, scripts: nat -> Script)
    returns (cut: nat)
    requires Midway(g, kept, from, n, scripts)
    ensures Ends(g, from, n, kept, cut, scripts)
    ensures from <= cut <= from + n
    decreases n
  {
    if n == 0 {
      NothingLeft(g, kept, from, scripts);
      cut := from;
    } else if Message(g, from, scripts(from)).1.Normal? {
      var g1 := GoesOn(g, kept, from, n, scripts);
      cut := MessagesStep(g1, kept, from + 1, n - 1, scripts);
      EndsAlike(g, g1, kept, from, n, cut, scripts);
    } else {
      cut := CutShort(g, kept, from, n, scripts);
    }
  }

  lemma {:induction false} NothingLeft(g: Group, kept: set<nat>, from: nat, scripts: nat -> Script)
    requires Midway(g, kept, from, 0, scripts)
    ensures Ends(g, from, 0, kept, from, scripts)
  {
  }

  lemma {:induction false} EndsAlike(g: Group, g1: Group, kept: set<nat>, from: nat, n: nat, cut: nat, scripts: nat -> Script)
    requires n > 0 && Message(g, from, scripts(from)).0 == g1 && Message(g, from, scripts(from)).1.Normal?
    requires g1.read == g.read && g1.failures == g.failures
    requires Ends(g1, from + 1, n - 1, kept, cut, scripts)
    ensures Ends(g, from, n, kept, cut, scripts)
  {
  }

  lemma {:induction false} CutShort(g: Group, kept: set<nat>, from: nat, n: nat, scripts: nat -> Script) returns (cut: nat)
    requires n > 0 && Midway(g, kept, from, n, scripts) && !Message(g, from, scripts(from)).1.Normal?
    ensures Ends(g, from, n, kept, cut, scripts)
    ensures from <= cut <= from + 1
  {
    MidwayStep(g, kept, from, n, scripts);
    cut := if Message(g, from, scripts(from)).0.pending == g.pending then from else from + 1;
  }

  lemma {:induction false} HandOutStep(g: Group, turn: Turn, batch: nat)
    requires Inv(g)
    ensures var g1 := HandOut(g, turn, batch);
      && Accounted(g1) && Logs(g1, g.read) && Logs(g1, g1.read)
      && g.read <= g1.read <= g.read + batch && g1.pending == g.pending + Span(g.read, g1.read)
      && g1 == g.(read := g1.read, pending := g1.pending)
  {
    var g1 := HandOut(g, turn, batch);
    LogsRead(g, g.read, g1.read);
    assert Span(g.read, g.read) == {};
  }

  /** A turn strands a tail of what it read, at most one batch and nothing unless it failed; what earlier turns stranded
      stays stranded. */
  lemma {:induction false} TurnStep(g: Group, turn: Turn, batch: nat, scripts: nat -> Script) returns (cut: nat)
    requires Sound(g, scripts)
    ensures var r := Iterate(g, turn, batch, scripts);
      && Sound(r.0, scripts) && Leaves(g, r.0, r.1, g.pending, cut)
      && g.read <= cut <= r.0.read <= g.read + batch
      && r.0.failures == g.failures + (if r.1.Normal? then 0 else 1)
  {
    HandOutStep(g, turn, batch);
    var g1 := HandOut(g, turn, batch);
    cut := g.read;
    if turn.reply.Ok? {
      cut := MessagesStep(g1, g.pending, g.read, HandedOut(turn, batch), scripts);
    }
  }

  // ----- Main results -----

  lemma {:induction false} SpanSize(a: nat, b: nat)
    requires a <= b
    ensures |Span(a, b)| == b - a
  {
    if a < b {
      SpanSize(a, b - 1);
      assert Span(a, b) == Span(a, b - 1) + {b - 1};
    } else {
      assert Span(a, b) == {};
    }
  }

  lemma {:induction false} UnionBound(a: set<nat>, b: set<nat>)
    ensures |a + b| <= |a| + |b|
  {
    assert a + b == a + (b - a);
    assert |b| == |b - a| + |b * a| by { assert b == (b - a) + (b * a); }
  }

  ghost predicate Stranded(g: Group, batch: nat) {
    |g.pending| <= batch * g.failures
  }

  lemma {:induction false} OneMoreBatch(batch: nat, failures: nat)
    ensures batch * (failures + 1) == batch * failures + batch
  {
  }

  lemma {:induction false} TailBound(g: Group, g': Group, signal: Signal, cut: nat)
    requires Leaves(g, g', signal, g.pending, cut) && cut <= g'.read
    ensures |g'.pending| <= |g.pending| + g'.read - cut
  {
    SpanSize(cut, g'.read);
    UnionBound(g.pending, Span(cut, g'.read));
    assert g'.pending == g.pending + Span(cut, g'.read);
  }

  lemma {:induction false} TurnStrands(g: Group, g': Group, signal: Signal, cut: nat, batch: nat)
    requires Stranded(g, batch) && Leaves(g, g', signal, g.pending, cut) && cut <= g'.read <= cut + batch
    requires g'.failures == g.failures + (if signal.Normal? then 0 else 1)
    ensures Stranded(g', batch)
  {
    TailBound(g, g', signal, cut);
    OneMoreBatch(batch, g.failures);
  }

  lemma {:induction false} ConsumeKeepsInv(g: Group, turns: seq<Turn>, batch: nat, scripts: nat -> Script)
    requires Sound(g, scripts) && Stranded(g, batch)
    ensures var g' := Consume(g, turns, batch, scripts);
      Sound(g', scripts) && Stranded(g', batch) && g.pending <= g'.pending
    decreases |turns|
  {
    if turns != [] {
      var cut := TurnStep(g, turns[0], batch, scripts);
      var r := Iterate(g, turns[0], batch, scripts);
      TurnStrands(g, r.0, r.1, cut, batch);
      if !r.1.Stop? { ConsumeKeepsInv(r.0, turns[1..], batch, scripts); }
    }
  }

  /** After every run, whatever raises, is lost or cancelled: a message read is either acknowledged or pending, one
      acknowledged was handled or copied to the dead-letter stream, no message is tried twice, messages are tried in
      stream order, and every cut-short turn accounts for at most one batch of pending messages. */
  lemma {:induction false} Accounting(turns: seq<Turn>, batch: nat, scripts: nat -> Script)
    ensures var g := Consume(Initial(), turns, batch, scripts);
      && (forall m :: 0 <= m < g.read <==> (m in g.acked || m in g.pending))
      && g.acked !! g.pending
      && (forall m :: m in g.acked ==> m in g.handled || m in g.dead)
      && (forall m :: m in g.handled && m in g.dead ==> scripts(m).ack.Lost?)
      && (forall j, k :: 0 <= j < k < |g.tried| ==> g.tried[j] < g.tried[k])
      && |g.pending| <= batch * g.failures
  {
    ConsumeKeepsInv(Initial(), turns, batch, scripts);
  }

  /** With no turn cut short nothing is pending between turns, and each message read was handled if its handler completes
      and is in the dead-letter stream otherwise or when its acknowledgement was lost. */
  lemma {:induction false} NothingPending(turns: seq<Turn>, batch: nat, scripts: nat -> Script, m: nat)
    requires var g := Consume(Initial(), turns, batch, scripts); g.failures == 0 && m < g.read
    ensures var g := Consume(Initial(), turns, batch, scripts);
      && g.pending == {} && m in g.acked
      && (scripts(m).handling.Raises? ==> m in g.dead && m !in g.handled)
      && (scripts(m).handling.Completes? && !scripts(m).ack.Lost? ==> m in g.handled && m !in g.dead)
  {
    ConsumeKeepsInv(Initial(), turns, batch, scripts);
  }

  /** No broker call fails and nothing is cancelled; handlers may still raise. */
  ghost predicate Smooth(turns: seq<Turn>, scripts: nat -> Script) {
    && (forall k :: 0 <= k < |turns| ==> turns[k].reply.Ok?)
    && (forall m :: scripts(m).ack.Ok? && scripts(m).deadLetter.Ok? && scripts(m).ackDead.Ok?
                    && !scripts(m).handling.IsCancelled?)
  }

  lemma {:induction false} SmoothMessages(g: Group, from: nat, n: nat, turns: seq<Turn>, scripts: nat -> Script)
    requires Smooth(turns, scripts)
    ensures var r := Messages(g, from, n, scripts); r.1.Normal? && r.0.failures == g.failures
    decreases n
  {
    if n > 0 {
      assert scripts(from).ack.Ok?;
      SmoothMessages(Message(g, from, scripts(from)).0, from + 1, n - 1, turns, scripts);
    }
  }

  lemma {:induction false} SmoothConsume(g: Group, turns: seq<Turn>, batch: nat, scripts: nat -> Script)
    requires Smooth(turns, scripts)
    ensures Consume(g, turns, batch, scripts).failures == g.failures
    decreases |turns|
  {
    if turns != [] {
      SmoothMessages(HandOut(g, turns[0], batch), g.read, HandedOut(turns[0], batch), turns, scripts);
      SmoothConsume(Iterate(g, turns[0], batch, scripts).0, turns[1..], batch, scripts);
    }
  }

  /** Without broker failures and cancellations nothing is pending between turns, and every message read ends in exactly
      one place: handled if its handler completed, dead-lettered if it raised. */
  lemma {:induction false} SmoothRun(turns: seq<Turn>, batch: nat, scripts: nat -> Script)
    requires Smooth(turns, scripts)
    ensures var g := Consume(Initial(), turns, batch, scripts);
      && g.pending == {}
      && (forall m :: 0 <= m < g.read ==> (m in g.handled <==> scripts(m).handling.Completes?))
      && (forall m :: 0 <= m < g.read ==> (m in g.dead <==> scripts(m).handling.Raises?))
  {
    SmoothConsume(Initial(), turns, batch, scripts);
    forall m | 0 <= m < Consume(Initial(), turns, batch, scripts).read
      ensures var g := Consume(Initial(), turns, batch, scripts);
        && (m in g.handled <==> scripts(m).handling.Completes?)
        && (m in g.dead <==> scripts(m).handling.Raises?)
    {
      NothingPending(turns, batch, scripts, m);
    }
    ConsumeKeepsInv(Initial(), turns, batch, scripts);
  }

  lemma {:induction false} ConsumeAppend(g: Group, a: seq<Turn>, b: seq<Turn>, batch: nat, scripts: nat -> Script)
    ensures var g' := Consume(g, a, batch, scripts);
      Consume(g, a + b, batch, scripts) == g' || Consume(g, a + b, batch, scripts) == Consume(g', b, batch, scripts)
    decreases |a|
  {
    if a == [] {
      assert a + b == b;
    } else {
      assert (a + b)[1..] == a[1..] + b;
      var (g1, signal) := Iterate(g, a[0], batch, scripts);
      if !signal.Stop? { ConsumeAppend(g1, a[1..], b, batch, scripts); }
    }
  }

  /** The loop asks for new messages only: what is pending between two turns is pending for the rest of the run. */
  lemma {:induction false} StrandedForGood(before: seq<Turn>, after: seq<Turn>, batch: nat, scripts: nat -> Script)
    ensures Consume(Initial(), before, batch, scripts).pending <= Consume(Initial(), before + after, batch, scripts).pending
  {
    ConsumeKeepsInv(Initial(), before, batch, scripts);
    ConsumeAppend(Initial(), before, after, batch, scripts);
    ConsumeKeepsInv(Consume(Initial(), before, batch, scripts), after, batch, scripts);
  }

  // ----- The loop -----

  class RedisStreamBroker {
    var read: nat
    var pending: set<nat>
    var acked: set<nat>
    var tried: seq<nat>
    var handled: seq<nat>
    var dead: seq<nat>
    var failures: nat

    constructor ()
      ensures View() == Initial()
    {
      read, pending, acked, tried, handled, dead, failures := 0, {}, {}, [], [], [], 0;
    }

    function View(): Group
      reads this
    {
      Group(read, pending, acked, tried, handled, dead, failures)
    }

    method XAck(m: nat, r: Reply)
      modifies this
      ensures View() == Ack(old(View()), m, r)
    {
      if Applies(r) {
        pending, acked := pending - {m}, acked + {m};
      }
    }

    method SendToDlq(m: nat, r: Reply)
      modifies this
      ensures View() == if Applies(r) then old(View()).(dead := old(dead) + [m]) else old(View())
    {
      if Applies(r) {
        dead := dead + [m];
      }
    }

    /** The body of the inner loop. */
    method ProcessMessage(m: nat, t: Script) returns (signal: Signal)
      modifies this
      ensures (View(), signal) == Message(old(View()), m, t)
    {
      tried := tried + [m];
      if t.handling.IsCancelled? {
        return Stop;
      }
      if t.handling.Completes? {
        handled := handled + [m];
        XAck(m, t.ack);
        if !t.ack.Lost? {
          return SignalOf(t.ack);
        }
      }
      SendToDlq(m, t.deadLetter);
      if !t.deadLetter.Ok? {
        return SignalOf(t.deadLetter);
      }
      XAck(m, t.ackDead);
      return SignalOf(t.ackDead);
    }

    method ProcessBatch(from: nat, n: nat, scripts: nat -> Script) returns (signal: Signal)
      modifies this
      ensures (View(), signal) == Messages(old(View()), from, n, scripts)
    {
      for k := 0 to n
        invariant Messages(View(), from + k, n - k, scripts) == Messages(old(View()), from, n, scripts)
      {
        signal := ProcessMessage(from + k, scripts(from + k));
        if !signal.Normal? {
          return;
        }
      }
      return Normal;
    }

    /** One turn of the outer loop. */
    method RunTurn(turn: Turn, batch: nat, scripts: nat -> Script) returns (signal: Signal)
      modifies this
      ensures (View(), signal) == Iterate(old(View()), turn, batch, scripts)
    {
      var from := read;
      signal := SignalOf(turn.reply);
      read := read + HandedOut(turn, batch);
      pending := pending + Span(from, read);
      if turn.reply.Ok? {
        signal := ProcessBatch(from, read - from, scripts);
      }
      if !signal.Normal? {
        failures := failures + 1;
      }
    }

    /** `consume_loop`, until it is cancelled or told to stop. */
    method ConsumeLoop(turns: seq<Turn>, batch: nat, scripts: nat -> Script)
      modifies this
      ensures View() == Consume(old(View()), turns, batch, scripts)
    {
      var k := 0;
      while k < |turns|
        invariant 0 <= k <= |turns|
        invariant Consume(View(), turns[k..], batch, scripts) == Consume(old(View()), turns, batch, scripts)
      {
        var signal := RunTurn(turns[k], batch, scripts);
        if signal.Stop? {
          return;
        }
        k := k + 1;
      }
    }
  }
}
