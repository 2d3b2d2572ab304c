/** Exactly which messages a run of the consumer delivers and which it strands, from the outcomes of the calls alone. */
module ConsumerDelivery {
  import opened Consumer

  // ----- One message -----

  /** The message takes the error path. */
  predicate Errs(t: Script) {
    t.handling.Raises? || (t.handling.Completes? && t.ack.Lost?)
  }

  /** Some acknowledgement of the message reaches the broker. */
  predicate IsAcked(t: Script) {
    (t.handling.Completes? && Applies(t.ack)) || (Errs(t) && t.deadLetter.Ok? && Applies(t.ackDead))
  }

  predicate IsDead(t: Script) {
    Errs(t) && Applies(t.deadLetter)
  }

  /** What processing the message signals to the loops around it. */
  function Outcome(t: Script): Signal {
    if t.handling.IsCancelled? then Stop
    else if !Errs(t) then SignalOf(t.ack)
    else if !t.deadLetter.Ok? then SignalOf(t.deadLetter)
    else SignalOf(t.ackDead)
  }

  lemma {:induction false} MessageExactly(g: Group, m: nat, t: Script)
    ensures var r := Message(g, m, t);
      && r.1 == Outcome(t) && r.0.read == g.read
      && r.0.pending == (if IsAcked(t) then g.pending - {m} else g.pending)
      && r.0.handled == (if t.handling.Completes? then g.handled + [m] else g.handled)
      && r.0.dead == (if IsDead(t) then g.dead + [m] else g.dead)
  {
  }

  /** The same, case by case on what happens to the message. */
  lemma {:induction false} MessageTable(g: Group, m: nat, t: Script)
    ensures var g' := Message(g, m, t).0; var signal := Message(g, m, t).1;
      && g'.tried == g.tried + [m]
      && match t {
           case Script(Completes, Ok, _, _) =>
             signal == Normal && g'.pending == g.pending - {m} && g'.acked == g.acked + {m}
             && g'.handled == g.handled + [m] && g'.dead == g.dead
           case Script(Raises, _, Ok, Ok) =>
             signal == Normal && g'.pending == g.pending - {m} && g'.acked == g.acked + {m}
             && g'.handled == g.handled && g'.dead == g.dead + [m]
           case Script(Completes, Lost(_), Ok, Ok) =>
             signal == Normal && m in g'.acked && g'.handled == g.handled + [m] && g'.dead == g.dead + [m]
           case Script(Completes, Cancelled(applied), _, _) =>
             signal == Stop && g'.handled == g.handled + [m] && g'.dead == g.dead
             && g'.pending == (if applied then g.pending - {m} else g.pending)
           case Script(Raises, _, Lost(applied), _) =>
             signal == Failure && g'.pending == g.pending && g'.dead == (if applied then g.dead + [m] else g.dead)
           case Script(Raises, _, Cancelled(applied), _) =>
             signal == Stop && g'.pending == g.pending && g'.dead == (if applied then g.dead + [m] else g.dead)
           case Script(Raises, _, Ok, Lost(applied)) =>
             signal == Failure && g'.dead == g.dead + [m]
             && g'.pending == (if applied then g.pending - {m} else g.pending)
           case Script(IsCancelled, _, _, _) =>
             signal == Stop && g' == g.(tried := g.tried + [m])
           case _ => true
         }
  {
  }

  // ----- One batch -----

  /** The first of `n` messages that cuts the batch short, or the end of the batch. */
  function Break(from: nat, n: nat, scripts: nat -> Script): (j: nat)
    ensures from <= j <= from + n
    ensures forall m :: from <= m < j ==> Outcome(scripts(m)).Normal?
    ensures j < from + n ==> !Outcome(scripts(j)).Normal?
    decreases n
  {
    if n == 0 || !Outcome(scripts(from)).Normal? then from else Break(from + 1, n - 1, scripts)
  }

  /** Messages before the break, and the break itself, are tried. */
  predicate IsTried(from: nat, n: nat, scripts: nat -> Script, m: nat) {
    from <= m < from + n && m <= Break(from, n, scripts)
  }

  ghost predicate BatchIs(g: Group, g': Group, from: nat, n: nat, scripts: nat -> Script, m: nat) {
    && (m in g'.pending <==> m in g.pending && !(IsTried(from, n, scripts, m) && IsAcked(scripts(m))))
    && (m in g'.handled <==> m in g.handled || (IsTried(from, n, scripts, m) && scripts(m).handling.Completes?))
    && (m in g'.dead <==> m in g.dead || (IsTried(from, n, scripts, m) && IsDead(scripts(m))))
  }

  lemma {:induction false} BatchExactly(g: Group, from: nat, n: nat, scripts: nat -> Script, m: nat)
    ensures BatchIs(g, Messages(g, from, n, scripts).0, from, n, scripts, m)
    ensures Messages(g, from, n, scripts).0.read == g.read
    ensures Messages(g, from, n, scripts).1
      == if Break(from, n, scripts) == from + n then Normal else Outcome(scripts(Break(from, n, scripts)))
    decreases n
  {
    if n > 0 {
      MessageExactly(g, from, scripts(from));
      if Outcome(scripts(from)).Normal? { BatchExactly(Message(g, from, scripts(from)).0, from + 1, n - 1, scripts, m); }
    }
  }

  // ----- One turn -----

  /** How a turn that starts at position `from` ends. */
  function TurnSignal(from: nat, turn: Turn, batch: nat, scripts: nat -> Script): Signal {
    var n := HandedOut(turn, batch);
    if !turn.reply.Ok? then SignalOf(turn.reply)
    else if Break(from, n, scripts) == from + n then Normal
    else Outcome(scripts(Break(from, n, scripts)))
  }

  /** The turn hands out message `m`. */
  predicate Takes(from: nat, turn: Turn, batch: nat, m: nat) {
    from <= m < from + HandedOut(turn, batch)
  }

  /** The turn leaves `m` pending: the whole batch if the reply to the read did not arrive; otherwise what comes after the
      break, and the break itself if no acknowledgement of it reached the broker. */
  predicate Strands(from: nat, turn: Turn, batch: nat, scripts: nat -> Script, m: nat) {
    var j := Break(from, HandedOut(turn, batch), scripts);
    Takes(from, turn, batch, m) && (!turn.reply.Ok? || m > j || (m == j && !IsAcked(scripts(j))))
  }

  predicate Tries(from: nat, turn: Turn, batch: nat, scripts: nat -> Script, m: nat) {
    turn.reply.Ok? && IsTried(from, HandedOut(turn, batch), scripts, m)
  }

  /** A message is delivered when its handler completed or a copy is in the dead-letter stream. */
  predicate Delivers(t: Script) {
    t.handling.Completes? || IsDead(t)
  }

  /** Messages before the break are delivered and acknowledged. */
  lemma {:induction false} NormalIsDone(t: Script)
    requires Outcome(t).Normal?
    ensures IsAcked(t) && Delivers(t)
  {
  }

  /** For every turn, exactly what it strands, handles and dead-letters. */
  lemma {:induction false} TurnExactly(g: Group, turn: Turn, batch: nat, scripts: nat -> Script, m: nat)
    ensures var r := Iterate(g, turn, batch, scripts);
      && r.0.read == g.read + HandedOut(turn, batch) && r.1 == TurnSignal(g.read, turn, batch, scripts)
      && (m >= g.read ==> m !in g.pending ==> (m in r.0.pending <==> Strands(g.read, turn, batch, scripts, m)))
      && (m < g.read ==> (m in r.0.pending <==> m in g.pending))
      && (m in r.0.handled <==>
            m in g.handled || (Tries(g.read, turn, batch, scripts, m) && scripts(m).handling.Completes?))
      && (m in r.0.dead <==> m in g.dead || (Tries(g.read, turn, batch, scripts, m) && IsDead(scripts(m))))
  {
    var g1, n := HandOut(g, turn, batch), HandedOut(turn, batch);
    BatchExactly(g1, g.read, n, scripts, m);
    if g.read <= m < Break(g.read, n, scripts) { NormalIsDone(scripts(m)); }
  }

  /** How far a read moves the group, and which replies end the loop: a lost reply is retried, a cancellation is not. */
  lemma {:induction false} ReadExactly(g: Group, turn: Turn, rest: seq<Turn>, batch: nat, scripts: nat -> Script)
    ensures var n := if turn.count <= batch then turn.count else batch;
      Iterate(g, turn, batch, scripts).0.read
      == match turn.reply
         case Ok => g.read + n
         case Lost(applied) => if applied then g.read + n else g.read
         case Cancelled(applied) => if applied then g.read + n else g.read
    ensures turn.reply.Lost? ==>
      Consume(g, [turn] + rest, batch, scripts) == Consume(Iterate(g, turn, batch, scripts).0, rest, batch, scripts)
    ensures turn.reply.Cancelled? ==> Consume(g, [turn] + rest, batch, scripts) == Iterate(g, turn, batch, scripts).0
  {
    TurnExactly(g, turn, batch, scripts, 0);
    assert ([turn] + rest)[0] == turn && ([turn] + rest)[1..] == rest;
  }

  // ----- Whole runs -----

  /** Some turn of the run, starting at position `from`, strands the message. */
  predicate RunStrands(from: nat, turns: seq<Turn>, batch: nat, scripts: nat -> Script, m: nat)
    decreases |turns|
  {
    turns != []
    && (|| Strands(from, turns[0], batch, scripts, m)
        || (!TurnSignal(from, turns[0], batch, scripts).Stop?
            && RunStrands(from + HandedOut(turns[0], batch), turns[1..], batch, scripts, m)))
  }

  /** Some turn of the run tries the message. */
  predicate RunTries(from: nat, turns: seq<Turn>, batch: nat, scripts: nat -> Script, m: nat)
    decreases |turns|
  {
    turns != []
    && (|| Tries(from, turns[0], batch, scripts, m)
        || (!TurnSignal(from, turns[0], batch, scripts).Stop?
            && RunTries(from + HandedOut(turns[0], batch), turns[1..], batch, scripts, m)))
  }

  /** Some turn of the run hands the message out. */
  predicate RunTakes(from: nat, turns: seq<Turn>, batch: nat, scripts: nat -> Script, m: nat)
    decreases |turns|
  {
    turns != []
    && (|| Takes(from, turns[0], batch, m)
        || (!TurnSignal(from, turns[0], batch, scripts).Stop?
            && RunTakes(from + HandedOut(turns[0], batch), turns[1..], batch, scripts, m)))
  }

  lemma {:induction false} NotBefore(from: nat, turns: seq<Turn>, batch: nat, scripts: nat -> Script, m: nat)
    requires m < from
    ensures !RunStrands(from, turns, batch, scripts, m) && !RunTries(from, turns, batch, scripts, m)
    ensures !RunTakes(from, turns, batch, scripts, m)
    decreases |turns|
  {
    if turns != [] { NotBefore(from + HandedOut(turns[0], batch), turns[1..], batch, scripts, m); }
  }

  ghost predicate RunIs(g: Group, g': Group, turns: seq<Turn>, batch: nat, scripts: nat -> Script, m: nat) {
    && (m in g'.pending <==> m in g.pending || RunStrands(g.read, turns, batch, scripts, m))
    && (m in g'.handled <==> m in g.handled || (RunTries(g.read, turns, batch, scripts, m) && scripts(m).handling.Completes?))
    && (m in g'.dead <==> m in g.dead || (RunTries(g.read, turns, batch, scripts, m) && IsDead(scripts(m))))
    && (m < g'.read <==> m < g.read || RunTakes(g.read, turns, batch, scripts, m))
  }

  lemma {:induction false} ConsumeExactly(g: Group, turns: seq<Turn>, batch: nat, scripts: nat -> Script, m: nat)
    requires m >= g.read ==> m !in g.pending
    ensures RunIs(g, Consume(g, turns, batch, scripts), turns, batch, scripts, m)
    decreases |turns|
  {
    if turns != [] {
      TurnExactly(g, turns[0], batch, scripts, m);
      var g1 := Iterate(g, turns[0], batch, scripts).0;
      if !TurnSignal(g.read, turns[0], batch, scripts).Stop? {
        ConsumeExactly(g1, turns[1..], batch, scripts, m);
      }
      if m < g1.read { NotBefore(g1.read, turns[1..], batch, scripts, m); }
      if m < g.read { NotBefore(g.read, turns, batch, scripts, m); }
    }
  }

  /** For every run and every message, from the turns and the outcomes alone: whether it was read, whether it is pending
      for good, whether its handler completed and whether it is in the dead-letter stream. */
  lemma {:induction false} ExactDelivery(turns: seq<Turn>, batch: nat, scripts: nat -> Script, m: nat)
    ensures var g := Consume(Initial(), turns, batch, scripts);
      && (m < g.read <==> RunTakes(0, turns, batch, scripts, m))
      && (m in g.pending <==> RunStrands(0, turns, batch, scripts, m))
      && (m in g.handled <==> RunTries(0, turns, batch, scripts, m) && scripts(m).handling.Completes?)
      && (m in g.dead <==> RunTries(0, turns, batch, scripts, m) && IsDead(scripts(m)))
  {
    ConsumeExactly(Initial(), turns, batch, scripts, m);
  }

  // ----- When nothing is lost -----

  /** The turn delivers all it takes: it takes nothing, or the reply arrived and the break, if any, is its last message and
      was delivered. */
  predicate TurnDelivers(from: nat, turn: Turn, batch: nat, scripts: nat -> Script) {
    var n := HandedOut(turn, batch);
    var j := Break(from, n, scripts);
    n == 0 || (turn.reply.Ok? && (j == from + n || (j == from + n - 1 && Delivers(scripts(j)))))
  }

  predicate RunDelivers(from: nat, turns: seq<Turn>, batch: nat, scripts: nat -> Script)
    decreases |turns|
  {
    turns == []
    || (&& TurnDelivers(from, turns[0], batch, scripts)
        && (TurnSignal(from, turns[0], batch, scripts).Stop?
            || RunDelivers(from + HandedOut(turns[0], batch), turns[1..], batch, scripts)))
  }

  /** A message the run takes is delivered by it. */
  predicate Served(from: nat, turns: seq<Turn>, batch: nat, scripts: nat -> Script, m: nat) {
    RunTakes(from, turns, batch, scripts, m) ==> RunTries(from, turns, batch, scripts, m) && Delivers(scripts(m))
  }

  lemma {:induction false} DeliveringTurn(from: nat, turn: Turn, batch: nat, scripts: nat -> Script, m: nat)
    requires TurnDelivers(from, turn, batch, scripts) && Takes(from, turn, batch, m)
    ensures Tries(from, turn, batch, scripts, m) && Delivers(scripts(m))
  {
    if m < Break(from, HandedOut(turn, batch), scripts) { NormalIsDone(scripts(m)); }
  }

  lemma {:induction false} LosingTurn(from: nat, turn: Turn, batch: nat, scripts: nat -> Script) returns (m: nat)
    requires !TurnDelivers(from, turn, batch, scripts)
    ensures Takes(from, turn, batch, m) && !(Tries(from, turn, batch, scripts, m) && Delivers(scripts(m)))
  {
    m := from + HandedOut(turn, batch) - 1;
  }

  lemma {:induction false} DeliveringRun(from: nat, turns: seq<Turn>, batch: nat, scripts: nat -> Script, m: nat)
    requires RunDelivers(from, turns, batch, scripts)
    ensures Served(from, turns, batch, scripts, m)
    decreases |turns|
  {
    if turns != [] {
      if Takes(from, turns[0], batch, m) {
        DeliveringTurn(from, turns[0], batch, scripts, m);
      } else if !TurnSignal(from, turns[0], batch, scripts).Stop? {
        DeliveringRun(from + HandedOut(turns[0], batch), turns[1..], batch, scripts, m);
      }
    }
  }

  lemma {:induction false} LosingRun(from: nat, turns: seq<Turn>, batch: nat, scripts: nat -> Script) returns (m: nat)
    requires !RunDelivers(from, turns, batch, scripts)
    ensures !Served(from, turns, batch, scripts, m)
    ensures m >= from
    decreases |turns|
  {
    var next := from + HandedOut(turns[0], batch);
    if !TurnDelivers(from, turns[0], batch, scripts) {
      m := LosingTurn(from, turns[0], batch, scripts);
      NotBefore(next, turns[1..], batch, scripts, m);
    } else {
      m := LosingRun(next, turns[1..], batch, scripts);
    }
  }

  /** At-least-once delivery by the consumer, exactly: every message read was handled or dead-lettered if and only if each
      turn up to the one that stops the loop delivers all that it takes. */
  lemma {:induction false} NothingLostIff(turns: seq<Turn>, batch: nat, scripts: nat -> Script)
    ensures var g := Consume(Initial(), turns, batch, scripts);
      (forall m :: 0 <= m < g.read ==> m in g.handled || m in g.dead) <==> RunDelivers(0, turns, batch, scripts)
  {
    var g := Consume(Initial(), turns, batch, scripts);
    if RunDelivers(0, turns, batch, scripts) {
      forall m | 0 <= m < g.read ensures m in g.handled || m in g.dead {
        DeliveringRun(0, turns, batch, scripts, m);
        ExactDelivery(turns, batch, scripts, m);
      }
    } else {
      var m := LosingRun(0, turns, batch, scripts);
      ExactDelivery(turns, batch, scripts, m);
      assert m < g.read && m !in g.handled && m !in g.dead;
    }
  }

  // ----- When nothing stays pending -----

  predicate TurnClears(from: nat, turn: Turn, batch: nat, scripts: nat -> Script) {
    var n := HandedOut(turn, batch);
    var j := Break(from, n, scripts);
    n == 0 || (turn.reply.Ok? && (j == from + n || (j == from + n - 1 && IsAcked(scripts(j)))))
  }

  predicate RunClears(from: nat, turns: seq<Turn>, batch: nat, scripts: nat -> Script)
    decreases |turns|
  {
    turns == []
    || (&& TurnClears(from, turns[0], batch, scripts)
        && (TurnSignal(from, turns[0], batch, scripts).Stop?
            || RunClears(from + HandedOut(turns[0], batch), turns[1..], batch, scripts)))
  }

  lemma {:induction false} ClearingRun(from: nat, turns: seq<Turn>, batch: nat, scripts: nat -> Script, m: nat)
    requires RunClears(from, turns, batch, scripts)
    ensures !RunStrands(from, turns, batch, scripts, m)
    decreases |turns|
  {
    if turns != [] && !TurnSignal(from, turns[0], batch, scripts).Stop? {
      ClearingRun(from + HandedOut(turns[0], batch), turns[1..], batch, scripts, m);
    }
  }

  lemma {:induction false} StrandingRun(from: nat, turns: seq<Turn>, batch: nat, scripts: nat -> Script) returns (m: nat)
    requires !RunClears(from, turns, batch, scripts)
    ensures RunStrands(from, turns, batch, scripts, m)
    decreases |turns|
  {
    var next := from + HandedOut(turns[0], batch);
    if !TurnClears(from, turns[0], batch, scripts) {
      m := next - 1;
    } else {
      m := StrandingRun(next, turns[1..], batch, scripts);
    }
  }

  /** Nothing is pending after a run if and only if each turn up to the one that stops the loop takes nothing, or gets its
      reply and either is not cut short or is cut short by its last message after the acknowledgement took effect. */
  lemma {:induction false} NothingPendingIff(turns: seq<Turn>, batch: nat, scripts: nat -> Script)
    ensures Consume(Initial(), turns, batch, scripts).pending == {} <==> RunClears(0, turns, batch, scripts)
  {
    var g := Consume(Initial(), turns, batch, scripts);
    if RunClears(0, turns, batch, scripts) {
      forall m: nat ensures m !in g.pending {
        ClearingRun(0, turns, batch, scripts, m);
        ExactDelivery(turns, batch, scripts, m);
      }
    } else {
      var m := StrandingRun(0, turns, batch, scripts);
      ExactDelivery(turns, batch, scripts, m);
    }
  }

  /** A message that is lost: the broker handed it out and the reply never arrived. No later turn reads it again. */
  lemma {:induction false} LostReplyLosesMessage(after: seq<Turn>, batch: nat, scripts: nat -> Script)
    requires batch >= 1
    ensures var g := Consume(Initial(), [Turn(1, Lost(true))] + after, batch, scripts);
      0 < g.read && 0 in g.pending && 0 !in g.handled && 0 !in g.dead
  {
    var turns := [Turn(1, Lost(true))] + after;
    assert turns[0] == Turn(1, Lost(true)) && turns[1..] == after;
    ExactDelivery(turns, batch, scripts, 0);
    NotBefore(1, after, batch, scripts, 0);
  }
}
