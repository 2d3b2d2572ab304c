/** Relay, consumer and notifier in a row: the notifier is the handler of a consumer that reads the relay's stream. */
module Pipeline {
  import opened Relay
  import opened Notifier
  import Consumer

  /** The events whose handling completed, in the order in which they were handled. */
  function Delivered(stream: seq<Event>, handled: seq<nat>): (r: seq<Event>)
    requires forall k :: 0 <= k < |handled| ==> handled[k] < |stream|
    ensures |r| == |handled| && forall k :: 0 <= k < |r| ==> r[k] == stream[handled[k]]
  {
    if handled == [] then []
    else Delivered(stream, handled[..|handled| - 1]) + [stream[handled[|handled| - 1]]]
  }

  ghost predicate AllComplete(scripts: nat -> Consumer.Script) {
    forall m :: scripts(m).handling.Completes?
  }

  lemma {:induction false} HandledWasRead(turns: seq<Consumer.Turn>, size: nat, scripts: nat -> Consumer.Script)
    ensures var g := Consumer.Consume(Consumer.Initial(), turns, size, scripts);
      forall k :: 0 <= k < |g.handled| ==> g.handled[k] < g.read
  {
    Consumer.ConsumeKeepsInv(Consumer.Initial(), turns, size, scripts);
  }

  /** A row whose event was not delivered is not notified. */
  lemma {:induction false} RowIsSilent(rows: seq<Row>, delivered: seq<Event>, k: nat)
    requires FromRows(rows, delivered) && k < |rows| && rows[k].event !in delivered
    ensures Times(HandleAll(delivered).sent, rows[k].event.id) == 0
  {
    ExactlyOnce(delivered, rows[k].event.id);
    forall i | 0 <= i < |delivered| ensures delivered[i].id != rows[k].event.id {
      assert HasEvent(rows, delivered[i]);
      var j :| 0 <= j < |rows| && rows[j].event == delivered[i];
      assert j != k;
    }
  }

  /** Whatever goes wrong at the relay, the broker or the consumer: a row is notified once if its event is of one of the
      two types and its handling completed, and not at all otherwise; nothing else is notified. */
  lemma {:induction false} OncePerHandledEvent(actions: seq<Action>, batch: nat, turns: seq<Consumer.Turn>, size: nat,
                                               scripts: nat -> Consumer.Script)
    requires Consumer.Consume(Consumer.Initial(), turns, size, scripts).read <= |Run(Initial(), actions, batch).stream|
    ensures var s, g := Run(Initial(), actions, batch), Consumer.Consume(Consumer.Initial(), turns, size, scripts);
      && (forall k :: 0 <= k < |g.handled| ==> g.handled[k] < |s.stream|)
      && var delivered := Delivered(s.stream, g.handled);
         && FromRows(s.rows, delivered)
         && (forall k :: 0 <= k < |s.rows| ==>
               Times(HandleAll(delivered).sent, s.rows[k].event.id)
               == (if Relevant(s.rows[k].event) && s.rows[k].event in delivered then 1 else 0))
         && (forall n :: n in HandleAll(delivered).sent ==>
               exists k :: 0 <= k < |s.rows| && Relevant(s.rows[k].event) && n == NotificationFor(s.rows[k].event))
  {
    RunKeepsInv(actions, batch);
    HandledWasRead(turns, size, scripts);
    var s, g := Run(Initial(), actions, batch), Consumer.Consume(Consumer.Initial(), turns, size, scripts);
    var delivered := Delivered(s.stream, g.handled);
    forall i | 0 <= i < |delivered| ensures HasEvent(s.rows, delivered[i]) {
      assert delivered[i] == s.stream[g.handled[i]];
    }
    NothingInvented(s.rows, delivered);
    forall k | 0 <= k < |s.rows|
      ensures Times(HandleAll(delivered).sent, s.rows[k].event.id)
        == if Relevant(s.rows[k].event) && s.rows[k].event in delivered then 1 else 0
    {
      if s.rows[k].event in delivered {
        RowIsNotified(s.rows, delivered, k);
      } else {
        RowIsSilent(s.rows, delivered, k);
      }
    }
  }

  /** If the broker does not fail the consumer and the consumer has read the whole stream, every PUBLISHED row of one of
      the two types has exactly one notification, however often the relay published it. */
  lemma {:induction false} ExactlyOnceEndToEnd(actions: seq<Action>, batch: nat, turns: seq<Consumer.Turn>, size: nat,
                                               scripts: nat -> Consumer.Script, k: nat)
    requires Consumer.Consume(Consumer.Initial(), turns, size, scripts).read == |Run(Initial(), actions, batch).stream|
    requires Consumer.Smooth(turns, scripts) && AllComplete(scripts)
    requires k < |Run(Initial(), actions, batch).rows|
    requires var row := Run(Initial(), actions, batch).rows[k]; row.status.Published? && Relevant(row.event)
    ensures var s, g := Run(Initial(), actions, batch), Consumer.Consume(Consumer.Initial(), turns, size, scripts);
      && (forall j :: 0 <= j < |g.handled| ==> g.handled[j] < |s.stream|)
      && Times(HandleAll(Delivered(s.stream, g.handled)).sent, s.rows[k].event.id) == 1
  {
    OncePerHandledEvent(actions, batch, turns, size, scripts);
    RunKeepsInv(actions, batch);
    Consumer.SmoothRun(turns, size, scripts);
    var s, g := Run(Initial(), actions, batch), Consumer.Consume(Consumer.Initial(), turns, size, scripts);
    var e := s.rows[k].event;
    var m :| 0 <= m < |s.stream| && s.stream[m] == e;
    assert m in g.handled;
    var j :| 0 <= j < |g.handled| && g.handled[j] == m;
    assert Delivered(s.stream, g.handled)[j] == e;
  }
}
