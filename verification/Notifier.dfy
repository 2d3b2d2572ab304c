/** The notifier: a processed set that turns a stream with duplicates into one notification per event. */
module Notifier {
  import opened Common
  import opened Relay

  datatype Notice = Confirmed | Cancelled

  datatype Notification = Notification(eventId: string, notice: Notice, orderId: string)

  datatype Inbox = Inbox(processed: set<string>, sent: seq<Notification>)

  predicate Relevant(e: Event) {
    e.kind.OrderConfirmed? || e.kind.OrderCancelled?
  }

  function NotificationFor(e: Event): Notification {
    Notification(e.id, if e.kind.OrderConfirmed? then Confirmed else Cancelled, e.orderId)
  }

  function Empty(): Inbox {
    Inbox({}, [])
  }

  /** Events of other types are not recorded as processed. */
  function Handle(b: Inbox, e: Event): Inbox {
    if e.id in b.processed || !Relevant(e) then b else Inbox(b.processed + {e.id}, b.sent + [NotificationFor(e)])
  }

  function HandleAll(stream: seq<Event>): Inbox {
    if stream == [] then Empty() else Handle(HandleAll(stream[..|stream| - 1]), stream[|stream| - 1])
  }

  /** Type by type: a confirmation and a cancellation are notified, each under its own notice, unless the id was processed;
      no other type is, and none of those is recorded. */
  lemma {:induction false} HandleTable(b: Inbox, id: string, kind: Kind, order: string)
    ensures Handle(b, Event(id, kind, order)) ==
      match kind
      case OrderConfirmed =>
        if id in b.processed then b else Inbox(b.processed + {id}, b.sent + [Notification(id, Confirmed, order)])
      case OrderCancelled =>
        if id in b.processed then b else Inbox(b.processed + {id}, b.sent + [Notification(id, Cancelled, order)])
      case OrderCreated => b
      case Other(_) => b
  {
  }

  lemma {:induction false} HandleAllAppend(stream: seq<Event>, e: Event)
    ensures HandleAll(stream + [e]) == Handle(HandleAll(stream), e)
  {
    assert (stream + [e])[..|stream|] == stream;
  }

  // ----- Which entries lead to a notification -----

  predicate HasRelevant(stream: seq<Event>, id: string) {
    exists i :: 0 <= i < |stream| && stream[i].id == id && Relevant(stream[i])
  }

  /** A relevant entry with no relevant entry of the same id before it. */
  predicate IsFirst(stream: seq<Event>, i: nat)
    requires i < |stream|
  {
    Relevant(stream[i]) && !HasRelevant(stream[..i], stream[i].id)
  }

  ghost predicate Increasing(at: seq<nat>) {
    forall j, k :: 0 <= j < k < |at| ==> at[j] < at[k]
  }

  /** `at` lists the positions of the first relevant entries, in stream order. */
  ghost predicate ListsFirsts(stream: seq<Event>, at: seq<nat>) {
    && Increasing(at)
    && (forall k :: 0 <= k < |at| ==> at[k] < |stream| && IsFirst(stream, at[k]))
    && (forall i :: 0 <= i < |stream| && IsFirst(stream, i) ==> i in at)
  }

  ghost predicate NotifiesAt(stream: seq<Event>, at: seq<nat>, sent: seq<Notification>) {
    && |sent| == |at|
    && forall k :: 0 <= k < |at| ==> at[k] < |stream| && sent[k] == NotificationFor(stream[at[k]])
  }

  lemma {:induction false} HasRelevantAppend(stream: seq<Event>, e: Event, id: string)
    ensures HasRelevant(stream + [e], id) <==> HasRelevant(stream, id) || (e.id == id && Relevant(e))
  {
    if HasRelevant(stream, id) {
      var i :| 0 <= i < |stream| && stream[i].id == id && Relevant(stream[i]);
      assert (stream + [e])[i] == stream[i];
    }
    assert (stream + [e])[|stream|] == e;
  }

  lemma {:induction false} ProcessedIsRelevant(stream: seq<Event>, id: string)
    ensures id in HandleAll(stream).processed <==> HasRelevant(stream, id)
  {
    if stream != [] {
      var n := |stream| - 1;
      ProcessedIsRelevant(stream[..n], id);
      HasRelevantAppend(stream[..n], stream[n], id);
      assert stream == stream[..n] + [stream[n]];
    }
  }

  lemma {:induction false} FirstsGrow(stream: seq<Event>, e: Event, at: seq<nat>)
    requires ListsFirsts(stream, at)
    ensures ListsFirsts(stream + [e], if Relevant(e) && !HasRelevant(stream, e.id) then at + [|stream|] else at)
  {
    var s' := stream + [e];
    forall i | 0 <= i < |stream| ensures IsFirst(s', i) == IsFirst(stream, i) {
      assert s'[..i] == stream[..i];
    }
    assert s'[..|stream|] == stream;
    var at' := if Relevant(e) && !HasRelevant(stream, e.id) then at + [|stream|] else at;
    forall i | 0 <= i < |s'| && IsFirst(s', i) ensures i in at' {
      if i < |stream| {
        var k :| 0 <= k < |at| && at[k] == i;
        assert at'[k] == i;
      } else {
        assert at'[|at|] == i;
      }
    }
  }

  lemma {:induction false} NotifiesGrow(stream: seq<Event>, e: Event, at: seq<nat>, b: Inbox)
    requires NotifiesAt(stream, at, b.sent)
    ensures var sends := Relevant(e) && e.id !in b.processed;
      NotifiesAt(stream + [e], if sends then at + [|stream|] else at, Handle(b, e).sent)
  {
  }

  /** For every stream the notifications are, in stream order, exactly those of the first relevant entries: any duplicate
      is absorbed and nothing else is. */
  lemma {:induction false} NotifiesFirstOccurrences(stream: seq<Event>) returns (at: seq<nat>)
    ensures ListsFirsts(stream, at) && NotifiesAt(stream, at, HandleAll(stream).sent)
  {
    at := [];
    if stream != [] {
      var before, e := stream[..|stream| - 1], stream[|stream| - 1];
      at := NotifiesFirstOccurrences(before);
      at := NotifiesOneMore(before, e, at);
      assert stream == before + [e];
    }
  }

  lemma {:induction false} NotifiesOneMore(stream: seq<Event>, e: Event, at: seq<nat>) returns (at': seq<nat>)
    requires ListsFirsts(stream, at) && NotifiesAt(stream, at, HandleAll(stream).sent)
    ensures ListsFirsts(stream + [e], at') && NotifiesAt(stream + [e], at', HandleAll(stream + [e]).sent)
  {
    ProcessedIsRelevant(stream, e.id);
    FirstsGrow(stream, e, at);
    NotifiesGrow(stream, e, at, HandleAll(stream));
    HandleAllAppend(stream, e);
    at' := if Relevant(e) && !HasRelevant(stream, e.id) then at + [|stream|] else at;
  }

  /** What a notification says: it is of an entry of the stream with the same id and order, and announces a confirmation or a
      cancellation exactly as the type of that entry does. */
  predicate Announces(n: Notification, e: Event) {
    && n.eventId == e.id && n.orderId == e.orderId
    && (n.notice == Confirmed <==> e.kind == OrderConfirmed)
    && (n.notice == Cancelled <==> e.kind == OrderCancelled)
  }

  lemma {:induction false} EveryNoticeIsTrue(stream: seq<Event>, m: nat)
    requires m < |HandleAll(stream).sent|
    ensures exists i :: 0 <= i < |stream| && Announces(HandleAll(stream).sent[m], stream[i])
  {
    var at := NotifiesFirstOccurrences(stream);
    assert IsFirst(stream, at[m]);
    assert Announces(HandleAll(stream).sent[m], stream[at[m]]);
  }

  // ----- One notification per id -----

  function Times(sent: seq<Notification>, id: string): nat {
    if sent == [] then 0 else Times(sent[..|sent| - 1], id) + if sent[|sent| - 1].eventId == id then 1 else 0
  }

  lemma {:induction false} TimesAppend(sent: seq<Notification>, x: Notification, id: string)
    ensures Times(sent + [x], id) == Times(sent, id) + if x.eventId == id then 1 else 0
  {
    assert (sent + [x])[..|sent|] == sent;
  }

  /** An id is notified once if it has a relevant entry, and never otherwise. */
  lemma {:induction false} ExactlyOnce(stream: seq<Event>, id: string)
    ensures Times(HandleAll(stream).sent, id) == if HasRelevant(stream, id) then 1 else 0
  {
    if stream != [] {
      var n := |stream| - 1;
      var b := HandleAll(stream[..n]);
      ExactlyOnce(stream[..n], id);
      ProcessedIsRelevant(stream[..n], stream[n].id);
      HasRelevantAppend(stream[..n], stream[n], id);
      assert stream == stream[..n] + [stream[n]];
      TimesAppend(b.sent, NotificationFor(stream[n]), id);
    }
  }

  // ----- Handling only the first occurrence of every id -----

  predicate HasId(stream: seq<Event>, id: string) {
    exists i :: 0 <= i < |stream| && stream[i].id == id
  }

  function Dedup(stream: seq<Event>): seq<Event> {
    if stream == [] then []
    else
      var before, e := stream[..|stream| - 1], stream[|stream| - 1];
      if HasId(before, e.id) then Dedup(before) else Dedup(before) + [e]
  }

  /** An id whose first entry has an unknown type and a later one has not. */
  predicate TurnsRelevant(stream: seq<Event>, i: nat)
    requires i < |stream|
  {
    Relevant(stream[i]) && !HasRelevant(stream[..i], stream[i].id) && HasId(stream[..i], stream[i].id)
  }

  predicate Steady(stream: seq<Event>) {
    forall i :: 0 <= i < |stream| ==> !TurnsRelevant(stream, i)
  }

  lemma {:induction false} SteadyPrefix(stream: seq<Event>, n: nat)
    requires n <= |stream| && Steady(stream)
    ensures Steady(stream[..n])
  {
    forall i | 0 <= i < n ensures !TurnsRelevant(stream[..n], i) {
      assert stream[..n][..i] == stream[..i];
      assert !TurnsRelevant(stream, i);
    }
  }

  lemma {:induction false} DedupSuffices(stream: seq<Event>)
    requires Steady(stream)
    ensures HandleAll(Dedup(stream)) == HandleAll(stream)
  {
    if stream != [] {
      var n := |stream| - 1;
      var e := stream[n];
      SteadyPrefix(stream, n);
      DedupSuffices(stream[..n]);
      HandleAllAppend(Dedup(stream[..n]), e);
      ProcessedIsRelevant(stream[..n], e.id);
      assert !TurnsRelevant(stream, n);
    }
  }

  /** After deduplication only the first entry of an id is left. */
  lemma {:induction false} DedupHasFirst(stream: seq<Event>, id: string)
    ensures HasRelevant(Dedup(stream), id) <==>
      (exists i :: 0 <= i < |stream| && stream[i].id == id && Relevant(stream[i]) && !HasId(stream[..i], id))
  {
    if stream != [] {
      var n := |stream| - 1;
      var before, e := stream[..n], stream[n];
      DedupHasFirst(before, id);
      HasRelevantAppend(Dedup(before), e, id);
      forall i | 0 <= i < n ensures stream[..i] == before[..i] {}
      if HasRelevant(Dedup(before), id) {
        var i :| 0 <= i < n && before[i].id == id && Relevant(before[i]) && !HasId(before[..i], id);
        assert stream[i].id == id && Relevant(stream[i]) && !HasId(stream[..i], id);
      }
      if i :| 0 <= i < |stream| && stream[i].id == id && Relevant(stream[i]) && !HasId(stream[..i], id) {
        if i < n { assert before[i].id == id && Relevant(before[i]) && !HasId(before[..i], id); }
      }
    }
  }

  /** Handling the stream equals handling only the first entry of every id exactly when no id turns relevant. */
  lemma {:induction false} DedupIsEnoughIff(stream: seq<Event>)
    ensures HandleAll(Dedup(stream)).sent == HandleAll(stream).sent <==> Steady(stream)
  {
    if Steady(stream) {
      DedupSuffices(stream);
    } else {
      var i :| 0 <= i < |stream| && TurnsRelevant(stream, i);
      var id := stream[i].id;
      ExactlyOnce(stream, id);
      ExactlyOnce(Dedup(stream), id);
      DedupHasFirst(stream, id);
      forall j | 0 <= j < |stream| && stream[j].id == id && Relevant(stream[j]) ensures HasId(stream[..j], id) {
        FirstIsEarlier(stream, i, j);
      }
    }
  }

  /** Every relevant entry of an id that turns relevant at `i` has an entry of that id before it. */
  lemma {:induction false} FirstIsEarlier(stream: seq<Event>, i: nat, j: nat)
    requires i < |stream| && j < |stream| && TurnsRelevant(stream, i)
    requires stream[j].id == stream[i].id && Relevant(stream[j])
    ensures HasId(stream[..j], stream[i].id)
  {
    var k :| 0 <= k < i && stream[..i][k].id == stream[i].id;
    forall m | 0 <= m < i && stream[m].id == stream[i].id ensures !Relevant(stream[m]) {
      assert stream[..i][m] == stream[m];
    }
    assert stream[..j][k].id == stream[i].id;
  }

  /** One id under two types is notified although its first entry was not. */
  lemma TypeChangeIsNotified(id: string, order: string)
    ensures var stream := [Event(id, OrderCreated, order), Event(id, OrderConfirmed, order)];
      HandleAll(stream).sent == [Notification(id, Confirmed, order)] && HandleAll(Dedup(stream)).sent == []
  {
    var a, b := Event(id, OrderCreated, order), Event(id, OrderConfirmed, order);
    HandleAllAppend([a], b);
    HandleAllAppend([], a);
    assert [] + [a] == [a] && [a] + [b] == [a, b] && [a, b][..1] == [a] && [a][..0] == [];
    assert HasId([a], id) by { assert [a][0].id == id; }
    assert Dedup([a, b]) == Dedup([a]) == [a];
  }

  // ----- Relay and notifier together -----

  /** Any delivery of the stream: every entry at least once, none invented, in any order. */
  ghost predicate Delivers(delivered: seq<Event>, stream: seq<Event>) {
    forall e :: e in delivered <==> e in stream
  }

  /** However the relay's publishes, rollbacks and crashes went and in whatever order and multiplicity its stream is
      delivered: each row whose event is in the stream, every PUBLISHED one among them, gets one notification if it is of
      one of the two types and none otherwise, and nothing else is notified. */
  lemma {:induction false} EndToEnd(actions: seq<Action>, batch: nat, delivered: seq<Event>)
    requires Delivers(delivered, Run(Initial(), actions, batch).stream)
    ensures var s := Run(Initial(), actions, batch); var sent := HandleAll(delivered).sent;
      && (forall k :: 0 <= k < |s.rows| && s.rows[k].event in s.stream ==>
            Times(sent, s.rows[k].event.id) == if Relevant(s.rows[k].event) then 1 else 0)
      && (forall k :: 0 <= k < |s.rows| && s.rows[k].status.Published? && Relevant(s.rows[k].event) ==>
            NotificationFor(s.rows[k].event) in sent)
      && (forall n :: n in sent ==>
            exists k :: 0 <= k < |s.rows| && Relevant(s.rows[k].event) && n == NotificationFor(s.rows[k].event))
    ensures HandleAll(Dedup(delivered)) == HandleAll(delivered)
  {
    RunKeepsInv(actions, batch);
    var s := Run(Initial(), actions, batch);
    forall i | 0 <= i < |delivered| ensures HasEvent(s.rows, delivered[i]) {
      assert delivered[i] in s.stream;
    }
    NothingInvented(s.rows, delivered);
    forall k | 0 <= k < |s.rows| && s.rows[k].event in s.stream
      ensures Times(HandleAll(delivered).sent, s.rows[k].event.id) == if Relevant(s.rows[k].event) then 1 else 0
      ensures Relevant(s.rows[k].event) ==> NotificationFor(s.rows[k].event) in HandleAll(delivered).sent
    {
      RowIsNotified(s.rows, delivered, k);
    }
    IdsFixTypes(s.rows, delivered);
    DedupSuffices(delivered);
  }

  ghost predicate UniqueIds(rows: seq<Row>) {
    forall j, k :: 0 <= j < k < |rows| ==> rows[j].event.id != rows[k].event.id
  }

  ghost predicate FromRows(rows: seq<Row>, delivered: seq<Event>) {
    UniqueIds(rows) && forall i :: 0 <= i < |delivered| ==> HasEvent(rows, delivered[i])
  }

  lemma {:induction false} SameIdSameEvent(rows: seq<Row>, delivered: seq<Event>, i: nat, k: nat)
    requires FromRows(rows, delivered) && i < |delivered| && k < |rows| && delivered[i].id == rows[k].event.id
    ensures delivered[i] == rows[k].event
  {
    assert HasEvent(rows, delivered[i]);
    var j :| 0 <= j < |rows| && rows[j].event == delivered[i];
    if j != k { assert rows[j].event.id != rows[k].event.id; }
  }

  lemma {:induction false} NothingInvented(rows: seq<Row>, delivered: seq<Event>)
    requires FromRows(rows, delivered)
    ensures forall n :: n in HandleAll(delivered).sent ==>
      exists k :: 0 <= k < |rows| && Relevant(rows[k].event) && n == NotificationFor(rows[k].event)
  {
    var at := NotifiesFirstOccurrences(delivered);
    forall n | n in HandleAll(delivered).sent
      ensures exists k :: 0 <= k < |rows| && Relevant(rows[k].event) && n == NotificationFor(rows[k].event)
    {
      var m :| 0 <= m < |at| && HandleAll(delivered).sent[m] == n;
      assert IsFirst(delivered, at[m]) && HasEvent(rows, delivered[at[m]]);
    }
  }

  lemma {:induction false} RowIsNotified(rows: seq<Row>, delivered: seq<Event>, k: nat)
    requires FromRows(rows, delivered) && k < |rows| && rows[k].event in delivered
    ensures var sent := HandleAll(delivered).sent;
      && Times(sent, rows[k].event.id) == (if Relevant(rows[k].event) then 1 else 0)
      && (Relevant(rows[k].event) ==> NotificationFor(rows[k].event) in sent)
  {
    var id := rows[k].event.id;
    ExactlyOnce(delivered, id);
    if HasRelevant(delivered, id) {
      var i :| 0 <= i < |delivered| && delivered[i].id == id && Relevant(delivered[i]);
      SameIdSameEvent(rows, delivered, i, k);
    }
    if Relevant(rows[k].event) {
      var i :| 0 <= i < |delivered| && delivered[i] == rows[k].event;
      assert delivered[i].id == id;
      SentForId(delivered, id);
      var m :| 0 <= m < |delivered| && delivered[m].id == id && NotificationFor(delivered[m]) in HandleAll(delivered).sent;
      SameIdSameEvent(rows, delivered, m, k);
    }
  }

  lemma {:induction false} SentForId(stream: seq<Event>, id: string)
    requires HasRelevant(stream, id)
    ensures exists m :: 0 <= m < |stream| && stream[m].id == id && NotificationFor(stream[m]) in HandleAll(stream).sent
  {
    var n := |stream| - 1;
    var e := stream[n];
    var b := HandleAll(stream[..n]);
    assert stream == stream[..n] + [e];
    HasRelevantAppend(stream[..n], e, id);
    if HasRelevant(stream[..n], id) {
      SentForId(stream[..n], id);
      var m :| 0 <= m < n && stream[..n][m].id == id && NotificationFor(stream[..n][m]) in b.sent;
      assert stream[m].id == id && NotificationFor(stream[m]) in HandleAll(stream).sent;
    } else {
      ProcessedIsRelevant(stream[..n], id);
      assert HandleAll(stream).sent[|b.sent|] == NotificationFor(e);
      assert stream[n].id == id && NotificationFor(stream[n]) in HandleAll(stream).sent;
    }
  }

  lemma {:induction false} IdsFixTypes(rows: seq<Row>, delivered: seq<Event>)
    requires FromRows(rows, delivered)
    ensures Steady(delivered)
  {
    forall i | 0 <= i < |delivered| ensures !TurnsRelevant(delivered, i) {
      if HasId(delivered[..i], delivered[i].id) {
        var j :| 0 <= j < i && delivered[..i][j].id == delivered[i].id;
        assert HasEvent(rows, delivered[i]);
        var k :| 0 <= k < |rows| && rows[k].event == delivered[i];
        SameIdSameEvent(rows, delivered, j, k);
        assert delivered[..i][j] == delivered[i];
      }
    }
  }

  // ----- The service -----

  class NotifierService {
    var processed: set<string>
    var notifications: seq<Notification>

    constructor ()
      ensures State() == HandleAll([])
    {
      processed, notifications := {}, [];
    }

    function State(): Inbox
      reads this
    {
      Inbox(processed, notifications)
    }

    /** `handle_event`: true when a notification was sent. A payload without an order id counts as order "unknown". */
    method HandleEvent(kind: Kind, id: string, orderId: Option<string>) returns (sent: bool)
      modifies this
      ensures var e := Event(id, kind, if orderId.Some? then orderId.value else "unknown");
        && State() == Handle(old(State()), e)
        && (sent <==> |notifications| == |old(notifications)| + 1)
        && (!sent ==> State() == old(State()))
        && forall stream :: old(State()) == HandleAll(stream) ==> State() == HandleAll(stream + [e])
    {
      ghost var e := Event(id, kind, if orderId.Some? then orderId.value else "unknown");
      forall stream ensures HandleAll(stream + [e]) == Handle(HandleAll(stream), e) {
        HandleAllAppend(stream, e);
      }
      if id in processed {
        return false;
      }
      var order := if orderId.Some? then orderId.value else "unknown";
      var notification: Notification;
      if kind.OrderConfirmed? {
        notification := Notification(id, Confirmed, order);
      } else if kind.OrderCancelled? {
        notification := Notification(id, Cancelled, order);
      } else {
        return false;
      }
      processed := processed + {id};
      notifications := notifications + [notification];
      return true;
    }

    method Clear()
      modifies this
      ensures State() == HandleAll([])
    {
      processed, notifications := {}, [];
    }
  }
}
