/**
 * The order history: an append-only log of customer-order status rows, and the combined
 * timeline that merges it with the creation, receipt and cancellation events of the material
 * purchase orders, newest first.
 */
module History {
  import opened Common
  import opened Schema
  import Sorting

  const CreateFailed := "Failed to create history record"

  /**
   * create: inserts one row with a fresh id, the order, the status and the current time and
   * returns it; a rejected insert raises a plain error and leaves the log as it was.
   */
  method Create(db: Db, cpoId: Id, status: string, id: Id, now: Timestamp, storeFailure: Option<string>)
    returns (res: Result<HistoryRow>)
    modifies db`history
    ensures storeFailure.Some? ==> res == Err(PlainError(CreateFailed)) && db.history == old(db.history)
    ensures storeFailure.None? ==>
      db.history == old(db.history) + [HistoryRow(id, cpoId, status, now)]
      && res == Ok(HistoryRow(id, cpoId, status, now))
  {
    if storeFailure.Some? {
      return Err(PlainError(CreateFailed));
    }
    var row := HistoryRow(id, cpoId, status, now);
    db.history := db.history + [row];
    res := Ok(row);
  }

  /** One entry of getAllHistory: `poId` is the union's reference_id, `kind` its type column. */
  datatype TimelineItem = TimelineItem(id: Id, poId: Id, status: string, dateTime: Timestamp, kind: string)

  /** The first branch of the union: every history row, tagged CPO. */
  function CpoEvent(h: HistoryRow): TimelineItem
  {
    TimelineItem(h.id, h.cpoId, h.status, h.dateTime, "CPO")
  }

  /** The second branch: an order with a creation time yields an event with its current status. */
  function CreatedEvent(m: MaterialOrder): Option<TimelineItem>
  {
    if m.createDateTime.Some? then Some(TimelineItem(m.id, m.id, MpoStatusName(m.status), m.createDateTime.value, "MPO")) else None
  }

  /** The third branch: an order with a receipt time yields a RECEIVED event at that time. */
  function ReceivedEvent(m: MaterialOrder): Option<TimelineItem>
  {
    if m.receiveDateTime.Some? then Some(TimelineItem(m.id, m.id, "RECEIVED", m.receiveDateTime.value, "MPO")) else None
  }

  /** The fourth branch: an order with a cancellation time yields a CANCELLED event at that time. */
  function CancelledEvent(m: MaterialOrder): Option<TimelineItem>
  {
    if m.cancelDateTime.Some? then Some(TimelineItem(m.id, m.id, "CANCELLED", m.cancelDateTime.value, "MPO")) else None
  }

  function CpoEvents(hs: seq<HistoryRow>): (r: seq<TimelineItem>)
    ensures |r| == |hs|
  {
    if hs == [] then [] else [CpoEvent(hs[0])] + CpoEvents(hs[1..])
  }

  /** SELECT ... WHERE the event's time IS NOT NULL: the defined events, in table order. */
  function Defined(ms: seq<MaterialOrder>, event: MaterialOrder -> Option<TimelineItem>): (r: seq<TimelineItem>)
    ensures |r| <= |ms|
  {
    if ms == [] then []
    else (if event(ms[0]).Some? then [event(ms[0]).value] else []) + Defined(ms[1..], event)
  }

  /** The UNION ALL of the four branches, before ordering. */
  function Union(hs: seq<HistoryRow>, ms: seq<MaterialOrder>): seq<TimelineItem>
  {
    CpoEvents(hs) + Defined(ms, CreatedEvent) + Defined(ms, ReceivedEvent) + Defined(ms, CancelledEvent)
  }

  /** ORDER BY date_time DESC. */
  function NewerFirst(a: TimelineItem, b: TimelineItem): bool
  {
    a.dateTime >= b.dateTime
  }

  /** getAllHistory. */
  function AllHistory(hs: seq<HistoryRow>, ms: seq<MaterialOrder>): seq<TimelineItem>
  {
    Sorting.Sort(Union(hs, ms), NewerFirst)
  }

  lemma NewerFirstOrders()
    ensures Sorting.TotalPreorder(NewerFirst)
  {
    assert forall a: TimelineItem, b: TimelineItem :: NewerFirst(a, b) || NewerFirst(b, a);
    assert forall a: TimelineItem, b: TimelineItem, c: TimelineItem :: NewerFirst(a, b) && NewerFirst(b, c) ==> NewerFirst(a, c);
  }

  /** Row i of the log is item i of the CPO branch. */
  lemma {:induction false} CpoEventsAt(hs: seq<HistoryRow>, i: nat)
    requires i < |hs|
    ensures CpoEvents(hs)[i] == TimelineItem(hs[i].id, hs[i].cpoId, hs[i].status, hs[i].dateTime, "CPO")
  {
    if i > 0 {
      CpoEventsAt(hs[1..], i - 1);
    }
  }

  /** An event is in a branch exactly when some order yields it. */
  lemma {:induction false} DefinedMember(ms: seq<MaterialOrder>, event: MaterialOrder -> Option<TimelineItem>, e: TimelineItem)
    ensures e in Defined(ms, event) <==> exists i :: 0 <= i < |ms| && event(ms[i]) == Some(e)
  {
    if ms != [] {
      DefinedMember(ms[1..], event, e);
      if exists i :: 0 <= i < |ms| && event(ms[i]) == Some(e) {
        var i :| 0 <= i < |ms| && event(ms[i]) == Some(e);
        if i > 0 {
          assert event(ms[1..][i - 1]) == Some(e);
        }
      }
      if exists i :: 0 <= i < |ms[1..]| && event(ms[1..][i]) == Some(e) {
        var i :| 0 <= i < |ms[1..]| && event(ms[1..][i]) == Some(e);
        assert event(ms[i + 1]) == Some(e);
      }
    }
  }

  /**
   * getAllHistory lists newest first and holds every event of the union, as often as the
   * union holds it, and nothing else.
   */
  lemma AllHistoryCorrect(hs: seq<HistoryRow>, ms: seq<MaterialOrder>)
    ensures Sorting.SortedBy(AllHistory(hs, ms), NewerFirst)
    ensures multiset(AllHistory(hs, ms)) == multiset(Union(hs, ms))
    ensures |AllHistory(hs, ms)| == |hs| + |Defined(ms, CreatedEvent)| + |Defined(ms, ReceivedEvent)| + |Defined(ms, CancelledEvent)|
  {
    NewerFirstOrders();
    Sorting.SortCorrect(Union(hs, ms), NewerFirst);
  }

  /**
   * The timeline holds exactly: every history row as a CPO item, and for each order a
   * creation event if it has a creation time, a RECEIVED event if it has a receipt time and a
   * CANCELLED event if it has a cancellation time.
   */
  lemma AllHistoryMember(hs: seq<HistoryRow>, ms: seq<MaterialOrder>, e: TimelineItem)
    ensures e in AllHistory(hs, ms) <==>
      (exists i :: 0 <= i < |hs| && e == CpoEvent(hs[i]))
      || (exists i :: 0 <= i < |ms| && CreatedEvent(ms[i]) == Some(e))
      || (exists i :: 0 <= i < |ms| && ReceivedEvent(ms[i]) == Some(e))
      || (exists i :: 0 <= i < |ms| && CancelledEvent(ms[i]) == Some(e))
  {
    AllHistoryCorrect(hs, ms);
    assert e in AllHistory(hs, ms) <==> e in multiset(Union(hs, ms));
    DefinedMember(ms, CreatedEvent, e);
    DefinedMember(ms, ReceivedEvent, e);
    DefinedMember(ms, CancelledEvent, e);
    CpoEventsMember(hs, e);
  }

  lemma {:induction false} CpoEventsMember(hs: seq<HistoryRow>, e: TimelineItem)
    ensures e in CpoEvents(hs) <==> exists i :: 0 <= i < |hs| && e == CpoEvent(hs[i])
  {
    if hs != [] {
      CpoEventsMember(hs[1..], e);
      if exists i :: 0 <= i < |hs| && e == CpoEvent(hs[i]) {
        var i :| 0 <= i < |hs| && e == CpoEvent(hs[i]);
        if i > 0 {
          assert e == CpoEvent(hs[1..][i - 1]);
        }
      }
      if exists i :: 0 <= i < |hs[1..]| && e == CpoEvent(hs[1..][i]) {
        var i :| 0 <= i < |hs[1..]| && e == CpoEvent(hs[1..][i]);
        assert e == CpoEvent(hs[i + 1]);
      }
    }
  }
}
