/**
 * Turning the shortage rows of a paid order into material requisitions: a material with no
 * requisition gets a new one per shortage row; a material that has one gets its quantity
 * raised by the shortage. Existing quantities are read once, before any write.
 */
module RequisitionReconcile {
  import opened Common
  import opened Schema
  import opened Requisitions
  import opened MaterialRequirements

  /** The shortage of the last shortage row for material x, if there is one. */
  function LastShortage(ss: seq<ShortageRow>, x: Id): Option<int>
  {
    if ss == [] then None
    else if ss[|ss| - 1].materialId == x then Some(ss[|ss| - 1].shortageQuantity)
    else LastShortage(ss[..|ss| - 1], x)
  }

  /** x is one of shortages.map(s => s.material_id). */
  predicate HasShortage(ss: seq<ShortageRow>, x: Id)
  {
    LastShortage(ss, x).Some?
  }

  /** SELECT material_id, quantity FROM material_requisitions WHERE material_id = ANY(material ids of ss). */
  function Selected(reqs: seq<Requisition>, ss: seq<ShortageRow>): seq<Requisition>
  {
    if reqs == [] then []
    else (if HasShortage(ss, reqs[0].materialId) then [reqs[0]] else []) + Selected(reqs[1..], ss)
  }

  /** new Map(rows.map(r => [r.material_id, r.quantity])): a later row overwrites an earlier one. */
  function MapOf(rows: seq<Requisition>): map<Id, int>
  {
    if rows == [] then map[]
    else MapOf(rows[..|rows| - 1])[rows[|rows| - 1].materialId := rows[|rows| - 1].quantity]
  }

  /** The quantities the reconciliation reads before writing anything. */
  function ExistingQuantities(reqs: seq<Requisition>, ss: seq<ShortageRow>): map<Id, int>
  {
    MapOf(Selected(reqs, ss))
  }

  /** The quantity of the last of a material's requisitions. */
  function LastQuantity(rows: seq<Requisition>): int
    requires rows != []
  {
    rows[|rows| - 1].quantity
  }

  /** A shortage row for a material that already has a requisition, with the quantity read for it. */
  datatype Pending = Pending(row: ShortageRow, currentQuantity: int)

  /** The loop's toInsert: shortage rows whose material had no requisition, in order. */
  function ToInsert(ss: seq<ShortageRow>, existing: map<Id, int>): (r: seq<ShortageRow>)
    ensures |r| <= |ss|
  {
    if ss == [] then []
    else ToInsert(ss[..|ss| - 1], existing) + (if ss[|ss| - 1].materialId in existing then [] else [ss[|ss| - 1]])
  }

  /** The loop's toUpdate: the other shortage rows, each with the quantity read for its material. */
  function ToUpdate(ss: seq<ShortageRow>, existing: map<Id, int>): seq<Pending>
  {
    if ss == [] then []
    else
      var s := ss[|ss| - 1];
      ToUpdate(ss[..|ss| - 1], existing) + (if s.materialId in existing then [Pending(s, existing[s.materialId])] else [])
  }

  /** The batch insert: one requisition per row, with a fresh id, the shortage as quantity, stamped now. */
  function NewRequisitions(rows: seq<ShortageRow>, ids: seq<Id>, now: Timestamp): (r: seq<Requisition>)
    requires |ids| >= |rows|
    ensures |r| == |rows|
  {
    if rows == [] then []
    else [Requisition(ids[0], rows[0].materialId, rows[0].shortageQuantity, now)] + NewRequisitions(rows[1..], ids[1..], now)
  }

  /** The update loop: each pending row sets every requisition of its material to read quantity + shortage. */
  function ApplyUpdates(reqs: seq<Requisition>, ups: seq<Pending>, now: Timestamp): seq<Requisition>
  {
    if ups == [] then reqs
    else
      var u := ups[|ups| - 1];
      SetQuantity(ApplyUpdates(reqs, ups[..|ups| - 1], now), u.row.materialId, u.currentQuantity + u.row.shortageQuantity, now)
  }

  lemma {:induction false} ApplyUpdatesStep(reqs: seq<Requisition>, ups: seq<Pending>, k: nat, now: Timestamp)
    requires k < |ups|
    ensures ApplyUpdates(reqs, ups[..k + 1], now)
         == SetQuantity(ApplyUpdates(reqs, ups[..k], now), ups[k].row.materialId, ups[k].currentQuantity + ups[k].row.shortageQuantity, now)
  {
    assert ups[..k + 1][..k] == ups[..k];
  }

  /** The requisition table after the reconciliation of shortage rows ss. */
  function Reconciled(reqs: seq<Requisition>, ss: seq<ShortageRow>, ids: seq<Id>, now: Timestamp): seq<Requisition>
    requires |ids| >= |ss|
  {
    if ss == [] then reqs
    else
      var existing := ExistingQuantities(reqs, ss);
      ApplyUpdates(reqs + NewRequisitions(ToInsert(ss, existing), ids, now), ToUpdate(ss, existing), now)
  }

  /** One entry of the returned shortages list. */
  datatype ShortageSummary = ShortageSummary(materialName: string, needed: int, available: int, shortage: int)

  datatype ReconcileReport = ReconcileReport(success: bool, message: string, shortages: seq<ShortageSummary>)

  const NoShortagesMessage := "No material shortages found"
  const ReconciledMessage := "Material requisitions created/updated successfully"

  function SummaryOf(s: ShortageRow): ShortageSummary
  {
    ShortageSummary(s.materialName, s.quantityNeeded, s.availableQuantity, s.shortageQuantity)
  }

  // The read: which quantity the map holds for a material.

  lemma {:induction false} SelectedRowsOf(reqs: seq<Requisition>, ss: seq<ShortageRow>, x: Id)
    ensures RowsOf(Selected(reqs, ss), x) == if HasShortage(ss, x) then RowsOf(reqs, x) else []
  {
    if reqs != [] {
      SelectedRowsOf(reqs[1..], ss, x);
      var head := if HasShortage(ss, reqs[0].materialId) then [reqs[0]] else [];
      RowsOfAppend(head, Selected(reqs[1..], ss), x);
    }
  }

  lemma {:induction false} RowsOfLast(rows: seq<Requisition>, x: Id)
    requires rows != []
    ensures RowsOf(rows, x) == RowsOf(rows[..|rows| - 1], x) + (if rows[|rows| - 1].materialId == x then [rows[|rows| - 1]] else [])
  {
    assert rows == rows[..|rows| - 1] + [rows[|rows| - 1]];
    RowsOfAppend(rows[..|rows| - 1], [rows[|rows| - 1]], x);
  }

  /** The map holds exactly the materials with a row, with the quantity of the last such row. */
  lemma {:induction false} MapOfSpec(rows: seq<Requisition>, x: Id)
    ensures x in MapOf(rows) <==> RowsOf(rows, x) != []
    ensures x in MapOf(rows) ==> MapOf(rows)[x] == LastQuantity(RowsOf(rows, x))
  {
    if rows != [] {
      MapOfSpec(rows[..|rows| - 1], x);
      RowsOfLast(rows, x);
    }
  }

  /**
   * A material with a shortage row is read exactly when it has requisitions, and then with the
   * quantity of its last one.
   */
  lemma {:induction false} ExistingQuantityOf(reqs: seq<Requisition>, ss: seq<ShortageRow>, x: Id)
    requires HasShortage(ss, x)
    ensures x in ExistingQuantities(reqs, ss) <==> RowsOf(reqs, x) != []
    ensures RowsOf(reqs, x) != [] ==> ExistingQuantities(reqs, ss)[x] == LastQuantity(RowsOf(reqs, x))
  {
    SelectedRowsOf(reqs, ss, x);
    MapOfSpec(Selected(reqs, ss), x);
  }

  // The split and the batch insert.

  lemma {:induction false} ToInsertFrom(ss: seq<ShortageRow>, existing: map<Id, int>)
    ensures forall i :: 0 <= i < |ToInsert(ss, existing)| ==>
      HasShortage(ss, ToInsert(ss, existing)[i].materialId) && ToInsert(ss, existing)[i].materialId !in existing
  {
    if ss != [] {
      ToInsertFrom(ss[..|ss| - 1], existing);
    }
  }

  lemma {:induction false} RowsOfNewRequisitions(rows: seq<ShortageRow>, ids: seq<Id>, now: Timestamp, x: Id)
    requires |ids| >= |rows|
    requires forall i :: 0 <= i < |rows| ==> rows[i].materialId != x
    ensures RowsOf(NewRequisitions(rows, ids, now), x) == []
  {
    if rows != [] {
      RowsOfNewRequisitions(rows[1..], ids[1..], now, x);
    }
  }

  /** The batch insert adds no requisition of a material that was read, nor of one without a shortage row. */
  lemma {:induction false} InsertsNone(ss: seq<ShortageRow>, existing: map<Id, int>, ids: seq<Id>, now: Timestamp, x: Id)
    requires |ids| >= |ss| && (x in existing || !HasShortage(ss, x))
    ensures RowsOf(NewRequisitions(ToInsert(ss, existing), ids, now), x) == []
  {
    ToInsertFrom(ss, existing);
    RowsOfNewRequisitions(ToInsert(ss, existing), ids, now, x);
  }

  /** The shortages of the rows for x, in order. */
  function ShortagesFor(ss: seq<ShortageRow>, x: Id): seq<int>
  {
    if ss == [] then [] else (if ss[0].materialId == x then [ss[0].shortageQuantity] else []) + ShortagesFor(ss[1..], x)
  }

  /** The quantities of requisition rows, in order. */
  function Quantities(rows: seq<Requisition>): seq<int>
  {
    if rows == [] then [] else [rows[0].quantity] + Quantities(rows[1..])
  }

  /** Every row is stamped now. */
  predicate AllStamped(rows: seq<Requisition>, now: Timestamp)
  {
    forall i :: 0 <= i < |rows| ==> rows[i].createDateTime == now
  }

  lemma {:induction false} QuantitiesAppend(a: seq<Requisition>, b: seq<Requisition>)
    ensures Quantities(a + b) == Quantities(a) + Quantities(b)
  {
    if a == [] {
      assert a + b == b;
    } else {
      assert (a + b)[1..] == a[1..] + b;
      calc {
        Quantities(a + b);
        [a[0].quantity] + Quantities(a[1..] + b);
        { QuantitiesAppend(a[1..], b); }
        [a[0].quantity] + (Quantities(a[1..]) + Quantities(b));
        ([a[0].quantity] + Quantities(a[1..])) + Quantities(b);
      }
    }
  }

  lemma {:induction false} ShortagesForAppend(a: seq<ShortageRow>, b: seq<ShortageRow>, x: Id)
    ensures ShortagesFor(a + b, x) == ShortagesFor(a, x) + ShortagesFor(b, x)
  {
    if a == [] {
      assert a + b == b;
    } else {
      var head := if a[0].materialId == x then [a[0].shortageQuantity] else [];
      assert (a + b)[1..] == a[1..] + b;
      calc {
        ShortagesFor(a + b, x);
        head + ShortagesFor(a[1..] + b, x);
        { ShortagesForAppend(a[1..], b, x); }
        head + (ShortagesFor(a[1..], x) + ShortagesFor(b, x));
        (head + ShortagesFor(a[1..], x)) + ShortagesFor(b, x);
      }
    }
  }

  /** The batch insert gives material x one requisition per row for x, with its shortage, stamped now. */
  lemma {:induction false} NewRequisitionsOf(rows: seq<ShortageRow>, ids: seq<Id>, now: Timestamp, x: Id)
    requires |ids| >= |rows|
    ensures Quantities(RowsOf(NewRequisitions(rows, ids, now), x)) == ShortagesFor(rows, x)
    ensures AllStamped(RowsOf(NewRequisitions(rows, ids, now), x), now)
  {
    if rows != [] {
      var head := [Requisition(ids[0], rows[0].materialId, rows[0].shortageQuantity, now)];
      var tail := NewRequisitions(rows[1..], ids[1..], now);
      NewRequisitionsOf(rows[1..], ids[1..], now, x);
      RowsOfAppend(head, tail, x);
      QuantitiesAppend(RowsOf(head, x), RowsOf(tail, x));
    }
  }

  lemma {:induction false} ToInsertAll(ss: seq<ShortageRow>, existing: map<Id, int>, x: Id)
    requires x !in existing
    ensures ShortagesFor(ToInsert(ss, existing), x) == ShortagesFor(ss, x)
  {
    if ss != [] {
      var last := ss[|ss| - 1];
      ToInsertAll(ss[..|ss| - 1], existing, x);
      assert ss == ss[..|ss| - 1] + [last];
      ShortagesForAppend(ss[..|ss| - 1], [last], x);
      ShortagesForAppend(ToInsert(ss[..|ss| - 1], existing), if last.materialId in existing then [] else [last], x);
    }
  }

  // The update loop.

  /** The quantity the last pending row for material x writes, if there is one. */
  function LastWrite(ups: seq<Pending>, x: Id): Option<int>
  {
    if ups == [] then None
    else if ups[|ups| - 1].row.materialId == x then Some(ups[|ups| - 1].currentQuantity + ups[|ups| - 1].row.shortageQuantity)
    else LastWrite(ups[..|ups| - 1], x)
  }

  lemma {:induction false} RefreshedTwice(rows: seq<Requisition>, q1: int, q2: int, now: Timestamp)
    ensures Refreshed(Refreshed(rows, q1, now), q2, now) == Refreshed(rows, q2, now)
  {
    if rows != [] {
      RefreshedTwice(rows[1..], q1, q2, now);
      assert Refreshed(rows, q1, now)[1..] == Refreshed(rows[1..], q1, now);
    }
  }

  /** The update loop leaves a material's rows alone unless some pending row names it; then the last such row wins. */
  lemma {:induction false} ApplyUpdatesRowsOf(reqs: seq<Requisition>, ups: seq<Pending>, now: Timestamp, x: Id)
    ensures RowsOf(ApplyUpdates(reqs, ups, now), x)
         == if LastWrite(ups, x).None? then RowsOf(reqs, x) else Refreshed(RowsOf(reqs, x), LastWrite(ups, x).value, now)
  {
    if ups != [] {
      var u := ups[|ups| - 1];
      var before := ApplyUpdates(reqs, ups[..|ups| - 1], now);
      ApplyUpdatesRowsOf(reqs, ups[..|ups| - 1], now, x);
      SetQuantityRowsOf(before, u.row.materialId, u.currentQuantity + u.row.shortageQuantity, now, x);
      if u.row.materialId == x && LastWrite(ups[..|ups| - 1], x).Some? {
        RefreshedTwice(RowsOf(reqs, x), LastWrite(ups[..|ups| - 1], x).value, u.currentQuantity + u.row.shortageQuantity, now);
      }
    }
  }

  /** The last pending row for x is the last shortage row for x, when x was read. */
  lemma {:induction false} LastWriteOfUpdates(ss: seq<ShortageRow>, existing: map<Id, int>, x: Id)
    ensures LastWrite(ToUpdate(ss, existing), x)
         == if x in existing && LastShortage(ss, x).Some? then Some(existing[x] + LastShortage(ss, x).value) else None
  {
    if ss != [] {
      var s := ss[|ss| - 1];
      LastWriteOfUpdates(ss[..|ss| - 1], existing, x);
      var ups := ToUpdate(ss, existing);
      if s.materialId in existing {
        assert ups[..|ups| - 1] == ToUpdate(ss[..|ss| - 1], existing);
        assert ups[|ups| - 1] == Pending(s, existing[s.materialId]);
      } else {
        assert ups == ToUpdate(ss[..|ss| - 1], existing);
      }
    }
  }

  /** The rows of x after appending rows of other materials and running the updates. */
  lemma {:induction false} UpdatedRows(base: seq<Requisition>, added: seq<Requisition>, ups: seq<Pending>, now: Timestamp, x: Id)
    requires RowsOf(added, x) == []
    ensures RowsOf(ApplyUpdates(base + added, ups, now), x)
         == if LastWrite(ups, x).None? then RowsOf(base, x) else Refreshed(RowsOf(base, x), LastWrite(ups, x).value, now)
  {
    RowsOfAppend(base, added, x);
    assert RowsOf(base, x) + [] == RowsOf(base, x);
    ApplyUpdatesRowsOf(base + added, ups, now, x);
  }

  // What the reconciliation does to one material's requisitions.

  /** Requisitions of a material without a shortage row are untouched. */
  lemma {:induction false} Untouched(reqs: seq<Requisition>, ss: seq<ShortageRow>, ids: seq<Id>, now: Timestamp, x: Id)
    requires |ids| >= |ss|
    requires !HasShortage(ss, x)
    ensures RowsOf(Reconciled(reqs, ss, ids, now), x) == RowsOf(reqs, x)
  {
    if ss != [] {
      var existing := ExistingQuantities(reqs, ss);
      var added := NewRequisitions(ToInsert(ss, existing), ids, now);
      InsertsNone(ss, existing, ids, now, x);
      LastWriteOfUpdates(ss, existing, x);
      UpdatedRows(reqs, added, ToUpdate(ss, existing), now, x);
    }
  }

  /**
   * A material that already has requisitions keeps the same rows, each set to the quantity read
   * before any write plus the shortage of the material's LAST shortage row and stamped now: the
   * merge adds, it never takes a maximum or replaces, and with two shortage rows for the
   * material the earlier one's update is overwritten.
   */
  lemma {:induction false} ExistingMerged(reqs: seq<Requisition>, ss: seq<ShortageRow>, ids: seq<Id>, now: Timestamp, x: Id)
    requires |ids| >= |ss|
    requires HasShortage(ss, x) && RowsOf(reqs, x) != []
    ensures RowsOf(Reconciled(reqs, ss, ids, now), x)
         == Refreshed(RowsOf(reqs, x), LastQuantity(RowsOf(reqs, x)) + LastShortage(ss, x).value, now)
  {
    var existing := ExistingQuantities(reqs, ss);
    var added := NewRequisitions(ToInsert(ss, existing), ids, now);
    ExistingQuantityOf(reqs, ss, x);
    InsertsNone(ss, existing, ids, now, x);
    LastWriteOfUpdates(ss, existing, x);
    UpdatedRows(reqs, added, ToUpdate(ss, existing), now, x);
  }

  /**
   * A material with no requisition gets one new requisition per shortage row for it, in order,
   * each with that row's shortage as quantity and stamped now. Two shortage rows for the same
   * material give two requisitions.
   */
  lemma {:induction false} FreshInserted(reqs: seq<Requisition>, ss: seq<ShortageRow>, ids: seq<Id>, now: Timestamp, x: Id)
    requires |ids| >= |ss|
    requires RowsOf(reqs, x) == []
    ensures Quantities(RowsOf(Reconciled(reqs, ss, ids, now), x)) == ShortagesFor(ss, x)
    ensures AllStamped(RowsOf(Reconciled(reqs, ss, ids, now), x), now)
  {
    if ss != [] {
      var existing := ExistingQuantities(reqs, ss);
      var ins := ToInsert(ss, existing);
      var added := NewRequisitions(ins, ids, now);
      SelectedRowsOf(reqs, ss, x);
      MapOfSpec(Selected(reqs, ss), x);
      ToInsertAll(ss, existing, x);
      NewRequisitionsOf(ins, ids, now, x);
      RowsOfAppend(reqs, added, x);
      LastWriteOfUpdates(ss, existing, x);
      ApplyUpdatesRowsOf(reqs + added, ToUpdate(ss, existing), now, x);
      assert RowsOf(Reconciled(reqs, ss, ids, now), x) == RowsOf(added, x);
    }
  }

  // The update loop's sum as written: the driver returns the SUM-derived shortage_quantity as
  // text, so `currentQuantity + shortage_quantity` joins the decimal digits instead of adding.

  /** The number of decimal digits of n. */
  function Digits(n: nat): (d: nat)
    ensures n > 0 ==> d >= 1
  {
    if n < 10 then 1 else 1 + Digits(n / 10)
  }

  function Pow10(d: nat): (p: nat)
    ensures d >= 1 ==> p >= 10
  {
    if d == 0 then 1 else 10 * Pow10(d - 1)
  }

  /** The quantity the UPDATE stores as written: the number whose decimal text is String(current) followed by the digits of shortage. */
  function ConcatenatedQuantity(current: int, shortage: nat): int
  {
    if current >= 0 then current * Pow10(Digits(shortage)) + shortage
    else current * Pow10(Digits(shortage)) - shortage
  }

  /** An existing requisition of 5 and a shortage of 3 are stored as 53, not 8. */
  lemma ConcatenationExample()
    ensures ConcatenatedQuantity(5, 3) == 53 != 5 + 3
  {
  }

  /** The stored quantity as written equals the intended sum only when the existing quantity is 0. */
  lemma {:induction false} ConcatenationDiffers(current: int, shortage: nat)
    requires shortage > 0
    ensures ConcatenatedQuantity(current, shortage) == current + shortage <==> current == 0
  {
    var p := Pow10(Digits(shortage));
    assert p >= 10;
    if current > 0 {
      assert current * p >= current * 10;
    } else if current < 0 {
      assert current * p <= current * 10;
    }
  }

  /** The for loop over the shortage rows: splits them by whether the map read a quantity for their material. */
  method SplitShortages(shortages: seq<ShortageRow>, existing: map<Id, int>) returns (toInsert: seq<ShortageRow>, toUpdate: seq<Pending>)
    ensures toInsert == ToInsert(shortages, existing)
    ensures toUpdate == ToUpdate(shortages, existing)
  {
    toInsert, toUpdate := [], [];
    var j := 0;
    while j < |shortages|
      invariant 0 <= j <= |shortages|
      invariant toInsert == ToInsert(shortages[..j], existing)
      invariant toUpdate == ToUpdate(shortages[..j], existing)
    {
      assert shortages[..j + 1][..j] == shortages[..j];
      var s := shortages[j];
      if s.materialId !in existing {
        toInsert := toInsert + [s];
      } else {
        toUpdate := toUpdate + [Pending(s, existing[s.materialId])];
      }
      j := j + 1;
    }
    assert shortages[..j] == shortages;
  }

  /** The update loop: one UPDATE per pending row, in order. */
  method RunUpdates(db: Db, toUpdate: seq<Pending>, now: Timestamp)
    modifies db`requisitions
    ensures db.requisitions == ApplyUpdates(old(db.requisitions), toUpdate, now)
  {
    var k := 0;
    while k < |toUpdate|
      invariant 0 <= k <= |toUpdate|
      invariant db.requisitions == ApplyUpdates(old(db.requisitions), toUpdate[..k], now)
    {
      var u := toUpdate[k];
      ApplyUpdatesStep(old(db.requisitions), toUpdate, k, now);
      db.requisitions := SetQuantity(db.requisitions, u.row.materialId, u.currentQuantity + u.row.shortageQuantity, now);
      k := k + 1;
    }
    assert toUpdate[..k] == toUpdate;
  }

  /**
   * checkAndCreateMaterialRequisitions: computes the order's shortage rows and, if there are
   * any, reads the existing quantities once, splits the rows into inserts and updates, inserts
   * the new requisitions in one batch (one fresh id each, taken from `ids` in order) and then
   * runs one update per pending row. The report lists every shortage row.
   */
  method CheckAndCreateMaterialRequisitions(db: Db, cpoId: Id, ids: seq<Id>, now: Timestamp) returns (report: ReconcileReport)
    requires |ids| >= |Shortages(TablesOf(db), cpoId)|
    modifies db`requisitions
    ensures db.requisitions == Reconciled(old(db.requisitions), old(Shortages(TablesOf(db), cpoId)), ids, now)
    ensures report.success
    ensures report.message == if old(Shortages(TablesOf(db), cpoId)) == [] then NoShortagesMessage else ReconciledMessage
    ensures |report.shortages| == |old(Shortages(TablesOf(db), cpoId))|
    ensures forall i :: 0 <= i < |report.shortages| ==> report.shortages[i] == SummaryOf(old(Shortages(TablesOf(db), cpoId))[i])
  {
    var shortages := Shortages(TablesOf(db), cpoId);
    if |shortages| == 0 {
      return ReconcileReport(true, NoShortagesMessage, []);
    }
    var existing := MapOf(Selected(db.requisitions, shortages));
    var toInsert, toUpdate := SplitShortages(shortages, existing);
    if |toInsert| > 0 {
      db.requisitions := db.requisitions + NewRequisitions(toInsert, ids, now);
    } else {
      assert db.requisitions + NewRequisitions(toInsert, ids, now) == db.requisitions;
    }
    RunUpdates(db, toUpdate, now);
    var summaries := seq(|shortages|, n requires 0 <= n < |shortages| => SummaryOf(shortages[n]));
    report := ReconcileReport(true, ReconciledMessage, summaries);
  }
}
