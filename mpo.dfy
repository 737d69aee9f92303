/**
 * Material purchase orders: the hand-off from requisitions to an order (header, lines,
 * transaction, deletion of the covered requisitions, all or nothing), the price update of a
 * line, and the grouping of the order's joined rows.
 */
module MaterialPurchaseOrders {
  import opened Common
  import opened Schema
  import opened Placeholders
  import Requisitions
  import Transactions

  /** One entry of the request's material list. */
  datatype MpoItem = MpoItem(materialId: Id, quantity: int, requisitionId: Id)

  /** What createMPO returns: the inserted header and its inserted lines. */
  datatype MpoCreated = MpoCreated(header: MaterialOrder, items: seq<MaterialOrderLine>)

  /** The header createMPO inserts; `created` is what the table's create_date_time default gives. */
  function NewHeader(mpoId: Id, supplier: string, created: Option<Timestamp>): MaterialOrder
  {
    MaterialOrder(mpoId, supplier, MpoNew, created, None, None, None)
  }

  /** The lines createMPO inserts: one per item, in input order, each with a fresh id and no price. */
  function NewLines(mpoId: Id, items: seq<MpoItem>, lineIds: seq<Id>): (r: seq<MaterialOrderLine>)
    requires |lineIds| >= |items|
    ensures |r| == |items|
  {
    if items == [] then []
    else [MaterialOrderLine(lineIds[0], mpoId, items[0].materialId, items[0].quantity, None)] + NewLines(mpoId, items[1..], lineIds[1..])
  }

  /** The requisitions the order covers: items.map(m => m.requisition_id). */
  function RequisitionIds(items: seq<MpoItem>): (r: seq<Id>)
    ensures |r| == |items|
  {
    if items == [] then [] else [items[0].requisitionId] + RequisitionIds(items[1..])
  }

  /** The values of item i after the shared $1 = mpo id: (id, material_id, quantity). */
  function ItemValues(item: MpoItem, lineId: Id): seq<Param>
  {
    [PText(lineId), PText(item.materialId), PNum(item.quantity)]
  }

  function ItemRows(items: seq<MpoItem>, lineIds: seq<Id>): (r: seq<seq<Param>>)
    requires |lineIds| >= |items|
    ensures |r| == |items|
  {
    if items == [] then [] else [ItemValues(items[0], lineIds[0])] + ItemRows(items[1..], lineIds[1..])
  }

  /** The columns (mpo_id, id, material_id, quantity) of an inserted line. */
  function LineColumns(l: MaterialOrderLine): seq<Param>
  {
    [PText(l.mpoId), PText(l.id), PText(l.materialId), PNum(l.quantity)]
  }

  lemma {:induction false} ItemRowsAt(mpoId: Id, items: seq<MpoItem>, lineIds: seq<Id>, i: nat)
    requires |lineIds| >= |items| && i < |items|
    ensures ItemRows(items, lineIds)[i] == ItemValues(items[i], lineIds[i])
    ensures NewLines(mpoId, items, lineIds)[i] == MaterialOrderLine(lineIds[i], mpoId, items[i].materialId, items[i].quantity, None)
  {
    if i > 0 {
      ItemRowsAt(mpoId, items[1..], lineIds[1..], i - 1);
    }
  }

  lemma {:induction false} ItemRowsRectangular(items: seq<MpoItem>, lineIds: seq<Id>)
    requires |lineIds| >= |items|
    ensures Rectangular(ItemRows(items, lineIds), 3)
  {
    if items != [] {
      ItemRowsRectangular(items[1..], lineIds[1..]);
    }
  }

  /**
   * The lines statement binds each inserted line: the tuple of line i is
   * ($1, $(3i+2), $(3i+3), $(3i+4)), there are 1 + 3n parameters, and the four parameters
   * tuple i names are exactly the mpo_id, id, material_id and quantity of line i.
   */
  lemma ItemBinding(mpoId: Id, items: seq<MpoItem>, lineIds: seq<Id>, i: nat, k: nat)
    requires |lineIds| >= |items| && i < |items| && k < 4
    ensures Tuples(|items|, true, 3)[i] == [1, 3 * i + 2, 3 * i + 3, 3 * i + 4]
    ensures |Params([PText(mpoId)], ItemRows(items, lineIds))| == 1 + 3 * |items|
    ensures Params([PText(mpoId)], ItemRows(items, lineIds))[Tuples(|items|, true, 3)[i][k] - 1]
         == LineColumns(NewLines(mpoId, items, lineIds)[i])[k]
  {
    ItemRowsRectangular(items, lineIds);
    ItemRowsAt(mpoId, items, lineIds, i);
    BindingCorrect([PText(mpoId)], ItemRows(items, lineIds), true, 3, i, k);
  }

  /** The forEach that fills itemParams: the order id, then each item's fresh id, material and quantity. */
  method BuildItemParams(mpoId: Id, items: seq<MpoItem>, lineIds: seq<Id>) returns (itemParams: seq<Param>)
    requires |lineIds| >= |items|
    ensures itemParams == Params([PText(mpoId)], ItemRows(items, lineIds))
  {
    itemParams := [PText(mpoId)];
    var i := 0;
    while i < |items|
      invariant 0 <= i <= |items|
      invariant itemParams == Params([PText(mpoId)], ItemRows(items[..i], lineIds[..i]))
    {
      ItemRowsSnoc(items[..i + 1], lineIds[..i + 1]);
      assert items[..i + 1][..i] == items[..i];
      assert lineIds[..i + 1][..i] == lineIds[..i];
      FlattenSnoc(ItemRows(items[..i], lineIds[..i]), ItemValues(items[i], lineIds[i]));
      itemParams := itemParams + ItemValues(items[i], lineIds[i]);
      i := i + 1;
    }
    assert items[..i] == items;
    ItemRowsPrefix(items, lineIds);
  }

  lemma {:induction false} FlattenSnoc(rows: seq<seq<Param>>, last: seq<Param>)
    ensures Flatten(rows + [last]) == Flatten(rows) + last
  {
    if rows == [] {
      assert [] + [last] == [last];
      assert Flatten([last]) == last + Flatten([]);
    } else {
      assert (rows + [last])[1..] == rows[1..] + [last];
      FlattenSnoc(rows[1..], last);
    }
  }

  lemma {:induction false} ItemRowsSnoc(items: seq<MpoItem>, lineIds: seq<Id>)
    requires |lineIds| == |items| > 0
    ensures ItemRows(items, lineIds)
         == ItemRows(items[..|items| - 1], lineIds[..|items| - 1]) + [ItemValues(items[|items| - 1], lineIds[|items| - 1])]
  {
    if |items| > 1 {
      ItemRowsSnoc(items[1..], lineIds[1..]);
      assert items[1..][..|items| - 2] == items[..|items| - 1][1..];
      assert lineIds[1..][..|items| - 2] == lineIds[..|items| - 1][1..];
    } else {
      assert items[..0] == [] && lineIds[..0] == [];
    }
  }

  lemma {:induction false} ItemRowsPrefix(items: seq<MpoItem>, lineIds: seq<Id>)
    requires |lineIds| >= |items|
    ensures ItemRows(items, lineIds[..|items|]) == ItemRows(items, lineIds)
  {
    if items != [] {
      assert lineIds[..|items|][1..] == lineIds[1..][..|items| - 1];
      ItemRowsPrefix(items[1..], lineIds[1..]);
    }
  }

  /**
   * createMPO: inserts the NEW header, one line per item, a transaction for the order and
   * deletes the requisitions the items name, then commits. An empty item list makes the lines
   * statement a syntax error, and a rejected statement (`storeFailure`) aborts too: either
   * way everything rolls back and the error is passed on.
   */
  method CreateMpo(db: Db, supplier: string, items: seq<MpoItem>, mpoId: Id, lineIds: seq<Id>, txId: Id,
                   created: Option<Timestamp>, storeFailure: Option<string>) returns (res: Result<MpoCreated>)
    requires |lineIds| >= |items|
    requires Transactions.FindTxById(db.transactions, txId).None? && Transactions.FindByPoId(db.transactions, mpoId).None?
    modifies db`mpos, db`mpoLines, db`transactions, db`requisitions
    ensures items == [] ==>
      res == Err(DatabaseError(EmptyValuesError))
      && db.mpos == old(db.mpos) && db.mpoLines == old(db.mpoLines)
      && db.transactions == old(db.transactions) && db.requisitions == old(db.requisitions)
    ensures items != [] && storeFailure.Some? ==>
      res == Err(DatabaseError(storeFailure.value))
      && db.mpos == old(db.mpos) && db.mpoLines == old(db.mpoLines)
      && db.transactions == old(db.transactions) && db.requisitions == old(db.requisitions)
    ensures items != [] && storeFailure.None? ==>
      db.mpos == old(db.mpos) + [NewHeader(mpoId, supplier, created)]
      && db.mpoLines == old(db.mpoLines) + NewLines(mpoId, items, lineIds)
      && db.transactions == old(db.transactions) + [Transaction(txId, mpoId, None, None, None)]
      && db.requisitions == Requisitions.Kept(old(db.requisitions), RequisitionIds(items))
      && res == Ok(MpoCreated(NewHeader(mpoId, supplier, created), NewLines(mpoId, items, lineIds)))
  {
    if items == [] {
      return Err(DatabaseError(EmptyValuesError));
    }
    if storeFailure.Some? {
      return Err(DatabaseError(storeFailure.value));
    }
    var mpo := NewHeader(mpoId, supplier, created);
    db.mpos := db.mpos + [mpo];
    var itemParams := BuildItemParams(mpoId, items, lineIds);
    var lines := NewLines(mpoId, items, lineIds);
    db.mpoLines := db.mpoLines + lines;
    var tx := Transactions.Craete(db, mpoId, txId);
    var deleted := Requisitions.DeleteManyById(db, RequisitionIds(items));
    res := Ok(MpoCreated(mpo, lines));
  }

  // The price of a line.

  /** findMpoOrderLineById: the first line with that id, or null. */
  function FindLine(ls: seq<MaterialOrderLine>, id: Id): (r: Option<MaterialOrderLine>)
    ensures r.Some? ==> r.value.id == id
  {
    if ls == [] then None else if ls[0].id == id then Some(ls[0]) else FindLine(ls[1..], id)
  }

  /** findMpoOrderLineById finds nothing exactly when no line has the id. */
  lemma {:induction false} FindLineNone(ls: seq<MaterialOrderLine>, id: Id)
    ensures FindLine(ls, id).None? <==> forall i :: 0 <= i < |ls| ==> ls[i].id != id
  {
    if ls != [] {
      FindLineNone(ls[1..], id);
      assert forall i :: 1 <= i < |ls| ==> ls[i] == ls[1..][i - 1];
    }
  }

  /** UPDATE mpo_order_lines SET price WHERE id. */
  function Priced(ls: seq<MaterialOrderLine>, id: Id, price: Option<int>): (r: seq<MaterialOrderLine>)
    ensures |r| == |ls|
  {
    if ls == [] then [] else [if ls[0].id == id then ls[0].(price := price) else ls[0]] + Priced(ls[1..], id, price)
  }

  const LineNotFound := "Material not found"

  /** Only the price of the line changes, and only on the rows with that id. */
  lemma {:induction false} PricedAt(ls: seq<MaterialOrderLine>, id: Id, price: Option<int>, i: nat)
    requires i < |ls|
    ensures Priced(ls, id, price)[i] == if ls[i].id == id then ls[i].(price := price) else ls[i]
  {
    if i > 0 {
      PricedAt(ls[1..], id, price, i - 1);
    }
  }

  /** The row the update returns is the looked-up line with the new price. */
  lemma {:induction false} PricedLookup(ls: seq<MaterialOrderLine>, id: Id, price: Option<int>)
    ensures FindLine(Priced(ls, id, price), id) == if FindLine(ls, id).None? then None else Some(FindLine(ls, id).value.(price := price))
  {
    if ls != [] {
      PricedLookup(ls[1..], id, price);
    }
  }

  /** updatePriceMpoOrderLine: NOT_FOUND for an unknown line; otherwise sets its price and returns it. */
  method UpdatePriceMpoOrderLine(db: Db, id: Id, price: Option<int>) returns (res: Result<MaterialOrderLine>)
    modifies db`mpoLines
    ensures FindLine(old(db.mpoLines), id).None? ==> res == Err(NotFound(LineNotFound)) && db.mpoLines == old(db.mpoLines)
    ensures FindLine(old(db.mpoLines), id).Some? ==>
      db.mpoLines == Priced(old(db.mpoLines), id, price) && res == Ok(FindLine(old(db.mpoLines), id).value.(price := price))
  {
    var existing := FindLine(db.mpoLines, id);
    if existing.None? {
      return Err(NotFound(LineNotFound));
    }
    PricedLookup(db.mpoLines, id, price);
    db.mpoLines := Priced(db.mpoLines, id, price);
    var updated := FindLine(db.mpoLines, id);
    res := Ok(updated.value);
  }

  // findOneById: the joined rows and their grouping.

  datatype MpoLineView = MpoLineView(mpoOlId: Id, materialName: string, materialQuantity: int, materialUnit: string, materialPrice: Option<int>)

  /** One row of the four-way join. */
  datatype MpoJoinRow = MpoJoinRow(
    id: Id, supplier: string, createDateTime: Option<Timestamp>, receiveDateTime: Option<Timestamp>,
    totalAmount: Option<int>, line: MpoLineView)

  datatype MpoGroup = MpoGroup(
    id: Id, supplier: string, createDateTime: Option<Timestamp>, receiveDateTime: Option<Timestamp>,
    totalAmount: Option<int>, materials: seq<MpoLineView>)

  /** The joined rows of one order line: one per matching material and transaction. */
  function LineRows(o: MaterialOrder, l: MaterialOrderLine, ms: seq<Material>, ts: seq<Transaction>): seq<MpoJoinRow>
  {
    if ms == [] then []
    else
      (if ms[0].id == l.materialId then TxRows(o, l, ms[0], ts) else []) + LineRows(o, l, ms[1..], ts)
  }

  function TxRows(o: MaterialOrder, l: MaterialOrderLine, m: Material, ts: seq<Transaction>): seq<MpoJoinRow>
  {
    if ts == [] then []
    else
      (if ts[0].poId == o.id
       then [MpoJoinRow(o.id, o.supplier, o.createDateTime, o.receiveDateTime, o.totalAmount,
                        MpoLineView(l.id, m.name, l.quantity, m.unit, l.price))]
       else []) + TxRows(o, l, m, ts[1..])
  }

  function OrderRows(o: MaterialOrder, ls: seq<MaterialOrderLine>, ms: seq<Material>, ts: seq<Transaction>): seq<MpoJoinRow>
  {
    if ls == [] then [] else (if ls[0].mpoId == o.id then LineRows(o, ls[0], ms, ts) else []) + OrderRows(o, ls[1..], ms, ts)
  }

  /** material_purchase_orders JOIN mpo_order_lines JOIN materials JOIN transactions WHERE mpo.id = id. */
  function JoinRows(os: seq<MaterialOrder>, ls: seq<MaterialOrderLine>, ms: seq<Material>, ts: seq<Transaction>, id: Id): seq<MpoJoinRow>
  {
    if os == [] then [] else (if os[0].id == id then OrderRows(os[0], ls, ms, ts) else []) + JoinRows(os[1..], ls, ms, ts, id)
  }

  /** One step of the reduce: appends to the group of the row's order, or opens a new group. */
  function AddRow(gs: seq<MpoGroup>, r: MpoJoinRow): (out: seq<MpoGroup>)
    ensures |out| > 0
  {
    if gs == [] then [MpoGroup(r.id, r.supplier, r.createDateTime, r.receiveDateTime, r.totalAmount, [r.line])]
    else if gs[0].id == r.id then [gs[0].(materials := gs[0].materials + [r.line])] + gs[1..]
    else [gs[0]] + AddRow(gs[1..], r)
  }

  /** rows.reduce(...): the groups by order id, in order of first appearance. */
  function Grouped(rows: seq<MpoJoinRow>): seq<MpoGroup>
  {
    if rows == [] then [] else AddRow(Grouped(rows[..|rows| - 1]), rows[|rows| - 1])
  }

  /** The lines of the rows of order x, in row order. */
  function LinesOf(rows: seq<MpoJoinRow>, x: Id): seq<MpoLineView>
  {
    if rows == [] then []
    else LinesOf(rows[..|rows| - 1], x) + (if rows[|rows| - 1].id == x then [rows[|rows| - 1].line] else [])
  }

  /** groupedResult[0]: undefined when there are no rows. */
  function FirstGroup(rows: seq<MpoJoinRow>): Option<MpoGroup>
  {
    var gs := Grouped(rows);
    if gs == [] then None else Some(gs[0])
  }

  /**
   * The first group is the first row's order, with that row's header fields and every line
   * of that order in row order; there is none exactly when there are no rows.
   */
  lemma {:induction false} FirstGroupSpec(rows: seq<MpoJoinRow>)
    ensures FirstGroup(rows).None? <==> rows == []
    ensures rows != [] ==> FirstGroup(rows) == Some(MpoGroup(rows[0].id, rows[0].supplier, rows[0].createDateTime,
                                                             rows[0].receiveDateTime, rows[0].totalAmount, LinesOf(rows, rows[0].id)))
  {
    if |rows| > 1 {
      var init := rows[..|rows| - 1];
      var last := rows[|rows| - 1];
      FirstGroupSpec(init);
      assert init[0] == rows[0];
      var gs := Grouped(init);
      assert Grouped(rows) == AddRow(gs, last);
      assert LinesOf(rows, rows[0].id) == LinesOf(init, rows[0].id) + (if last.id == rows[0].id then [last.line] else []);
      assert gs[0] == MpoGroup(rows[0].id, rows[0].supplier, rows[0].createDateTime,
                               rows[0].receiveDateTime, rows[0].totalAmount, LinesOf(init, rows[0].id));
      if gs[0].id == last.id {
        assert AddRow(gs, last)[0] == gs[0].(materials := gs[0].materials + [last.line]);
      } else {
        assert AddRow(gs, last)[0] == gs[0];
        assert LinesOf(init, rows[0].id) + [] == LinesOf(init, rows[0].id);
      }
    } else if |rows| == 1 {
      assert rows[..0] == [];
      assert Grouped(rows) == AddRow(Grouped([]), rows[0]);
      assert LinesOf(rows, rows[0].id) == LinesOf([], rows[0].id) + [rows[0].line];
      assert LinesOf(rows, rows[0].id) == [rows[0].line];
    }
  }

  lemma {:induction false} TxRowsNone(o: MaterialOrder, l: MaterialOrderLine, m: Material, ts: seq<Transaction>)
    requires Transactions.FindByPoId(ts, o.id).None?
    ensures TxRows(o, l, m, ts) == []
  {
    if ts != [] {
      TxRowsNone(o, l, m, ts[1..]);
    }
  }

  lemma {:induction false} LineRowsNone(o: MaterialOrder, l: MaterialOrderLine, ms: seq<Material>, ts: seq<Transaction>)
    requires Transactions.FindByPoId(ts, o.id).None?
    ensures LineRows(o, l, ms, ts) == []
  {
    if ms != [] {
      LineRowsNone(o, l, ms[1..], ts);
      if ms[0].id == l.materialId {
        TxRowsNone(o, l, ms[0], ts);
      }
    }
  }

  lemma {:induction false} OrderRowsNone(o: MaterialOrder, ls: seq<MaterialOrderLine>, ms: seq<Material>, ts: seq<Transaction>)
    requires Transactions.FindByPoId(ts, o.id).None?
    ensures OrderRows(o, ls, ms, ts) == []
  {
    if ls != [] {
      OrderRowsNone(o, ls[1..], ms, ts);
      if ls[0].mpoId == o.id {
        LineRowsNone(o, ls[0], ms, ts);
      }
    }
  }

  /** An order without a transaction has no joined rows, so findOneById gives undefined for it. */
  lemma {:induction false} NoTransactionNoOrder(os: seq<MaterialOrder>, ls: seq<MaterialOrderLine>, ms: seq<Material>, ts: seq<Transaction>, id: Id)
    requires Transactions.FindByPoId(ts, id).None?
    ensures FirstGroup(JoinRows(os, ls, ms, ts, id)).None?
  {
    JoinRowsNone(os, ls, ms, ts, id);
    FirstGroupSpec(JoinRows(os, ls, ms, ts, id));
  }

  lemma {:induction false} JoinRowsNone(os: seq<MaterialOrder>, ls: seq<MaterialOrderLine>, ms: seq<Material>, ts: seq<Transaction>, id: Id)
    requires Transactions.FindByPoId(ts, id).None?
    ensures JoinRows(os, ls, ms, ts, id) == []
  {
    if os != [] {
      JoinRowsNone(os[1..], ls, ms, ts, id);
      if os[0].id == id {
        OrderRowsNone(os[0], ls, ms, ts);
      }
    }
  }
}
