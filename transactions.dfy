/** The transactions table: one payment record per purchase order, created check-then-insert. */
module Transactions {
  import opened Common
  import opened Schema

  /** What findOneById and findOneByPOId select. */
  datatype TxInfo = TxInfo(id: Id, poId: Id)

  /** findOneByPOId: the first transaction of the order, or null. */
  function FindByPoId(ts: seq<Transaction>, poId: Id): (r: Option<TxInfo>)
    ensures r.Some? ==> r.value.poId == poId
  {
    if ts == [] then None else if ts[0].poId == poId then Some(TxInfo(ts[0].id, ts[0].poId)) else FindByPoId(ts[1..], poId)
  }

  /** findOneById: the first transaction with that id, or null. */
  function FindTxById(ts: seq<Transaction>, id: Id): (r: Option<TxInfo>)
    ensures r.Some? ==> r.value.id == id
  {
    if ts == [] then None else if ts[0].id == id then Some(TxInfo(ts[0].id, ts[0].poId)) else FindTxById(ts[1..], id)
  }

  /** findOneById finds nothing exactly when no transaction has the id. */
  lemma {:induction false} FindTxByIdNone(ts: seq<Transaction>, id: Id)
    ensures FindTxById(ts, id).None? <==> forall i :: 0 <= i < |ts| ==> ts[i].id != id
  {
    if ts != [] {
      FindTxByIdNone(ts[1..], id);
      assert forall i :: 1 <= i < |ts| ==> ts[i] == ts[1..][i - 1];
    }
  }

  /** No purchase order has two transactions. */
  predicate OnePerPo(ts: seq<Transaction>)
  {
    forall i, j :: 0 <= i < j < |ts| ==> ts[i].poId != ts[j].poId
  }

  const AlreadyExists := "Transaction already exists"

  /** The lookup by order finds nothing exactly when no transaction names the order. */
  lemma {:induction false} FindByPoIdNone(ts: seq<Transaction>, poId: Id)
    ensures FindByPoId(ts, poId).None? <==> forall i :: 0 <= i < |ts| ==> ts[i].poId != poId
  {
    if ts != [] {
      FindByPoIdNone(ts[1..], poId);
      assert forall i :: 1 <= i < |ts| ==> ts[i] == ts[1..][i - 1];
    }
  }

  lemma {:induction false} FindTxByIdAppend(ts: seq<Transaction>, t: Transaction, id: Id)
    ensures FindTxById(ts + [t], id) == if FindTxById(ts, id).Some? then FindTxById(ts, id) else if t.id == id then Some(TxInfo(t.id, t.poId)) else None
  {
    if ts != [] {
      assert (ts + [t])[1..] == ts[1..] + [t];
      FindTxByIdAppend(ts[1..], t, id);
    }
  }

  /** Inserting only for an order without a transaction keeps one transaction per order. */
  lemma {:induction false} InsertKeepsOnePerPo(ts: seq<Transaction>, t: Transaction)
    requires OnePerPo(ts) && FindByPoId(ts, t.poId).None?
    ensures OnePerPo(ts + [t])
  {
    FindByPoIdNone(ts, t.poId);
    var r := ts + [t];
    forall i, j | 0 <= i < j < |r|
      ensures r[i].poId != r[j].poId
    {
      assert r[i] == ts[i];
      if j < |ts| {
        assert r[j] == ts[j];
      }
    }
  }

  /**
   * craete: BAD_REQUEST when the order already has a transaction; otherwise inserts one with
   * the fresh id and the order id only (amount, time and method stay NULL) and returns it as
   * re-read by id.
   */
  method Craete(db: Db, poId: Id, id: Id) returns (res: Result<TxInfo>)
    requires FindTxById(db.transactions, id).None?
    modifies db`transactions
    ensures FindByPoId(old(db.transactions), poId).Some? ==>
      res == Err(BadRequest(AlreadyExists)) && db.transactions == old(db.transactions)
    ensures FindByPoId(old(db.transactions), poId).None? ==>
      db.transactions == old(db.transactions) + [Transaction(id, poId, None, None, None)] && res == Ok(TxInfo(id, poId))
    ensures OnePerPo(old(db.transactions)) ==> OnePerPo(db.transactions)
  {
    var existing := FindByPoId(db.transactions, poId);
    if existing.Some? {
      return Err(BadRequest(AlreadyExists));
    }
    var row := Transaction(id, poId, None, None, None);
    FindTxByIdAppend(db.transactions, row, id);
    if OnePerPo(db.transactions) {
      InsertKeepsOnePerPo(db.transactions, row);
    }
    db.transactions := db.transactions + [row];
    var transaction := FindTxById(db.transactions, id);
    res := Ok(transaction.value);
  }
}
