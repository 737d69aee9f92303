/**
 * The material_requisitions table: outstanding asks to buy a material, merged additively
 * per material, deleted in bulk when a material purchase order takes them over.
 */
module Requisitions {
  import opened Common
  import opened Schema

  /** SELECT ... WHERE material_id = x, in table order. */
  function RowsOf(reqs: seq<Requisition>, x: Id): (r: seq<Requisition>)
    ensures |r| <= |reqs|
  {
    if reqs == [] then [] else (if reqs[0].materialId == x then [reqs[0]] else []) + RowsOf(reqs[1..], x)
  }

  /** Exactly the rows of material x are selected. */
  lemma {:induction false} RowsOfMembers(reqs: seq<Requisition>, x: Id)
    ensures forall q {:trigger q in RowsOf(reqs, x)} {:trigger q in reqs} :: q in RowsOf(reqs, x) <==> q in reqs && q.materialId == x
  {
    if reqs != [] {
      RowsOfMembers(reqs[1..], x);
      assert forall q {:trigger q in reqs} :: q in reqs <==> q == reqs[0] || q in reqs[1..];
    }
  }

  /** findOneByMaterialId: the first row of that material, or null. */
  function FindByMaterial(reqs: seq<Requisition>, x: Id): (r: Option<Requisition>)
    ensures r.None? <==> forall q {:trigger q in reqs} :: q in reqs ==> q.materialId != x
    ensures r.Some? ==> r.value in reqs && r.value.materialId == x && RowsOf(reqs, x) != [] && r.value == RowsOf(reqs, x)[0]
  {
    RowsOfMembers(reqs, x);
    var rows := RowsOf(reqs, x);
    if rows == [] then None else assert rows[0] in rows; Some(rows[0])
  }

  /** The quantity of the first requisition of material x, as the additive merge reads it. */
  function FirstQuantity(reqs: seq<Requisition>, x: Id): int
    requires FindByMaterial(reqs, x).Some?
  {
    FindByMaterial(reqs, x).value.quantity
  }

  /** findOneById: the row with that id, or null. */
  function FindById(reqs: seq<Requisition>, id: Id): (r: Option<Requisition>)
    ensures r.None? <==> forall q {:trigger q in reqs} :: q in reqs ==> q.id != id
    ensures r.Some? ==> r.value in reqs && r.value.id == id
  {
    if reqs == [] then None
    else if reqs[0].id == id then assert reqs[0] in reqs; Some(reqs[0])
    else
      assert forall q {:trigger q in reqs} :: q in reqs ==> q == reqs[0] || q in reqs[1..];
      var r := FindById(reqs[1..], id);
      assert r.Some? ==> r.value in reqs[1..] && r.value in reqs;
      r
  }

  predicate IdUnused(reqs: seq<Requisition>, id: Id)
  {
    forall q {:trigger q in reqs} :: q in reqs ==> q.id != id
  }

  /** UPDATE material_requisitions SET quantity = q, create_date_time = now WHERE material_id = x. */
  function SetQuantity(reqs: seq<Requisition>, x: Id, q: int, now: Timestamp): (r: seq<Requisition>)
    ensures |r| == |reqs|
  {
    if reqs == [] then [] else
      [if reqs[0].materialId == x then reqs[0].(quantity := q, createDateTime := now) else reqs[0]]
      + SetQuantity(reqs[1..], x, q, now)
  }

  /** The update touches rows of material x only, and rewrites each of them in place. */
  lemma {:induction false} SetQuantityAt(reqs: seq<Requisition>, x: Id, q: int, now: Timestamp, i: nat)
    requires i < |reqs|
    ensures SetQuantity(reqs, x, q, now)[i]
         == if reqs[i].materialId == x then reqs[i].(quantity := q, createDateTime := now) else reqs[i]
  {
    if i > 0 {
      SetQuantityAt(reqs[1..], x, q, now, i - 1);
    }
  }

  /** Every row of material x after an update: same ids, the new quantity and time. */
  function Refreshed(rows: seq<Requisition>, q: int, now: Timestamp): (r: seq<Requisition>)
    ensures |r| == |rows|
  {
    if rows == [] then [] else [rows[0].(quantity := q, createDateTime := now)] + Refreshed(rows[1..], q, now)
  }

  /** Each row keeps its id and material and takes the new quantity and time. */
  lemma {:induction false} RefreshedAt(rows: seq<Requisition>, q: int, now: Timestamp, i: nat)
    requires i < |rows|
    ensures Refreshed(rows, q, now)[i] == rows[i].(quantity := q, createDateTime := now)
  {
    if i > 0 {
      RefreshedAt(rows[1..], q, now, i - 1);
    }
  }

  /** Seen per material, an update rewrites exactly that material's rows and leaves every other material's rows as they were. */
  lemma {:induction false} SetQuantityRowsOf(reqs: seq<Requisition>, x: Id, q: int, now: Timestamp, y: Id)
    ensures RowsOf(SetQuantity(reqs, x, q, now), y) == if y == x then Refreshed(RowsOf(reqs, x), q, now) else RowsOf(reqs, y)
  {
    if reqs != [] {
      SetQuantityRowsOf(reqs[1..], x, q, now, y);
      var r := SetQuantity(reqs, x, q, now);
      assert r[0] == if reqs[0].materialId == x then reqs[0].(quantity := q, createDateTime := now) else reqs[0];
      assert r[1..] == SetQuantity(reqs[1..], x, q, now);
      assert RowsOf(r, y) == (if r[0].materialId == y then [r[0]] else []) + RowsOf(r[1..], y);
      if reqs[0].materialId == x && y == x {
        var rest := RowsOf(reqs[1..], x);
        assert RowsOf(reqs, x) == [reqs[0]] + rest;
        assert ([reqs[0]] + rest)[1..] == rest;
        calc {
          RowsOf(r, x);
          [r[0]] + RowsOf(r[1..], x);
          [reqs[0].(quantity := q, createDateTime := now)] + Refreshed(rest, q, now);
          Refreshed(RowsOf(reqs, x), q, now);
        }
      } else if y == x {
        assert RowsOf(r, y) == RowsOf(r[1..], y);
        assert RowsOf(reqs, y) == RowsOf(reqs[1..], y);
      } else {
        assert RowsOf(reqs, y) == (if reqs[0].materialId == y then [reqs[0]] else []) + RowsOf(reqs[1..], y);
      }
    }
  }

  lemma {:induction false} RowsOfAppend(a: seq<Requisition>, b: seq<Requisition>, x: Id)
    ensures RowsOf(a + b, x) == RowsOf(a, x) + RowsOf(b, x)
  {
    if a == [] {
      assert a + b == b;
    } else {
      var head := if a[0].materialId == x then [a[0]] else [];
      assert (a + b)[1..] == a[1..] + b;
      calc {
        RowsOf(a + b, x);
        head + RowsOf(a[1..] + b, x);
        { RowsOfAppend(a[1..], b, x); }
        head + (RowsOf(a[1..], x) + RowsOf(b, x));
        (head + RowsOf(a[1..], x)) + RowsOf(b, x);
      }
    }
  }

  /** DELETE ... WHERE id = ANY(ids) RETURNING *: the rows it removes, in table order. */
  function Deleted(reqs: seq<Requisition>, ids: seq<Id>): (r: seq<Requisition>)
    ensures forall q {:trigger q in r} {:trigger q in reqs} :: q in r <==> q in reqs && q.id in ids
  {
    if reqs == [] then [] else (if reqs[0].id in ids then [reqs[0]] else []) + Deleted(reqs[1..], ids)
  }

  /** The rows the same DELETE leaves in the table, in their order. */
  function Kept(reqs: seq<Requisition>, ids: seq<Id>): (r: seq<Requisition>)
    ensures forall q {:trigger q in r} {:trigger q in reqs} :: q in r <==> q in reqs && q.id !in ids
  {
    if reqs == [] then [] else (if reqs[0].id in ids then [] else [reqs[0]]) + Kept(reqs[1..], ids)
  }

  /** The DELETE splits the table: every row is either returned or kept, exactly once. */
  lemma {:induction false} DeletePartition(reqs: seq<Requisition>, ids: seq<Id>)
    ensures multiset(Deleted(reqs, ids)) + multiset(Kept(reqs, ids)) == multiset(reqs)
  {
    if reqs != [] {
      DeletePartition(reqs[1..], ids);
      assert reqs == [reqs[0]] + reqs[1..];
    }
  }

  /** One row of getAllRequisition: the requisition joined with its material. */
  datatype Listing = Listing(id: Id, materialId: Id, materialName: string, unit: string, quantity: int, createDateTime: Timestamp)

  function ListingsFor(r: Requisition, ms: seq<Material>): (out: seq<Listing>)
    ensures forall l :: l in out <==> (exists m :: m in ms && m.id == r.materialId
                                                && l == Listing(r.id, m.id, m.name, m.unit, r.quantity, r.createDateTime))
  {
    if ms == [] then []
    else
      (if ms[0].id == r.materialId then [Listing(r.id, ms[0].id, ms[0].name, ms[0].unit, r.quantity, r.createDateTime)] else [])
      + ListingsFor(r, ms[1..])
  }

  /**
   * getAllRequisition: material_requisitions JOIN materials. A listing exists exactly for a
   * requisition together with a material of its material_id; a requisition whose material is
   * gone is not listed.
   */
  function AllRequisitions(reqs: seq<Requisition>, ms: seq<Material>): (out: seq<Listing>)
    ensures forall l :: l in out <==> (exists r, m :: r in reqs && m in ms && m.id == r.materialId
                                                   && l == Listing(r.id, m.id, m.name, m.unit, r.quantity, r.createDateTime))
  {
    if reqs == [] then [] else ListingsFor(reqs[0], ms) + AllRequisitions(reqs[1..], ms)
  }

  /** UPDATE ... RETURNING lists the updated rows in table order: its first row is the first row of the material, rewritten. */
  lemma {:induction false} FirstUpdatedRow(reqs: seq<Requisition>, x: Id, q: int, now: Timestamp)
    requires FindByMaterial(reqs, x).Some?
    ensures |RowsOf(SetQuantity(reqs, x, q, now), x)| > 0
    ensures RowsOf(SetQuantity(reqs, x, q, now), x)[0] == FindByMaterial(reqs, x).value.(quantity := q, createDateTime := now)
  {
    SetQuantityRowsOf(reqs, x, q, now, x);
  }

  /** The message JavaScript raises when `.quantity` is read off the null of a failed lookup. */
  const NullQuantityRead := "Cannot read properties of null (reading 'quantity')"

  /**
   * updateByMaterialId: reads the first requisition of the material, then sets every
   * requisition of that material to its quantity plus `quantity`, stamped now; returns the
   * first updated row. With no requisition the read of `.quantity` fails before any write.
   */
  method UpdateByMaterialId(db: Db, materialId: Id, quantity: int, now: Timestamp) returns (res: Result<Requisition>)
    modifies db`requisitions
    ensures FindByMaterial(old(db.requisitions), materialId).None? ==>
      res == Err(PlainError(NullQuantityRead)) && db.requisitions == old(db.requisitions)
    ensures FindByMaterial(old(db.requisitions), materialId).Some? ==>
      db.requisitions == SetQuantity(old(db.requisitions), materialId, FirstQuantity(old(db.requisitions), materialId) + quantity, now)
      && res == Ok(FindByMaterial(old(db.requisitions), materialId).value.(
                     quantity := FirstQuantity(old(db.requisitions), materialId) + quantity, createDateTime := now))
  {
    var requisition := FindByMaterial(db.requisitions, materialId);
    if requisition.None? {
      return Err(PlainError(NullQuantityRead));
    }
    var newQuantity := requisition.value.quantity + quantity;
    FirstUpdatedRow(db.requisitions, materialId, newQuantity, now);
    db.requisitions := SetQuantity(db.requisitions, materialId, newQuantity, now);
    var returned := RowsOf(db.requisitions, materialId);
    res := Ok(returned[0]);
  }

  /**
   * create: with a requisition for the material already present, merges additively through
   * updateByMaterialId; otherwise inserts one requisition with the given quantity, stamped now,
   * and returns it as re-read by id.
   */
  method Create(db: Db, materialId: Id, quantity: int, id: Id, now: Timestamp) returns (res: Result<Requisition>)
    requires IdUnused(db.requisitions, id)
    modifies db`requisitions
    ensures FindByMaterial(old(db.requisitions), materialId).None? ==>
      db.requisitions == old(db.requisitions) + [Requisition(id, materialId, quantity, now)]
      && res == Ok(Requisition(id, materialId, quantity, now))
    ensures FindByMaterial(old(db.requisitions), materialId).Some? ==>
      db.requisitions == SetQuantity(old(db.requisitions), materialId, FirstQuantity(old(db.requisitions), materialId) + quantity, now)
      && res == Ok(FindByMaterial(old(db.requisitions), materialId).value.(
                     quantity := FirstQuantity(old(db.requisitions), materialId) + quantity, createDateTime := now))
  {
    var existing := FindByMaterial(db.requisitions, materialId);
    if existing.Some? {
      res := UpdateByMaterialId(db, materialId, quantity, now);
    } else {
      var row := Requisition(id, materialId, quantity, now);
      db.requisitions := db.requisitions + [row];
      var reread := FindById(db.requisitions, id);
      assert reread.Some? by { assert row in db.requisitions; }
      assert reread.value == row by {
        assert reread.value in old(db.requisitions) + [row];
      }
      res := Ok(reread.value);
    }
  }

  /** deleteManyById: removes exactly the rows whose id is listed (unknown ids are ignored) and returns them. */
  method DeleteManyById(db: Db, ids: seq<Id>) returns (deleted: seq<Requisition>)
    modifies db`requisitions
    ensures deleted == Deleted(old(db.requisitions), ids)
    ensures db.requisitions == Kept(old(db.requisitions), ids)
  {
    deleted := Deleted(db.requisitions, ids);
    db.requisitions := Kept(db.requisitions, ids);
  }

  /** create on a material with no requisition adds exactly one requisition of that material. */
  lemma {:induction false} CreateInsertsOne(reqs: seq<Requisition>, materialId: Id, quantity: int, id: Id, now: Timestamp)
    requires FindByMaterial(reqs, materialId).None?
    ensures RowsOf(reqs + [Requisition(id, materialId, quantity, now)], materialId) == [Requisition(id, materialId, quantity, now)]
  {
    RowsOfAppend(reqs, [Requisition(id, materialId, quantity, now)], materialId);
  }
}
