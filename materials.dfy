/**
 * The stock ledger: the materials table with its create, read, overwrite, delete and
 * quantity-credit operations.
 */
module Materials {
  import opened Common
  import opened Schema

  /** What findOneById and the RETURNING clauses select: every column but the colour. */
  datatype MaterialInfo = MaterialInfo(id: Id, name: string, quantity: int, threshold: int, unit: string)

  function Info(m: Material): MaterialInfo
  {
    MaterialInfo(m.id, m.name, m.quantity, m.threshold, m.unit)
  }

  /** findOneById: the first row with that id, or null. */
  function Lookup(ms: seq<Material>, id: Id): (r: Option<MaterialInfo>)
    ensures r.Some? ==> r.value.id == id
  {
    if ms == [] then None else if ms[0].id == id then Some(Info(ms[0])) else Lookup(ms[1..], id)
  }

  /** SELECT * FROM materials WHERE name = $1 finds a row. */
  predicate NameTaken(ms: seq<Material>, name: string)
  {
    ms != [] && (ms[0].name == name || NameTaken(ms[1..], name))
  }

  /** The row create inserts: the colour column is left NULL whatever the request carries. */
  function NewMaterial(id: Id, name: string, quantity: int, threshold: int, unit: string): Material
  {
    Material(id, name, quantity, threshold, unit, None)
  }

  /** UPDATE materials SET name, quantity, threshold, unit WHERE id: the colour is kept. */
  function Overwritten(ms: seq<Material>, id: Id, name: string, quantity: int, threshold: int, unit: string): (r: seq<Material>)
    ensures |r| == |ms|
  {
    if ms == [] then []
    else [if ms[0].id == id then ms[0].(name := name, quantity := quantity, threshold := threshold, unit := unit) else ms[0]]
         + Overwritten(ms[1..], id, name, quantity, threshold, unit)
  }

  /** DELETE FROM materials WHERE id. */
  function Removed(ms: seq<Material>, id: Id): (r: seq<Material>)
    ensures |r| <= |ms|
  {
    if ms == [] then [] else (if ms[0].id == id then [] else [ms[0]]) + Removed(ms[1..], id)
  }

  /** UPDATE materials SET quantity = quantity + delta WHERE id: no lower bound. */
  function Credited(ms: seq<Material>, id: Id, delta: int): (r: seq<Material>)
    ensures |r| == |ms|
  {
    if ms == [] then []
    else [if ms[0].id == id then ms[0].(quantity := ms[0].quantity + delta) else ms[0]] + Credited(ms[1..], id, delta)
  }

  const AlreadyExists := "Material already exists"
  const NotFoundMessage := "Material not found"
  const DeletedMessage := "Material deleted successfully"

  /** Appending a row never changes a successful lookup; a failed one finds the new row if it has the id. */
  lemma {:induction false} LookupAppend(ms: seq<Material>, m: Material, id: Id)
    ensures Lookup(ms + [m], id) == if Lookup(ms, id).Some? then Lookup(ms, id) else if m.id == id then Some(Info(m)) else None
  {
    if ms != [] {
      assert (ms + [m])[1..] == ms[1..] + [m];
      LookupAppend(ms[1..], m, id);
    }
  }

  lemma {:induction false} NameTakenAppend(ms: seq<Material>, m: Material, name: string)
    ensures NameTaken(ms + [m], name) <==> NameTaken(ms, name) || m.name == name
  {
    if ms != [] {
      assert (ms + [m])[1..] == ms[1..] + [m];
      NameTakenAppend(ms[1..], m, name);
    }
  }

  /** A lookup fails exactly when no row has the id. */
  lemma {:induction false} LookupNone(ms: seq<Material>, id: Id)
    ensures Lookup(ms, id).None? <==> forall i :: 0 <= i < |ms| ==> ms[i].id != id
  {
    if ms != [] {
      LookupNone(ms[1..], id);
      assert forall i :: 1 <= i < |ms| ==> ms[i] == ms[1..][i - 1];
    }
  }

  /** updateById changes the looked-up material to the new fields and no other material. */
  lemma {:induction false} OverwrittenLookup(ms: seq<Material>, id: Id, name: string, quantity: int, threshold: int, unit: string, y: Id)
    ensures Lookup(Overwritten(ms, id, name, quantity, threshold, unit), y)
         == if y == id && Lookup(ms, id).Some? then Some(MaterialInfo(id, name, quantity, threshold, unit)) else Lookup(ms, y)
  {
    if ms != [] {
      OverwrittenLookup(ms[1..], id, name, quantity, threshold, unit, y);
    }
  }

  /** Overwriting keeps every row in place, including the colour of the overwritten one. */
  lemma {:induction false} OverwrittenAt(ms: seq<Material>, id: Id, name: string, quantity: int, threshold: int, unit: string, i: nat)
    requires i < |ms|
    ensures Overwritten(ms, id, name, quantity, threshold, unit)[i]
         == if ms[i].id == id then Material(id, name, quantity, threshold, unit, ms[i].color) else ms[i]
  {
    if i > 0 {
      OverwrittenAt(ms[1..], id, name, quantity, threshold, unit, i - 1);
    }
  }

  /** After deleteById the id is gone, and every other material is found as before. */
  lemma {:induction false} RemovedLookup(ms: seq<Material>, id: Id, y: Id)
    ensures Lookup(Removed(ms, id), y) == if y == id then None else Lookup(ms, y)
  {
    if ms != [] {
      RemovedLookup(ms[1..], id, y);
      if ms[0].id != id {
        assert Removed(ms, id) == [ms[0]] + Removed(ms[1..], id);
        assert Removed(ms, id)[1..] == Removed(ms[1..], id);
      } else {
        assert [] + Removed(ms[1..], id) == Removed(ms[1..], id);
      }
    }
  }

  /** Deleting an id that no row has leaves the table as it is. */
  lemma {:induction false} RemovedAbsent(ms: seq<Material>, id: Id)
    requires Lookup(ms, id).None?
    ensures Removed(ms, id) == ms
  {
    if ms != [] {
      RemovedAbsent(ms[1..], id);
    }
  }

  /** A credit changes only the quantity of the material's rows, by exactly delta, however negative it gets. */
  lemma {:induction false} CreditedAt(ms: seq<Material>, id: Id, delta: int, i: nat)
    requires i < |ms|
    ensures Credited(ms, id, delta)[i] == if ms[i].id == id then ms[i].(quantity := ms[i].quantity + delta) else ms[i]
  {
    if i > 0 {
      CreditedAt(ms[1..], id, delta, i - 1);
    }
  }

  /** Two credits are one credit of their sum; a credit of -delta undoes a credit of delta. */
  lemma {:induction false} CreditCompose(ms: seq<Material>, id: Id, a: int, b: int)
    ensures Credited(Credited(ms, id, a), id, b) == Credited(ms, id, a + b)
    ensures Credited(Credited(ms, id, a), id, -a) == ms
  {
    if ms != [] {
      CreditCompose(ms[1..], id, a, b);
      assert Credited(ms, id, a)[1..] == Credited(ms[1..], id, a);
    }
  }

  /** create: rejects a name already in use; otherwise inserts the row (without its colour) and returns it as re-read by id. */
  method Create(db: Db, name: string, quantity: int, threshold: int, unit: string, id: Id) returns (res: Result<MaterialInfo>)
    requires Lookup(db.materials, id).None?
    modifies db`materials
    ensures NameTaken(old(db.materials), name) ==> res == Err(BadRequest(AlreadyExists)) && db.materials == old(db.materials)
    ensures !NameTaken(old(db.materials), name) ==>
      db.materials == old(db.materials) + [NewMaterial(id, name, quantity, threshold, unit)]
      && res == Ok(MaterialInfo(id, name, quantity, threshold, unit))
  {
    if NameTaken(db.materials, name) {
      return Err(BadRequest(AlreadyExists));
    }
    var row := NewMaterial(id, name, quantity, threshold, unit);
    LookupAppend(db.materials, row, id);
    db.materials := db.materials + [row];
    var material := Lookup(db.materials, id);
    res := Ok(material.value);
  }

  /** updateById: NOT_FOUND for an unknown id; otherwise overwrites the four fields and returns the first updated row. */
  method UpdateById(db: Db, id: Id, name: string, quantity: int, threshold: int, unit: string) returns (res: Result<MaterialInfo>)
    modifies db`materials
    ensures Lookup(old(db.materials), id).None? ==> res == Err(NotFound(NotFoundMessage)) && db.materials == old(db.materials)
    ensures Lookup(old(db.materials), id).Some? ==>
      db.materials == Overwritten(old(db.materials), id, name, quantity, threshold, unit)
      && res == Ok(MaterialInfo(id, name, quantity, threshold, unit))
  {
    var existing := Lookup(db.materials, id);
    if existing.None? {
      return Err(NotFound(NotFoundMessage));
    }
    OverwrittenLookup(db.materials, id, name, quantity, threshold, unit, id);
    db.materials := Overwritten(db.materials, id, name, quantity, threshold, unit);
    var updated := Lookup(db.materials, id);
    res := Ok(updated.value);
  }

  /** deleteById: NOT_FOUND for an unknown id; otherwise deletes the row. */
  method DeleteById(db: Db, id: Id) returns (res: Result<string>)
    modifies db`materials
    ensures Lookup(old(db.materials), id).None? ==> res == Err(NotFound(NotFoundMessage)) && db.materials == old(db.materials)
    ensures Lookup(old(db.materials), id).Some? ==> res == Ok(DeletedMessage) && db.materials == Removed(old(db.materials), id)
  {
    var existing := Lookup(db.materials, id);
    if existing.None? {
      return Err(NotFound(NotFoundMessage));
    }
    db.materials := Removed(db.materials, id);
    res := Ok(DeletedMessage);
  }

  /** updateQuantityById: credits delta to the material and returns its first updated row (undefined for an unknown id). */
  method UpdateQuantityById(db: Db, id: Id, delta: int) returns (res: Option<MaterialInfo>)
    modifies db`materials
    ensures db.materials == Credited(old(db.materials), id, delta)
    ensures res == if Lookup(old(db.materials), id).None? then None
                   else Some(Lookup(old(db.materials), id).value.(quantity := Lookup(old(db.materials), id).value.quantity + delta))
  {
    CreditedLookup(db.materials, id, delta);
    db.materials := Credited(db.materials, id, delta);
    res := Lookup(db.materials, id);
  }

  /** The row a credit returns is the looked-up row with its quantity raised by delta. */
  lemma {:induction false} CreditedLookup(ms: seq<Material>, id: Id, delta: int)
    ensures Lookup(Credited(ms, id, delta), id)
         == if Lookup(ms, id).None? then None else Some(Lookup(ms, id).value.(quantity := Lookup(ms, id).value.quantity + delta))
  {
    if ms != [] {
      CreditedLookup(ms[1..], id, delta);
    }
  }
}
