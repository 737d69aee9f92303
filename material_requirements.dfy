/**
 * The material demand of one customer purchase order and the shortages it causes.
 *
 * Demand comes from three branches, combined with UNION ALL and never re-aggregated:
 * the primary colour of every product -> component edge (color_primary_use per unit),
 * its pattern colour when it has one (color_pattern_use per unit), and the
 * component -> material edges to materials without a colour (bom_components.quantity
 * per unit). Each is multiplied by the order line's quantity and summed per material.
 * A material whose demand exceeds its stock yields one shortage row per branch.
 */
module MaterialRequirements {
  import opened Common
  import opened Schema
  import opened Sql

  /** The tables the demand query reads. */
  datatype BomTables = BomTables(
    cpos: seq<CustomerOrder>, orderLines: seq<OrderLine>, products: seq<Product>,
    bomProducts: seq<BomProduct>, components: seq<Component>, bomComponents: seq<BomComponent>,
    materials: seq<Material>)

  function TablesOf(db: Db): BomTables
    reads db
  {
    BomTables(db.cpos, db.orderLines, db.products, db.bomProducts, db.components, db.bomComponents, db.materials)
  }

  /** One row of orders JOIN order_lines JOIN products JOIN bom_products JOIN components. */
  datatype EdgeUse = EdgeUse(lineQuantity: int, edge: BomProduct, component: Component)

  /** One row of that join further joined with bom_components and materials. */
  datatype MaterialUse = MaterialUse(lineQuantity: int, bom: BomComponent, material: Material)

  // The joins, read as nested loops in table order.

  function ComponentRows(q: int, bp: BomProduct, cs: seq<Component>): seq<EdgeUse>
  {
    if cs == [] then []
    else (if cs[0].id == bp.componentId then [EdgeUse(q, bp, cs[0])] else []) + ComponentRows(q, bp, cs[1..])
  }

  function EdgeRows(q: int, productId: Id, bps: seq<BomProduct>, cs: seq<Component>): seq<EdgeUse>
  {
    if bps == [] then []
    else (if bps[0].productId == productId then ComponentRows(q, bps[0], cs) else []) + EdgeRows(q, productId, bps[1..], cs)
  }

  function ProductRows(l: OrderLine, ps: seq<Product>, bps: seq<BomProduct>, cs: seq<Component>): seq<EdgeUse>
  {
    if ps == [] then []
    else (if ps[0].id == l.productId then EdgeRows(l.quantity, ps[0].id, bps, cs) else []) + ProductRows(l, ps[1..], bps, cs)
  }

  function LineRows(orderId: Id, ls: seq<OrderLine>, ps: seq<Product>, bps: seq<BomProduct>, cs: seq<Component>): seq<EdgeUse>
  {
    if ls == [] then []
    else (if ls[0].orderId == orderId then ProductRows(ls[0], ps, bps, cs) else []) + LineRows(orderId, ls[1..], ps, bps, cs)
  }

  /** The order header must have the asked id and be PAID. */
  function OrderRows(cpoId: Id, os: seq<CustomerOrder>, ls: seq<OrderLine>, ps: seq<Product>, bps: seq<BomProduct>, cs: seq<Component>): seq<EdgeUse>
  {
    if os == [] then []
    else (if os[0].id == cpoId && os[0].status == Paid then LineRows(os[0].id, ls, ps, bps, cs) else [])
         + OrderRows(cpoId, os[1..], ls, ps, bps, cs)
  }

  /** The product -> component edges the order uses, each with its line's quantity. */
  function EdgeUses(t: BomTables, cpoId: Id): seq<EdgeUse>
  {
    OrderRows(cpoId, t.cpos, t.orderLines, t.products, t.bomProducts, t.components)
  }

  function MaterialRows(q: int, bc: BomComponent, ms: seq<Material>): seq<MaterialUse>
  {
    if ms == [] then []
    else (if ms[0].id == bc.materialId && ms[0].color.None? then [MaterialUse(q, bc, ms[0])] else []) + MaterialRows(q, bc, ms[1..])
  }

  function BomRows(u: EdgeUse, bcs: seq<BomComponent>, ms: seq<Material>): seq<MaterialUse>
  {
    if bcs == [] then []
    else (if bcs[0].componentId == u.component.id then MaterialRows(u.lineQuantity, bcs[0], ms) else []) + BomRows(u, bcs[1..], ms)
  }

  /** The component -> material edges, to materials without a colour, that the used components carry. */
  function MaterialUses(us: seq<EdgeUse>, bcs: seq<BomComponent>, ms: seq<Material>): seq<MaterialUse>
  {
    if us == [] then [] else BomRows(us[0], bcs, ms) + MaterialUses(us[1..], bcs, ms)
  }

  // The inputs of the three GROUP BY ... SUM branches.

  function PrimaryContributions(us: seq<EdgeUse>): seq<Contribution<Option<Id>>>
  {
    if us == [] then []
    else
      var u := us[|us| - 1];
      PrimaryContributions(us[..|us| - 1]) + [Contribution(u.edge.primaryColor, Times(u.component.colorPrimaryUse, u.lineQuantity))]
  }

  /** Only edges with a pattern colour enter the pattern branch. */
  function PatternContributions(us: seq<EdgeUse>): seq<Contribution<Option<Id>>>
  {
    if us == [] then []
    else
      var u := us[|us| - 1];
      PatternContributions(us[..|us| - 1])
      + (if u.edge.patternColor.Some? then [Contribution(u.edge.patternColor, Times(u.component.colorPatternUse, u.lineQuantity))] else [])
  }

  function MaterialContributions(mus: seq<MaterialUse>): seq<Contribution<Option<Id>>>
  {
    if mus == [] then []
    else
      var u := mus[|mus| - 1];
      MaterialContributions(mus[..|mus| - 1]) + [Contribution(Some(u.bom.materialId), Times(u.bom.quantity, u.lineQuantity))]
  }

  /** WHERE material_id IS NOT NULL */
  function NonNull(gs: seq<Group<Option<Id>>>): seq<Group<Option<Id>>>
  {
    if gs == [] then [] else (if gs[0].key.Some? then [gs[0]] else []) + NonNull(gs[1..])
  }

  /** all_materials: the colour branches without their NULL colour, then the material branch. */
  function AllMaterials(t: BomTables, cpoId: Id): seq<Group<Option<Id>>>
  {
    var us := EdgeUses(t, cpoId);
    NonNull(GroupSum(PrimaryContributions(us)) + GroupSum(PatternContributions(us)))
    + GroupSum(MaterialContributions(MaterialUses(us, t.bomComponents, t.materials)))
  }

  // The reference meaning of each branch's demand for material x.

  /** SUM(color_primary_use * line quantity) over the used edges whose primary colour is x. */
  function PrimaryNeed(us: seq<EdgeUse>, x: Id): Option<int>
  {
    if us == [] then None
    else
      var u := us[|us| - 1];
      SumAdd(PrimaryNeed(us[..|us| - 1], x),
             if u.edge.primaryColor == Some(x) then Times(u.component.colorPrimaryUse, u.lineQuantity) else None)
  }

  /** SUM(color_pattern_use * line quantity) over the used edges whose pattern colour is x. */
  function PatternNeed(us: seq<EdgeUse>, x: Id): Option<int>
  {
    if us == [] then None
    else
      var u := us[|us| - 1];
      SumAdd(PatternNeed(us[..|us| - 1], x),
             if u.edge.patternColor == Some(x) then Times(u.component.colorPatternUse, u.lineQuantity) else None)
  }

  /** SUM(bom_components.quantity * line quantity) over the used component -> material edges to x. */
  function MaterialNeed(mus: seq<MaterialUse>, x: Id): Option<int>
  {
    if mus == [] then None
    else
      var u := mus[|mus| - 1];
      SumAdd(MaterialNeed(mus[..|mus| - 1], x), if u.bom.materialId == x then Times(u.bom.quantity, u.lineQuantity) else None)
  }

  /** One row of the shortage query. */
  datatype ShortageRow = ShortageRow(materialId: Id, materialName: string, quantityNeeded: int, availableQuantity: int, shortageQuantity: int)

  function Greatest(a: int, b: int): int
  {
    if a >= b then a else b
  }

  /** all_materials row am JOIN materials m ON m.id = am.material_id WHERE am.quantity_needed > m.quantity. */
  function MaterialShortages(am: Group<Option<Id>>, ms: seq<Material>): (r: seq<ShortageRow>)
    ensures forall i :: 0 <= i < |r| ==> r[i].shortageQuantity > 0 && r[i].shortageQuantity == r[i].quantityNeeded - r[i].availableQuantity
  {
    if ms == [] then []
    else
      (if am.key == Some(ms[0].id) && am.total.Some? && am.total.value > ms[0].quantity
       then [ShortageRow(ms[0].id, ms[0].name, am.total.value, ms[0].quantity, Greatest(am.total.value - ms[0].quantity, 0))]
       else [])
      + MaterialShortages(am, ms[1..])
  }

  /** Every shortage row is strictly positive and is exactly what is needed beyond what is in stock. */
  function ShortageJoin(ams: seq<Group<Option<Id>>>, ms: seq<Material>): (r: seq<ShortageRow>)
    ensures forall i :: 0 <= i < |r| ==> r[i].shortageQuantity > 0 && r[i].shortageQuantity == r[i].quantityNeeded - r[i].availableQuantity
  {
    if ams == [] then [] else MaterialShortages(ams[0], ms) + ShortageJoin(ams[1..], ms)
  }

  /** The shortage rows of customer purchase order cpoId. */
  function Shortages(t: BomTables, cpoId: Id): seq<ShortageRow>
  {
    ShortageJoin(AllMaterials(t, cpoId), t.materials)
  }

  /** The shortage rows of material x, in order. */
  function RowsFor(rs: seq<ShortageRow>, x: Id): seq<ShortageRow>
  {
    if rs == [] then [] else (if rs[0].materialId == x then [rs[0]] else []) + RowsFor(rs[1..], x)
  }

  /** The shortage row a demand for material m gives: one when the demand exceeds the stock, none otherwise. */
  function ShortageOf(m: Material, need: Option<int>): seq<ShortageRow>
  {
    if need.Some? && need.value > m.quantity
    then [ShortageRow(m.id, m.name, need.value, m.quantity, need.value - m.quantity)]
    else []
  }

  /** materials.id is the primary key. */
  predicate UniqueIds(ms: seq<Material>)
  {
    forall i, j :: 0 <= i < j < |ms| ==> ms[i].id != ms[j].id
  }

  // Each branch's GROUP BY totals are its reference demand.

  lemma {:induction false} PrimaryTotals(us: seq<EdgeUse>, x: Id)
    ensures SumWhere(PrimaryContributions(us), Some(x)) == PrimaryNeed(us, x)
  {
    if us != [] {
      var cs := PrimaryContributions(us);
      PrimaryTotals(us[..|us| - 1], x);
      assert cs[..|cs| - 1] == PrimaryContributions(us[..|us| - 1]);
    }
  }

  lemma {:induction false} PatternTotals(us: seq<EdgeUse>, x: Id)
    ensures SumWhere(PatternContributions(us), Some(x)) == PatternNeed(us, x)
  {
    if us != [] {
      var cs := PatternContributions(us);
      PatternTotals(us[..|us| - 1], x);
      if us[|us| - 1].edge.patternColor.Some? {
        assert cs[..|cs| - 1] == PatternContributions(us[..|us| - 1]);
      } else {
        assert cs == PatternContributions(us[..|us| - 1]);
      }
    }
  }

  lemma {:induction false} MaterialTotals(mus: seq<MaterialUse>, x: Id)
    ensures SumWhere(MaterialContributions(mus), Some(x)) == MaterialNeed(mus, x)
  {
    if mus != [] {
      var cs := MaterialContributions(mus);
      MaterialTotals(mus[..|mus| - 1], x);
      assert cs[..|cs| - 1] == MaterialContributions(mus[..|mus| - 1]);
    }
  }

  /** The pattern branch never has a NULL colour, so its NULL filter drops nothing. */
  lemma {:induction false} PatternKeysPresent(us: seq<EdgeUse>)
    ensures !Mentions(PatternContributions(us), None)
  {
    if us != [] {
      var cs := PatternContributions(us);
      PatternKeysPresent(us[..|us| - 1]);
      if us[|us| - 1].edge.patternColor.Some? {
        assert cs[..|cs| - 1] == PatternContributions(us[..|us| - 1]);
      } else {
        assert cs == PatternContributions(us[..|us| - 1]);
      }
    }
  }

  lemma {:induction false} MaterialKeysPresent(mus: seq<MaterialUse>)
    ensures !Mentions(MaterialContributions(mus), None)
  {
    if mus != [] {
      var cs := MaterialContributions(mus);
      MaterialKeysPresent(mus[..|mus| - 1]);
      assert cs[..|cs| - 1] == MaterialContributions(mus[..|mus| - 1]);
    }
  }

  // The NULL filter.

  lemma {:induction false} NonNullAppend(a: seq<Group<Option<Id>>>, b: seq<Group<Option<Id>>>)
    ensures NonNull(a + b) == NonNull(a) + NonNull(b)
  {
    if a == [] {
      assert a + b == b;
    } else {
      var head := if a[0].key.Some? then [a[0]] else [];
      assert (a + b)[1..] == a[1..] + b;
      calc {
        NonNull(a + b);
        head + NonNull(a[1..] + b);
        { NonNullAppend(a[1..], b); }
        head + (NonNull(a[1..]) + NonNull(b));
        (head + NonNull(a[1..])) + NonNull(b);
      }
    }
  }

  lemma {:induction false} NonNullKeeps(gs: seq<Group<Option<Id>>>)
    requires !HasKey(gs, None)
    ensures NonNull(gs) == gs
  {
    if gs != [] {
      NonNullKeeps(gs[1..]);
      assert NonNull(gs) == [gs[0]] + gs[1..];
    }
  }

  lemma {:induction false} NonNullHasKey(gs: seq<Group<Option<Id>>>, k: Option<Id>)
    ensures HasKey(NonNull(gs), k) ==> HasKey(gs, k)
  {
    if gs != [] {
      NonNullHasKey(gs[1..], k);
      if gs[0].key.Some? {
        assert NonNull(gs)[0] == gs[0] && NonNull(gs)[1..] == NonNull(gs[1..]);
      } else {
        assert NonNull(gs) == NonNull(gs[1..]);
      }
    }
  }

  lemma {:induction false} NonNullDistinct(gs: seq<Group<Option<Id>>>)
    requires DistinctKeys(gs)
    ensures DistinctKeys(NonNull(gs))
  {
    if gs != [] {
      NonNullDistinct(gs[1..]);
      NonNullHasKey(gs[1..], gs[0].key);
      if gs[0].key.Some? {
        assert NonNull(gs)[0] == gs[0] && NonNull(gs)[1..] == NonNull(gs[1..]);
      } else {
        assert NonNull(gs) == NonNull(gs[1..]);
      }
    }
  }

  lemma {:induction false} NonNullTotal(gs: seq<Group<Option<Id>>>, x: Id)
    ensures TotalOf(NonNull(gs), Some(x)) == TotalOf(gs, Some(x))
  {
    if gs != [] {
      NonNullTotal(gs[1..], x);
      if gs[0].key.Some? {
        assert NonNull(gs)[0] == gs[0] && NonNull(gs)[1..] == NonNull(gs[1..]);
      } else {
        assert NonNull(gs) == NonNull(gs[1..]);
      }
    }
  }

  // The shortage join, seen per material.

  lemma {:induction false} RowsForAppend(a: seq<ShortageRow>, b: seq<ShortageRow>, x: Id)
    ensures RowsFor(a + b, x) == RowsFor(a, x) + RowsFor(b, x)
  {
    if a == [] {
      assert a + b == b;
    } else {
      var head := if a[0].materialId == x then [a[0]] else [];
      assert (a + b)[1..] == a[1..] + b;
      calc {
        RowsFor(a + b, x);
        head + RowsFor(a[1..] + b, x);
        { RowsForAppend(a[1..], b, x); }
        head + (RowsFor(a[1..], x) + RowsFor(b, x));
        (head + RowsFor(a[1..], x)) + RowsFor(b, x);
      }
    }
  }

  /** A shortage row names the material it was joined with. */
  lemma {:induction false} MaterialShortagesOther(am: Group<Option<Id>>, ms: seq<Material>, x: Id)
    requires forall i :: 0 <= i < |ms| ==> ms[i].id != x
    ensures RowsFor(MaterialShortages(am, ms), x) == []
  {
    if ms != [] {
      MaterialShortagesOther(am, ms[1..], x);
      RowsForAppend(if am.key == Some(ms[0].id) && am.total.Some? && am.total.value > ms[0].quantity
                    then [ShortageRow(ms[0].id, ms[0].name, am.total.value, ms[0].quantity, Greatest(am.total.value - ms[0].quantity, 0))]
                    else [], MaterialShortages(am, ms[1..]), x);
    }
  }

  /** Joining one all_materials row with the materials table gives material ms[k] its shortage row, if any. */
  lemma {:induction false} MaterialShortagesFor(am: Group<Option<Id>>, ms: seq<Material>, k: nat)
    requires UniqueIds(ms) && k < |ms|
    ensures RowsFor(MaterialShortages(am, ms), ms[k].id) == if am.key == Some(ms[k].id) then ShortageOf(ms[k], am.total) else []
  {
    var head := if am.key == Some(ms[0].id) && am.total.Some? && am.total.value > ms[0].quantity
                then [ShortageRow(ms[0].id, ms[0].name, am.total.value, ms[0].quantity, Greatest(am.total.value - ms[0].quantity, 0))]
                else [];
    RowsForAppend(head, MaterialShortages(am, ms[1..]), ms[k].id);
    UniqueTail(ms);
    if k == 0 {
      MaterialShortagesOther(am, ms[1..], ms[0].id);
    } else {
      assert ms[1..][k - 1] == ms[k];
      MaterialShortagesFor(am, ms[1..], k - 1);
    }
  }

  lemma UniqueTail(ms: seq<Material>)
    requires UniqueIds(ms) && ms != []
    ensures UniqueIds(ms[1..])
    ensures forall i :: 0 <= i < |ms[1..]| ==> ms[1..][i].id != ms[0].id
  {
    forall i | 0 <= i < |ms[1..]|
      ensures ms[1..][i].id != ms[0].id
    {
      assert ms[1..][i] == ms[i + 1];
    }
  }

  lemma {:induction false} ShortageJoinFor(gs: seq<Group<Option<Id>>>, ms: seq<Material>, k: nat)
    requires DistinctKeys(gs) && UniqueIds(ms) && k < |ms|
    ensures RowsFor(ShortageJoin(gs, ms), ms[k].id) == ShortageOf(ms[k], TotalOf(gs, Some(ms[k].id)))
  {
    if gs != [] {
      RowsForAppend(MaterialShortages(gs[0], ms), ShortageJoin(gs[1..], ms), ms[k].id);
      MaterialShortagesFor(gs[0], ms, k);
      ShortageJoinFor(gs[1..], ms, k);
      if gs[0].key == Some(ms[k].id) {
        MissingKeyTotal(gs[1..], Some(ms[k].id));
      }
    }
  }

  lemma {:induction false} ShortageJoinAppend(a: seq<Group<Option<Id>>>, b: seq<Group<Option<Id>>>, ms: seq<Material>)
    ensures ShortageJoin(a + b, ms) == ShortageJoin(a, ms) + ShortageJoin(b, ms)
  {
    if a == [] {
      assert a + b == b;
    } else {
      assert (a + b)[1..] == a[1..] + b;
      calc {
        ShortageJoin(a + b, ms);
        MaterialShortages(a[0], ms) + ShortageJoin(a[1..] + b, ms);
        { ShortageJoinAppend(a[1..], b, ms); }
        MaterialShortages(a[0], ms) + (ShortageJoin(a[1..], ms) + ShortageJoin(b, ms));
        (MaterialShortages(a[0], ms) + ShortageJoin(a[1..], ms)) + ShortageJoin(b, ms);
      }
    }
  }

  /** One branch's GROUP BY result, joined with the materials, gives material ms[k] the shortage of that branch's demand. */
  lemma {:induction false} BranchShortage(cs: seq<Contribution<Option<Id>>>, ms: seq<Material>, k: nat)
    requires UniqueIds(ms) && k < |ms|
    ensures RowsFor(ShortageJoin(GroupSum(cs), ms), ms[k].id) == ShortageOf(ms[k], SumWhere(cs, Some(ms[k].id)))
  {
    GroupSumCorrect(cs, Some(ms[k].id));
    ShortageJoinFor(GroupSum(cs), ms, k);
  }

  /**
   * The shortage rows of a material, in order: one row for the primary-colour demand, one for
   * the pattern-colour demand and one for the non-colour demand, each present exactly when that
   * demand exceeds the stock, and each carrying needed, available and needed - available.
   * A material that is demanded by two branches gets two rows.
   */
  lemma {:induction false} ShortagesOfMaterial(t: BomTables, cpoId: Id, k: nat)
    requires UniqueIds(t.materials) && k < |t.materials|
    ensures RowsFor(Shortages(t, cpoId), t.materials[k].id)
         == ShortageOf(t.materials[k], PrimaryNeed(EdgeUses(t, cpoId), t.materials[k].id))
          + ShortageOf(t.materials[k], PatternNeed(EdgeUses(t, cpoId), t.materials[k].id))
          + ShortageOf(t.materials[k], MaterialNeed(MaterialUses(EdgeUses(t, cpoId), t.bomComponents, t.materials), t.materials[k].id))
  {
    var us := EdgeUses(t, cpoId);
    var ms := t.materials;
    var x := ms[k].id;
    var primary := GroupSum(PrimaryContributions(us));
    var pattern := GroupSum(PatternContributions(us));
    var mcs := MaterialContributions(MaterialUses(us, t.bomComponents, ms));
    // The NULL filter keeps the pattern groups whole and the primary groups' totals for x.
    NonNullAppend(primary, pattern);
    PatternKeysPresent(us);
    GroupSumCorrect(PatternContributions(us), None);
    NonNullKeeps(pattern);
    GroupSumCorrect(PrimaryContributions(us), Some(x));
    NonNullDistinct(primary);
    NonNullTotal(primary, x);
    // Split the shortage join along the UNION ALL.
    ShortageJoinAppend(NonNull(primary) + pattern, GroupSum(mcs), ms);
    ShortageJoinAppend(NonNull(primary), pattern, ms);
    RowsForAppend(ShortageJoin(NonNull(primary), ms) + ShortageJoin(pattern, ms), ShortageJoin(GroupSum(mcs), ms), x);
    RowsForAppend(ShortageJoin(NonNull(primary), ms), ShortageJoin(pattern, ms), x);
    // Each branch on its own.
    ShortageJoinFor(NonNull(primary), ms, k);
    PrimaryTotals(us, x);
    BranchShortage(PatternContributions(us), ms, k);
    PatternTotals(us, x);
    BranchShortage(mcs, ms, k);
    MaterialTotals(MaterialUses(us, t.bomComponents, ms), x);
  }

  // Only the asked order, and only when it is PAID.

  lemma {:induction false} NoPaidOrderNoRows(cpoId: Id, os: seq<CustomerOrder>, ls: seq<OrderLine>, ps: seq<Product>, bps: seq<BomProduct>, cs: seq<Component>)
    requires forall i :: 0 <= i < |os| && os[i].id == cpoId ==> os[i].status != Paid
    ensures OrderRows(cpoId, os, ls, ps, bps, cs) == []
  {
    if os != [] {
      NoPaidOrderNoRows(cpoId, os[1..], ls, ps, bps, cs);
    }
  }

  /** An order that is not PAID (or does not exist) has no shortages, so nothing is written. */
  lemma {:induction false} NotPaidNoShortages(t: BomTables, cpoId: Id)
    requires forall i :: 0 <= i < |t.cpos| && t.cpos[i].id == cpoId ==> t.cpos[i].status != Paid
    ensures Shortages(t, cpoId) == []
  {
    NoPaidOrderNoRows(cpoId, t.cpos, t.orderLines, t.products, t.bomProducts, t.components);
  }

  /** The order lines of order orderId, in table order. */
  function LinesOf(ls: seq<OrderLine>, orderId: Id): seq<OrderLine>
  {
    if ls == [] then [] else (if ls[0].orderId == orderId then [ls[0]] else []) + LinesOf(ls[1..], orderId)
  }

  lemma {:induction false} LineRowsOwnLines(orderId: Id, ls: seq<OrderLine>, ps: seq<Product>, bps: seq<BomProduct>, cs: seq<Component>)
    ensures LineRows(orderId, LinesOf(ls, orderId), ps, bps, cs) == LineRows(orderId, ls, ps, bps, cs)
  {
    if ls != [] {
      LineRowsOwnLines(orderId, ls[1..], ps, bps, cs);
      var own := LinesOf(ls, orderId);
      if ls[0].orderId == orderId {
        assert own[0] == ls[0] && own[1..] == LinesOf(ls[1..], orderId);
      } else {
        assert own == LinesOf(ls[1..], orderId);
      }
    }
  }

  lemma {:induction false} OrderRowsOwnLines(cpoId: Id, os: seq<CustomerOrder>, ls: seq<OrderLine>, ps: seq<Product>, bps: seq<BomProduct>, cs: seq<Component>)
    ensures OrderRows(cpoId, os, LinesOf(ls, cpoId), ps, bps, cs) == OrderRows(cpoId, os, ls, ps, bps, cs)
  {
    if os != [] {
      OrderRowsOwnLines(cpoId, os[1..], ls, ps, bps, cs);
      if os[0].id == cpoId {
        LineRowsOwnLines(cpoId, ls, ps, bps, cs);
      }
    }
  }

  /** Only the order lines of the asked order count: removing every other order's lines changes no shortage. */
  lemma {:induction false} OwnLinesOnly(t: BomTables, cpoId: Id)
    ensures Shortages(t.(orderLines := LinesOf(t.orderLines, cpoId)), cpoId) == Shortages(t, cpoId)
  {
    OrderRowsOwnLines(cpoId, t.cpos, t.orderLines, t.products, t.bomProducts, t.components);
  }

  // The non-colour branch only counts materials without a colour.

  lemma {:induction false} MaterialRowsColourless(q: int, bc: BomComponent, ms: seq<Material>)
    ensures forall i :: 0 <= i < |MaterialRows(q, bc, ms)| ==>
      MaterialRows(q, bc, ms)[i].material in ms && MaterialRows(q, bc, ms)[i].material.color.None?
      && MaterialRows(q, bc, ms)[i].material.id == MaterialRows(q, bc, ms)[i].bom.materialId
  {
    if ms != [] {
      MaterialRowsColourless(q, bc, ms[1..]);
    }
  }

  lemma {:induction false} BomRowsColourless(u: EdgeUse, bcs: seq<BomComponent>, ms: seq<Material>)
    ensures forall i :: 0 <= i < |BomRows(u, bcs, ms)| ==>
      BomRows(u, bcs, ms)[i].material in ms && BomRows(u, bcs, ms)[i].material.color.None?
      && BomRows(u, bcs, ms)[i].material.id == BomRows(u, bcs, ms)[i].bom.materialId
  {
    if bcs != [] {
      BomRowsColourless(u, bcs[1..], ms);
      MaterialRowsColourless(u.lineQuantity, bcs[0], ms);
    }
  }

  lemma {:induction false} MaterialUsesColourless(us: seq<EdgeUse>, bcs: seq<BomComponent>, ms: seq<Material>)
    ensures forall i :: 0 <= i < |MaterialUses(us, bcs, ms)| ==>
      MaterialUses(us, bcs, ms)[i].material in ms && MaterialUses(us, bcs, ms)[i].material.color.None?
      && MaterialUses(us, bcs, ms)[i].material.id == MaterialUses(us, bcs, ms)[i].bom.materialId
  {
    if us != [] {
      MaterialUsesColourless(us[1..], bcs, ms);
      BomRowsColourless(us[0], bcs, ms);
    }
  }

  lemma {:induction false} MaterialNeedAbsent(mus: seq<MaterialUse>, x: Id)
    requires forall i :: 0 <= i < |mus| ==> mus[i].bom.materialId != x
    ensures MaterialNeed(mus, x) == None
  {
    if mus != [] {
      MaterialNeedAbsent(mus[..|mus| - 1], x);
    }
  }

  /** A colour material has no demand from the non-colour branch; it is only demanded as a primary or pattern colour. */
  lemma {:induction false} ColourMaterialNoComponentDemand(t: BomTables, cpoId: Id, k: nat)
    requires UniqueIds(t.materials) && k < |t.materials| && t.materials[k].color.Some?
    ensures MaterialNeed(MaterialUses(EdgeUses(t, cpoId), t.bomComponents, t.materials), t.materials[k].id) == None
  {
    var mus := MaterialUses(EdgeUses(t, cpoId), t.bomComponents, t.materials);
    MaterialUsesColourless(EdgeUses(t, cpoId), t.bomComponents, t.materials);
    forall i | 0 <= i < |mus| ensures mus[i].bom.materialId != t.materials[k].id {
      var j :| 0 <= j < |t.materials| && t.materials[j] == mus[i].material;
      assert j != k;
    }
    MaterialNeedAbsent(mus, t.materials[k].id);
  }
}
