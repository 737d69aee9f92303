/**
 * The cart: order lines whose order_id is the user's id. Adding, the one-step quantity
 * changes, the deletion of a line (with the custom product it carries) and the listing.
 */
module Carts {
  import opened Common
  import opened Schema
  import Sorting
  import opened Products

  const LineNotFound := "Order line not found"
  const DeleteFailed := "Failed to delete order"

  /** findOrder: the first line of that product in that cart. */
  function FindCartLine(ls: seq<OrderLine>, productId: Id, orderId: Id): (r: Option<OrderLine>)
    ensures r.Some? ==> r.value.productId == productId && r.value.orderId == orderId && FindLine(ls, r.value.id).Some?
  {
    if ls == [] then None
    else if ls[0].productId == productId && ls[0].orderId == orderId then Some(ls[0])
    else FindCartLine(ls[1..], productId, orderId)
  }

  /** The first line with that id. */
  function FindLine(ls: seq<OrderLine>, id: Id): (r: Option<OrderLine>)
    ensures r.Some? ==> r.value.id == id
  {
    if ls == [] then None else if ls[0].id == id then Some(ls[0]) else FindLine(ls[1..], id)
  }

  /** findOrder finds nothing exactly when no line of the cart carries the product. */
  lemma {:induction false} FindCartLineNone(ls: seq<OrderLine>, productId: Id, orderId: Id)
    ensures FindCartLine(ls, productId, orderId).None?
        <==> forall i :: 0 <= i < |ls| ==> !(ls[i].productId == productId && ls[i].orderId == orderId)
  {
    if ls != [] {
      FindCartLineNone(ls[1..], productId, orderId);
      assert forall i :: 1 <= i < |ls| ==> ls[i] == ls[1..][i - 1];
    }
  }

  /** The lookup by id finds nothing exactly when no line has the id. */
  lemma {:induction false} FindLineNone(ls: seq<OrderLine>, id: Id)
    ensures FindLine(ls, id).None? <==> forall i :: 0 <= i < |ls| ==> ls[i].id != id
  {
    if ls != [] {
      FindLineNone(ls[1..], id);
      assert forall i :: 1 <= i < |ls| ==> ls[i] == ls[1..][i - 1];
    }
  }

  /** UPDATE order_lines SET quantity = quantity + delta WHERE id. */
  function Stepped(ls: seq<OrderLine>, id: Id, delta: int): (r: seq<OrderLine>)
    ensures |r| == |ls|
  {
    if ls == [] then [] else [if ls[0].id == id then ls[0].(quantity := ls[0].quantity + delta) else ls[0]] + Stepped(ls[1..], id, delta)
  }

  /** DELETE FROM order_lines WHERE id. */
  function LinesWithout(ls: seq<OrderLine>, id: Id): (r: seq<OrderLine>)
    ensures |r| <= |ls|
  {
    if ls == [] then [] else (if ls[0].id == id then [] else [ls[0]]) + LinesWithout(ls[1..], id)
  }

  /** `if (quantity)`: an absent or zero quantity counts as one. */
  function QuantityValue(quantity: Option<int>): (q: int)
    ensures q != 0
  {
    if quantity.None? || quantity.value == 0 then 1 else quantity.value
  }

  /** `if (order.custom_by)`: a product some customer designed. */
  predicate IsCustom(p: Product)
  {
    p.customBy.Some? && p.customBy.value != ""
  }

  /** What a cart operation returns: the updated line, the deleted line, or the insert's rows. */
  datatype CartChange = Updated(line: OrderLine) | Removed(line: OrderLine) | Inserted(rows: seq<OrderLine>)

  lemma {:induction false} SteppedAt(ls: seq<OrderLine>, id: Id, delta: int, i: nat)
    requires i < |ls|
    ensures Stepped(ls, id, delta)[i] == if ls[i].id == id then ls[i].(quantity := ls[i].quantity + delta) else ls[i]
  {
    if i > 0 {
      SteppedAt(ls[1..], id, delta, i - 1);
    }
  }

  lemma {:induction false} SteppedFind(ls: seq<OrderLine>, id: Id, delta: int)
    ensures FindLine(Stepped(ls, id, delta), id)
         == if FindLine(ls, id).None? then None else Some(FindLine(ls, id).value.(quantity := FindLine(ls, id).value.quantity + delta))
  {
    if ls != [] {
      SteppedFind(ls[1..], id, delta);
    }
  }

  /** A decrease after an increase gives the cart back as it was. */
  lemma {:induction false} StepInverse(ls: seq<OrderLine>, id: Id, delta: int)
    ensures Stepped(Stepped(ls, id, delta), id, -delta) == ls
  {
    if ls != [] {
      StepInverse(ls[1..], id, delta);
      assert Stepped(ls, id, delta)[1..] == Stepped(ls[1..], id, delta);
    }
  }

  /** A line is gone after its deletion exactly when it had the id; every other line stays. */
  lemma {:induction false} LinesWithoutSpec(ls: seq<OrderLine>, id: Id, l: OrderLine)
    ensures l in LinesWithout(ls, id) <==> l in ls && l.id != id
  {
    if ls != [] {
      LinesWithoutSpec(ls[1..], id, l);
      assert ls == [ls[0]] + ls[1..];
    }
  }

  /** Stepping a line keeps where the cart's line of a product is, and steps it if it has the id. */
  lemma {:induction false} FindCartLineStepped(ls: seq<OrderLine>, id: Id, delta: int, productId: Id, orderId: Id)
    ensures FindCartLine(Stepped(ls, id, delta), productId, orderId)
         == match FindCartLine(ls, productId, orderId)
            case None => None
            case Some(l) => Some(if l.id == id then l.(quantity := l.quantity + delta) else l)
  {
    if ls != [] {
      FindCartLineStepped(ls[1..], id, delta, productId, orderId);
    }
  }

  /** An appended line is the cart's line of its product when the cart had none. */
  lemma {:induction false} FindCartLineAppend(ls: seq<OrderLine>, l: OrderLine)
    requires FindCartLine(ls, l.productId, l.orderId).None?
    ensures FindCartLine(ls + [l], l.productId, l.orderId) == Some(l)
  {
    if ls != [] {
      assert (ls + [l])[1..] == ls[1..] + [l];
      FindCartLineAppend(ls[1..], l);
    }
  }

  /** increaseQuantity: adds one to the line; an unknown id is a plain error and changes nothing. */
  method IncreaseQuantity(db: Db, id: Id) returns (res: Result<OrderLine>)
    modifies db`orderLines
    ensures FindLine(old(db.orderLines), id).None? ==> res == Err(PlainError(LineNotFound)) && db.orderLines == old(db.orderLines)
    ensures FindLine(old(db.orderLines), id).Some? ==>
      db.orderLines == Stepped(old(db.orderLines), id, 1)
      && res == Ok(FindLine(old(db.orderLines), id).value.(quantity := FindLine(old(db.orderLines), id).value.quantity + 1))
  {
    if FindLine(db.orderLines, id).None? {
      return Err(PlainError(LineNotFound));
    }
    SteppedFind(db.orderLines, id, 1);
    db.orderLines := Stepped(db.orderLines, id, 1);
    res := Ok(FindLine(db.orderLines, id).value);
  }

  /**
   * addToCart: a line of the same product in the same cart is increased by exactly one,
   * whatever quantity was asked for; otherwise a line with the asked quantity (one when
   * absent or zero) is inserted.
   */
  method AddToCart(db: Db, productId: Id, orderId: Id, quantity: Option<int>, id: Id) returns (res: Result<CartChange>)
    modifies db`orderLines
    ensures FindCartLine(old(db.orderLines), productId, orderId).Some? ==>
      var line := FindCartLine(old(db.orderLines), productId, orderId).value;
      db.orderLines == Stepped(old(db.orderLines), line.id, 1)
      && res == Ok(Updated(FindLine(old(db.orderLines), line.id).value.(quantity := FindLine(old(db.orderLines), line.id).value.quantity + 1)))
    ensures FindCartLine(old(db.orderLines), productId, orderId).None? ==>
      db.orderLines == old(db.orderLines) + [OrderLine(id, orderId, productId, QuantityValue(quantity))]
      && res == Ok(Inserted([OrderLine(id, orderId, productId, QuantityValue(quantity))]))
    ensures FindCartLine(db.orderLines, productId, orderId)
         == match FindCartLine(old(db.orderLines), productId, orderId)
            case Some(l) => Some(l.(quantity := l.quantity + 1))
            case None => Some(OrderLine(id, orderId, productId, QuantityValue(quantity)))
  {
    var existing := FindCartLine(db.orderLines, productId, orderId);
    if existing.Some? {
      FindCartLineStepped(db.orderLines, existing.value.id, 1, productId, orderId);
      var updated := IncreaseQuantity(db, existing.value.id);
      return Ok(Updated(updated.value));
    }
    var row := OrderLine(id, orderId, productId, QuantityValue(quantity));
    FindCartLineAppend(db.orderLines, row);
    db.orderLines := db.orderLines + [row];
    res := Ok(Inserted([row]));
  }

  /** SELECT ol.*, p.custom_by ... JOIN products WHERE ol.id: the line with its product. */
  function LineWithProduct(ls: seq<OrderLine>, ps: seq<Product>, id: Id): (r: Option<(OrderLine, Product)>)
    ensures r.Some? ==> r.value.0.id == id && r.value.1.id == r.value.0.productId && FindLine(ls, id).Some?
  {
    if ls == [] then None
    else if ls[0].id == id && FindProduct(ps, ls[0].productId).Some? then Some((ls[0], FindProduct(ps, ls[0].productId).value))
    else LineWithProduct(ls[1..], ps, id)
  }

  /** The join finds nothing exactly when no line with the id names an existing product. */
  lemma {:induction false} LineWithProductNone(ls: seq<OrderLine>, ps: seq<Product>, id: Id)
    ensures LineWithProduct(ls, ps, id).None?
        <==> forall i :: 0 <= i < |ls| ==> !(ls[i].id == id && FindProduct(ps, ls[i].productId).Some?)
  {
    if ls != [] {
      LineWithProductNone(ls[1..], ps, id);
      assert forall i :: 1 <= i < |ls| ==> ls[i] == ls[1..][i - 1];
    }
  }

  /**
   * deleteOrderById: NOT_FOUND when no line with that id joins a product; otherwise deletes
   * the line and, when its product is a custom one, the product's edges and the product.
   * A rejected statement rolls back with INTERNAL_SERVER_ERROR.
   */
  method DeleteOrderById(db: Db, id: Id, storeFailure: Option<string>) returns (res: Result<CartChange>)
    modifies db`orderLines, db`bomProducts, db`products
    ensures LineWithProduct(old(db.orderLines), old(db.products), id).None? ==>
      res == Err(NotFound(LineNotFound))
      && db.orderLines == old(db.orderLines) && db.bomProducts == old(db.bomProducts) && db.products == old(db.products)
    ensures LineWithProduct(old(db.orderLines), old(db.products), id).Some? && storeFailure.Some? ==>
      res == Err(InternalServerError(DeleteFailed))
      && db.orderLines == old(db.orderLines) && db.bomProducts == old(db.bomProducts) && db.products == old(db.products)
    ensures LineWithProduct(old(db.orderLines), old(db.products), id).Some? && storeFailure.None? ==>
      var (line, product) := LineWithProduct(old(db.orderLines), old(db.products), id).value;
      db.orderLines == LinesWithout(old(db.orderLines), id)
      && db.bomProducts == (if IsCustom(product) then EdgesWithout(old(db.bomProducts), product.id) else old(db.bomProducts))
      && db.products == (if IsCustom(product) then ProductsWithout(old(db.products), product.id) else old(db.products))
      && res == Ok(Removed(FindLine(old(db.orderLines), id).value))
  {
    var found := LineWithProduct(db.orderLines, db.products, id);
    if found.None? {
      return Err(NotFound(LineNotFound));
    }
    if storeFailure.Some? {
      return Err(InternalServerError(DeleteFailed));
    }
    var product := found.value.1;
    var deleted := FindLine(db.orderLines, id).value;
    db.orderLines := LinesWithout(db.orderLines, id);
    if IsCustom(product) {
      db.bomProducts := EdgesWithout(db.bomProducts, product.id);
      db.products := ProductsWithout(db.products, product.id);
    }
    res := Ok(Removed(deleted));
  }

  /**
   * decreaseQuantity: an unknown id is a plain error; a line at quantity one is deleted
   * as deleteOrderById does it, with its NOT_FOUND (no joined product) and its rollback
   * passed on; any other line loses one.
   */
  method DecreaseQuantity(db: Db, id: Id, storeFailure: Option<string>) returns (res: Result<CartChange>)
    modifies db`orderLines, db`bomProducts, db`products
    ensures FindLine(old(db.orderLines), id).None? ==>
      res == Err(PlainError(LineNotFound))
      && db.orderLines == old(db.orderLines) && db.bomProducts == old(db.bomProducts) && db.products == old(db.products)
    ensures FindLine(old(db.orderLines), id).Some? && FindLine(old(db.orderLines), id).value.quantity != 1 ==>
      db.orderLines == Stepped(old(db.orderLines), id, -1)
      && db.bomProducts == old(db.bomProducts) && db.products == old(db.products)
      && res == Ok(Updated(FindLine(old(db.orderLines), id).value.(quantity := FindLine(old(db.orderLines), id).value.quantity - 1)))
    ensures FindLine(old(db.orderLines), id).Some? && FindLine(old(db.orderLines), id).value.quantity == 1
            && LineWithProduct(old(db.orderLines), old(db.products), id).None? ==>
      res == Err(NotFound(LineNotFound))
      && db.orderLines == old(db.orderLines) && db.bomProducts == old(db.bomProducts) && db.products == old(db.products)
    ensures FindLine(old(db.orderLines), id).Some? && FindLine(old(db.orderLines), id).value.quantity == 1
            && LineWithProduct(old(db.orderLines), old(db.products), id).Some? && storeFailure.Some? ==>
      res == Err(InternalServerError(DeleteFailed))
      && db.orderLines == old(db.orderLines) && db.bomProducts == old(db.bomProducts) && db.products == old(db.products)
    ensures FindLine(old(db.orderLines), id).Some? && FindLine(old(db.orderLines), id).value.quantity == 1
            && LineWithProduct(old(db.orderLines), old(db.products), id).Some? && storeFailure.None? ==>
      var product := LineWithProduct(old(db.orderLines), old(db.products), id).value.1;
      db.orderLines == LinesWithout(old(db.orderLines), id)
      && db.bomProducts == (if IsCustom(product) then EdgesWithout(old(db.bomProducts), product.id) else old(db.bomProducts))
      && db.products == (if IsCustom(product) then ProductsWithout(old(db.products), product.id) else old(db.products))
      && res == Ok(Removed(FindLine(old(db.orderLines), id).value))
  {
    var check := FindLine(db.orderLines, id);
    if check.None? {
      return Err(PlainError(LineNotFound));
    }
    if check.value.quantity == 1 {
      res := DeleteOrderById(db, id, storeFailure);
      return;
    }
    SteppedFind(db.orderLines, id, -1);
    db.orderLines := Stepped(db.orderLines, id, -1);
    res := Ok(Updated(FindLine(db.orderLines, id).value));
  }

  // getProductsInCartByOrderId.

  datatype CartEntry = CartEntry(id: Id, quantity: int, productId: Id, name: string, img: Option<string>, price: int)

  /** The lines of the cart joined with their products; lines whose product is gone drop out. */
  function CartRows(ls: seq<OrderLine>, ps: seq<Product>, orderId: Id): seq<CartEntry>
  {
    if ls == [] then []
    else (if Listed(ps, orderId, ls[0]) then [Joined(ls[0], FindProduct(ps, ls[0].productId).value)] else [])
         + CartRows(ls[1..], ps, orderId)
  }

  function ById(x: CartEntry, y: CartEntry): bool
  {
    Sorting.TextLe(x.id, y.id)
  }

  /** getProductsInCartByOrderId: NOT_FOUND for an empty cart, otherwise the rows ordered by line id. */
  function CartListing(ls: seq<OrderLine>, ps: seq<Product>, orderId: Id): Result<seq<CartEntry>>
  {
    var rows := CartRows(ls, ps, orderId);
    if rows == [] then Err(NotFound(LineNotFound)) else Ok(Sorting.Sort(rows, ById))
  }

  lemma ByIdOrders()
    ensures Sorting.TotalPreorder(ById)
  {
    forall x: CartEntry, y: CartEntry
      ensures ById(x, y) || ById(y, x)
    {
      Sorting.TextLeTotal(x.id, y.id);
    }
    forall x: CartEntry, y: CartEntry, z: CartEntry | ById(x, y) && ById(y, z)
      ensures ById(x, z)
    {
      Sorting.TextLeTrans(x.id, y.id, z.id);
    }
  }

  /** Every joined row is a line of the cart with its product. */
  lemma {:induction false} CartRowsOfCart(ls: seq<OrderLine>, ps: seq<Product>, orderId: Id, e: CartEntry)
    requires e in CartRows(ls, ps, orderId)
    ensures exists l :: l in ls && l.orderId == orderId && l.id == e.id && l.quantity == e.quantity && l.productId == e.productId
  {
    if Listed(ps, orderId, ls[0]) && e == Joined(ls[0], FindProduct(ps, ls[0].productId).value) {
      assert ls[0] in ls;
    } else {
      CartRowsOfCart(ls[1..], ps, orderId, e);
      var l :| l in ls[1..] && l.orderId == orderId && l.id == e.id && l.quantity == e.quantity && l.productId == e.productId;
      assert l in ls;
    }
  }

  /** The row the join gives a line of the cart whose product exists. */
  function Joined(l: OrderLine, p: Product): CartEntry
  {
    CartEntry(l.id, l.quantity, p.id, p.name, p.img, p.price)
  }

  /** A line is listed when it is in the cart and its product exists. */
  predicate Listed(ps: seq<Product>, orderId: Id, l: OrderLine)
  {
    l.orderId == orderId && FindProduct(ps, l.productId).Some?
  }

  /** The join holds exactly the rows of the cart's lines whose product exists, with that product's fields. */
  lemma {:induction false} CartRowsMember(ls: seq<OrderLine>, ps: seq<Product>, orderId: Id, e: CartEntry)
    ensures e in CartRows(ls, ps, orderId) <==>
      exists l :: l in ls && Listed(ps, orderId, l) && e == Joined(l, FindProduct(ps, l.productId).value)
  {
    if ls != [] {
      CartRowsMember(ls[1..], ps, orderId, e);
      assert ls == [ls[0]] + ls[1..];
      if exists l :: l in ls && Listed(ps, orderId, l) && e == Joined(l, FindProduct(ps, l.productId).value) {
        var l :| l in ls && Listed(ps, orderId, l) && e == Joined(l, FindProduct(ps, l.productId).value);
        if l != ls[0] {
          assert l in ls[1..];
        }
      }
    }
  }

  /** The join is empty exactly when no line of the cart names an existing product. */
  lemma {:induction false} CartRowsEmpty(ls: seq<OrderLine>, ps: seq<Product>, orderId: Id)
    ensures CartRows(ls, ps, orderId) == [] <==> forall i :: 0 <= i < |ls| ==> !Listed(ps, orderId, ls[i])
  {
    if ls != [] {
      CartRowsEmpty(ls[1..], ps, orderId);
      assert forall i :: 1 <= i < |ls| ==> ls[i] == ls[1..][i - 1];
    }
  }

  /**
   * getProductsInCartByOrderId is NOT_FOUND exactly when no line of the cart has its product;
   * otherwise it lists exactly the cart's lines whose product exists, each with that product's
   * id, name, image and price.
   */
  lemma CartListingComplete(ls: seq<OrderLine>, ps: seq<Product>, orderId: Id)
    ensures CartListing(ls, ps, orderId).Err? <==> forall i :: 0 <= i < |ls| ==> !Listed(ps, orderId, ls[i])
    ensures CartListing(ls, ps, orderId).Err? ==> CartListing(ls, ps, orderId) == Err(NotFound(LineNotFound))
    ensures CartListing(ls, ps, orderId).Ok? ==> forall e :: e in CartListing(ls, ps, orderId).value <==>
      exists l :: l in ls && Listed(ps, orderId, l) && e == Joined(l, FindProduct(ps, l.productId).value)
  {
    CartRowsEmpty(ls, ps, orderId);
    if CartListing(ls, ps, orderId).Ok? {
      ByIdOrders();
      Sorting.SortCorrect(CartRows(ls, ps, orderId), ById);
      forall e
        ensures e in CartListing(ls, ps, orderId).value <==>
          exists l :: l in ls && Listed(ps, orderId, l) && e == Joined(l, FindProduct(ps, l.productId).value)
      {
        CartRowsMember(ls, ps, orderId, e);
        assert e in CartListing(ls, ps, orderId).value <==> e in multiset(CartRows(ls, ps, orderId));
      }
    }
  }

  /**
   * The listing is ordered by line id, holds each joined row of the cart exactly as often
   * as the join does, and each entry is a line of that cart.
   */
  lemma CartListingCorrect(ls: seq<OrderLine>, ps: seq<Product>, orderId: Id)
    requires CartListing(ls, ps, orderId).Ok?
    ensures Sorting.SortedBy(CartListing(ls, ps, orderId).value, ById)
    ensures multiset(CartListing(ls, ps, orderId).value) == multiset(CartRows(ls, ps, orderId))
    ensures forall e :: e in CartListing(ls, ps, orderId).value ==>
      exists l :: l in ls && l.orderId == orderId && l.id == e.id && l.quantity == e.quantity && l.productId == e.productId
  {
    ByIdOrders();
    Sorting.SortCorrect(CartRows(ls, ps, orderId), ById);
    forall e | e in CartListing(ls, ps, orderId).value
      ensures exists l :: l in ls && l.orderId == orderId && l.id == e.id && l.quantity == e.quantity && l.productId == e.productId
    {
      assert e in multiset(CartRows(ls, ps, orderId));
      CartRowsOfCart(ls, ps, orderId, e);
    }
  }
}
