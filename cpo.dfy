/**
 * Customer purchase orders: checkout (the order, the clearing of the user's cart, the order
 * lines and the NEW history row, all or nothing), the estimated-delivery string, and the
 * order view with its lines.
 */
module CustomerOrders {
  import opened Common
  import opened Schema
  import opened Placeholders
  import Products

  // The estimated-delivery string.

  type Day = d: int | 1 <= d <= 31 witness 1
  type Month = m: int | 0 <= m < 12

  /** What getDate(), getMonth() and getFullYear() give for a date. */
  datatype CalendarDate = CalendarDate(day: Day, month: Month, year: nat)

  const MonthAbbr: seq<string> := ["Jan", "Feb", "Mar", "Apr", "May", "Jun", "Jul", "Aug", "Sep", "Oct", "Nov", "Dec"]

  function DigitChar(d: nat): char
    requires d < 10
  {
    (48 + d) as char
  }

  predicate IsDigit(c: char)
  {
    '0' <= c <= '9'
  }

  /** String(n): the decimal digits of n, without leading zeros. */
  function NatToString(n: nat): (s: string)
    ensures |s| > 0 && forall k :: 0 <= k < |s| ==> IsDigit(s[k])
    ensures n < 10 <==> |s| == 1
  {
    if n < 10 then [DigitChar(n)] else NatToString(n / 10) + [DigitChar(n % 10)]
  }

  /** Number(s) on a string of digits. */
  function ParseNat(s: string): nat
  {
    if s == [] then 0 else ParseNat(s[..|s| - 1]) * 10 + (if IsDigit(s[|s| - 1]) then s[|s| - 1] as int - 48 else 0)
  }

  /** padStart(2, '0'). */
  function PadTwo(s: string): (r: string)
    ensures |s| <= 2 ==> |r| == 2
  {
    if |s| == 0 then "00" else if |s| == 1 then "0" + s else s
  }

  /** formatDate: DD-Mon-YYYY. */
  function FormatDate(d: CalendarDate): string
  {
    PadTwo(NatToString(d.day)) + "-" + MonthAbbr[d.month] + "-" + NatToString(d.year)
  }

  /** getEstimatedDeliveryDateRange, given the dates six and eight days from today. */
  function FormatRange(start: CalendarDate, end: CalendarDate): string
  {
    FormatDate(start) + " - " + FormatDate(end)
  }

  /**
   * The range runs from six to eight days after today; `calendar` is the local calendar
   * (day number to date), which the model takes as given.
   */
  function EstimatedDeliveryRange(today: int, calendar: int -> CalendarDate): (r: string)
    ensures ParseRange(r) == Some((calendar(today + 6), calendar(today + 8)))
  {
    FormatRangeRoundTrip(calendar(today + 6), calendar(today + 8));
    FormatRange(calendar(today + 6), calendar(today + 8))
  }

  /** The position of the first month abbreviation equal to s, from i on. */
  function MonthOf(s: string, i: nat): (r: Option<Month>)
    requires i <= 12
    decreases 12 - i
    ensures r.Some? ==> MonthAbbr[r.value] == s
  {
    if i == 12 then None else if MonthAbbr[i] == s then Some(i) else MonthOf(s, i + 1)
  }

  /** Reads a DD-Mon-YYYY date back. */
  function ParseDate(s: string): Option<CalendarDate>
  {
    if |s| >= 8 && s[2] == '-' && s[6] == '-' && IsDigit(s[0]) && IsDigit(s[1])
       && 1 <= ParseNat(s[..2]) <= 31 && MonthOf(s[3..6], 0).Some?
    then Some(CalendarDate(ParseNat(s[..2]), MonthOf(s[3..6], 0).value, ParseNat(s[7..])))
    else None
  }

  function FirstSpace(s: string): (k: nat)
    ensures k <= |s|
  {
    if s == [] then 0 else if s[0] == ' ' then 0 else 1 + FirstSpace(s[1..])
  }

  /** Reads the two dates of a range back. */
  function ParseRange(s: string): Option<(CalendarDate, CalendarDate)>
  {
    var k := FirstSpace(s);
    if k + 3 <= |s| && s[k..k + 3] == " - " && ParseDate(s[..k]).Some? && ParseDate(s[k + 3..]).Some?
    then Some((ParseDate(s[..k]).value, ParseDate(s[k + 3..]).value))
    else None
  }

  lemma {:induction false} ParseNatToString(n: nat)
    ensures ParseNat(NatToString(n)) == n
  {
    if n >= 10 {
      var s := NatToString(n / 10) + [DigitChar(n % 10)];
      assert s[..|s| - 1] == NatToString(n / 10);
      ParseNatToString(n / 10);
    }
  }

  lemma MonthOfAbbr(m: Month)
    ensures MonthOf(MonthAbbr[m], 0) == Some(m)
  {
    MonthOfFrom(m, 0);
  }

  lemma {:induction false} MonthOfFrom(m: Month, i: nat)
    requires i <= m
    ensures MonthOf(MonthAbbr[m], i) == Some(m)
    decreases m - i
  {
    if i < m {
      assert MonthAbbr[i] != MonthAbbr[m] by {
        assert MonthAbbr[i][0] != MonthAbbr[m][0] || MonthAbbr[i][1] != MonthAbbr[m][1] || MonthAbbr[i][2] != MonthAbbr[m][2];
      }
      MonthOfFrom(m, i + 1);
    }
  }

  /** The day is always two digits and reads back as the day. */
  lemma DayPadded(d: Day)
    ensures |PadTwo(NatToString(d))| == 2
    ensures IsDigit(PadTwo(NatToString(d))[0]) && IsDigit(PadTwo(NatToString(d))[1])
    ensures ParseNat(PadTwo(NatToString(d))) == d
  {
    var s := NatToString(d);
    ParseNatToString(d);
    if d < 10 {
      var p := "0" + s;
      assert p[..1] == "0";
      assert [p[1]] == s;
      assert ParseNat(p[..1]) == 0 by {
        assert p[..1][..0] == [];
      }
    } else {
      assert d < 100;
      assert |NatToString(d / 10)| == 1;
    }
  }

  /** formatDate loses nothing: its output reads back as the date it was made from. */
  lemma FormatDateRoundTrip(d: CalendarDate)
    ensures ParseDate(FormatDate(d)) == Some(d)
  {
    var dd := PadTwo(NatToString(d.day));
    var s := FormatDate(d);
    DayPadded(d.day);
    MonthOfAbbr(d.month);
    ParseNatToString(d.year);
    assert s[..2] == dd;
    assert s[3..6] == MonthAbbr[d.month];
    assert s[7..] == NatToString(d.year);
  }

  lemma {:induction false} FirstSpaceAfter(a: string, b: string)
    requires forall k :: 0 <= k < |a| ==> a[k] != ' '
    requires b != [] && b[0] == ' '
    ensures FirstSpace(a + b) == |a|
  {
    if a != [] {
      assert (a + b)[1..] == a[1..] + b;
      FirstSpaceAfter(a[1..], b);
    }
  }

  lemma NoSpaceInDate(d: CalendarDate)
    ensures forall k :: 0 <= k < |FormatDate(d)| ==> FormatDate(d)[k] != ' '
  {
    var s := FormatDate(d);
    DayPadded(d.day);
    assert forall k :: 0 <= k < |MonthAbbr[d.month]| ==> MonthAbbr[d.month][k] != ' ';
    forall k | 0 <= k < |s|
      ensures s[k] != ' '
    {
      if k < 2 {
        assert s[k] == PadTwo(NatToString(d.day))[k];
      } else if 3 <= k < 6 {
        assert s[k] == MonthAbbr[d.month][k - 3];
      } else if k >= 7 {
        assert s[k] == NatToString(d.year)[k - 7];
      }
    }
  }

  /** The range string reads back as the two dates it was made from. */
  lemma FormatRangeRoundTrip(start: CalendarDate, end: CalendarDate)
    ensures ParseRange(FormatRange(start, end)) == Some((start, end))
  {
    var a := FormatDate(start);
    var r := FormatRange(start, end);
    NoSpaceInDate(start);
    assert r == a + (" - " + FormatDate(end));
    FirstSpaceAfter(a, " - " + FormatDate(end));
    assert r[..|a|] == a;
    assert r[|a| + 3..] == FormatDate(end);
    FormatDateRoundTrip(start);
    FormatDateRoundTrip(end);
  }

  // Checkout.

  /** One line of the request. */
  datatype LineItem = LineItem(productId: Id, quantity: int)

  /** What create returns: the inserted order and its inserted lines. */
  datatype CpoCreated = CpoCreated(order: CustomerOrder, items: seq<OrderLine>)

  const CreateFailed := "Failed to create Customer Purchase Order"

  /** The order insertCPO writes: status NEW, not paid. */
  function NewOrder(id: Id, userId: Id, deliveryPrice: int, address: string, totalPrice: int,
                    phone: string, paymentMethod: string, estDelivery: string): CustomerOrder
  {
    CustomerOrder(id, userId, New, deliveryPrice, address, totalPrice, phone, paymentMethod, estDelivery, None)
  }

  /** Some order of the table belongs to the user: the subquery of deleteOldOrderLines is not empty. */
  predicate UserHasOrder(cpos: seq<CustomerOrder>, userId: Id)
  {
    cpos != [] && (cpos[0].userId == userId || UserHasOrder(cpos[1..], userId))
  }

  /** The lines whose order_id is not the given id. */
  function Without(ls: seq<OrderLine>, orderId: Id): (r: seq<OrderLine>)
    ensures |r| <= |ls|
  {
    if ls == [] then [] else (if ls[0].orderId == orderId then [] else [ls[0]]) + Without(ls[1..], orderId)
  }

  /** deleteOldOrderLines: DELETE ... WHERE order_id IN (SELECT user_id ... WHERE user_id = $1). */
  function ClearedLines(ls: seq<OrderLine>, cpos: seq<CustomerOrder>, userId: Id): seq<OrderLine>
  {
    if UserHasOrder(cpos, userId) then Without(ls, userId) else ls
  }

  /** The lines insertOrderLines writes: one per item, in input order, each with a fresh id. */
  function NewOrderLines(cpoId: Id, items: seq<LineItem>, lineIds: seq<Id>): (r: seq<OrderLine>)
    requires |lineIds| >= |items|
    ensures |r| == |items|
  {
    if items == [] then [] else [OrderLine(lineIds[0], cpoId, items[0].productId, items[0].quantity)] + NewOrderLines(cpoId, items[1..], lineIds[1..])
  }

  /** The values of line i after the shared $1 = order id: (id, product_id, quantity). */
  function LineValues(item: LineItem, lineId: Id): seq<Param>
  {
    [PText(lineId), PText(item.productId), PNum(item.quantity)]
  }

  function LineRows(items: seq<LineItem>, lineIds: seq<Id>): (r: seq<seq<Param>>)
    requires |lineIds| >= |items|
    ensures |r| == |items|
  {
    if items == [] then [] else [LineValues(items[0], lineIds[0])] + LineRows(items[1..], lineIds[1..])
  }

  /** The columns (order_id, id, product_id, quantity) of an inserted line. */
  function OrderLineColumns(l: OrderLine): seq<Param>
  {
    [PText(l.orderId), PText(l.id), PText(l.productId), PNum(l.quantity)]
  }

  /** A cart is cleared only for a user who has an order; once they have one, nothing of it is left. */
  lemma {:induction false} WithoutSpec(ls: seq<OrderLine>, orderId: Id, l: OrderLine)
    ensures l in Without(ls, orderId) <==> l in ls && l.orderId != orderId
  {
    if ls != [] {
      WithoutSpec(ls[1..], orderId, l);
      assert ls == [ls[0]] + ls[1..];
    }
  }

  lemma {:induction false} UserHasOrderAppend(cpos: seq<CustomerOrder>, o: CustomerOrder)
    ensures UserHasOrder(cpos + [o], o.userId)
  {
    if cpos != [] {
      assert (cpos + [o])[1..] == cpos[1..] + [o];
      UserHasOrderAppend(cpos[1..], o);
    }
  }

  lemma {:induction false} LineRowsAt(cpoId: Id, items: seq<LineItem>, lineIds: seq<Id>, i: nat)
    requires |lineIds| >= |items| && i < |items|
    ensures LineRows(items, lineIds)[i] == LineValues(items[i], lineIds[i])
    ensures NewOrderLines(cpoId, items, lineIds)[i] == OrderLine(lineIds[i], cpoId, items[i].productId, items[i].quantity)
  {
    if i > 0 {
      LineRowsAt(cpoId, items[1..], lineIds[1..], i - 1);
    }
  }

  lemma {:induction false} LineRowsRectangular(items: seq<LineItem>, lineIds: seq<Id>)
    requires |lineIds| >= |items|
    ensures Rectangular(LineRows(items, lineIds), 3)
  {
    if items != [] {
      LineRowsRectangular(items[1..], lineIds[1..]);
    }
  }

  /**
   * insertOrderLines binds each line: tuple i is ($1, $(3i+2), $(3i+3), $(3i+4)), there
   * are 1 + 3n parameters, and tuple i names the order_id, id, product_id and quantity of line i.
   */
  lemma LineBinding(cpoId: Id, items: seq<LineItem>, lineIds: seq<Id>, i: nat, k: nat)
    requires |lineIds| >= |items| && i < |items| && k < 4
    ensures Tuples(|items|, true, 3)[i] == [1, 3 * i + 2, 3 * i + 3, 3 * i + 4]
    ensures |Params([PText(cpoId)], LineRows(items, lineIds))| == 1 + 3 * |items|
    ensures Params([PText(cpoId)], LineRows(items, lineIds))[Tuples(|items|, true, 3)[i][k] - 1]
         == OrderLineColumns(NewOrderLines(cpoId, items, lineIds)[i])[k]
  {
    LineRowsRectangular(items, lineIds);
    LineRowsAt(cpoId, items, lineIds, i);
    BindingCorrect([PText(cpoId)], LineRows(items, lineIds), true, 3, i, k);
  }

  /** findOneById of customer_purchase_orders: the first order with that id. */
  function FindOrder(cpos: seq<CustomerOrder>, id: Id): (r: Option<CustomerOrder>)
    ensures r.Some? ==> r.value.id == id
  {
    if cpos == [] then None else if cpos[0].id == id then Some(cpos[0]) else FindOrder(cpos[1..], id)
  }

  /** findOneById finds nothing exactly when no order has the id. */
  lemma {:induction false} FindOrderNone(cpos: seq<CustomerOrder>, id: Id)
    ensures FindOrder(cpos, id).None? <==> forall i :: 0 <= i < |cpos| ==> cpos[i].id != id
  {
    if cpos != [] {
      FindOrderNone(cpos[1..], id);
      assert forall i :: 1 <= i < |cpos| ==> cpos[i] == cpos[1..][i - 1];
    }
  }

  /**
   * create: inserts the order as NEW, clears the user's cart, inserts the lines and logs NEW,
   * then commits. The order's estimated delivery is the range six to eight days after `today`.
   * An empty line list makes the lines statement a syntax error; that, or any rejected
   * statement (`storeFailure`), rolls everything back and raises a plain error.
   */
  method Create(db: Db, userId: Id, deliveryPrice: int, address: string, totalPrice: int, phone: string,
                paymentMethod: string, items: seq<LineItem>, today: int, calendar: int -> CalendarDate,
                cpoId: Id, lineIds: seq<Id>, historyId: Id, now: Timestamp, storeFailure: Option<string>)
    returns (res: Result<CpoCreated>)
    requires |lineIds| >= |items|
    modifies db`cpos, db`orderLines, db`history
    ensures items == [] || storeFailure.Some? ==>
      res == Err(PlainError(CreateFailed))
      && db.cpos == old(db.cpos) && db.orderLines == old(db.orderLines) && db.history == old(db.history)
    ensures items != [] && storeFailure.None? ==>
      var order := NewOrder(cpoId, userId, deliveryPrice, address, totalPrice, phone, paymentMethod,
                            EstimatedDeliveryRange(today, calendar));
      ParseRange(order.estDeliveryDate) == Some((calendar(today + 6), calendar(today + 8)))
      && db.cpos == old(db.cpos) + [order]
      && db.orderLines == Without(old(db.orderLines), userId) + NewOrderLines(cpoId, items, lineIds)
      && db.history == old(db.history) + [HistoryRow(historyId, cpoId, "NEW", now)]
      && res == Ok(CpoCreated(order, NewOrderLines(cpoId, items, lineIds)))
  {
    if items == [] || storeFailure.Some? {
      return Err(PlainError(CreateFailed));
    }
    var order := NewOrder(cpoId, userId, deliveryPrice, address, totalPrice, phone, paymentMethod,
                          EstimatedDeliveryRange(today, calendar));
    db.cpos := db.cpos + [order];
    UserHasOrderAppend(old(db.cpos), order);
    db.orderLines := ClearedLines(db.orderLines, db.cpos, userId);
    var lines := NewOrderLines(cpoId, items, lineIds);
    db.orderLines := db.orderLines + lines;
    db.history := db.history + [HistoryRow(historyId, cpoId, "NEW", now)];
    res := Ok(CpoCreated(order, lines));
  }

  /**
   * After a successful checkout no cart line of the user is left: a line of the new table
   * with order_id = the user's id is one of the new order's lines, which happens only when
   * the order id equals the user id.
   */
  lemma CartCleared(ls: seq<OrderLine>, userId: Id, cpoId: Id, items: seq<LineItem>, lineIds: seq<Id>, l: OrderLine)
    requires |lineIds| >= |items| && cpoId != userId
    requires l in Without(ls, userId) + NewOrderLines(cpoId, items, lineIds)
    ensures l.orderId != userId
  {
    if l in Without(ls, userId) {
      WithoutSpec(ls, userId, l);
    } else {
      var i :| 0 <= i < |NewOrderLines(cpoId, items, lineIds)| && NewOrderLines(cpoId, items, lineIds)[i] == l;
      LineRowsAt(cpoId, items, lineIds, i);
    }
  }

  // getCPOById.

  /** One element of the JSON_AGG list: the JSON_BUILD_OBJECT of a joined row, NULL columns as None. */
  datatype AggItem = AggItem(id: Option<Id>, productId: Option<Id>, name: Option<string>, price: Option<int>,
                             quantity: Option<int>, image: Option<string>)

  /** One element of order_lines in the response. */
  datatype LineView = LineView(id: Option<Id>, name: Option<string>, price: Option<int>, quantity: Option<int>, image: Option<string>)

  datatype CpoView = CpoView(id: Id, paymentStatus: string, orderStatus: string, deliveryDate: string, paymentMethod: string,
                             address: string, phone: string, deliveryPrice: int, totalPrice: int)

  datatype CpoDetail = CpoDetail(cpo: CpoView, orderLines: seq<LineView>)

  const GetFailed := "Failed to get Customer Purchase Order"

  /** The object built for a line joined with its product, or with NULLs if the product is gone. */
  function LineItemOf(l: OrderLine, ps: seq<Product>): AggItem
  {
    var p := Products.FindProduct(ps, l.productId);
    if p.Some? then AggItem(Some(l.id), Some(p.value.id), Some(p.value.name), Some(p.value.price), Some(l.quantity), p.value.img)
    else AggItem(Some(l.id), None, None, None, Some(l.quantity), None)
  }

  /** The lines of the order, in table order. */
  function LinesOf(ls: seq<OrderLine>, orderId: Id): (r: seq<OrderLine>)
    ensures |r| <= |ls|
    ensures forall k :: 0 <= k < |r| ==> r[k].orderId == orderId
  {
    if ls == [] then [] else (if ls[0].orderId == orderId then [ls[0]] else []) + LinesOf(ls[1..], orderId)
  }

  function AggItems(ls: seq<OrderLine>, ps: seq<Product>): (r: seq<AggItem>)
    ensures |r| == |ls|
  {
    if ls == [] then [] else [LineItemOf(ls[0], ps)] + AggItems(ls[1..], ps)
  }

  /** The response fields of an order: Completed exactly when it has a paid time. */
  function ViewOf(o: CustomerOrder): (v: CpoView)
    ensures v.paymentStatus == (if o.paidDateTime.Some? then "Completed" else "Not paid")
    ensures v.id == o.id && v.orderStatus == CpoStatusName(o.status)
  {
    CpoView(o.id, if o.paidDateTime.Some? then "Completed" else "Not paid", CpoStatusName(o.status), o.estDeliveryDate,
            o.paymentMethod, o.address, o.phoneNumber, o.deliveryPrice, o.totalPrice)
  }

  function ViewLine(a: AggItem): LineView
  {
    LineView(a.id, a.name, a.price, a.quantity, a.image)
  }

  function ViewLines(items: seq<AggItem>): (r: seq<LineView>)
    ensures |r| == |items|
  {
    if items == [] then [] else [ViewLine(items[0])] + ViewLines(items[1..])
  }

  /**
   * JSON_AGG over the LEFT JOIN as written: an order without lines still has one joined row,
   * whose columns from order_lines and products are all NULL, and JSON_BUILD_OBJECT turns it
   * into an object rather than NULL; so the list is never empty and never holds NULL.
   */
  function AggregatedAsWritten(ls: seq<OrderLine>, ps: seq<Product>, orderId: Id): (r: seq<Option<AggItem>>)
    ensures |r| > 0
  {
    var lines := LinesOf(ls, orderId);
    if lines == [] then [Some(AggItem(None, None, None, None, None, None))] else SomeAll(AggItems(lines, ps))
  }

  function SomeAll(items: seq<AggItem>): (r: seq<Option<AggItem>>)
    ensures |r| == |items|
    ensures forall k :: 0 <= k < |r| ==> r[k] == Some(items[k])
  {
    if items == [] then [] else [Some(items[0])] + SomeAll(items[1..])
  }

  /** products.map(...) after the `[null]` check; reading a field of a NULL element would throw. */
  function ShapeAsWritten(products: seq<Option<AggItem>>): Option<seq<LineView>>
  {
    if |products| == 1 && products[0].None? then Some([])
    else if products == [] then Some([])
    else if products[0].None? then None
    else match ShapeAsWritten(products[1..])
      case None => None
      case Some(rest) => Some([ViewLine(products[0].value)] + rest)
  }

  /** getCPOById as written. */
  function GetCpoByIdAsWritten(cpos: seq<CustomerOrder>, ls: seq<OrderLine>, ps: seq<Product>, id: Id): Result<CpoDetail>
  {
    var o := FindOrder(cpos, id);
    if o.None? then Err(PlainError(GetFailed))
    else match ShapeAsWritten(AggregatedAsWritten(ls, ps, id))
      case None => Err(PlainError(GetFailed))
      case Some(lines) => Ok(CpoDetail(ViewOf(o.value), lines))
  }

  /** As written, an order without lines is shown with one line whose every field is null. */
  lemma NoLinesAsWritten(cpos: seq<CustomerOrder>, ls: seq<OrderLine>, ps: seq<Product>, id: Id)
    requires FindOrder(cpos, id).Some? && LinesOf(ls, id) == []
    ensures GetCpoByIdAsWritten(cpos, ls, ps, id) == Ok(CpoDetail(ViewOf(FindOrder(cpos, id).value), [LineView(None, None, None, None, None)]))
  {
    var products := [Some(AggItem(None, None, None, None, None, None))];
    assert AggregatedAsWritten(ls, ps, id) == products;
    assert products[1..] == [];
    assert ShapeAsWritten(products[1..]) == Some([]);
    assert ShapeAsWritten(products) == Some([LineView(None, None, None, None, None)] + []);
    assert [LineView(None, None, None, None, None)] + [] == [LineView(None, None, None, None, None)];
  }

  /**
   * getCPOById aggregating only joined rows that have an order line (as FILTER (WHERE ol.id
   * IS NOT NULL) would): unknown orders fail, and the lines are exactly the order's.
   */
  function GetCpoById(cpos: seq<CustomerOrder>, ls: seq<OrderLine>, ps: seq<Product>, id: Id): (r: Result<CpoDetail>)
    ensures FindOrder(cpos, id).None? <==> r == Err(PlainError(GetFailed))
    ensures r.Ok? ==> r.value.cpo == ViewOf(FindOrder(cpos, id).value) && |r.value.orderLines| == |LinesOf(ls, id)|
  {
    var o := FindOrder(cpos, id);
    if o.None? then Err(PlainError(GetFailed))
    else Ok(CpoDetail(ViewOf(o.value), ViewLines(AggItems(LinesOf(ls, id), ps))))
  }

  lemma {:induction false} AggItemsAt(ls: seq<OrderLine>, ps: seq<Product>, k: nat)
    requires k < |ls|
    ensures ViewLines(AggItems(ls, ps))[k] == ViewLine(LineItemOf(ls[k], ps))
  {
    if k > 0 {
      AggItemsAt(ls[1..], ps, k - 1);
    }
  }

  /**
   * Line k of the view is line k of the order: its id and quantity, and the name, price and
   * image of its product (null when the product is gone); an order without lines shows none.
   */
  lemma GetCpoByIdLines(cpos: seq<CustomerOrder>, ls: seq<OrderLine>, ps: seq<Product>, id: Id, k: nat)
    requires FindOrder(cpos, id).Some? && k < |LinesOf(ls, id)|
    ensures var l := LinesOf(ls, id)[k];
            var p := Products.FindProduct(ps, l.productId);
            GetCpoById(cpos, ls, ps, id).value.orderLines[k]
            == LineView(Some(l.id), if p.Some? then Some(p.value.name) else None,
                        if p.Some? then Some(p.value.price) else None, Some(l.quantity),
                        if p.Some? then p.value.img else None)
  {
    AggItemsAt(LinesOf(ls, id), ps, k);
  }

  /** The `[null]` check and the map leave a list of objects as the list of their views. */
  lemma {:induction false} ShapeOfObjects(items: seq<AggItem>)
    ensures ShapeAsWritten(SomeAll(items)) == Some(ViewLines(items))
  {
    if items != [] {
      assert SomeAll(items)[1..] == SomeAll(items[1..]);
      ShapeOfObjects(items[1..]);
    }
  }

  /**
   * The as-written getCPOById and the corrected one differ exactly on an existing order
   * without lines: everywhere else they give the same answer.
   */
  lemma AsWrittenAgrees(cpos: seq<CustomerOrder>, ls: seq<OrderLine>, ps: seq<Product>, id: Id)
    ensures GetCpoByIdAsWritten(cpos, ls, ps, id) == GetCpoById(cpos, ls, ps, id)
        <==> FindOrder(cpos, id).None? || LinesOf(ls, id) != []
  {
    if FindOrder(cpos, id).Some? {
      if LinesOf(ls, id) == [] {
        NoLinesAsWritten(cpos, ls, ps, id);
      } else {
        ShapeOfObjects(AggItems(LinesOf(ls, id), ps));
      }
    }
  }

  /** A new order reads back NEW, not paid, with the lines just inserted. */
  lemma CreatedOrderView(cpos: seq<CustomerOrder>, order: CustomerOrder)
    requires FindOrder(cpos, order.id).None? && order.status == New && order.paidDateTime.None?
    ensures FindOrder(cpos + [order], order.id) == Some(order)
    ensures ViewOf(order).paymentStatus == "Not paid" && ViewOf(order).orderStatus == "NEW"
  {
    FindOrderAppend(cpos, order);
  }

  lemma {:induction false} FindOrderAppend(cpos: seq<CustomerOrder>, order: CustomerOrder)
    requires FindOrder(cpos, order.id).None?
    ensures FindOrder(cpos + [order], order.id) == Some(order)
  {
    if cpos != [] {
      assert (cpos + [order])[1..] == cpos[1..] + [order];
      FindOrderAppend(cpos[1..], order);
    }
  }
}
