/**
 * The tables of the relational store the services work on, one row datatype per table,
 * and the store itself: an object whose fields are the tables, changed in place.
 */
module Schema {
  import opened Common

  /** customer_purchase_orders.status */
  datatype CpoStatus = New | Paid | Processing | FinishedProcess | OnDelivery | Completed | Cancelled

  /** The text the status column and the history log hold for a customer-order status. */
  function CpoStatusName(s: CpoStatus): string
  {
    match s
    case New => "NEW"
    case Paid => "PAID"
    case Processing => "PROCESSING"
    case FinishedProcess => "FINISHED_PROCESS"
    case OnDelivery => "ON_DELIVERY"
    case Completed => "COMPLETED"
    case Cancelled => "CANCELLED"
  }

  /** material_purchase_orders.status */
  datatype MpoStatus = MpoNew | MpoReceived | MpoCancelled

  function MpoStatusName(s: MpoStatus): string
  {
    match s
    case MpoNew => "NEW"
    case MpoReceived => "RECEIVED"
    case MpoCancelled => "CANCELLED"
  }

  /** materials: a raw material in stock; a material with a colour is a colour material. */
  datatype Material = Material(id: Id, name: string, quantity: int, threshold: int, unit: string, color: Option<string>)

  /** material_requisitions: an outstanding ask to buy a material. */
  datatype Requisition = Requisition(id: Id, materialId: Id, quantity: int, createDateTime: Timestamp)

  /** components: the colour-use factors say how much of a colour material one unit consumes. */
  datatype Component = Component(
    id: Id, categoryId: Id, name: string, price: int, img: Option<string>,
    colorPrimaryUse: Option<int>, colorPatternUse: Option<int>)

  /** bom_components: component -> material edge. */
  datatype BomComponent = BomComponent(id: Id, componentId: Id, materialId: Id, quantity: Option<int>)

  /** products: `customBy` is set on products a customer designed. */
  datatype Product = Product(
    id: Id, categoryId: Id, name: string, price: int, detail: string, img: Option<string>, customBy: Option<Id>)

  /** bom_products: product -> component edge with the colour materials it is made in. */
  datatype BomProduct = BomProduct(id: Id, productId: Id, componentId: Id, primaryColor: Option<Id>, patternColor: Option<Id>)

  /** customer_purchase_orders */
  datatype CustomerOrder = CustomerOrder(
    id: Id, userId: Id, status: CpoStatus, deliveryPrice: int, address: string, totalPrice: int,
    phoneNumber: string, paymentMethod: string, estDeliveryDate: string, paidDateTime: Option<Timestamp>)

  /** order_lines: a cart line (orderId is the user's id) or a line of a customer order (orderId is its id). */
  datatype OrderLine = OrderLine(id: Id, orderId: Id, productId: Id, quantity: int)

  /** history: the status log of customer orders. */
  datatype HistoryRow = HistoryRow(id: Id, cpoId: Id, status: string, dateTime: Timestamp)

  /** transactions: the payment record of a customer or material order (poId). */
  datatype Transaction = Transaction(
    id: Id, poId: Id, amount: Option<int>, createDateTime: Option<Timestamp>, paymentMethod: Option<string>)

  /** material_purchase_orders */
  datatype MaterialOrder = MaterialOrder(
    id: Id, supplier: string, status: MpoStatus, createDateTime: Option<Timestamp>,
    receiveDateTime: Option<Timestamp>, cancelDateTime: Option<Timestamp>, totalAmount: Option<int>)

  /** mpo_order_lines */
  datatype MaterialOrderLine = MaterialOrderLine(id: Id, mpoId: Id, materialId: Id, quantity: int, price: Option<int>)

  /** The relational store: every table is a field that the services reassign. */
  class Db {
    var materials: seq<Material>
    var requisitions: seq<Requisition>
    var components: seq<Component>
    var bomComponents: seq<BomComponent>
    var products: seq<Product>
    var bomProducts: seq<BomProduct>
    var cpos: seq<CustomerOrder>
    var orderLines: seq<OrderLine>
    var history: seq<HistoryRow>
    var transactions: seq<Transaction>
    var mpos: seq<MaterialOrder>
    var mpoLines: seq<MaterialOrderLine>

    /** An empty store. */
    constructor ()
      ensures materials == [] && requisitions == [] && components == [] && bomComponents == []
      ensures products == [] && bomProducts == [] && cpos == [] && orderLines == []
      ensures history == [] && transactions == [] && mpos == [] && mpoLines == []
    {
      materials, requisitions, components, bomComponents := [], [], [], [];
      products, bomProducts, cpos, orderLines := [], [], [], [];
      history, transactions, mpos, mpoLines := [], [], [], [];
    }
  }
}
