# songsarn-api order and material core, in Dafny

This project models the back office of a furniture shop's API. It covers:

- **Customer purchase orders (CPOs):** checkout from the cart, the estimated-delivery string, the order view, and payment by transfer slip.
- **The bill of materials (BOM):** products are built from components (`bom_products` edges, each with a primary and a pattern colour material). Components are built from materials (`bom_components` edges).
- **Material explosion:** when a CPO is PAID, its demand is computed per material. Every material whose demand exceeds its stock gets a material requisition, inserted new or raised by the shortage.
- **Material purchase orders (MPOs):** each covers a set of requisitions and deletes them.
- **Supporting services:** the stock ledger, the transactions table, the order history and timeline, the cart, and the pure dashboard rules.

How the model is built:

- **The database is one object.** `Schema.Db` is a class with one `seq` field per table. Each service operation is a method that names the tables it writes in its `modifies` frame. Its `ensures` give the new contents of those tables as functions of the old contents.
- **Transactions are all or nothing.** A BEGIN/COMMIT/ROLLBACK block ends either in the new state or with every table it touches unchanged.
- **Outside inputs are parameters.** These include:
  - fresh uuids and timestamps;
  - the outcome of an external upload or file deletion;
  - the answer of the slip-verification service;
  - an `Option<string>` standing for "the database rejected a statement", in the operations that run a transaction.
- **Queries are pure functions over the tables.** SQL `SUM` over nullable numbers is modelled with its NULL rules. `GROUP BY` lists groups in order of first appearance. A query without ORDER BY returns rows in table order. ORDER BY on text is code-point order.

## Model

| member | source | states |
|---|---|---|
| Sql.GroupSumCorrect | src/customer-purchase-orders/provider/check-create-material-requisition.provider.ts:18-59 | GROUP BY with SUM lists each key once, lists exactly the keys some input row has, and gives each key the SUM (NULL-skipping, NULL when empty) over its own rows |
| Sql.GroupTotalAt | src/customer-purchase-orders/provider/check-create-material-requisition.provider.ts:18-59 | each listed group carries the SUM over its own key's rows, and its key occurs in the input |
| MaterialRequirements.PrimaryTotals | src/customer-purchase-orders/provider/check-create-material-requisition.provider.ts:19-29 | the primary-colour branch's total for material x is the SUM of color_primary_use × line quantity over the used edges whose primary colour is x |
| MaterialRequirements.PatternTotals | src/customer-purchase-orders/provider/check-create-material-requisition.provider.ts:33-43 | the pattern-colour branch's total for x is the SUM of color_pattern_use × line quantity over the edges whose pattern colour is x (NULL pattern colours are not counted) |
| MaterialRequirements.MaterialTotals | src/customer-purchase-orders/provider/check-create-material-requisition.provider.ts:45-59 | the component branch's total for x is the SUM of bom_components.quantity × line quantity over the edges to x |
| MaterialRequirements.PatternKeysPresent | src/customer-purchase-orders/provider/check-create-material-requisition.provider.ts:42 | the pattern branch never yields a NULL material |
| MaterialRequirements.MaterialKeysPresent | src/customer-purchase-orders/provider/check-create-material-requisition.provider.ts:48 | the component branch never yields a NULL material |
| MaterialRequirements.NonNullTotal | src/customer-purchase-orders/provider/check-create-material-requisition.provider.ts:61 | the `material_id IS NOT NULL` filter keeps the total of every real material (a NULL primary colour is dropped) |
| MaterialRequirements.MaterialShortages | src/customer-purchase-orders/provider/check-create-material-requisition.provider.ts:65-73 | every joined shortage row has shortage = needed − available, and it is strictly positive |
| MaterialRequirements.ShortageJoin | src/customer-purchase-orders/provider/check-create-material-requisition.provider.ts:65-73 | the same holds for the join of all demand rows with the materials |
| MaterialRequirements.MaterialShortagesFor | src/customer-purchase-orders/provider/check-create-material-requisition.provider.ts:70-73 | one all_materials row joined with the materials gives material k its shortage row when the row names it and its demand exceeds its stock, otherwise none |
| MaterialRequirements.ShortageJoinFor | src/customer-purchase-orders/provider/check-create-material-requisition.provider.ts:70-73 | a GROUP BY result joined with the materials gives each material the shortage of its own total |
| MaterialRequirements.BranchShortage | src/customer-purchase-orders/provider/check-create-material-requisition.provider.ts:60-73 | one branch's grouped demand, joined with the materials, gives material k the shortage of that branch's SUM |
| MaterialRequirements.ShortagesOfMaterial | src/customer-purchase-orders/provider/check-create-material-requisition.provider.ts:17-76 | the shortage rows of material k are, in order, its primary-colour, pattern-colour and component shortages, each present exactly when that demand exceeds the stock |
| MaterialRequirements.NoPaidOrderNoRows | src/customer-purchase-orders/provider/check-create-material-requisition.provider.ts:28 | with no PAID order of that id, the join has no rows |
| MaterialRequirements.NotPaidNoShortages | src/customer-purchase-orders/provider/check-create-material-requisition.provider.ts:28-57 | an order that is not PAID, or does not exist, has no shortages |
| MaterialRequirements.OwnLinesOnly | src/customer-purchase-orders/provider/check-create-material-requisition.provider.ts:24 | removing every other order's lines changes no shortage |
| MaterialRequirements.ColourMaterialNoComponentDemand | src/customer-purchase-orders/provider/check-create-material-requisition.provider.ts:57 | a colour material gets no demand from the component branch |
| MaterialRequirements.MaterialUsesColourless | src/customer-purchase-orders/provider/check-create-material-requisition.provider.ts:55-57 | every row of the component branch is a material without a colour |
| RequisitionReconcile.MapOfSpec | src/customer-purchase-orders/provider/check-create-material-requisition.provider.ts:90-92 | the existing map holds exactly the materials with a selected row, each with the quantity of the last such row |
| RequisitionReconcile.ExistingQuantityOf | src/customer-purchase-orders/provider/check-create-material-requisition.provider.ts:79-92 | a material with a shortage is read exactly when it has requisitions, and the quantity read is that of its last requisition |
| RequisitionReconcile.SplitShortages | src/customer-purchase-orders/provider/check-create-material-requisition.provider.ts:94-109 | the loop puts the shortage rows with no quantity read into toInsert and the others, with their quantity, into toUpdate, in order |
| RequisitionReconcile.RunUpdates | src/customer-purchase-orders/provider/check-create-material-requisition.provider.ts:133-143 | the update loop leaves the table as the sequential application of the pending updates |
| RequisitionReconcile.ApplyUpdatesRowsOf | src/customer-purchase-orders/provider/check-create-material-requisition.provider.ts:133-143 | a material's rows are left alone unless a pending update names it; then the last such update wins |
| RequisitionReconcile.NewRequisitionsOf | src/customer-purchase-orders/provider/check-create-material-requisition.provider.ts:111-131 | the batch insert gives material x one requisition per row for x, with that row's shortage as its quantity, stamped now |
| RequisitionReconcile.InsertsNone | src/customer-purchase-orders/provider/check-create-material-requisition.provider.ts:97-101 | the batch insert adds nothing for a material whose quantity was read |
| RequisitionReconcile.Untouched | src/customer-purchase-orders/provider/check-create-material-requisition.provider.ts:78-144 | the requisitions of a material without a shortage row are unchanged |
| RequisitionReconcile.ExistingMerged | src/customer-purchase-orders/provider/check-create-material-requisition.provider.ts:133-143 | an existing requisition is set to the quantity read plus the shortage of the material's last shortage row, and stamped now: an addition, never a maximum or a replacement |
| RequisitionReconcile.FreshInserted | src/customer-purchase-orders/provider/check-create-material-requisition.provider.ts:111-131 | a material with no requisition gets one new requisition per shortage row, with that row's shortage as quantity |
| RequisitionReconcile.CheckAndCreateMaterialRequisitions | src/customer-purchase-orders/provider/check-create-material-requisition.provider.ts:12-162 | with the corrected addition of the Findings row, the table ends as the reconciliation of the order's shortages; the message says whether there were any; the report has one summary per shortage row, with needed, available and shortage |
| RequisitionReconcile.ConcatenatedQuantity | src/customer-purchase-orders/provider/check-create-material-requisition.provider.ts:135-136 | the quantity the update stores as written: the digits of the shortage appended to the current quantity |
| RequisitionReconcile.ConcatenationExample | src/customer-purchase-orders/provider/check-create-material-requisition.provider.ts:135-136 | an existing 5 and a shortage of 3 are stored as 53, not 8 |
| RequisitionReconcile.ConcatenationDiffers | src/customer-purchase-orders/provider/check-create-material-requisition.provider.ts:135-136 | as written, the stored quantity equals the sum only when the existing quantity is 0 |
| Requisitions.RowsOfMembers | src/requisitions/provider/requisitions.service.ts:49-59 | SELECT by material selects exactly that material's rows |
| Requisitions.FindByMaterial | src/requisitions/provider/requisitions.service.ts:49-59 | findOneByMaterialId is null exactly when no requisition has the material; otherwise it is the first row of that material |
| Requisitions.FindById | src/requisitions/provider/requisitions.service.ts:37-47 | findOneById is null exactly when no row has the id |
| Requisitions.SetQuantityRowsOf | src/requisitions/provider/requisitions.service.ts:67-78 | the update rewrites exactly the material's rows, each with the new quantity and time, and leaves other materials' rows as they were |
| Requisitions.FirstUpdatedRow | src/requisitions/provider/requisitions.service.ts:67-80 | the first row RETURNING gives is the material's first requisition, rewritten |
| Requisitions.UpdateByMaterialId | src/requisitions/provider/requisitions.service.ts:61-81 | with no requisition of the material it fails reading `.quantity` of null and changes nothing; otherwise every row of the material gets quantity old + given and a fresh time |
| Requisitions.Create | src/requisitions/provider/requisitions.service.ts:14-35 | a material with no requisition gets one inserted with the given quantity; one with a requisition is updated to old + given |
| Requisitions.CreateInsertsOne | src/requisitions/provider/requisitions.service.ts:24-31 | after the insert the material has exactly the one new requisition |
| Requisitions.DeleteManyById | src/requisitions/provider/requisitions.service.ts:95-105 | removes and returns exactly the rows whose id is listed; unknown ids are ignored and other rows kept |
| Requisitions.DeletePartition | src/requisitions/provider/requisitions.service.ts:95-105 | every row is either returned or kept, exactly once |
| Requisitions.AllRequisitions | src/requisitions/provider/requisitions.service.ts:83-93 | the listing holds exactly the requisitions joined with an existing material |
| Materials.LookupNone | src/materials/providers/materials.service.ts:41-51 | findOneById is null exactly when no row has the id |
| Materials.Create | src/materials/providers/materials.service.ts:14-39 | a name in use gives BAD_REQUEST with the table unchanged; otherwise the row is appended with name, quantity, threshold and unit and no colour |
| Materials.UpdateById | src/materials/providers/materials.service.ts:64-89 | an unknown id gives NOT_FOUND and changes nothing; otherwise the four fields of that material are overwritten |
| Materials.OverwrittenLookup | src/materials/providers/materials.service.ts:73-88 | after the overwrite the material has the new fields and every other material is as before |
| Materials.OverwrittenAt | src/materials/providers/materials.service.ts:73-88 | the overwrite keeps every row in place, including the colour |
| Materials.DeleteById | src/materials/providers/materials.service.ts:91-101 | an unknown id gives NOT_FOUND; otherwise the rows with that id are removed |
| Materials.RemovedLookup | src/materials/providers/materials.service.ts:91-101 | after the delete the id is gone and every other material is found as before |
| Materials.UpdateQuantityById | src/materials/providers/materials.service.ts:103-114 | the quantity becomes quantity + delta with no lower bound, other fields unchanged |
| Materials.CreditedAt | src/materials/providers/materials.service.ts:103-114 | a credit changes only the quantity of that material's rows, by exactly delta |
| Materials.CreditCompose | src/materials/providers/materials.service.ts:103-114 | two credits are one credit of their sum, and a credit of −delta undoes one of delta |
| Materials.CreditedLookup | src/materials/providers/materials.service.ts:103-114 | the row a credit returns is the looked-up row with its quantity raised by delta |
| Transactions.FindTxByIdNone | src/transactions/providers/transactions.service.ts:37-47 | findOneById is null exactly when no transaction has the id |
| Transactions.FindByPoIdNone | src/transactions/providers/transactions.service.ts:49-59 | findOneByPOId is null exactly when no transaction names the order |
| Transactions.InsertKeepsOnePerPo | src/transactions/providers/transactions.service.ts:16-30 | inserting only for an order with no transaction keeps at most one transaction per order |
| Transactions.Craete | src/transactions/providers/transactions.service.ts:13-35 | an order that already has a transaction gives BAD_REQUEST with the table unchanged; otherwise one row with the fresh id and the order id (no amount, time or method) is appended and returned; one-per-order is kept |
| Placeholders.BindingCorrect | src/material-purchase-orders/providers/material-purchase-orders.service.ts:43-55 | a multi-row VALUES list with a shared $1 or none has lead + width × n parameters, and placeholder k of tuple i names column k of row i |
| MaterialPurchaseOrders.ItemBinding | src/material-purchase-orders/providers/material-purchase-orders.service.ts:43-55 | line tuple i is ($1, $(3i+2), $(3i+3), $(3i+4)), there are 1 + 3n parameters, and they bind the order id, line id, material and quantity of line i |
| MaterialPurchaseOrders.BuildItemParams | src/material-purchase-orders/providers/material-purchase-orders.service.ts:50-54 | the forEach yields the order id followed by each item's line id, material and quantity |
| MaterialPurchaseOrders.CreateMpo | src/material-purchase-orders/providers/material-purchase-orders.service.ts:20-83 | an empty item list or a rejected statement rolls everything back with the error; otherwise a NEW header, one line per item in order, a transaction for the order, and the deletion of exactly the named requisitions |
| MaterialPurchaseOrders.FindLineNone | src/material-purchase-orders/providers/material-purchase-orders.service.ts:167-177 | findMpoOrderLineById is null exactly when no line has the id |
| MaterialPurchaseOrders.PricedLookup | src/material-purchase-orders/providers/material-purchase-orders.service.ts:147-165 | the row the price update returns is the looked-up line with the new price |
| MaterialPurchaseOrders.PricedAt | src/material-purchase-orders/providers/material-purchase-orders.service.ts:155-162 | only the price of the rows with that id changes |
| MaterialPurchaseOrders.UpdatePriceMpoOrderLine | src/material-purchase-orders/providers/material-purchase-orders.service.ts:144-165 | an unknown line gives NOT_FOUND and changes nothing; otherwise only that line's price changes |
| MaterialPurchaseOrders.FirstGroupSpec | src/material-purchase-orders/providers/material-purchase-orders.service.ts:108-141 | the result is undefined exactly when there are no rows; otherwise it is the first row's order with its header fields and all its lines in row order |
| MaterialPurchaseOrders.NoTransactionNoOrder | src/material-purchase-orders/providers/material-purchase-orders.service.ts:96-107 | an order without a transaction has no joined rows, so findOneById gives undefined |
| History.Create | src/history/providers/history.service.ts:13-36 | a failed insert raises "Failed to create history record" and leaves the log unchanged; otherwise exactly one row with the cpo id, status and time is appended |
| History.CpoEventsAt | src/history/providers/history.service.ts:62-70 | history row i becomes timeline item i tagged CPO |
| History.DefinedMember | src/history/providers/history.service.ts:72-103 | an event is in an MPO branch exactly when some order yields it |
| History.AllHistoryCorrect | src/history/providers/history.service.ts:104-116 | the timeline is sorted newest first, is a permutation of the union, and has one item per history row and per defined MPO event |
| History.AllHistoryMember | src/history/providers/history.service.ts:60-116 | an item is in the timeline exactly when it is a history row tagged CPO, or the creation (with current status), RECEIVED or CANCELLED event of an MPO whose time is set |
| CustomerOrders.ParseNatToString | src/customer-purchase-orders/provider/customer-purchase-orders.service.ts:135-138 | the decimal digits of a number read back as the number |
| CustomerOrders.DayPadded | src/customer-purchase-orders/provider/customer-purchase-orders.service.ts:136 | the padded day has exactly two digits and reads back as the day |
| CustomerOrders.MonthOfAbbr | src/customer-purchase-orders/provider/customer-purchase-orders.service.ts:118-133 | each of the 12 abbreviations identifies its month |
| CustomerOrders.FormatDateRoundTrip | src/customer-purchase-orders/provider/customer-purchase-orders.service.ts:135-138 | formatDate's DD-Mon-YYYY text reads back as the date it came from |
| CustomerOrders.FormatRangeRoundTrip | src/customer-purchase-orders/provider/customer-purchase-orders.service.ts:140-141 | the range string reads back as its two dates |
| CustomerOrders.EstimatedDeliveryRange | src/customer-purchase-orders/provider/customer-purchase-orders.service.ts:111-142 | the string reads back as the dates 6 and 8 days after today |
| CustomerOrders.WithoutSpec | src/customer-purchase-orders/provider/customer-purchase-orders.service.ts:144-154 | a line survives the cart clearing exactly when its order_id is not the user's id |
| CustomerOrders.LineBinding | src/customer-purchase-orders/provider/customer-purchase-orders.service.ts:156-185 | line tuple i is ($1, $(3i+2), $(3i+3), $(3i+4)), there are 1 + 3n parameters, and they bind the order id, line id, product and quantity of line i |
| CustomerOrders.Create | src/customer-purchase-orders/provider/customer-purchase-orders.service.ts:17-64 | an empty line list or a rejected statement raises "Failed to create Customer Purchase Order" with nothing changed; otherwise the NEW order is appended with the estimated-delivery range for today (which reads back as the dates 6 and 8 days on), the user's cart lines are removed, one line per item is added and a NEW history row is logged |
| CustomerOrders.CartCleared | src/customer-purchase-orders/provider/customer-purchase-orders.service.ts:34-45 | after checkout no line with order_id = the user's id is left |
| CustomerOrders.CreatedOrderView | src/customer-purchase-orders/provider/customer-purchase-orders.service.ts:95-105 | the new order reads back as NEW and not paid |
| CustomerOrders.ViewOf | src/customer-purchase-orders/provider/customer-purchase-orders.service.ts:265-278 | payment_status is "Completed" exactly when paid_date_time is set |
| CustomerOrders.FindOrderNone | src/customer-purchase-orders/provider/customer-purchase-orders.service.ts:235-256 | the order is not found exactly when no order has the id |
| CustomerOrders.GetCpoById | src/customer-purchase-orders/provider/customer-purchase-orders.service.ts:213-291 | the corrected definition of the getCPOById Findings row: an order without lines shows an empty list; an unknown id fails exactly; otherwise the view of the order with one shown line per order line |
| CustomerOrders.GetCpoByIdLines | src/customer-purchase-orders/provider/customer-purchase-orders.service.ts:225-285 | shown line k is order line k with its product's fields, or nulls when the product is gone |
| CustomerOrders.GetCpoByIdAsWritten | src/customer-purchase-orders/provider/customer-purchase-orders.service.ts:213-291 | getCPOById as written, with JSON_AGG always holding one element per joined row |
| CustomerOrders.NoLinesAsWritten | src/customer-purchase-orders/provider/customer-purchase-orders.service.ts:225-263 | as written, an order without lines is shown with one line whose every field is null |
| CustomerOrders.AsWrittenAgrees | src/customer-purchase-orders/provider/customer-purchase-orders.service.ts:225-285 | the as-written and the corrected getCPOById give the same answer exactly when the order is unknown or has lines; they differ only on an existing order without lines |
| Payment.Configure | src/payment/providers/payment.service.ts:51-71 | construction succeeds exactly when the PromptPay number is set and not empty |
| Payment.Check | src/payment/providers/payment.service.ts:109-155 | a slip is accepted exactly when the service answered with data whose amount and receiving account match; any other outcome is a failure with an error code |
| Payment.MarkPaidFind | src/payment/providers/payment.service.ts:221-230 | after the update the order is PAID and Completed whatever its prior status, and every other order is as before |
| Payment.SavePaymentDetails | src/payment/providers/payment.service.ts:192-259 | saved exactly when no statement is rejected and the slip's transaction id is new; then the qr transaction, the PAID order and the PAID history row are all written, else none is |
| Payment.VerifySlip | src/payment/providers/payment.service.ts:84-190 | a rejected slip is returned with no writes; an accepted one is saved and reported verified, or reported INTERNAL_ERROR with no writes; success implies the slip passed every check |
| Carts.QuantityValue | src/carts/providers/carts.service.ts:16-20 | an absent or zero quantity is taken as 1 |
| Carts.AddToCart | src/carts/providers/carts.service.ts:13-36 | an existing line of that product in that cart is incremented by exactly 1, whatever quantity was asked; otherwise a line is inserted with the asked quantity, or 1; either way the cart then has a line of the product, with the old quantity plus 1 or the new quantity |
| Carts.FindCartLineNone | src/carts/providers/carts.service.ts:38-50 | findOrder is null exactly when no line of that cart carries the product |
| Carts.FindCartLineStepped | src/carts/providers/carts.service.ts:22-25 | incrementing the found line keeps it the cart's line of the product, with quantity + 1 |
| Carts.FindCartLineAppend | src/carts/providers/carts.service.ts:28-33 | the inserted line is then the cart's line of the product |
| Carts.FindLineNone | src/carts/providers/carts.service.ts:76-89 | the lookup by line id finds nothing exactly when no line has the id |
| Carts.IncreaseQuantity | src/carts/providers/carts.service.ts:76-96 | an unknown line is an error with nothing changed; otherwise only that line gains 1 |
| Carts.SteppedFind | src/carts/providers/carts.service.ts:78-91 | the stepped line reads back with quantity + delta |
| Carts.StepInverse | src/carts/providers/carts.service.ts:76-125 | a decrease after an increase gives the cart back as it was |
| Carts.DecreaseQuantity | src/carts/providers/carts.service.ts:98-196 | an unknown line is an error; a line of quantity 1 is deleted as deleteOrderById does it, with its NOT_FOUND when no product joins and its rollback with INTERNAL_SERVER_ERROR on a rejected statement; any other loses 1 |
| Carts.LineWithProductNone | src/carts/providers/carts.service.ts:139-150 | the join finds nothing, and so deleteOrderById gives NOT_FOUND, exactly when no line with the id names an existing product |
| Carts.DeleteOrderById | src/carts/providers/carts.service.ts:132-196 | an unknown line gives NOT_FOUND with nothing changed; otherwise the line is deleted and, for a custom product, its bom_products edges and the product too |
| Carts.LinesWithoutSpec | src/carts/providers/carts.service.ts:155-163 | a line is gone after the delete exactly when it had the id |
| Carts.CartListingCorrect | src/carts/providers/carts.service.ts:52-74 | the listing is ordered by line id, is a permutation of the cart's joined rows, and each entry is a line of that cart |
| Carts.CartRowsMember | src/carts/providers/carts.service.ts:53-65 | an entry is in the join exactly when it is a line of the cart whose product exists, carrying that product's id, name, image and price |
| Carts.CartRowsEmpty | src/carts/providers/carts.service.ts:53-65 | the join is empty exactly when no line of the cart names an existing product |
| Carts.CartListingComplete | src/carts/providers/carts.service.ts:52-74 | NOT_FOUND exactly when no line of the cart has its product; otherwise an entry is listed exactly when it is a line of the cart whose product exists, with that product's fields |
| Products.ProductsWithoutSpec | src/products/providers/products.service.ts:182-186 | a product survives the delete exactly when its id differs |
| Products.EdgesWithoutSpec | src/products/providers/products.service.ts:177-181 | an edge survives exactly when it belongs to another product |
| Products.EdgeBinding | src/products/providers/products.service.ts:91-117 | edge tuple i is ($(5i+1) .. $(5i+5)), there are 5n parameters, and they bind the edge's id, product, component, primary and pattern colour |
| Products.EdgesFor | src/products/providers/products.service.ts:41-43 | no edges for an absent or empty component list |
| Products.Create | src/products/providers/products.service.ts:16-62 | a name in use gives BAD_REQUEST before any write; a rejected statement rolls back; otherwise the product and its edges persist, and a failed upload after commit reports 500 with the rows kept |
| Products.FindProductNone | src/products/providers/products.service.ts:130-139 | findOneById is null exactly when no product has the id |
| Products.WithImageFind | src/products/providers/products.service.ts:141-153 | the image update sets the image of the product and nothing else about it |
| Products.DeleteById | src/products/providers/products.service.ts:166-216 | an unknown id passes NOT_FOUND on unchanged; a failed file deletion aborts; otherwise the product's edges and then the product are deleted |
| Components.Create | src/components/providers/components.service.ts:17-61 | a name in use gives BAD_REQUEST before any write; a rejected statement or failed upload rolls the component and its edges back; otherwise the component, one edge per material and its image persist |
| Components.UpdateImg | src/components/providers/components.service.ts:121-140 | an unknown component gives NOT_FOUND; a failed upload is passed on; otherwise only its image is set |
| Components.WithImageFind | src/components/providers/components.service.ts:130-137 | the image update changes the image of the looked-up component and nothing else |
| Components.FindComponentNone | src/components/providers/components.service.ts:97-107 | findOneById is null exactly when no component has the id |
| Components.FindComponentAppend | src/components/providers/components.service.ts:97-107 | the inserted component is found by its id |
| Components.EdgeBinding | src/components/providers/components.service.ts:76-95 | edge tuple i is ($(4i+1) .. $(4i+4)), there are 4n parameters, and they bind the edge's id, component, material and quantity |
| Components.EdgesFor | src/components/providers/components.service.ts:40-42 | no edges for an absent or empty material list |
| Dashboard.ForecastMap | src/dashboard/providers/dashboard.service.ts:52-55 | the map holds exactly the labels of the forecast, each with its kept point |
| Dashboard.LatestIsLast | src/dashboard/providers/dashboard.service.ts:52-55 | when labels repeat, the last point with the label wins |
| Dashboard.LatestNone | src/dashboard/providers/dashboard.service.ts:52-58 | a label has no point exactly when no forecast point carries it |
| Dashboard.CombinedForecast | src/dashboard/providers/dashboard.service.ts:52-63 | one point per revenue point, same order and label, with revenue + the forecast of that label, a missing value counting as 0 |
| Dashboard.NoForecastKeepsRevenue | src/dashboard/providers/dashboard.service.ts:58-61 | a label with no forecast adds 0 |
| Dashboard.PercentageChange | src/dashboard/providers/dashboard.service.ts:462-471 | (0, 0) gives 0, (0, c > 0) gives 100, (0, c < 0) minus infinity, otherwise the change relative to the previous figure in percent, positive exactly on a rise |
| Dashboard.Level | src/dashboard/providers/dashboard.service.ts:442-446 | Out exactly when the quantity is 0, Low exactly when it is non-zero and at most the threshold, In stock otherwise |
| Dashboard.StockStatusCorrect | src/dashboard/providers/dashboard.service.ts:435-460 | min(7, n) rows ordered Out, Low, In stock and then by name; each row is a material with its level, and no material's row is listed more often than the table holds it; a material left off comes after every listed one in the (level, name) order |
| Sorting.SortCorrect | src/history/providers/history.service.ts:104-116 | the ORDER BY model is ordered by its key and is a permutation of its input |

## Left out

- **Connection handling.** Connection pooling, isolation and the shared single client from `src/database/database.module.ts` are not modelled. Every statement of a request is treated as running in one session. So a helper that uses the shared connection inside a transaction sees that transaction's uncommitted rows. This matters for `Components.Create`, whose image update re-reads the new component, and for the history insert inside checkout.
- **Generated values.** uuid generation, `new Date()`/`NOW()` and the calendar are parameters. The day arithmetic of the delivery estimate is a `calendar` function.
- **External services.** The slip-verification HTTP call, QR generation, S3 upload/delete and URL parsing, OAuth/JWT/bcrypt are outside the model. Their outcomes are parameters.
- **Dashboard.PercentageChange:** the general case is exact real arithmetic. It does not model `toFixed(1)` rounding or binary floating point. Numeric columns are integers elsewhere, and the dashboard's revenue figures are reals.
- **Reporting SQL.** The dashboard's revenue, forecast and top-seller queries, unsold products, and `getDateRange` are not modelled. Their rows are inputs of `Dashboard.CombinedForecast`.
- **Out of scope.** Controllers, DTO validation, config, logging, categories, likes, users, uploads, delivery fees, `getHistoryByCPOId`, `getAll*` listings and `generateQRCode`.
- **Missing service code.** `processCPOById`, `cancelMPOById` and `receiveMPOById` are not part of this model; their service code is not in the repository.
- **MaterialPurchaseOrders.UpdatePriceMpoOrderLine:** takes the line id and price as parameters. The request DTO it reads them from declares neither field.
- **Components.Create:** the material item type is not in the repository. Its fields (`material_id`, `quantity`) are taken from their use in `insertBomComponents`.
- **Dashboard.StockStatusCorrect:** the third status is shown as the SQL's `'In stock'`. The response interface declares `'Normal'`.
- **Payment.SavePaymentDetails:** the history insert in the source names no id column. The model gives the row a `historyId` parameter.
- **Payment.SavePaymentDetails:** the payment path inserts its transaction without the one-per-order check of `craete`. An order can therefore end up with two transactions; the model states this as written.
- **Payment.MarkPaidFind:** an unknown order id updates no row and still counts as a successful save.
- **Products.Create:** the product's `sale` column and the upload's file contents are not modelled.
- **Time values.** Slip times and `paid_date_time` are integer timestamps.
- **RequisitionReconcile.CheckAndCreateMaterialRequisitions:** the update step stores the corrected sum of the existing quantity and the shortage, not the digit concatenation the source computes. The as-written value is `RequisitionReconcile.ConcatenatedQuantity`; see the Findings row.
- **RequisitionReconcile.CheckAndCreateMaterialRequisitions:** a statement that fails has no error path. The source rethrows it (lines 163-166) to the caller, whose transaction then rolls back, possibly after the batch insert has already run.
- **Materials.UpdateById:** takes all four fields as definite values. The update DTO is a `PartialType`, so any of them may be absent. The source then binds `undefined`, which the driver sends as NULL. The absent column is then overwritten with NULL, or the statement fails on a NOT NULL column. The model covers neither; the column constraints are not in the repository.
- **Store failures.** A `storeFailure` parameter (the database rejecting a statement) is modelled only for operations that run in an explicit transaction with a catch block. The single-statement operations of `Materials`, `Requisitions`, `Transactions.Craete`, `Carts.AddToCart`, `Carts.IncreaseQuantity` and the decrement of `Carts.DecreaseQuantity` have no such path; a rejected statement there only raises an error.
- **Sorting.TextLe:** `ORDER BY` on text is modelled as code-point (C collation) order. This is exact for uuid ids, but not for material names under a locale collation.
- **Requisitions.UpdateByMaterialId:** the read of the existing quantity and the update run in one step. Concurrent writers are not modelled.

## Findings

| source | as written | input that shows it | evidently intended | confidence | as-written member | corrected member |
|---|---|---|---|---|---|---|
| src/customer-purchase-orders/provider/check-create-material-requisition.provider.ts:135-136 | `currentQuantity + shortage_quantity` adds a number to the text the driver returns for the bigint `shortage_quantity`, which joins the digits | an existing requisition of 5 and a shortage of 3 store 53 | the existing quantity plus the shortage (8) | medium, not executed | RequisitionReconcile.ConcatenationDiffers | RequisitionReconcile.ExistingMerged |
| src/customer-purchase-orders/provider/customer-purchase-orders.service.ts:225-263 | `JSON_AGG(JSON_BUILD_OBJECT(...))` over a LEFT JOIN yields one object of nulls for an order without lines, never `[null]`, so the `[null]` check never fires | a CPO with no order lines | an empty list of lines | high, not executed | CustomerOrders.NoLinesAsWritten | CustomerOrders.GetCpoById |
