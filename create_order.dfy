/**
 * The create-order form: its status choices and the request body a save
 * sends, built from the valid rows of the order line editor.
 */
module CreateOrder {
  import opened Common
  import opened OrderRows

  /** The status select's choices; "Pending" is the initial one. */
  const StatusOptions: seq<string> := ["Pending", "Completed", "Cancelled"]

  /** The body of `POST /orders/`. */
  datatype OrderPayload = OrderPayload(status: string, orderDate: string, items: seq<LinePayload>)

  /**
   * `handleSaveOrder` up to the POST: nothing is sent when no row is valid;
   * otherwise the body carries the status, the order date (`now` stands for
   * the clock) and one line item per valid row.
   */
  function SavePayload(rows: seq<Row>, status: string, orderDate: string, now: string): (r: Option<OrderPayload>)
    ensures r.None? <==> ValidItems(rows) == []
    ensures r.Some? ==> r.value.status == status && r.value.orderDate == OrderDateField(orderDate, now)
  {
    if ValidItems(rows) == [] then None
    else Some(OrderPayload(status, OrderDateField(orderDate, now), RequestLines(rows)))
  }

  /**
   * No request is sent exactly when no row has a product, a positive
   * quantity and a positive price; otherwise the line items match the valid
   * rows one to one and in order, field by field.
   */
  lemma SavePayloadSpec(rows: seq<Row>, status: string, orderDate: string, now: string)
    ensures SavePayload(rows, status, orderDate, now).None? <==> forall i :: 0 <= i < |rows| ==> !IsValid(rows[i])
    ensures SavePayload(rows, status, orderDate, now).Some? ==>
              var items, valid := SavePayload(rows, status, orderDate, now).value.items, ValidItems(rows);
              && |items| == |valid|
              && forall i :: 0 <= i < |valid| ==>
                   && IsValid(valid[i])
                   && items[i].product == valid[i].productId.value
                   && items[i].quantity == valid[i].quantity.n
                   && items[i].productTitle == valid[i].productTitle
                   && items[i].productPrice == valid[i].productPrice.n
                   && items[i].productSku == valid[i].sku
  {
    ValidItemsSpec(rows);
  }
}
