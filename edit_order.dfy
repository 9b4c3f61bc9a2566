/**
 * The edit-order form: an order fetched from the server is turned into rows
 * of the order line editor, and an update is sent as a PATCH of the order, a
 * DELETE of its line items and one POST per valid row.
 */
module EditOrder {
  import opened Common
  import opened OrderRows

  /** The status select's choices. */
  const StatusOptions: seq<string> := ["Pending", "Completed", "Cancelled"]

  /** A line item as `GET /orders/<id>/` returns it. */
  datatype ServerItem = ServerItem(productTitle: string, productSku: string, quantity: int, productPrice: int, product: Option<int>)

  /** An order as `GET /orders/<id>/` returns it; absent or empty fields are `None` or "". */
  datatype ServerOrder = ServerOrder(status: Option<string>, orderDate: Option<string>, items: seq<ServerItem>)

  /** The row a fetched line item becomes: fields renamed, not loading, no suggestions. */
  function RowOf(item: ServerItem): (r: Row)
    ensures r.productTitle == item.productTitle && r.sku == item.productSku
    ensures r.quantity == Finite(item.quantity) && r.productPrice == Finite(item.productPrice)
    ensures r.productId == item.product && !r.isLoading && r.suggestions == []
  {
    Row(item.productTitle, item.productSku, Finite(item.quantity), Finite(item.productPrice), item.product, false, [])
  }

  /** `order.items.map(...)` */
  function RowsOf(items: seq<ServerItem>): (r: seq<Row>)
    ensures |r| == |items|
    ensures forall i :: 0 <= i < |items| ==> r[i] == RowOf(items[i])
  {
    if items == [] then [] else [RowOf(items[0])] + RowsOf(items[1..])
  }

  /** `order.status || "Pending"` */
  function LoadedStatus(status: Option<string>): (r: string)
    ensures status.Some? && status.value != "" ==> r == status.value
    ensures status.None? || status.value == "" ==> r == "Pending"
  {
    if status.Some? && status.value != "" then status.value else "Pending"
  }

  /** The date input's new value: the day part of a present date, otherwise what it held before. */
  function LoadedDate(orderDate: Option<string>, current: string): (r: string)
    ensures orderDate.Some? && orderDate.value != "" ==> r == BeforeFirst(orderDate.value, 'T')
    ensures orderDate.None? || orderDate.value == "" ==> r == current
  {
    if orderDate.Some? && orderDate.value != "" then BeforeFirst(orderDate.value, 'T') else current
  }

  /**
   * `fetchOrder`: on success the status, the date and the rows are replaced
   * from the order; on failure the form is left as it was.
   */
  method LoadOrder(form: OrderForm, reply: Reply<ServerOrder>)
    modifies form
    ensures reply.Success? ==>
              && form.status == LoadedStatus(reply.data.status)
              && form.orderDate == LoadedDate(reply.data.orderDate, old(form.orderDate))
              && form.items == RowsOf(reply.data.items)
    ensures reply.Failure? ==>
              form.status == old(form.status) && form.orderDate == old(form.orderDate) && form.items == old(form.items)
  {
    if reply.Success? {
      var order := reply.data;
      form.status := LoadedStatus(order.status);
      form.orderDate := LoadedDate(order.orderDate, form.orderDate);
      form.items := RowsOf(order.items);
    }
  }

  predicate ServerItemValid(item: ServerItem)
  {
    item.product.Some? && item.product.value != 0 && item.quantity > 0 && item.productPrice > 0
  }

  /** The line item carrying a fetched item's own fields. */
  function ServerLine(item: ServerItem): LinePayload
    requires item.product.Some?
  {
    LinePayload(item.product.value, item.quantity, item.productTitle, item.productPrice, item.productSku)
  }

  /**
   * A fetched order saved unchanged posts back its own valid line items, in
   * order: every fetched row is valid exactly when its item is.
   */
  lemma {:induction false} ReloadRoundTrip(items: seq<ServerItem>)
    ensures forall i :: 0 <= i < |items| ==> (IsValid(RowsOf(items)[i]) <==> ServerItemValid(items[i]))
    ensures (forall i :: 0 <= i < |items| ==> ServerItemValid(items[i])) ==>
              && ValidItems(RowsOf(items)) == RowsOf(items)
              && |RequestLines(RowsOf(items))| == |items|
              && forall i :: 0 <= i < |items| ==> RequestLines(RowsOf(items))[i] == ServerLine(items[i])
    decreases |items|
  {
    if items != [] {
      ReloadRoundTrip(items[1..]);
      var rows := RowsOf(items);
      assert rows == [RowOf(items[0])] + RowsOf(items[1..]);
      assert rows[1..] == RowsOf(items[1..]);
      if forall i :: 0 <= i < |items| ==> ServerItemValid(items[i]) {
        assert ServerItemValid(items[0]);
        assert forall i :: 0 <= i < |items[1..]| ==> ServerItemValid(items[1..][i]) by {
          forall i | 0 <= i < |items[1..]| ensures ServerItemValid(items[1..][i]) {
            assert items[1..][i] == items[i + 1];
          }
        }
        assert ValidItems(rows) == [rows[0]] + ValidItems(rows[1..]);
        ValidItemsSpec(rows);
      }
    }
  }

  /** One request of an update, in the order they are issued. */
  datatype Request =
    | Patch(order: int, status: string, orderDate: string)
    | DeleteItems(order: int)
    | PostItem(order: int, line: LinePayload)

  /** How `handleUpdateOrder` ends. */
  datatype UpdateOutcome = NoValidItems | Updated | UpdateFailed

  /**
   * `handleUpdateOrder`: with no valid row nothing is sent. Otherwise the
   * order's status and date are patched; once that succeeds its line items
   * are deleted; once that succeeds one POST per valid row is issued, all of
   * them before their joint outcome `posts` is awaited. `now` stands for the
   * clock; each reply parameter is the outcome of that call.
   */
  method HandleUpdateOrder(rows: seq<Row>, id: int, status: string, orderDate: string, now: string,
                           patch: Reply<()>, delete: Reply<()>, posts: Reply<()>)
    returns (issued: seq<Request>, outcome: UpdateOutcome)
    ensures outcome == NoValidItems <==> ValidItems(rows) == []
    ensures ValidItems(rows) == [] ==> issued == []
    ensures ValidItems(rows) != [] ==> |issued| >= 1 && issued[0] == Patch(id, status, OrderDateField(orderDate, now))
    ensures ValidItems(rows) != [] && patch.Failure? ==> |issued| == 1 && outcome == UpdateFailed
    ensures ValidItems(rows) != [] && patch.Success? ==> |issued| >= 2 && issued[1] == DeleteItems(id)
    ensures ValidItems(rows) != [] && patch.Success? && delete.Failure? ==> |issued| == 2 && outcome == UpdateFailed
    ensures ValidItems(rows) != [] && patch.Success? && delete.Success? ==>
              && |issued| == 2 + |ValidItems(rows)|
              && (forall i :: 0 <= i < |ValidItems(rows)| ==> issued[2 + i] == PostItem(id, RequestLines(rows)[i]))
              && (outcome == Updated <==> posts.Success?)
    ensures outcome == Updated ==> patch.Success? && delete.Success? && posts.Success?
  {
    var valid := ValidItems(rows);
    if valid == [] {
      return [], NoValidItems;
    }
    issued := [Patch(id, status, OrderDateField(orderDate, now))];
    if patch.Failure? {
      return issued, UpdateFailed;
    }
    issued := issued + [DeleteItems(id)];
    if delete.Failure? {
      return issued, UpdateFailed;
    }
    var lines := RequestLines(rows);
    for i := 0 to |lines|
      invariant |issued| == 2 + i
      invariant issued[0] == Patch(id, status, OrderDateField(orderDate, now)) && issued[1] == DeleteItems(id)
      invariant forall j :: 0 <= j < i ==> issued[2 + j] == PostItem(id, lines[j])
    {
      issued := issued + [PostItem(id, lines[i])];
    }
    outcome := if posts.Success? then Updated else UpdateFailed;
  }

  /** Each POST of an update is one valid row's line item; they carry the same fields as a create's items. */
  lemma PostsCarryValidRows(rows: seq<Row>, i: int)
    requires 0 <= i < |ValidItems(rows)|
    ensures |RequestLines(rows)| == |ValidItems(rows)|
    ensures var line, row := RequestLines(rows)[i], ValidItems(rows)[i];
            && IsValid(row)
            && line == LinePayload(row.productId.value, row.quantity.n, row.productTitle, row.productPrice.n, row.sku)
  {
    ValidItemsSpec(rows);
  }
}
