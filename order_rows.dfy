/**
 * The order line editor shared by the create-order and edit-order forms: an
 * order is a sequence of rows, each naming a product (picked from search
 * suggestions), a quantity and a unit price. Rows are added blank, removed by
 * index, edited one field at a time and filled from a suggestion; the valid
 * rows become the request's line items and the footer shows the total.
 */
module OrderRows {
  import opened Common

  // ---------------------------------------------------------------- numbers

  /** A JavaScript number as `Number(...)` yields it; prices and quantities are whole numbers here. */
  datatype Num = Finite(n: int) | NaN

  predicate IsDigit(c: char) { '0' <= c <= '9' }

  predicate AllDigits(s: string)
  {
    forall i :: 0 <= i < |s| ==> IsDigit(s[i])
  }

  /** The value of a numeral made of decimal digits. */
  function DigitsValue(s: string): nat
    requires AllDigits(s)
  {
    if s == [] then 0 else DigitsValue(s[..|s| - 1]) * 10 + (s[|s| - 1] as int - '0' as int)
  }

  /**
   * `Number(s)` for the integer numerals a number input delivers: surrounding
   * white space is ignored, the empty string is 0, an optional sign may lead
   * the digits, and anything else is NaN.
   */
  function ToNumber(s: string): Num
  {
    NumeralValue(Trim(s))
  }

  /** The value of a trimmed numeral. */
  function NumeralValue(t: string): Num
  {
    if t == "" then Finite(0)
    else if t[0] == '-' && |t| > 1 && AllDigits(t[1..]) then Finite(-(DigitsValue(t[1..]) as int))
    else if t[0] == '+' && |t| > 1 && AllDigits(t[1..]) then Finite(DigitsValue(t[1..]))
    else if AllDigits(t) then Finite(DigitsValue(t))
    else NaN
  }

  lemma {:induction false} NatStringValue(n: nat)
    ensures AllDigits(NatString(n)) && DigitsValue(NatString(n)) == n
    decreases n
  {
    if n >= 10 {
      NatStringValue(n / 10);
      var s := NatString(n);
      assert s[..|s| - 1] == NatString(n / 10);
    }
  }

  lemma NoSpaceTrims(s: string)
    requires NoSpace(s)
    ensures Trim(s) == s
  {
    var t := TrimStart(s);
    assert t == s by {
      if s != [] { assert !IsJsSpace(s[0]); }
    }
    if s != [] { assert !IsJsSpace(s[|s| - 1]); }
  }

  lemma DecimalNoSpace(n: int)
    ensures NoSpace(DecimalString(n))
  {
    var s := DecimalString(n);
    forall i | 0 <= i < |s| ensures !IsJsSpace(s[i]) {
      assert '0' <= s[i] <= '9' || s[i] == '-';
    }
  }

  lemma DigitsNoSpace(s: string)
    requires AllDigits(s)
    ensures NoSpace(s)
  {
    forall i | 0 <= i < |s| ensures !IsJsSpace(s[i]) { assert IsDigit(s[i]); }
  }

  lemma DigitsNumeral(s: string)
    requires s != [] && AllDigits(s)
    ensures NumeralValue(s) == Finite(DigitsValue(s))
  {
    assert IsDigit(s[0]);
  }

  lemma ToNumberOfDigits(s: string)
    requires s != [] && AllDigits(s)
    ensures ToNumber(s) == Finite(DigitsValue(s))
  {
    DigitsNoSpace(s);
    NoSpaceTrims(s);
    DigitsNumeral(s);
  }

  lemma ToNumberOfNegDigits(s: string)
    requires s != [] && AllDigits(s)
    ensures ToNumber("-" + s) == Finite(-(DigitsValue(s) as int))
  {
    var m := "-" + s;
    assert NoSpace(m) by {
      forall i | 0 <= i < |m| ensures !IsJsSpace(m[i]) {
        if i > 0 { assert m[i] == s[i - 1]; assert IsDigit(s[i - 1]); }
      }
    }
    NoSpaceTrims(m);
    assert m[1..] == s;
  }

  lemma NumeralOfValue(d: string, m: nat)
    requires d != [] && AllDigits(d) && DigitsValue(d) == m
    ensures ToNumber(d) == Finite(m)
  {
    ToNumberOfDigits(d);
  }

  lemma NegNumeralOfValue(d: string, m: nat)
    requires d != [] && AllDigits(d) && DigitsValue(d) == m
    ensures ToNumber("-" + d) == Finite(-(m as int))
  {
    ToNumberOfNegDigits(d);
  }

  /** Reading back the text `String(n)` of a whole number gives that number. */
  lemma ToNumberOfDecimal(n: int)
    ensures ToNumber(DecimalString(n)) == Finite(n)
  {
    var m: nat := if n < 0 then -n else n;
    var d := NatString(m);
    NatStringValue(m);
    if n < 0 {
      NegNumeralOfValue(d, m);
      assert DecimalString(n) == "-" + d;
    } else {
      NumeralOfValue(d, m);
    }
  }

  predicate Positive(x: Num) { x.Finite? && x.n > 0 }

  function Mul(x: Num, y: Num): Num
  {
    if x.Finite? && y.Finite? then Finite(x.n * y.n) else NaN
  }

  function Add(x: Num, y: Num): Num
  {
    if x.Finite? && y.Finite? then Finite(x.n + y.n) else NaN
  }

  // ---------------------------------------------------------------- rows

  /** A product offered by the search box under a row. */
  datatype Suggestion = Suggestion(id: int, title: string, sku: string, price: int)

  datatype Row = Row(
    productTitle: string,
    sku: string,
    quantity: Num,
    productPrice: Num,
    productId: Option<int>,
    isLoading: bool,
    suggestions: seq<Suggestion>)

  /** The row `addOrderItem` appends and the form starts with. */
  const BlankRow := Row("", "", Finite(1), Finite(0), None, false, [])

  /** The row fields the inputs edit. */
  datatype RowField = ProductTitleField | SkuField | QuantityField | ProductPriceField

  /** A product search starts for an sku or title value longer than two characters. */
  predicate StartsSearch(field: RowField, value: string)
  {
    (field == SkuField || field == ProductTitleField) && |value| > 2
  }

  /** The write `newItems[index][field] = ...` plus the loading flag, on one row. */
  function WriteField(row: Row, field: RowField, value: string): (r: Row)
    ensures r.productTitle == if field == ProductTitleField then value else row.productTitle
    ensures r.sku == if field == SkuField then value else row.sku
    ensures r.quantity == if field == QuantityField then ToNumber(value) else row.quantity
    ensures r.productPrice == if field == ProductPriceField then ToNumber(value) else row.productPrice
    ensures r.productId == row.productId && r.suggestions == row.suggestions
    ensures r.isLoading == (row.isLoading || StartsSearch(field, value))
  {
    var written :=
      match field
      case ProductTitleField => row.(productTitle := value)
      case SkuField => row.(sku := value)
      case QuantityField => row.(quantity := ToNumber(value))
      case ProductPriceField => row.(productPrice := ToNumber(value));
    if StartsSearch(field, value) then written.(isLoading := true) else written
  }

  /** `Array.isArray(res.data) ? res.data : res.data.results || []` */
  function SearchResults(body: ListBody<Suggestion>): (r: seq<Suggestion>)
    ensures body.ArrayBody? ==> r == body.items
    ensures body.ObjectBody? ==> r == if body.results.Some? then body.results.value else []
  {
    match body
    case ArrayBody(items) => items
    case ObjectBody(results, _) => if results.Some? then results.value else []
  }

  /** One row after the search reply: the results as suggestions, or only the loading flag reset. */
  function AfterSearch(row: Row, reply: Reply<ListBody<Suggestion>>): (r: Row)
    ensures !r.isLoading
    ensures reply.Success? ==> r == row.(suggestions := SearchResults(reply.data), isLoading := false)
    ensures reply.Failure? ==> r == row.(isLoading := false)
  {
    match reply
    case Success(body) => row.(suggestions := SearchResults(body), isLoading := false)
    case Failure(_) => row.(isLoading := false)
  }

  /** `handleSelectSuggestion` on one row: id, title, sku and price from the product; suggestions cleared. */
  function Select(row: Row, p: Suggestion): (r: Row)
    ensures r.productId == Some(p.id) && r.productTitle == p.title && r.sku == p.sku
    ensures r.productPrice == Finite(p.price) && r.suggestions == []
    ensures r.quantity == row.quantity && r.isLoading == row.isLoading
  {
    row.(productId := Some(p.id), productTitle := p.title, sku := p.sku,
         productPrice := Finite(p.price), suggestions := [])
  }

  /** `prev.filter((_, i) => i !== index)`: row `index` goes, the others stay in order. */
  function WithoutIndex(rows: seq<Row>, index: int): (r: seq<Row>)
    ensures 0 <= index < |rows| ==> r == rows[..index] + rows[index + 1..]
    ensures !(0 <= index < |rows|) ==> r == rows
  {
    if rows == [] then []
    else
      var rest := WithoutIndex(rows[1..], index - 1);
      assert rows == [rows[0]] + rows[1..];
      if index == 0 then rest else [rows[0]] + rest
  }

  /** `[...prev, blank]`: one blank row at the end, the others untouched. */
  function WithBlankRow(rows: seq<Row>): (r: seq<Row>)
    ensures |r| == |rows| + 1 && r[..|rows|] == rows && r[|rows|] == BlankRow
  {
    rows + [BlankRow]
  }

  // ---------------------------------------------------------------- the form

  /** The form's state: its rows, the date input and the status select. */
  class OrderForm {
    var items: seq<Row>
    var orderDate: string
    var status: string

    constructor ()
      ensures items == [BlankRow] && orderDate == "" && status == "Pending"
    {
      items := [BlankRow];
      orderDate := "";
      status := "Pending";
    }

    /**
     * `updateOrderItem(index, field, value)`, first half: writes the field of
     * row `index` in place and reports the search it starts, if any.
     */
    method UpdateOrderItem(index: nat, field: RowField, value: string) returns (search: Option<string>)
      requires index < |items|
      modifies this
      ensures items == old(items)[index := WriteField(old(items)[index], field, value)]
      ensures search == if StartsSearch(field, value) then Some(value) else None
      ensures orderDate == old(orderDate) && status == old(status)
    {
      items := items[index := WriteField(items[index], field, value)];
      if StartsSearch(field, value) {
        search := Some(value);
      } else {
        search := None;
      }
    }

    /** `updateOrderItem`, second half: the search reply lands on row `index`. */
    method ApplySearchReply(index: nat, reply: Reply<ListBody<Suggestion>>)
      requires index < |items|
      modifies this
      ensures items == old(items)[index := AfterSearch(old(items)[index], reply)]
      ensures orderDate == old(orderDate) && status == old(status)
    {
      items := items[index := AfterSearch(items[index], reply)];
    }

    method AddOrderItem()
      modifies this
      ensures items == WithBlankRow(old(items))
      ensures orderDate == old(orderDate) && status == old(status)
    {
      items := WithBlankRow(items);
    }

    method RemoveOrderItem(index: int)
      modifies this
      ensures items == WithoutIndex(old(items), index)
      ensures orderDate == old(orderDate) && status == old(status)
    {
      items := WithoutIndex(items, index);
    }

    method SelectSuggestion(index: nat, p: Suggestion)
      requires index < |items|
      modifies this
      ensures items == old(items)[index := Select(old(items)[index], p)]
      ensures orderDate == old(orderDate) && status == old(status)
    {
      items := items[index := Select(items[index], p)];
    }
  }

  // ---------------------------------------------------------------- valid rows, total, payload

  /** `item.productId && item.quantity > 0 && item.productPrice > 0` */
  predicate IsValid(row: Row)
  {
    row.productId.Some? && row.productId.value != 0 && Positive(row.quantity) && Positive(row.productPrice)
  }

  /** `validItems` */
  function ValidItems(rows: seq<Row>): seq<Row>
  {
    if rows == [] then []
    else (if IsValid(rows[0]) then [rows[0]] else []) + ValidItems(rows[1..])
  }

  /** The valid items are, in their original order, exactly the rows with a product, a quantity and a price. */
  lemma {:induction false} ValidItemsSpec(rows: seq<Row>)
    ensures SubseqOf(ValidItems(rows), rows)
    ensures forall r :: r in ValidItems(rows) <==> r in rows && IsValid(r)
    ensures forall i :: 0 <= i < |ValidItems(rows)| ==> IsValid(ValidItems(rows)[i])
    ensures ValidItems(rows) == [] <==> forall i :: 0 <= i < |rows| ==> !IsValid(rows[i])
    decreases |rows|
  {
    if rows != [] {
      var rest := ValidItems(rows[1..]);
      ValidItemsSpec(rows[1..]);
      assert rows == [rows[0]] + rows[1..];
      if IsValid(rows[0]) {
        assert ValidItems(rows) == [rows[0]] + rest;
        assert ([rows[0]] + rest)[1..] == rest;
      } else {
        assert ValidItems(rows) == rest;
        SubseqSkip(rest, rows);
        assert forall i :: 1 <= i < |rows| ==> rows[i] == rows[1..][i - 1];
      }
    }
  }

  /** `reduce((sum, item) => sum + Number(item.productPrice) * Number(item.quantity), 0)` */
  function Total(rows: seq<Row>): Num
  {
    if rows == [] then Finite(0)
    else
      var last := rows[|rows| - 1];
      Add(Total(rows[..|rows| - 1]), Mul(last.productPrice, last.quantity))
  }

  predicate AllFinite(rows: seq<Row>)
  {
    forall i :: 0 <= i < |rows| ==> rows[i].quantity.Finite? && rows[i].productPrice.Finite?
  }

  /** The sum of price times quantity over the rows, as mathematics has it. */
  function AmountSum(rows: seq<Row>): int
    requires AllFinite(rows)
  {
    if rows == [] then 0
    else rows[0].productPrice.n * rows[0].quantity.n + AmountSum(rows[1..])
  }

  lemma {:induction false} AmountSumSnoc(rows: seq<Row>, r: Row)
    requires AllFinite(rows + [r])
    ensures AllFinite(rows) && r.quantity.Finite? && r.productPrice.Finite?
    ensures AmountSum(rows + [r]) == AmountSum(rows) + r.productPrice.n * r.quantity.n
    decreases |rows|
  {
    assert forall i :: 0 <= i < |rows| ==> rows[i] == (rows + [r])[i];
    assert (rows + [r])[|rows|] == r;
    if rows != [] {
      assert (rows + [r])[1..] == rows[1..] + [r];
      AmountSumSnoc(rows[1..], r);
    }
  }

  /**
   * The total runs over every row, valid or not: it is the sum of price times
   * quantity when every row holds numbers, and NaN as soon as one does not.
   */
  lemma {:induction false} TotalIsAmountSum(rows: seq<Row>)
    ensures AllFinite(rows) ==> Total(rows) == Finite(AmountSum(rows))
    ensures !AllFinite(rows) ==> Total(rows) == NaN
    decreases |rows|
  {
    if rows != [] {
      var init, last := rows[..|rows| - 1], rows[|rows| - 1];
      TotalIsAmountSum(init);
      assert rows == init + [last];
      if AllFinite(rows) {
        AmountSumSnoc(init, last);
      } else if AllFinite(init) {
        assert !(last.quantity.Finite? && last.productPrice.Finite?);
      }
    }
  }

  /** A blank row adds nothing to the total. */
  lemma BlankRowAddsNothing(rows: seq<Row>)
    ensures Total(WithBlankRow(rows)) == Total(rows)
  {
    assert WithBlankRow(rows)[..|rows|] == rows;
  }

  /** One line item of a request body. */
  datatype LinePayload = LinePayload(product: int, quantity: int, productTitle: string, productPrice: int, productSku: string)

  function LineOf(row: Row): (l: LinePayload)
    requires IsValid(row)
    ensures l.quantity > 0 && l.productPrice > 0 && l.product != 0
  {
    LinePayload(row.productId.value, row.quantity.n, row.productTitle, row.productPrice.n, row.sku)
  }

  /** `validItems.map(item => ({product, quantity, product_title, product_price, product_sku}))` */
  function LinesOf(valid: seq<Row>): (r: seq<LinePayload>)
    requires forall i :: 0 <= i < |valid| ==> IsValid(valid[i])
    ensures |r| == |valid|
    ensures forall i :: 0 <= i < |valid| ==>
              && IsValid(valid[i])
              && r[i].product == valid[i].productId.value
              && r[i].quantity == valid[i].quantity.n
              && r[i].productTitle == valid[i].productTitle
              && r[i].productPrice == valid[i].productPrice.n
              && r[i].productSku == valid[i].sku
  {
    seq(|valid|, i requires 0 <= i < |valid| => LineOf(valid[i]))
  }

  /** The line items a save sends: one per valid row, in order. */
  function RequestLines(rows: seq<Row>): (r: seq<LinePayload>)
    ensures |r| == |ValidItems(rows)|
  {
    ValidItemsSpec(rows);
    LinesOf(ValidItems(rows))
  }

  /** `order_date`: the chosen day at midnight UTC, else the current time `now` (the clock is a parameter). */
  function OrderDateField(orderDate: string, now: string): (r: string)
    ensures orderDate != "" ==> r == orderDate + "T00:00:00Z"
    ensures orderDate == "" ==> r == now
  {
    if orderDate != "" then orderDate + "T00:00:00Z" else now
  }
}
