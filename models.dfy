/**
 * The backend's model-level logic: the user manager's creation defaults,
 * the short name of a user, the slug a product gets when saved without one,
 * the amount an order computes when saved, an order item's total, and the
 * status choices of products and orders.
 */
module Models {
  import opened Common
  import OrderRows
  import CreateOrder
  import EditOrder
  import EditProduct

  // ---------------------------------------------------------------- users

  /** `extra_fields.setdefault(key, v)` */
  function SetDefault(extra: map<string, bool>, key: string, v: bool): (r: map<string, bool>)
    ensures key in r && r[key] == (if key in extra then extra[key] else v)
    ensures forall k :: k in extra ==> k in r && r[k] == extra[k]
    ensures forall k :: k in r ==> k in extra || k == key
  {
    if key in extra then extra else extra[key := v]
  }

  /** The fields `create_user` (`admin` false) or `create_superuser` (`admin` true) passes on. */
  function CreationFields(extra: map<string, bool>, admin: bool): map<string, bool>
  {
    SetDefault(SetDefault(extra, "is_staff", admin), "is_superuser", admin)
  }

  /**
   * `is_staff` and `is_superuser` default to false for `create_user` and to
   * true for `create_superuser`, a value passed explicitly wins, and every
   * other field passes through unchanged.
   */
  lemma CreationFieldsSpec(extra: map<string, bool>, admin: bool)
    ensures var f := CreationFields(extra, admin);
            && "is_staff" in f && "is_superuser" in f
            && f["is_staff"] == (if "is_staff" in extra then extra["is_staff"] else admin)
            && f["is_superuser"] == (if "is_superuser" in extra then extra["is_superuser"] else admin)
            && (forall k :: k in extra ==> k in f && f[k] == extra[k])
            && (forall k :: k in f ==> k in extra || k == "is_staff" || k == "is_superuser")
  {
    var once := SetDefault(extra, "is_staff", admin);
    assert "is_staff" in once;
  }

  /** A user as `_create_user` builds and saves it. */
  datatype NewUser = NewUser(email: string, fields: map<string, bool>)

  datatype CreateResult = Created(user: NewUser) | ValueError(message: string)

  /** The users saved so far. */
  class UserManager {
    var saved: seq<NewUser>

    constructor ()
      ensures saved == []
    {
      saved := [];
    }

    /**
     * `_create_user(email, password, **extra_fields)`: a missing or empty
     * email raises before anything is built or saved; otherwise the user is
     * built with the email and the fields and saved.
     */
    method CreateUserRecord(email: Option<string>, extra: map<string, bool>) returns (r: CreateResult)
      modifies this
      ensures (email.None? || email.value == "") ==> r == ValueError("The Email field must be set") && saved == old(saved)
      ensures email.Some? && email.value != "" ==>
                r == Created(NewUser(email.value, extra)) && saved == old(saved) + [r.user]
    {
      if email.None? || email.value == "" {
        return ValueError("The Email field must be set");
      }
      var user := NewUser(email.value, extra);
      saved := saved + [user];
      r := Created(user);
    }

    /** `create_user` (`admin` false) and `create_superuser` (`admin` true). */
    method CreateUser(email: Option<string>, extra: map<string, bool>, admin: bool) returns (r: CreateResult)
      modifies this
      ensures (email.None? || email.value == "") ==> r.ValueError? && saved == old(saved)
      ensures email.Some? && email.value != "" ==>
                r == Created(NewUser(email.value, CreationFields(extra, admin))) && saved == old(saved) + [r.user]
    {
      r := CreateUserRecord(email, CreationFields(extra, admin));
    }
  }

  /** `self.name or self.email.split('@')[0]` */
  function ShortName(name: string, email: string): (r: string)
    ensures name != "" ==> r == name
    ensures name == "" ==> r <= email && '@' !in r && (r == email || email[|r|] == '@')
  {
    if name != "" then name else BeforeFirst(email, '@')
  }

  // ---------------------------------------------------------------- products

  const ProductStatuses: set<string> := {"available", "out_of_stock"}

  /** The slug a save keeps: the stored one when set, else the slug of the title. */
  function SlugOnSave(slug: string, slugOfTitle: string): (r: string)
    ensures slug != "" ==> r == slug
    ensures slug == "" ==> r == slugOfTitle
  {
    if slug == "" then slugOfTitle else slug
  }

  /** Saving twice gives the slug saving once gave, and a set slug is never overwritten. */
  lemma SlugOnSaveStable(slug: string, slugOfTitle: string, later: string)
    ensures SlugOnSave(slug, slugOfTitle) != "" ==> SlugOnSave(SlugOnSave(slug, slugOfTitle), later) == SlugOnSave(slug, slugOfTitle)
  {
  }

  class ProductRow {
    var title: string
    var slug: string
    var price: nat
    var status: string
    var saves: nat

    constructor (title: string, slug: string, price: nat)
      ensures this.title == title && this.slug == slug && this.price == price
      ensures status == "available" && saves == 0
    {
      this.title := title;
      this.slug := slug;
      this.price := price;
      status := "available";
      saves := 0;
    }

    /**
     * `Product.save`: an empty slug becomes the slug of the title before the
     * row is written. `slugOfTitle` is what `slugify(self.title)` returns.
     */
    method Save(slugOfTitle: string)
      modifies this
      ensures slug == SlugOnSave(old(slug), slugOfTitle) && saves == old(saves) + 1
      ensures title == old(title) && price == old(price) && status == old(status)
    {
      if slug == "" {
        slug := slugOfTitle;
      }
      saves := saves + 1;
    }
  }

  // ---------------------------------------------------------------- orders

  const OrderStatuses: set<string> := {"pending", "completed", "cancelled"}

  /**
   * The amount a save leaves once the product is loaded: quantity times the
   * product's price when the quantity is not zero, else the old amount.
   */
  function AmountOnSave(productPrice: nat, quantity: nat, amount: nat): (r: nat)
    ensures quantity != 0 ==> r == quantity * productPrice
    ensures quantity == 0 ==> r == amount
  {
    if quantity != 0 then quantity * productPrice else amount
  }

  /** What `Order.save` ends in: the row is written, or reading `self.product` raises. */
  datatype SaveOutcome = Saved | RelatedObjectDoesNotExist

  class OrderRow {
    var productPrice: Option<nat>   // the price of `self.product`, `None` when no product is linked
    var quantity: nat
    var amount: nat
    var saves: nat

    constructor (productPrice: Option<nat>, quantity: nat)
      ensures this.productPrice == productPrice && this.quantity == quantity && amount == 0 && saves == 0
    {
      this.productPrice := productPrice;
      this.quantity := quantity;
      amount := 0;
      saves := 0;
    }

    /**
     * `Order.save`. `product` is a non-null foreign key, so reading it on an
     * order with no product linked raises before anything is written; a
     * loaded product is always truthy.
     */
    method Save() returns (r: SaveOutcome)
      modifies this
      ensures old(productPrice).None? ==>
                r == RelatedObjectDoesNotExist && amount == old(amount) && saves == old(saves)
      ensures old(productPrice).Some? ==>
                && r == Saved
                && amount == AmountOnSave(old(productPrice).value, old(quantity), old(amount))
                && saves == old(saves) + 1
      ensures productPrice == old(productPrice) && quantity == old(quantity)
    {
      if productPrice.None? {
        return RelatedObjectDoesNotExist;
      }
      if quantity != 0 {
        amount := quantity * productPrice.value;
      }
      saves := saves + 1;
      r := Saved;
    }
  }

  /** Saving an order twice computes the same amount as saving it once. */
  lemma AmountOnSaveIdempotent(productPrice: nat, quantity: nat, amount: nat)
    ensures AmountOnSave(productPrice, quantity, AmountOnSave(productPrice, quantity, amount)) == AmountOnSave(productPrice, quantity, amount)
  {
  }

  /** `OrderItem.total_price`: zero exactly when the quantity or the price is, and never below the price of one unit. */
  function TotalPrice(quantity: nat, price: nat): (r: nat)
    ensures r == 0 <==> quantity == 0 || price == 0
    ensures quantity > 0 ==> r >= price
  {
    quantity * price
  }

  /** Every line item carries a quantity and a price an `OrderItem` can store. */
  predicate Storable(lines: seq<OrderRows.LinePayload>)
  {
    forall i :: 0 <= i < |lines| ==> lines[i].quantity >= 0 && lines[i].productPrice >= 0
  }

  /** The sum of `total_price` over the order items the line items become. */
  function ItemsTotal(lines: seq<OrderRows.LinePayload>): int
    requires Storable(lines)
  {
    if lines == [] then 0
    else TotalPrice(lines[0].quantity, lines[0].productPrice) + ItemsTotal(lines[1..])
  }

  /**
   * When every row of an order form is valid, every line item it sends is
   * storable and the total its footer shows is the sum of `total_price`
   * over those items.
   */
  lemma {:induction false} FooterMatchesItemTotals(rows: seq<OrderRows.Row>)
    requires forall i :: 0 <= i < |rows| ==> OrderRows.IsValid(rows[i])
    ensures OrderRows.ValidItems(rows) == rows
    ensures Storable(OrderRows.RequestLines(rows))
    ensures OrderRows.Total(rows) == OrderRows.Finite(ItemsTotal(OrderRows.RequestLines(rows)))
  {
    OrderRows.ValidItemsSpec(rows);
    AllValidKept(rows);
    assert OrderRows.AllFinite(rows);
    OrderRows.TotalIsAmountSum(rows);
    LinesSum(rows);
  }

  lemma {:induction false} AllValidKept(rows: seq<OrderRows.Row>)
    requires forall i :: 0 <= i < |rows| ==> OrderRows.IsValid(rows[i])
    ensures OrderRows.ValidItems(rows) == rows
    decreases |rows|
  {
    if rows != [] {
      AllValidKept(rows[1..]);
    }
  }

  lemma {:induction false} LinesSum(valid: seq<OrderRows.Row>)
    requires forall i :: 0 <= i < |valid| ==> OrderRows.IsValid(valid[i])
    ensures OrderRows.AllFinite(valid)
    ensures Storable(OrderRows.LinesOf(valid))
    ensures ItemsTotal(OrderRows.LinesOf(valid)) == OrderRows.AmountSum(valid)
    decreases |valid|
  {
    if valid != [] {
      LinesSum(valid[1..]);
      assert OrderRows.LinesOf(valid)[1..] == OrderRows.LinesOf(valid[1..]);
    }
  }

  /**
   * The product statuses the edit form offers are exactly the model's
   * choices, while the order statuses both order forms offer and send
   * ("Pending", "Completed", "Cancelled") are none of the model's
   * lower-case choices.
   */
  lemma ChoiceSets()
    ensures (set s | s in EditProduct.StatusOptions) == ProductStatuses
    ensures EditOrder.StatusOptions == CreateOrder.StatusOptions
    ensures (set s | s in CreateOrder.StatusOptions) * OrderStatuses == {}
  {
    assert "Pending" != "pending" && "Completed" != "completed" && "Cancelled" != "cancelled";
  }
}
