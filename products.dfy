/**
 * The product list page: the fetched products go through a filter (search
 * text, status select, category select), a sort driven by the column
 * headers, and a slice of twenty per page. Deleting a product and loading
 * the category options live here too.
 */
module Products {
  import opened Common

  const ProductsPerPage: nat := 20

  datatype CategoryDetails = CategoryDetails(id: int, title: Option<string>)

  /** A product as the products endpoint returns it; `None` is a missing field. */
  datatype Product = Product(
    id: int,
    title: Option<string>,
    category: Option<int>,
    categoryDetails: Option<CategoryDetails>,
    status: Option<string>,
    stock: Option<int>,
    price: Option<int>)

  /** The two select boxes; "" means "all". */
  datatype Filters = Filters(status: string, category: string)

  // ---------------------------------------------------------------- loading

  /** Where the list sits in the body: a bare array, else `results`, else `data`, else nothing. */
  function ProductsOf(body: ListBody<Product>): (r: seq<Product>)
    ensures body.ArrayBody? ==> r == body.items
    ensures body.ObjectBody? && body.results.Some? ==> r == body.results.value
    ensures body.ObjectBody? && body.results.None? && body.data.Some? ==> r == body.data.value
    ensures body.ObjectBody? && body.results.None? && body.data.None? ==> r == []
  {
    match body
    case ArrayBody(items) => items
    case ObjectBody(results, data) =>
      if results.Some? then results.value else if data.Some? then data.value else []
  }

  datatype ListState = ListState(products: seq<Product>, loading: bool, error: Option<Value>)

  const InitialList := ListState([], true, None)

  /** The products fetch: the list on success, the error message on failure; loading ends either way. */
  function AfterFetchProducts(st: ListState, reply: Reply<ListBody<Product>>): (r: ListState)
    ensures !r.loading
    ensures reply.Success? ==> r.products == ProductsOf(reply.data) && r.error == st.error
    ensures reply.Failure? ==> r.products == st.products && r.error == Some(reply.error.jsMessage)
  {
    match reply
    case Success(body) => st.(products := ProductsOf(body), loading := false)
    case Failure(e) => st.(error := Some(e.jsMessage), loading := false)
  }

  const DefaultCategories: seq<CategoryOption> := [
    CategoryOption(Str("1"), "Electronics"),
    CategoryOption(Str("2"), "Clothing"),
    CategoryOption(Str("3"), "Home & Garden"),
    CategoryOption(Str("4"), "Beauty & Personal Care"),
    CategoryOption(Str("5"), "Sports & Outdoors"),
    CategoryOption(Str("6"), "Toys & Games"),
    CategoryOption(Str("7"), "Food & Beverage"),
    CategoryOption(Str("8"), "Books & Media"),
    CategoryOption(Str("9"), "Office Supplies"),
    CategoryOption(Str("10"), "Health & Wellness"),
    CategoryOption(Str("11"), "Automotive"),
    CategoryOption(Str("12"), "Pet Supplies"),
    CategoryOption(Str("13"), "Household Goods"),
    CategoryOption(Str("14"), "Jewelry & Accessories"),
    CategoryOption(Str("15"), "Arts & Crafts"),
    CategoryOption(Str("16"), "Other")
  ]

  /** A fetched category as an option, its id stringified. */
  function AsOption(c: DbCategory): CategoryOption
  {
    CategoryOption(Str(DecimalString(c.id)), c.title)
  }

  function AsOptions(cs: seq<DbCategory>): (r: seq<CategoryOption>)
    ensures |r| == |cs|
    ensures forall i :: 0 <= i < |cs| ==> r[i] == CategoryOption(Str(DecimalString(cs[i].id)), cs[i].title)
  {
    if cs == [] then [] else [AsOption(cs[0])] + AsOptions(cs[1..])
  }

  /** The category options: the sixteen defaults, then the fetched ones; the defaults alone on failure. */
  function CategoriesAfterFetch(reply: Reply<ListBody<DbCategory>>): (r: seq<CategoryOption>)
    ensures |DefaultCategories| == 16 && |r| >= 16
    ensures r[..16] == DefaultCategories
    ensures reply.Failure? ==> r == DefaultCategories
    ensures reply.Success? ==> r[16..] == AsOptions(ArrayOrEmpty(reply.data))
  {
    match reply
    case Success(body) => DefaultCategories + AsOptions(ArrayOrEmpty(body))
    case Failure(_) => DefaultCategories
  }

  // ---------------------------------------------------------------- filter

  /** `field?.toLowerCase().includes(search)`, with `search` already lower-cased. */
  predicate FieldMatches(field: Option<string>, search: string)
  {
    field.Some? && Includes(Lower(field.value), search)
  }

  predicate MatchesSearch(p: Product, searchTerm: string)
  {
    var search := Lower(searchTerm);
    || FieldMatches(p.title, search)
    || (p.categoryDetails.Some? && FieldMatches(p.categoryDetails.value.title, search))
    || FieldMatches(p.status, search)
  }

  predicate MatchesStatus(p: Product, f: Filters)
  {
    f.status == "" || p.status == Some(f.status)
  }

  /** `String(product.category_details?.id)`: "undefined" when the product has no category details. */
  function CategoryIdText(p: Product): string
  {
    if p.categoryDetails.Some? then DecimalString(p.categoryDetails.value.id) else "undefined"
  }

  predicate MatchesCategory(p: Product, f: Filters)
  {
    f.category == "" || CategoryIdText(p) == f.category
  }

  predicate Keeps(p: Product, searchTerm: string, f: Filters)
  {
    MatchesSearch(p, searchTerm) && MatchesStatus(p, f) && MatchesCategory(p, f)
  }

  /** `filteredProducts` */
  function FilterProducts(products: seq<Product>, searchTerm: string, f: Filters): seq<Product>
  {
    if products == [] then []
    else (if Keeps(products[0], searchTerm, f) then [products[0]] else [])
         + FilterProducts(products[1..], searchTerm, f)
  }

  /**
   * The filtered list is a subsequence of the products; it holds exactly the
   * products that match the search and both selectors, as often as they occur.
   */
  lemma {:induction false} FilterProductsSpec(products: seq<Product>, searchTerm: string, f: Filters)
    ensures SubseqOf(FilterProducts(products, searchTerm, f), products)
    ensures forall p :: p in FilterProducts(products, searchTerm, f) <==> p in products && Keeps(p, searchTerm, f)
    ensures forall p :: Keeps(p, searchTerm, f) ==>
              multiset(FilterProducts(products, searchTerm, f))[p] == multiset(products)[p]
  {
    if products != [] {
      var rest := FilterProducts(products[1..], searchTerm, f);
      FilterProductsSpec(products[1..], searchTerm, f);
      assert products == [products[0]] + products[1..];
      if Keeps(products[0], searchTerm, f) {
        assert FilterProducts(products, searchTerm, f) == [products[0]] + rest;
        assert ([products[0]] + rest)[1..] == rest;
      } else {
        assert FilterProducts(products, searchTerm, f) == rest;
        SubseqSkip(rest, products);
      }
    }
  }

  /** With an empty search and both selectors on "all", every product that has a title is kept. */
  lemma EmptyFiltersKeepTitled(products: seq<Product>)
    ensures forall p :: p in products && p.title.Some? ==> p in FilterProducts(products, "", Filters("", ""))
  {
    FilterProductsSpec(products, "", Filters("", ""));
    assert Lower("") == "";
    forall p | p in products && p.title.Some?
      ensures Keeps(p, "", Filters("", ""))
    {
      assert "" <= Lower(p.title.value);
    }
  }

  // ---------------------------------------------------------------- sort

  /** The sortable columns. */
  datatype SortKey = TitleKey | CategoryKey | StatusKey | StockKey | PriceKey
  datatype Direction = Asc | Desc
  datatype SortConfig = SortConfig(key: Option<SortKey>, direction: Direction)

  /** No column chosen yet. */
  const InitialSort := SortConfig(None, Asc)

  /** `requestSort(k)`: a click on the current ascending column turns it descending; otherwise ascending on `k`. */
  function RequestSort(cfg: SortConfig, k: SortKey): (r: SortConfig)
    ensures r.key == Some(k)
    ensures r.direction == Desc <==> cfg.key == Some(k) && cfg.direction == Asc
  {
    SortConfig(Some(k), if cfg.key == Some(k) && cfg.direction == Asc then Desc else Asc)
  }

  /** Repeated clicks on one column alternate between ascending and descending. */
  lemma RequestSortAlternates(cfg: SortConfig, k: SortKey)
    ensures RequestSort(RequestSort(cfg, k), k).direction != RequestSort(cfg, k).direction
    ensures RequestSort(RequestSort(RequestSort(cfg, k), k), k) == RequestSort(cfg, k)
  {
  }

  /** The value `a[sortConfig.key]` reads. */
  datatype SortValue = Absent | NumValue(n: int) | TextValue(s: string)

  function OptText(o: Option<string>): SortValue { if o.Some? then TextValue(o.value) else Absent }
  function OptNum(o: Option<int>): SortValue { if o.Some? then NumValue(o.value) else Absent }

  function FieldValue(p: Product, k: SortKey): SortValue
  {
    match k
    case TitleKey => OptText(p.title)
    case CategoryKey => OptNum(p.category)
    case StatusKey => OptText(p.status)
    case StockKey => OptNum(p.stock)
    case PriceKey => OptNum(p.price)
  }

  /**
   * JavaScript's `<` on strings, taken as lexicographic order on Unicode
   * scalar values. JavaScript compares UTF-16 code units, which orders a
   * character above U+FFFF differently against one from U+E000 to U+FFFF.
   */
  predicate LexLess(a: string, b: string)
    decreases |a|
  {
    if a == [] then b != []
    else if b == [] then false
    else if a[0] < b[0] then true
    else if a[0] == b[0] then LexLess(a[1..], b[1..])
    else false
  }

  /** JavaScript's `<` on the values a column holds; an absent value is never smaller or larger. */
  predicate JsLess(x: SortValue, y: SortValue)
  {
    match (x, y)
    case (NumValue(a), NumValue(b)) => a < b
    case (TextValue(a), TextValue(b)) => LexLess(a, b)
    case _ => false
  }

  /** The comparator handed to `sort`. */
  function Compare(cfg: SortConfig, a: Product, b: Product): int
  {
    if cfg.key.None? then 0
    else
      var x, y := FieldValue(a, cfg.key.value), FieldValue(b, cfg.key.value);
      if JsLess(x, y) then (if cfg.direction == Asc then -1 else 1)
      else if JsLess(y, x) then (if cfg.direction == Asc then 1 else -1)
      else 0
  }

  /** A total preorder on column values: absent first, then numbers, then texts. */
  predicate ValueLe(x: SortValue, y: SortValue)
  {
    match (x, y)
    case (Absent, _) => true
    case (_, Absent) => false
    case (NumValue(a), NumValue(b)) => a <= b
    case (NumValue(_), TextValue(_)) => true
    case (TextValue(_), NumValue(_)) => false
    case (TextValue(a), TextValue(b)) => !LexLess(b, a)
  }

  /** `a` may stand before `b` in the sorted list. */
  predicate Precedes(cfg: SortConfig, a: Product, b: Product)
  {
    if cfg.key.None? then true
    else
      var x, y := FieldValue(a, cfg.key.value), FieldValue(b, cfg.key.value);
      if cfg.direction == Asc then ValueLe(x, y) else ValueLe(y, x)
  }

  lemma {:induction false} LexLessAsym(a: string, b: string)
    ensures !(LexLess(a, b) && LexLess(b, a))
    decreases |a|
  {
    if a != [] && b != [] && a[0] == b[0] {
      LexLessAsym(a[1..], b[1..]);
    }
  }

  lemma {:induction false} LexLeTrans(a: string, b: string, c: string)
    requires !LexLess(b, a) && !LexLess(c, b)
    ensures !LexLess(c, a)
    decreases |a|
  {
    if a != [] && b != [] && c != [] && a[0] == b[0] && b[0] == c[0] {
      LexLeTrans(a[1..], b[1..], c[1..]);
    }
  }

  lemma PrecedesTotal(cfg: SortConfig, a: Product, b: Product)
    ensures Precedes(cfg, a, b) || Precedes(cfg, b, a)
  {
    if cfg.key.Some? {
      var x, y := FieldValue(a, cfg.key.value), FieldValue(b, cfg.key.value);
      if x.TextValue? && y.TextValue? {
        LexLessAsym(x.s, y.s);
      }
    }
  }

  lemma PrecedesTrans(cfg: SortConfig, a: Product, b: Product, c: Product)
    requires Precedes(cfg, a, b) && Precedes(cfg, b, c)
    ensures Precedes(cfg, a, c)
  {
    if cfg.key.Some? {
      var x, y, z := FieldValue(a, cfg.key.value), FieldValue(b, cfg.key.value), FieldValue(c, cfg.key.value);
      if x.TextValue? && y.TextValue? && z.TextValue? {
        if cfg.direction == Asc {
          LexLeTrans(x.s, y.s, z.s);
        } else {
          LexLeTrans(z.s, y.s, x.s);
        }
      }
    }
  }

  /**
   * Where both products carry the column's value, the model's order is the
   * comparator's: `compare(a, b) <= 0` exactly when `a` may stand before `b`.
   */
  lemma ComparatorAgrees(cfg: SortConfig, a: Product, b: Product)
    requires cfg.key.Some?
    requires FieldValue(a, cfg.key.value) != Absent && FieldValue(b, cfg.key.value) != Absent
    ensures Compare(cfg, a, b) <= 0 <==> Precedes(cfg, a, b)
  {
    var x, y := FieldValue(a, cfg.key.value), FieldValue(b, cfg.key.value);
    if x.TextValue? && y.TextValue? {
      LexLessAsym(x.s, y.s);
    }
  }

  /** With no column chosen the comparator calls every pair equal. */
  lemma UnsortedComparesEqual(a: Product, b: Product, d: Direction)
    ensures Compare(SortConfig(None, d), a, b) == 0
  {
  }

  predicate Sorted(cfg: SortConfig, s: seq<Product>)
  {
    forall i, j :: 0 <= i < j < |s| ==> Precedes(cfg, s[i], s[j])
  }

  /** Puts `x` after the last element of the sorted `t` that may precede it. */
  function Insert(cfg: SortConfig, t: seq<Product>, x: Product): (r: seq<Product>)
    ensures multiset(r) == multiset(t) + multiset{x}
    decreases |t|
  {
    if t == [] then [x]
    else if Precedes(cfg, t[|t| - 1], x) then t + [x]
    else
      assert t == t[..|t| - 1] + [t[|t| - 1]];
      Insert(cfg, t[..|t| - 1], x) + [t[|t| - 1]]
  }

  /** `[...filteredProducts].sort(compare)`, as a stable insertion sort on a copy. */
  function SortProducts(cfg: SortConfig, s: seq<Product>): (r: seq<Product>)
    ensures multiset(r) == multiset(s)
    decreases |s|
  {
    if s == [] then []
    else
      assert s == s[..|s| - 1] + [s[|s| - 1]];
      Insert(cfg, SortProducts(cfg, s[..|s| - 1]), s[|s| - 1])
  }

  lemma {:induction false} InsertSorted(cfg: SortConfig, t: seq<Product>, x: Product)
    requires Sorted(cfg, t)
    ensures Sorted(cfg, Insert(cfg, t, x))
    decreases |t|
  {
    if t != [] {
      var n := |t|;
      var last := t[n - 1];
      if Precedes(cfg, last, x) {
        var r := t + [x];
        forall i, j | 0 <= i < j < |r| ensures Precedes(cfg, r[i], r[j]) {
          if j == n && i < n - 1 {
            PrecedesTrans(cfg, t[i], last, x);
          }
        }
      } else {
        PrecedesTotal(cfg, last, x);
        var t' := t[..n - 1];
        var u := Insert(cfg, t', x);
        InsertSorted(cfg, t', x);
        var r := u + [last];
        assert r == Insert(cfg, t, x);
        forall i, j | 0 <= i < j < |r| ensures Precedes(cfg, r[i], r[j]) {
          if j == |u| {
            assert r[i] in multiset(u);
            if r[i] != x {
              assert r[i] in multiset(t');
              var k :| 0 <= k < |t'| && t'[k] == r[i];
              assert t[k] == r[i];
            }
          } else {
            assert r[i] == u[i] && r[j] == u[j];
          }
        }
      }
    }
  }

  /** The sorted list is a permutation of the filtered list, in the chosen direction of the chosen column. */
  lemma {:induction false} SortProductsSpec(cfg: SortConfig, s: seq<Product>)
    ensures multiset(SortProducts(cfg, s)) == multiset(s)
    ensures Sorted(cfg, SortProducts(cfg, s))
    decreases |s|
  {
    if s != [] {
      SortProductsSpec(cfg, s[..|s| - 1]);
      InsertSorted(cfg, SortProducts(cfg, s[..|s| - 1]), s[|s| - 1]);
    }
  }

  /** While no column is chosen the sort keeps the filtered order. */
  lemma {:induction false} UnsortedKeepsOrder(s: seq<Product>, d: Direction)
    ensures SortProducts(SortConfig(None, d), s) == s
    decreases |s|
  {
    if s != [] {
      UnsortedKeepsOrder(s[..|s| - 1], d);
      assert s == s[..|s| - 1] + [s[|s| - 1]];
    }
  }

  // ---------------------------------------------------------------- pages

  function Min(a: int, b: int): int { if a <= b then a else b }

  /** `sortedProducts.slice((page - 1) * 20, page * 20)` */
  function PageOf(sorted: seq<Product>, page: int): seq<Product>
  {
    JsSlice(sorted, page * ProductsPerPage - ProductsPerPage, page * ProductsPerPage)
  }

  /** Page `p` holds the sorted elements at indices (p-1)*20 up to p*20-1, so at most twenty. */
  lemma PageContents(sorted: seq<Product>, page: int)
    requires page >= 1
    ensures (page - 1) * ProductsPerPage >= 0
    ensures PageOf(sorted, page) ==
              sorted[Min((page - 1) * ProductsPerPage, |sorted|)..Min(page * ProductsPerPage, |sorted|)]
    ensures |PageOf(sorted, page)| <= ProductsPerPage
  {
  }

  /** `Math.ceil(n / 20)` */
  function PageCount(n: nat): (r: nat)
  {
    (n + ProductsPerPage - 1) / ProductsPerPage
  }

  lemma PageCountBounds(n: nat)
    ensures PageCount(n) * ProductsPerPage >= n
    ensures n > 0 ==> (PageCount(n) - 1) * ProductsPerPage < n
    ensures PageCount(n) == 0 <==> n == 0
  {
  }

  /** Pages 1 to k laid end to end. */
  function FirstPages(sorted: seq<Product>, k: nat): seq<Product>
  {
    if k == 0 then [] else FirstPages(sorted, k - 1) + PageOf(sorted, k)
  }

  lemma {:induction false} FirstPagesPrefix(sorted: seq<Product>, k: nat)
    ensures FirstPages(sorted, k) == sorted[..Min(k * ProductsPerPage, |sorted|)]
  {
    if k > 0 {
      FirstPagesPrefix(sorted, k - 1);
      PageContents(sorted, k);
      var a, b := Min((k - 1) * ProductsPerPage, |sorted|), Min(k * ProductsPerPage, |sorted|);
      assert sorted[..a] + sorted[a..b] == sorted[..b];
    }
  }

  /** Pages 1 to ceil(n/20) partition the sorted list: laid end to end they are the list itself. */
  lemma PagesPartition(sorted: seq<Product>)
    ensures FirstPages(sorted, PageCount(|sorted|)) == sorted
  {
    FirstPagesPrefix(sorted, PageCount(|sorted|));
    PageCountBounds(|sorted|);
  }

  /** The page buttons: shown only when there are more than twenty products, numbered 1 to ceil(n/20). */
  function PageButtons(n: nat): (r: seq<nat>)
    ensures n <= ProductsPerPage ==> r == []
    ensures n > ProductsPerPage ==> |r| == PageCount(n) && forall i :: 0 <= i < |r| ==> r[i] == i + 1
  {
    if n > ProductsPerPage then seq(PageCount(n), i => i + 1) else []
  }

  /** What the table shows: one page of the sorted, filtered products. */
  function CurrentProducts(products: seq<Product>, searchTerm: string, f: Filters, cfg: SortConfig, page: int): seq<Product>
  {
    PageOf(SortProducts(cfg, FilterProducts(products, searchTerm, f)), page)
  }

  /** Every product shown is a fetched product that passes the filter. */
  lemma CurrentProductsKept(products: seq<Product>, searchTerm: string, f: Filters, cfg: SortConfig, page: int)
    ensures forall p :: p in CurrentProducts(products, searchTerm, f, cfg, page) ==>
              p in products && Keeps(p, searchTerm, f)
  {
    var filtered := FilterProducts(products, searchTerm, f);
    var sorted := SortProducts(cfg, filtered);
    FilterProductsSpec(products, searchTerm, f);
    forall p | p in CurrentProducts(products, searchTerm, f, cfg, page)
      ensures p in products && Keeps(p, searchTerm, f)
    {
      assert p in sorted;
      assert p in multiset(sorted);
      assert p in filtered;
    }
  }

  // ---------------------------------------------------------------- delete

  function WithoutId(products: seq<Product>, id: int): seq<Product>
  {
    if products == [] then []
    else (if products[0].id != id then [products[0]] else []) + WithoutId(products[1..], id)
  }

  /** `handleDelete(id)`: after a successful DELETE the list loses every product with that id. */
  function AfterDelete(products: seq<Product>, id: int, reply: Reply<()>): seq<Product>
  {
    if reply.Success? then WithoutId(products, id) else products
  }

  /**
   * A successful delete leaves no product with that id and keeps every other
   * product, in order and as often as it occurs; a failed one leaves the list as it was.
   */
  lemma {:induction false} AfterDeleteSpec(products: seq<Product>, id: int, reply: Reply<()>)
    ensures reply.Failure? ==> AfterDelete(products, id, reply) == products
    ensures reply.Success? ==> SubseqOf(AfterDelete(products, id, reply), products)
    ensures reply.Success? ==> forall p :: p in AfterDelete(products, id, reply) <==> p in products && p.id != id
    ensures reply.Success? ==> forall p :: multiset(AfterDelete(products, id, reply))[p] == if p.id == id then 0 else multiset(products)[p]
    decreases |products|
  {
    if reply.Success? && products != [] {
      var rest := WithoutId(products[1..], id);
      AfterDeleteSpec(products[1..], id, reply);
      assert products == [products[0]] + products[1..];
      assert multiset(products) == multiset{products[0]} + multiset(products[1..]);
      if products[0].id != id {
        assert WithoutId(products, id) == [products[0]] + rest;
        assert multiset(WithoutId(products, id)) == multiset{products[0]} + multiset(rest);
        assert ([products[0]] + rest)[1..] == rest;
      } else {
        assert WithoutId(products, id) == rest;
        SubseqSkip(rest, products);
      }
    }
  }
}
