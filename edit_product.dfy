/**
 * The edit-product page: the fetched product defaulted into the form
 * record, its category defaults (numbered "1" to "16"), the form data an
 * update sends, and the submission with its error message.
 */
module EditProduct {
  import opened Common
  import opened ProductForm

  /** The status select's option values. */
  const StatusOptions: seq<string> := ["available", "out_of_stock"]

  const DefaultCategories: seq<CategoryOption> := [
    CategoryOption(Str("1"), "Electronics"),
    CategoryOption(Str("2"), "Clothing"),
    CategoryOption(Str("3"), "Home & Garden"),
    CategoryOption(Str("4"), "Beauty & Personal Care"),
    CategoryOption(Str("5"), "Sports & Outdoors"),
    CategoryOption(Str("6"), "Toys & Games"),
    CategoryOption(Str("7"), "Food & Beverage"),
    CategoryOption(Str("8"), "Books & Media"),
    CategoryOption(Str("9"), "Office Supplies"),
    CategoryOption(Str("10"), "Health & Wellness"),
    CategoryOption(Str("11"), "Automotive"),
    CategoryOption(Str("12"), "Pet Supplies"),
    CategoryOption(Str("13"), "Household Goods"),
    CategoryOption(Str("14"), "Jewelry & Accessories"),
    CategoryOption(Str("15"), "Arts & Crafts"),
    CategoryOption(Str("16"), "Other")
  ]

  /**
   * No listed category, default or fetched, has the value "other": picking
   * "Other" (id "16") sets the category like any entry, so the custom
   * category input is never opened from this list.
   */
  lemma NoOptionOpensCustomInput(st: FormState, reply: Reply<ListBody<DbCategory>>)
    ensures var options := MergeCategories(DefaultCategories, reply);
            forall i :: 0 <= i < |options| ==> !HandleCategoryChange(st, JsString(options[i].id)).showCustomCategory
  {
    DefaultsAreNotOther();
    MergedNotOther(DefaultCategories, reply);
  }

  /** Fetched options carry numeric ids, so merging them in adds no "other" to defaults that have none. */
  lemma MergedNotOther(defaults: seq<CategoryOption>, reply: Reply<ListBody<DbCategory>>)
    requires forall i :: 0 <= i < |defaults| ==> JsString(defaults[i].id) != "other"
    ensures var options := MergeCategories(defaults, reply);
            forall i :: 0 <= i < |options| ==> JsString(options[i].id) != "other"
  {
    var options := MergeCategories(defaults, reply);
    forall i | 0 <= i < |options| ensures JsString(options[i].id) != "other" {
      if i < |defaults| {
        assert options[i] == options[..|defaults|][i];
      } else {
        var fetched := RawOptions(ArrayOrEmpty(reply.data));
        assert options[i] == options[|defaults|..][i - |defaults|] == fetched[i - |defaults|];
        NumIsNotOther(ArrayOrEmpty(reply.data)[i - |defaults|].id);
      }
    }
  }

  /** The ids of the edit page's default categories. */
  const DefaultIds: set<Value> := {
    Str("1"), Str("2"), Str("3"), Str("4"), Str("5"), Str("6"), Str("7"), Str("8"),
    Str("9"), Str("10"), Str("11"), Str("12"), Str("13"), Str("14"), Str("15"), Str("16")}

  lemma DefaultsAreNotOther()
    ensures forall i :: 0 <= i < |DefaultCategories| ==> JsString(DefaultCategories[i].id) != "other"
  {
    forall i | 0 <= i < |DefaultCategories| ensures JsString(DefaultCategories[i].id) != "other" {
      var id := DefaultCategories[i].id;
      assert id in DefaultIds;
      assert id.Str? && |id.s| <= 2;
    }
  }

  lemma NumIsNotOther(n: int)
    ensures JsString(Num(n)) != "other"
  {
    var text := DecimalString(n);
    assert '0' <= text[0] <= '9' || text[0] == '-';
  }

  /**
   * `prod.x || d` for every key `x` of `defaults`, in the order of
   * `defaults`, except that the image is always cleared.
   */
  function Defaulted(prod: Record, defaults: Record): (r: Record)
    ensures Keys(r) == Keys(defaults)
  {
    if defaults == [] then []
    else
      var (k, d) := defaults[0];
      [(k, if k == "image" then Null else Or(Lookup(prod, k), d))] + Defaulted(prod, defaults[1..])
  }

  /**
   * The record a fetched product becomes. The page lists the same keys, in
   * the same order and with the same fallbacks, as the initial record.
   */
  function LoadedProduct(prod: Record): Record
  {
    Defaulted(prod, InitialProductData)
  }

  /**
   * Each field of the defaulted record is the fetched value when truthy and
   * the default otherwise, the image is null, and no other key appears.
   */
  lemma {:induction false} DefaultedSpec(prod: Record, defaults: Record, k: string)
    ensures k in Keys(defaults) && k != "image" ==>
              Lookup(Defaulted(prod, defaults), k) ==
                if Truthy(Lookup(prod, k)) then Lookup(prod, k) else Lookup(defaults, k)
    ensures k in Keys(defaults) && k == "image" ==> Lookup(Defaulted(prod, defaults), k) == Null
    ensures k !in Keys(defaults) ==> Lookup(Defaulted(prod, defaults), k) == Undefined
    decreases |defaults|
  {
    if defaults != [] {
      assert Keys(defaults) == [defaults[0].0] + Keys(defaults[1..]);
      DefaultedSpec(prod, defaults[1..], k);
    }
  }

  /**
   * The loaded record has the initial record's keys in the same order; each
   * of its fields is the fetched value when truthy and the initial value
   * otherwise; its image is null whatever was fetched.
   */
  lemma LoadedProductSpec(prod: Record, k: string)
    ensures Keys(LoadedProduct(prod)) == Keys(InitialProductData)
    ensures Lookup(LoadedProduct(prod), "image") == Null
    ensures k in Keys(InitialProductData) && k != "image" ==>
              Lookup(LoadedProduct(prod), k) ==
                if Truthy(Lookup(prod, k)) then Lookup(prod, k) else Lookup(InitialProductData, k)
    ensures k !in Keys(InitialProductData) ==> Lookup(LoadedProduct(prod), k) == Undefined
  {
    DefaultedSpec(prod, InitialProductData, k);
    DefaultedSpec(prod, InitialProductData, "image");
    assert Keys(InitialProductData)[4] == "image";
  }

  /** What the page holds once its fetches settle. */
  datatype Loaded = Loaded(tags: seq<Tag>, product: Record, categories: seq<CategoryOption>, error: Option<string>)

  const LoadError := "Failed to load product or tags."

  /**
   * `fetchInitialData`: the tags and the product are fetched together; if
   * either fails the error is set, the categories are the defaults and the
   * rest keeps its initial value. Otherwise the product is defaulted into
   * the record and the categories are fetched, falling back to the defaults.
   */
  function LoadInitialData(tags: Reply<ListBody<Tag>>, product: Reply<Record>, categories: Reply<ListBody<DbCategory>>): (r: Loaded)
    ensures tags.Failure? || product.Failure? ==> r == Loaded([], InitialProductData, DefaultCategories, Some(LoadError))
    ensures tags.Success? && product.Success? ==>
              && r.tags == TagsOf(tags.data) && r.product == LoadedProduct(product.data)
              && r.categories == MergeCategories(DefaultCategories, categories) && r.error.None?
    ensures r.categories[..16] == DefaultCategories
  {
    if tags.Failure? || product.Failure? then Loaded([], InitialProductData, DefaultCategories, Some(LoadError))
    else Loaded(TagsOf(tags.data), LoadedProduct(product.data), MergeCategories(DefaultCategories, categories), None)
  }

  // ---------------------------------------------------------------- form data

  /** The eight fields every update sends, in this order. */
  const FixedKeys: seq<string> := ["title", "description", "price", "category", "quantity", "stock", "sku", "status"]

  /** `formData.append(k, String(v))` for each fixed field; the category is the resolved id. */
  function FixedEntries(product: Record, categoryId: Value): (r: seq<FormEntry>)
    ensures |r| == |FixedKeys|
    ensures forall i :: 0 <= i < |FixedKeys| ==> r[i].key == FixedKeys[i]
    ensures forall i :: 0 <= i < |FixedKeys| && FixedKeys[i] != "category" ==> r[i].value == Text(JsString(Lookup(product, FixedKeys[i])))
    ensures FixedKeys[3] == "category" && r[3].value == Text(JsString(categoryId))
  {
    seq(|FixedKeys|, i requires 0 <= i < |FixedKeys| =>
      FormEntry(FixedKeys[i], Text(JsString(if FixedKeys[i] == "category" then categoryId else Lookup(product, FixedKeys[i])))))
  }

  /** The image entry: present only when the image is truthy. */
  function ImageEntries(product: Record): (r: seq<FormEntry>)
    ensures |r| <= 1
    ensures r != [] <==> Truthy(Lookup(product, "image"))
    ensures r != [] ==> r[0] == FormEntry("image", FormValueOf(Lookup(product, "image")))
  {
    if Truthy(Lookup(product, "image")) then [FormEntry("image", FormValueOf(Lookup(product, "image")))] else []
  }

  /**
   * `handleSubmit`'s FormData: the fixed fields, the image when set, then
   * one "tags" entry per tag (`productData.tags.forEach`), in order.
   */
  method BuildFormData(product: Record, categoryId: Value) returns (entries: seq<FormEntry>)
    requires Lookup(product, "tags").Ids?
    ensures entries == FixedEntries(product, categoryId) + ImageEntries(product) + TagEntries(Lookup(product, "tags").ids)
  {
    entries := FixedEntries(product, categoryId);
    if Truthy(Lookup(product, "image")) {
      entries := entries + [FormEntry("image", FormValueOf(Lookup(product, "image")))];
    }
    entries := AppendTags(entries, Lookup(product, "tags").ids);
  }

  /**
   * The "tags" entries of an update are exactly one per tag, in order, and
   * nothing else is sent under "tags" or "image" besides them and the image.
   */
  lemma FormDataKeyed(product: Record, categoryId: Value)
    requires Lookup(product, "tags").Ids?
    ensures var entries := FixedEntries(product, categoryId) + ImageEntries(product) + TagEntries(Lookup(product, "tags").ids);
            && Keyed(entries, "tags") == TagEntries(Lookup(product, "tags").ids)
            && Keyed(entries, "image") == ImageEntries(product)
            && |entries| == 8 + |ImageEntries(product)| + |Lookup(product, "tags").ids|
  {
    var fixed, image, tags := FixedEntries(product, categoryId), ImageEntries(product), TagEntries(Lookup(product, "tags").ids);
    FixedHasNoTagsOrImage(product, categoryId);
    assert forall i :: 0 <= i < |image| ==> image[i].key == "image";
    KeyedOfParts(fixed, image, tags);
  }

  /** Under "tags" and "image", entries with neither key, then image entries, then tag entries. */
  lemma KeyedOfParts(fixed: seq<FormEntry>, image: seq<FormEntry>, tags: seq<FormEntry>)
    requires Keyed(fixed, "tags") == [] && Keyed(fixed, "image") == []
    requires forall i :: 0 <= i < |image| ==> image[i].key == "image"
    requires forall i :: 0 <= i < |tags| ==> tags[i].key == "tags"
    ensures Keyed(fixed + image + tags, "tags") == tags
    ensures Keyed(fixed + image + tags, "image") == image
  {
    KeyedAppend(fixed + image, tags, "tags");
    KeyedAppend(fixed, image, "tags");
    KeyedAppend(fixed + image, tags, "image");
    KeyedAppend(fixed, image, "image");
    KeyedUniform(tags, "tags", "tags");
    KeyedUniform(tags, "tags", "image");
    KeyedUniform(image, "image", "tags");
    KeyedUniform(image, "image", "image");
  }

  lemma FixedHasNoTagsOrImage(product: Record, categoryId: Value)
    ensures Keyed(FixedEntries(product, categoryId), "tags") == []
    ensures Keyed(FixedEntries(product, categoryId), "image") == []
  {
    var fixed := FixedEntries(product, categoryId);
    assert forall i :: 0 <= i < |fixed| ==> fixed[i].key != "tags" && fixed[i].key != "image" by {
      forall i | 0 <= i < |fixed| ensures fixed[i].key != "tags" && fixed[i].key != "image" {
        assert fixed[i].key == FixedKeys[i];
      }
    }
    KeyedAbsent(fixed, "tags");
    KeyedAbsent(fixed, "image");
  }

  // ---------------------------------------------------------------- submission

  const SubmitError := "Failed to update product."

  /** `err.response?.data?.detail || err.response?.data?.message || err.message || <fixed text>` */
  function ErrorMessage(e: HttpError): (r: Value)
    ensures Truthy(e.detail) ==> r == e.detail
    ensures !Truthy(e.detail) && Truthy(e.message) ==> r == e.message
    ensures !Truthy(e.detail) && !Truthy(e.message) && Truthy(e.jsMessage) ==> r == e.jsMessage
    ensures !Truthy(e.detail) && !Truthy(e.message) && !Truthy(e.jsMessage) ==> r == Str(SubmitError)
    ensures Truthy(r)
  {
    Or(e.detail, Or(e.message, Or(e.jsMessage, Str(SubmitError))))
  }

  /** What a submission did: the category it created, the entries it patched, the error it shows. */
  datatype Submitted = Submitted(categoryPost: Option<CategoryDraft>, sent: Option<seq<FormEntry>>, error: Option<Value>)

  /**
   * `handleSubmit`: a custom category is created first when one is asked
   * for, and its failure ends the submission with that error; then the form
   * data is built with the new id or the record's category and patched.
   * `category` and `patch` are the outcomes of the two calls.
   */
  method HandleSubmit(st: FormState, category: Reply<int>, patch: Reply<()>) returns (res: Submitted)
    requires Lookup(st.product, "tags").Ids?
    ensures res.categoryPost == NewCategoryRequest(st)
    ensures NewCategoryRequest(st).Some? && category.Failure? ==>
              res.sent.None? && res.error == Some(ErrorMessage(category.error))
    ensures NewCategoryRequest(st).Some? && category.Success? ==>
              res.sent == Some(FixedEntries(st.product, Num(category.data)) + ImageEntries(st.product) + TagEntries(Lookup(st.product, "tags").ids))
    ensures NewCategoryRequest(st).None? ==>
              res.sent == Some(FixedEntries(st.product, Lookup(st.product, "category")) + ImageEntries(st.product) + TagEntries(Lookup(st.product, "tags").ids))
    ensures res.sent.Some? ==> res.error == if patch.Failure? then Some(ErrorMessage(patch.error)) else None
  {
    var categoryId := Lookup(st.product, "category");
    var draft := NewCategoryRequest(st);
    if draft.Some? {
      if category.Failure? {
        return Submitted(draft, None, Some(ErrorMessage(category.error)));
      }
      categoryId := Num(category.data);
    }
    var entries := BuildFormData(st.product, categoryId);
    var error := if patch.Failure? then Some(ErrorMessage(patch.error)) else None;
    res := Submitted(draft, Some(entries), error);
  }
}
