/**
 * The add-product page: its category defaults (the last one, "other", opens
 * the custom category input), the initial fetches, the serialisation of the
 * form record into form-data entries, and the submission with its error
 * message.
 */
module AddProduct {
  import opened Common
  import opened ProductForm

  const DefaultCategories: seq<CategoryOption> := [
    CategoryOption(Str("electronics"), "Electronics"),
    CategoryOption(Str("clothing"), "Clothing"),
    CategoryOption(Str("home-garden"), "Home & Garden"),
    CategoryOption(Str("beauty"), "Beauty & Personal Care"),
    CategoryOption(Str("sports"), "Sports & Outdoors"),
    CategoryOption(Str("toys"), "Toys & Games"),
    CategoryOption(Str("food"), "Food & Beverage"),
    CategoryOption(Str("books"), "Books & Media"),
    CategoryOption(Str("office"), "Office Supplies"),
    CategoryOption(Str("health"), "Health & Wellness"),
    CategoryOption(Str("auto"), "Automotive"),
    CategoryOption(Str("pets"), "Pet Supplies"),
    CategoryOption(Str("household"), "Household Goods"),
    CategoryOption(Str("jewelry"), "Jewelry & Accessories"),
    CategoryOption(Str("arts"), "Arts & Crafts"),
    CategoryOption(Str("other"), "Other")
  ]

  /** Choosing the listed "Other" entry opens the custom input; choosing any other default closes it. */
  lemma OtherOpensCustomInput(st: FormState)
    ensures |DefaultCategories| == 16 && DefaultCategories[15].title == "Other"
    ensures HandleCategoryChange(st, JsString(DefaultCategories[15].id)).showCustomCategory
    ensures forall i :: 0 <= i < 15 ==> !HandleCategoryChange(st, JsString(DefaultCategories[i].id)).showCustomCategory
  {
    forall i | 0 <= i < 15 ensures JsString(DefaultCategories[i].id) != "other" {
      assert DefaultCategories[i].id.Str? && |DefaultCategories[i].id.s| > 0;
      assert JsString(DefaultCategories[i].id) == DefaultCategories[i].id.s;
      assert DefaultCategories[i].id.s[0] != 'o' || |DefaultCategories[i].id.s| == 6;
      assert DefaultCategories[i].id.s != "other";
    }
  }

  /** What the page holds once its fetches settle. */
  datatype Loaded = Loaded(tags: seq<Tag>, categories: seq<CategoryOption>, error: Option<string>)

  const LoadError := "Failed to load initial data. Please try again later."

  /**
   * `fetchInitialData`: the tags first, then the categories. A failed tags
   * fetch sets the error and the default categories without fetching the
   * categories; a failed categories fetch only falls back to the defaults.
   */
  function LoadInitialData(tags: Reply<ListBody<Tag>>, categories: Reply<ListBody<DbCategory>>): (r: Loaded)
    ensures tags.Failure? ==> r == Loaded([], DefaultCategories, Some(LoadError))
    ensures tags.Success? ==> r.tags == TagsOf(tags.data) && r.error.None?
    ensures tags.Success? ==> r.categories == MergeCategories(DefaultCategories, categories)
    ensures r.categories[..16] == DefaultCategories
  {
    match tags
    case Failure(_) => Loaded([], DefaultCategories, Some(LoadError))
    case Success(body) => Loaded(TagsOf(body), MergeCategories(DefaultCategories, categories), None)
  }

  // ---------------------------------------------------------------- serialisation

  /**
   * The entries one `[key, value]` pair of `Object.entries` contributes:
   * "tags" one entry per id of a non-empty array, "image" only when truthy,
   * any other key its value (numbers as decimal text) unless null or undefined.
   */
  function PairEntries(key: string, v: Value): (r: seq<FormEntry>)
    ensures forall i :: 0 <= i < |r| ==> r[i].key == key
  {
    if key == "tags" then (if v.Ids? && |v.ids| > 0 then TagEntries(v.ids) else [])
    else if key == "image" then (if Truthy(v) then [FormEntry("image", FormValueOf(v))] else [])
    else if v.Null? || v.Undefined? then []
    else [FormEntry(key, FormValueOf(v))]
  }

  /** The entries of a whole record, pair after pair in key order. */
  function SerialisedEntries(r: Record): seq<FormEntry>
  {
    if r == [] then [] else SerialisedEntries(r[..|r| - 1]) + PairEntries(r[|r| - 1].0, r[|r| - 1].1)
  }

  /** The body of the `forEach`: appends what one `[key, value]` pair contributes. */
  method AppendPair(buffer: seq<FormEntry>, key: string, value: Value) returns (entries: seq<FormEntry>)
    ensures entries == buffer + PairEntries(key, value)
  {
    entries := buffer;
    if key == "tags" {
      if value.Ids? && |value.ids| > 0 {
        entries := AppendTags(entries, value.ids);
      }
    } else if key == "image" {
      if Truthy(value) {
        entries := entries + [FormEntry("image", FormValueOf(value))];
      }
    } else {
      var formatted := if value.Num? then Str(DecimalString(value.n)) else value;
      if !formatted.Null? && !formatted.Undefined? {
        entries := entries + [FormEntry(key, FormValueOf(formatted))];
      }
    }
  }

  /**
   * The `Object.entries(...).forEach` loop of `handleSubmit`, appending to
   * the FormData buffer pair by pair.
   */
  method Serialise(r: Record) returns (entries: seq<FormEntry>)
    ensures entries == SerialisedEntries(r)
  {
    entries := [];
    for i := 0 to |r|
      invariant entries == SerialisedEntries(r[..i])
    {
      assert r[..i + 1][..i] == r[..i];
      entries := AppendPair(entries, r[i].0, r[i].1);
    }
    assert r[..|r|] == r;
  }

  /** In a record with unique keys, the entries under any key are exactly what that key's value contributes. */
  lemma {:induction false} SerialisedKeyed(r: Record, k: string)
    requires UniqueKeys(r)
    ensures Keyed(SerialisedEntries(r), k) == PairEntries(k, Lookup(r, k))
    decreases |r|
  {
    if r == [] {
      assert Keyed([], k) == [];
    } else {
      var init, last := r[..|r| - 1], r[|r| - 1];
      var tail := PairEntries(last.0, last.1);
      assert r == init + [last];
      assert SerialisedEntries(r) == SerialisedEntries(init) + tail;
      UniqueInit(r);
      SerialisedKeyed(init, k);
      KeyedAppend(SerialisedEntries(init), tail, k);
      KeyedUniform(tail, last.0, k);
      LookupSnoc(init, last, k);
      if k == last.0 {
        assert Lookup(init, k) == Undefined;
        assert PairEntries(k, Undefined) == [];
      }
    }
  }

  /** Dropping the last entry of a record with unique keys keeps them unique and removes that entry's key. */
  lemma UniqueInit(r: Record)
    requires r != [] && UniqueKeys(r)
    ensures UniqueKeys(r[..|r| - 1])
    ensures r[|r| - 1].0 !in Keys(r[..|r| - 1])
  {
    var init := r[..|r| - 1];
    forall i | 0 <= i < |init| ensures Keys(init)[i] != r[|r| - 1].0 {
      assert init[i] == r[i];
    }
  }

  /**
   * What one key's value contributes: tags one entry per id and only when
   * there are any, the image only when set, and any other key its value as
   * text (numbers in decimal), nothing for null or undefined.
   */
  lemma PairEntriesSpec(k: string, v: Value)
    ensures k == "tags" && v.Ids? ==> PairEntries(k, v) == TagEntries(v.ids)
    ensures k == "image" ==> PairEntries(k, v) == if Truthy(v) then [FormEntry("image", FormValueOf(v))] else []
    ensures k != "tags" && k != "image" && v.Num? ==> PairEntries(k, v) == [FormEntry(k, Text(DecimalString(v.n)))]
    ensures k != "tags" && k != "image" && v.Str? ==> PairEntries(k, v) == [FormEntry(k, Text(v.s))]
    ensures k != "tags" && (v.Null? || v.Undefined?) ==> PairEntries(k, v) == []
  {
    if k == "tags" && v.Ids? && v.ids == [] {
      assert TagEntries(v.ids) == [];
    }
  }

  /**
   * What a submission sends under each key, for the record with its
   * category replaced by the resolved id: under "category" what the id
   * contributes, under every other key what the record's value contributes.
   */
  lemma SubmittedEntries(product: Record, categoryId: Value, k: string)
    requires UniqueKeys(product)
    ensures Keyed(SerialisedEntries(Assign(product, "category", categoryId)), k) ==
              PairEntries(k, if k == "category" then categoryId else Lookup(product, k))
  {
    AssignUnique(product, "category", categoryId);
    SerialisedKeyed(Assign(product, "category", categoryId), k);
  }

  // ---------------------------------------------------------------- submission

  const SubmitError := "Failed to create product. Please check your inputs and try again."

  /** `error.response?.data?.detail || error.response?.data?.message || <fixed text>` */
  function ErrorMessage(e: HttpError): (r: Value)
    ensures Truthy(e.detail) ==> r == e.detail
    ensures !Truthy(e.detail) && Truthy(e.message) ==> r == e.message
    ensures !Truthy(e.detail) && !Truthy(e.message) ==> r == Str(SubmitError)
    ensures Truthy(r)
  {
    Or(e.detail, Or(e.message, Str(SubmitError)))
  }

  /** What a submission did: the category it created, the entries it posted, the error it shows. */
  datatype Submitted = Submitted(categoryPost: Option<CategoryDraft>, sent: Option<seq<FormEntry>>, error: Option<Value>)

  /**
   * `handleSubmit`: a custom category is created first when one is asked
   * for, and its failure aborts the submission with that error; then the
   * record, with its category replaced by the new id or kept, is serialised
   * and posted. `category` and `product` are the outcomes of the two POSTs.
   */
  method HandleSubmit(st: FormState, category: Reply<int>, product: Reply<()>) returns (res: Submitted)
    ensures res.categoryPost == NewCategoryRequest(st)
    ensures NewCategoryRequest(st).Some? && category.Failure? ==>
              res.sent.None? && res.error == Some(ErrorMessage(category.error))
    ensures NewCategoryRequest(st).Some? && category.Success? ==>
              res.sent == Some(SerialisedEntries(Assign(st.product, "category", Num(category.data))))
    ensures NewCategoryRequest(st).None? ==>
              res.sent == Some(SerialisedEntries(Assign(st.product, "category", Lookup(st.product, "category"))))
    ensures res.sent.Some? ==> res.error == if product.Failure? then Some(ErrorMessage(product.error)) else None
  {
    var categoryId := Lookup(st.product, "category");
    var draft := NewCategoryRequest(st);
    if draft.Some? {
      if category.Failure? {
        return Submitted(draft, None, Some(ErrorMessage(category.error)));
      }
      categoryId := Num(category.data);
    }
    var entries := Serialise(Assign(st.product, "category", categoryId));
    var error := if product.Failure? then Some(ErrorMessage(product.error)) else None;
    res := Submitted(draft, Some(entries), error);
  }
}
