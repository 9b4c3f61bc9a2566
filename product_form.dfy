/**
 * The product form shared by the add-product and edit-product pages: the
 * form record (a JavaScript object whose key order is its insertion order),
 * the spread update the change handlers perform, the tag toggle, the
 * "other" category rule, the custom category request and the form-data
 * entries a submission sends.
 */
module ProductForm {
  import opened Common

  // ---------------------------------------------------------------- the record

  /** A JavaScript object: its own keys in insertion order, each with its value. */
  type Record = seq<(string, Value)>

  function Keys(r: Record): (ks: seq<string>)
    ensures |ks| == |r|
    ensures forall i :: 0 <= i < |r| ==> ks[i] == r[i].0
  {
    if r == [] then [] else [r[0].0] + Keys(r[1..])
  }

  /** No key occurs twice, as in every JavaScript object. */
  predicate UniqueKeys(r: Record)
  {
    forall i, j :: 0 <= i < j < |r| ==> r[i].0 != r[j].0
  }

  /** `obj[k]`: the value under `k`, `undefined` when there is none. */
  function Lookup(r: Record, k: string): (v: Value)
    ensures k !in Keys(r) ==> v == Undefined
    ensures r != [] && r[0].0 == k ==> v == r[0].1
  {
    if r == [] then Undefined else if r[0].0 == k then r[0].1 else Lookup(r[1..], k)
  }

  /** In an object with unique keys, each entry's value is what looking up its key gives. */
  lemma {:induction false} LookupEntry(r: Record, i: int)
    requires UniqueKeys(r) && 0 <= i < |r|
    ensures Lookup(r, r[i].0) == r[i].1
    decreases |r|
  {
    if i > 0 {
      assert r[0].0 != r[i].0;
      assert r[1..][i - 1] == r[i];
      LookupEntry(r[1..], i - 1);
    }
  }

  /** Looking up in an object with one more key at the end. */
  lemma {:induction false} LookupSnoc(r: Record, e: (string, Value), k: string)
    requires e.0 !in Keys(r)
    ensures Lookup(r + [e], k) == if k == e.0 then e.1 else Lookup(r, k)
    decreases |r|
  {
    if r == [] {
      assert r + [e] == [e];
    } else {
      assert (r + [e])[1..] == r[1..] + [e];
      assert Keys(r) == [r[0].0] + Keys(r[1..]);
      LookupSnoc(r[1..], e, k);
    }
  }

  /**
   * `{ ...r, [k]: v }`: an existing key keeps its place and takes the new
   * value, a new key goes at the end; every other key keeps its value.
   */
  function Assign(r: Record, k: string, v: Value): (s: Record)
    ensures Keys(s) == if k in Keys(r) then Keys(r) else Keys(r) + [k]
    ensures Lookup(s, k) == v
    ensures forall k' :: k' != k ==> Lookup(s, k') == Lookup(r, k')
    decreases |r|
  {
    if r == [] then [(k, v)]
    else if r[0].0 == k then [(k, v)] + r[1..]
    else
      var rest := Assign(r[1..], k, v);
      assert Keys(r) == [r[0].0] + Keys(r[1..]);
      [r[0]] + rest
  }

  /** The spread update keeps the keys of a JavaScript object unique. */
  lemma AssignUnique(r: Record, k: string, v: Value)
    requires UniqueKeys(r)
    ensures UniqueKeys(Assign(r, k, v))
  {
    var s := Assign(r, k, v);
    forall i, j | 0 <= i < j < |s| ensures s[i].0 != s[j].0 {
      assert Keys(s)[i] == s[i].0 && Keys(s)[j] == s[j].0;
      if j < |r| {
        assert Keys(r)[i] == r[i].0 && Keys(r)[j] == r[j].0;
      } else {
        assert Keys(r)[i] == r[i].0;
      }
    }
  }

  /** The record both forms start from. */
  const InitialProductData: Record := [
    ("title", Str("")),
    ("description", Str("")),
    ("price", Num(0)),
    ("category", Str("")),
    ("image", Null),
    ("quantity", Num(0)),
    ("stock", Num(0)),
    ("sku", Str("")),
    ("tags", Ids([])),
    ("status", Str("available"))
  ]

  // ---------------------------------------------------------------- loaded lists

  /** A tag as `GET tags/` lists it. */
  datatype Tag = Tag(id: int, name: string)

  /** `Array.isArray(res.data) ? res.data : res.data?.data || []` */
  function TagsOf(body: ListBody<Tag>): (r: seq<Tag>)
    ensures body.ArrayBody? ==> r == body.items
    ensures body.ObjectBody? ==> r == if body.data.Some? then body.data.value else []
  {
    match body
    case ArrayBody(items) => items
    case ObjectBody(_, data) => if data.Some? then data.value else []
  }

  /** `dbCategories`: each fetched category keeps its numeric id and its title. */
  function RawOptions(cs: seq<DbCategory>): (r: seq<CategoryOption>)
    ensures |r| == |cs|
    ensures forall i :: 0 <= i < |cs| ==> r[i] == CategoryOption(Num(cs[i].id), cs[i].title)
  {
    if cs == [] then [] else [CategoryOption(Num(cs[0].id), cs[0].title)] + RawOptions(cs[1..])
  }

  /** The category options: the defaults, then the fetched ones; the defaults alone when the fetch fails. */
  function MergeCategories(defaults: seq<CategoryOption>, reply: Reply<ListBody<DbCategory>>): (r: seq<CategoryOption>)
    ensures |r| >= |defaults| && r[..|defaults|] == defaults
    ensures reply.Failure? ==> r == defaults
    ensures reply.Success? ==> r[|defaults|..] == RawOptions(ArrayOrEmpty(reply.data))
  {
    match reply
    case Success(body) => defaults + RawOptions(ArrayOrEmpty(body))
    case Failure(_) => defaults
  }

  // ---------------------------------------------------------------- the form state

  /** The form: its record, whether the custom category input shows, and that input's text. */
  datatype FormState = FormState(product: Record, showCustomCategory: bool, customCategory: string)

  /** `handleChange`: the input named `name` writes its text into the record. */
  function HandleChange(st: FormState, name: string, value: string): (r: FormState)
    ensures Lookup(r.product, name) == Str(value)
    ensures forall k :: k != name ==> Lookup(r.product, k) == Lookup(st.product, k)
    ensures name in Keys(st.product) ==> Keys(r.product) == Keys(st.product)
    ensures r.showCustomCategory == st.showCustomCategory && r.customCategory == st.customCategory
  {
    st.(product := Assign(st.product, name, Str(value)))
  }

  /**
   * `handleCategoryChange`: "other" shows the custom input and clears the
   * category; any other value hides the input, becomes the category and
   * clears the custom text.
   */
  function HandleCategoryChange(st: FormState, value: string): (r: FormState)
    ensures r.showCustomCategory <==> value == "other"
    ensures Lookup(r.product, "category") == if value == "other" then Str("") else Str(value)
    ensures forall k :: k != "category" ==> Lookup(r.product, k) == Lookup(st.product, k)
    ensures r.customCategory == if value == "other" then st.customCategory else ""
  {
    if value == "other" then
      st.(showCustomCategory := true, product := Assign(st.product, "category", Str("")))
    else
      FormState(Assign(st.product, "category", Str(value)), false, "")
  }

  /** `handleCustomCategoryChange` */
  function HandleCustomCategoryChange(st: FormState, value: string): (r: FormState)
    ensures r.customCategory == value && r.product == st.product && r.showCustomCategory == st.showCustomCategory
  {
    st.(customCategory := value)
  }

  /** `handleFileChange`: a chosen file becomes the image; no file leaves the record as it was. */
  function HandleFileChange(st: FormState, chosen: Option<string>): (r: FormState)
    ensures chosen.Some? ==> Lookup(r.product, "image") == File(chosen.value)
    ensures chosen.None? ==> r == st
    ensures forall k :: k != "image" ==> Lookup(r.product, k) == Lookup(st.product, k)
  {
    if chosen.Some? then st.(product := Assign(st.product, "image", File(chosen.value))) else st
  }

  // ---------------------------------------------------------------- tags

  /** `tags.filter((id) => id !== t)` */
  function Without(tags: seq<int>, t: int): (r: seq<int>)
    ensures t !in r
    ensures forall x :: x != t ==> multiset(r)[x] == multiset(tags)[x]
    ensures SubseqOf(r, tags)
    ensures t !in tags ==> r == tags
  {
    if tags == [] then []
    else
      var rest := Without(tags[1..], t);
      assert tags == [tags[0]] + tags[1..];
      if tags[0] == t then
        SubseqSkip(rest, tags);
        rest
      else
        assert ([tags[0]] + rest)[1..] == rest;
        [tags[0]] + rest
  }

  /** `tags.includes(t) ? tags.filter(...) : [...tags, t]` */
  function Toggle(tags: seq<int>, t: int): seq<int>
  {
    if t in tags then Without(tags, t) else tags + [t]
  }

  /**
   * Toggling flips the tag's membership and touches no other tag: a present
   * tag loses every occurrence, an absent one is appended at the end.
   */
  lemma ToggleSpec(tags: seq<int>, t: int)
    ensures t in Toggle(tags, t) <==> t !in tags
    ensures forall x :: x != t ==> multiset(Toggle(tags, t))[x] == multiset(tags)[x]
    ensures t in tags ==> SubseqOf(Toggle(tags, t), tags)
    ensures t !in tags ==> Toggle(tags, t) == tags + [t]
  {
    if t !in tags {
      assert multiset(tags + [t]) == multiset(tags) + multiset{t};
    }
  }

  /** Toggling twice restores membership, and restores the list itself when the tag was absent. */
  lemma ToggleTwice(tags: seq<int>, t: int)
    ensures forall x :: x in Toggle(Toggle(tags, t), t) <==> x in tags
    ensures t !in tags ==> Toggle(Toggle(tags, t), t) == tags
  {
    var once := Toggle(tags, t);
    ToggleSpec(tags, t);
    ToggleSpec(once, t);
    forall x ensures x in Toggle(once, t) <==> x in tags {
      if x != t {
        assert multiset(Toggle(once, t))[x] == multiset(once)[x] == multiset(tags)[x];
      }
    }
    if t !in tags {
      assert Without(tags + [t], t) == tags by {
        WithoutSnoc(tags, t);
      }
    }
  }

  lemma {:induction false} WithoutSnoc(tags: seq<int>, t: int)
    requires t !in tags
    ensures Without(tags + [t], t) == tags
    decreases |tags|
  {
    if tags == [] {
      assert [t][1..] == [];
    } else {
      assert (tags + [t])[1..] == tags[1..] + [t];
      WithoutSnoc(tags[1..], t);
    }
  }

  /** `handleTagToggle`: the record's tags are toggled; every other key keeps its value. */
  function HandleTagToggle(st: FormState, t: int): (r: FormState)
    requires Lookup(st.product, "tags").Ids?
    ensures Lookup(r.product, "tags") == Ids(Toggle(Lookup(st.product, "tags").ids, t))
    ensures forall k :: k != "tags" ==> Lookup(r.product, k) == Lookup(st.product, k)
    ensures r.showCustomCategory == st.showCustomCategory && r.customCategory == st.customCategory
  {
    st.(product := Assign(st.product, "tags", Ids(Toggle(Lookup(st.product, "tags").ids, t))))
  }

  // ---------------------------------------------------------------- custom category

  /** The body of `POST categories/`. */
  datatype CategoryDraft = CategoryDraft(title: string, slug: string)

  /**
   * The category a submission creates first: only when the custom input
   * shows and its text is not blank; the title is the text as typed.
   */
  function NewCategoryRequest(st: FormState): (r: Option<CategoryDraft>)
    ensures r.Some? <==> st.showCustomCategory && !AllSpace(st.customCategory)
    ensures r.Some? ==> r.value == CategoryDraft(st.customCategory, Slug(st.customCategory))
  {
    TrimEmptyIffAllSpace(st.customCategory);
    if st.showCustomCategory && Trim(st.customCategory) != "" then
      Some(CategoryDraft(st.customCategory, Slug(st.customCategory)))
    else None
  }

  // ---------------------------------------------------------------- form data

  /** A value a FormData holds: text, or a file kept as it is. */
  datatype FormValue = Text(s: string) | Blob(name: string)

  datatype FormEntry = FormEntry(key: string, value: FormValue)

  /** What `formData.append(key, v)` stores: a File as is, anything else as `String(v)`. */
  function FormValueOf(v: Value): (r: FormValue)
    ensures v.File? ==> r == Blob(v.name)
    ensures !v.File? ==> r == Text(JsString(v))
  {
    if v.File? then Blob(v.name) else Text(JsString(v))
  }

  /** One "tags" entry per id, in order, each the id's decimal text. */
  function TagEntries(ids: seq<int>): (r: seq<FormEntry>)
    ensures |r| == |ids|
    ensures forall i :: 0 <= i < |ids| ==> r[i] == FormEntry("tags", Text(DecimalString(ids[i])))
  {
    if ids == [] then [] else [FormEntry("tags", Text(DecimalString(ids[0])))] + TagEntries(ids[1..])
  }

  /** `ids.forEach(id => formData.append("tags", id))`: one "tags" entry per id appended to the buffer. */
  method AppendTags(buffer: seq<FormEntry>, ids: seq<int>) returns (entries: seq<FormEntry>)
    ensures entries == buffer + TagEntries(ids)
  {
    entries := buffer;
    for j := 0 to |ids|
      invariant |entries| == |buffer| + j && entries[..|buffer|] == buffer
      invariant forall i :: 0 <= i < j ==> entries[|buffer| + i] == FormEntry("tags", Text(DecimalString(ids[i])))
    {
      entries := entries + [FormEntry("tags", Text(DecimalString(ids[j])))];
    }
    assert entries == buffer + TagEntries(ids) by {
      forall i | 0 <= i < |entries| ensures entries[i] == (buffer + TagEntries(ids))[i] {
        if i < |buffer| {
          assert entries[i] == entries[..|buffer|][i];
        }
      }
    }
  }

  /** The entries under one key, in order. */
  function Keyed(entries: seq<FormEntry>, k: string): (r: seq<FormEntry>)
    ensures forall i :: 0 <= i < |r| ==> r[i].key == k
    ensures |r| <= |entries|
  {
    if entries == [] then []
    else (if entries[0].key == k then [entries[0]] else []) + Keyed(entries[1..], k)
  }

  lemma {:induction false} KeyedAppend(a: seq<FormEntry>, b: seq<FormEntry>, k: string)
    ensures Keyed(a + b, k) == Keyed(a, k) + Keyed(b, k)
    decreases |a|
  {
    if a == [] {
      assert a + b == b;
    } else {
      assert (a + b)[1..] == a[1..] + b;
      assert (a + b)[0] == a[0];
      KeyedAppend(a[1..], b, k);
    }
  }

  /** Entries that all carry key `k` are kept whole under `k` and dropped under any other key. */
  lemma {:induction false} KeyedUniform(es: seq<FormEntry>, k: string, k': string)
    requires forall i :: 0 <= i < |es| ==> es[i].key == k
    ensures Keyed(es, k') == if k == k' then es else []
    decreases |es|
  {
    if es != [] {
      KeyedUniform(es[1..], k, k');
      assert es == [es[0]] + es[1..];
    }
  }

  lemma {:induction false} KeyedAbsent(es: seq<FormEntry>, k: string)
    requires forall i :: 0 <= i < |es| ==> es[i].key != k
    ensures Keyed(es, k) == []
    decreases |es|
  {
    if es != [] {
      KeyedAbsent(es[1..], k);
    }
  }
}
