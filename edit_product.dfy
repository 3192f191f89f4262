/**
 * The administrator's "edit product" dialog (components/admin/edit-product-dialog.tsx):
 * the form is filled from the stored product, joining each list with ", ", and the
 * body sent back splits them again. `Number.prototype.toString` on a price and
 * `Number.parseFloat` are parameters of the model.
 */
module EditProduct {
  import opened Text
  import CreateProduct

  type Form = CreateProduct.Form
  type Body = CreateProduct.Body

  /** The stored product the dialog edits; `None` is a database `null`. */
  datatype Product = Product(
    id: string,
    slug: string,
    name: string,
    brand: Option<string>,
    description: Option<string>,
    price: real,
    compareAtPrice: Option<real>,
    stock: int,
    categories: Option<seq<string>>,
    tags: Option<seq<string>>,
    flavors: Option<seq<string>>,
    images: Option<seq<string>>)

  /** `list?.join(", ") || ""`. */
  function JoinList(xs: Option<seq<string>>): (r: string)
    ensures xs.None? || xs.value == [] ==> r == []
  {
    if xs.Some? then Join(xs.value, ", ") else ""
  }

  /** The initial `formData`: nulls become empty texts, numbers are written out, lists joined. */
  function InitForm(p: Product, format: real -> string): (f: Form)
    ensures f.name == p.name && f.slug == p.slug
    ensures f.brand == OrElse(p.brand, "") && f.description == OrElse(p.description, "")
    ensures p.compareAtPrice.None? ==> f.compareAtPrice == []
    ensures ParseInt(f.stock) == Some(p.stock)
  {
    ParseIntOfIntToString(p.stock);
    CreateProduct.Form(
      p.name,
      p.slug,
      OrElse(p.brand, ""),
      OrElse(p.description, ""),
      format(p.price),
      if p.compareAtPrice.Some? then format(p.compareAtPrice.value) else "",
      IntToString(p.stock),
      JoinList(p.categories),
      JoinList(p.tags),
      JoinList(p.flavors),
      JoinList(p.images))
  }

  /**
   * The body `handleSubmit` sends: like the new-product dialog's, except that the slug
   * is sent as it stands and the stock is parsed with no fallback, so text that is not
   * a number becomes `null`.
   */
  function EditBody(form: Form, parseFloat: string -> Num): (b: Body)
    ensures b.slug == form.slug
    ensures b.stock == ParseInt(form.stock)
    ensures b == CreateProduct.CreateBody(form, parseFloat).(slug := form.slug, stock := ParseInt(form.stock))
  {
    CreateProduct.Body(
      form.name,
      form.slug,
      CreateProduct.OrNull(form.brand),
      CreateProduct.OrNull(form.description),
      Json(parseFloat(form.price)),
      if form.compareAtPrice != [] then Json(parseFloat(form.compareAtPrice)) else None,
      ParseInt(form.stock),
      CreateProduct.ListField(form.categories),
      CreateProduct.ListField(form.tags),
      CreateProduct.ListField(form.flavors),
      CreateProduct.ListField(form.images))
  }

  /** Entries that are non-empty, trimmed and free of commas. */
  predicate CleanList(xs: Option<seq<string>>) {
    xs.Some? ==> forall k :: 0 <= k < |xs.value| ==> xs.value[k] != [] && IsTrimmed(xs.value[k]) && ',' !in xs.value[k]
  }

  /** A clean list survives the join into the form and the split back; `null` and the empty list both come back empty. */
  lemma ListRoundTrip(xs: Option<seq<string>>)
    requires CleanList(xs)
    ensures CreateProduct.ListField(JoinList(xs)) == (if xs.Some? then xs.value else [])
  {
    if xs.Some? && xs.value != [] {
      CreateProduct.ListFieldOfJoin(xs.value);
    }
  }

  /** An entry with a comma in it comes back as two entries, split at the comma. */
  lemma CommaSplitsEntry(x: string, y: string)
    requires IsTrimmed(x) && IsTrimmed(y) && ',' !in x && ',' !in y
    ensures CreateProduct.ListField(JoinList(Some([x + "," + y]))) == [x, y]
  {
    var e := x + [','] + y;
    assert x + "," + y == e;
    assert Join([e], ", ") == e;
    SplitPrefix(x, y, ',');
    SplitPrefix(y, "", ',');
    assert Split(e, ',') == [x, y];
    TrimOfTrimmed(x);
    TrimOfTrimmed(y);
  }

  /** A brand or description that is `null`, or not empty, comes back unchanged through the form. */
  lemma NullableRoundTrip(s: Option<string>)
    requires s != Some("")
    ensures CreateProduct.OrNull(OrElse(s, "")) == s
  {
  }

  /** An empty brand or description is saved back as `null`. */
  lemma EmptyBecomesNull()
    ensures CreateProduct.OrNull(OrElse(Some(""), "")) == None
  {
  }

  /** Clearing the stock input sends `null`, where the new-product dialog would send 0. */
  lemma BlankStockIsNull(form: Form, parseFloat: string -> Num)
    requires form.stock == ""
    ensures EditBody(form, parseFloat).stock.None?
    ensures CreateProduct.CreateBody(form, parseFloat).stock == Some(0)
  {
    assert TrimStart("") == "";
  }

  /**
   * Saving without touching any input writes the product back as it was, when the
   * lists are clean, no text is empty rather than `null`, and `parseFloat` reads back
   * what `toString` wrote.
   */
  lemma SaveUnchanged(p: Product, format: real -> string, parseFloat: string -> Num)
    requires CleanList(p.categories) && CleanList(p.tags) && CleanList(p.flavors) && CleanList(p.images)
    requires p.brand != Some("") && p.description != Some("")
    requires forall x :: parseFloat(format(x)) == Fin(x) && format(x) != []
    ensures var b := EditBody(InitForm(p, format), parseFloat);
            b == CreateProduct.Body(
                   p.name, p.slug, p.brand, p.description, Some(p.price), p.compareAtPrice, Some(p.stock),
                   if p.categories.Some? then p.categories.value else [],
                   if p.tags.Some? then p.tags.value else [],
                   if p.flavors.Some? then p.flavors.value else [],
                   if p.images.Some? then p.images.value else [])
  {
    var f := InitForm(p, format);
    var b := EditBody(f, parseFloat);
    ListRoundTrip(p.categories);
    ListRoundTrip(p.tags);
    ListRoundTrip(p.flavors);
    ListRoundTrip(p.images);
    NullableRoundTrip(p.brand);
    NullableRoundTrip(p.description);
    assert b.price == Some(p.price) by {
      assert parseFloat(format(p.price)) == Fin(p.price);
    }
    assert b.compareAtPrice == p.compareAtPrice by {
      if p.compareAtPrice.Some? {
        var c := p.compareAtPrice.value;
        assert parseFloat(format(c)) == Fin(c) && format(c) != [];
      }
    }
  }
}
