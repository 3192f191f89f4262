/**
 * The administrator's "new product" dialog (components/admin/create-product-dialog.tsx)
 * and the request body it posts to `/api/admin/products`. The form holds every field
 * as typed text; the body derives the slug from the name when none was typed, turns
 * empty texts into `null`, splits the comma-separated lists and reads the stock with
 * `parseInt`, falling back to 0. `Number.parseFloat` is a parameter of the model.
 */
module CreateProduct {
  import opened Text

  /** `formData`: every input as the administrator typed it. */
  datatype Form = Form(
    name: string,
    slug: string,
    brand: string,
    description: string,
    price: string,
    compareAtPrice: string,
    stock: string,
    categories: string,
    tags: string,
    flavors: string,
    images: string)

  /** The form as it opens, and as it is reset after a product was created. */
  const EmptyForm := Form("", "", "", "", "", "", "", "", "", "", "")

  /** The fields an input can change. */
  datatype Field = Name | Slug | Brand | Description | Price | CompareAtPrice | Stock | Categories | Tags | Flavors | Images

  /** `setFormData({ ...formData, [field]: value })`: one field replaced, the others kept. */
  function With(form: Form, field: Field, value: string): (r: Form)
    ensures Read(r, field) == value
    ensures forall g :: g != field ==> Read(r, g) == Read(form, g)
  {
    match field
    case Name => form.(name := value)
    case Slug => form.(slug := value)
    case Brand => form.(brand := value)
    case Description => form.(description := value)
    case Price => form.(price := value)
    case CompareAtPrice => form.(compareAtPrice := value)
    case Stock => form.(stock := value)
    case Categories => form.(categories := value)
    case Tags => form.(tags := value)
    case Flavors => form.(flavors := value)
    case Images => form.(images := value)
  }

  function Read(form: Form, field: Field): string {
    match field
    case Name => form.name
    case Slug => form.slug
    case Brand => form.brand
    case Description => form.description
    case Price => form.price
    case CompareAtPrice => form.compareAtPrice
    case Stock => form.stock
    case Categories => form.categories
    case Tags => form.tags
    case Flavors => form.flavors
    case Images => form.images
  }

  /** The JSON body of the request; a `None` is written as `null`. */
  datatype Body = Body(
    name: string,
    slug: string,
    brand: Option<string>,
    description: Option<string>,
    price: Option<real>,
    compareAtPrice: Option<real>,
    stock: Option<int>,
    categories: seq<string>,
    tags: seq<string>,
    flavors: seq<string>,
    images: seq<string>)

  // ---------------------------------------------------------------------------
  // The slug
  // ---------------------------------------------------------------------------

  /** `s.replace(/\s+/g, "-")`: every maximal run of white space becomes one hyphen. */
  function Hyphenate(s: string): string
    decreases |s|
  {
    if s == [] then []
    else if IsSpace(s[0]) then "-" + Hyphenate(TrimStart(s[1..]))
    else [s[0]] + Hyphenate(s[1..])
  }

  /** The result has no white space left and is no longer than the input. */
  lemma {:induction false} HyphenateShape(s: string)
    ensures NoSpace(Hyphenate(s)) && |Hyphenate(s)| <= |s|
    decreases |s|
  {
    if s == [] {
    } else if IsSpace(s[0]) {
      var t := TrimStart(s[1..]);
      HyphenateShape(t);
      var h := Hyphenate(t);
      assert Hyphenate(s) == "-" + h;
      assert forall i :: 1 <= i < |"-" + h| ==> ("-" + h)[i] == h[i - 1];
    } else {
      HyphenateShape(s[1..]);
      var h := Hyphenate(s[1..]);
      assert Hyphenate(s) == [s[0]] + h;
      assert forall i :: 1 <= i < |[s[0]] + h| ==> ([s[0]] + h)[i] == h[i - 1];
    }
  }

  /** Text without white space is left as it is. */
  lemma {:induction false} HyphenateOfNoSpace(s: string)
    requires NoSpace(s)
    ensures Hyphenate(s) == s
  {
    if s != [] {
      HyphenateOfNoSpace(s[1..]);
    }
  }

  /** A run of white space between a word and the rest becomes exactly one hyphen. */
  lemma {:induction false} HyphenateRun(x: string, w: string, y: string)
    requires NoSpace(x) && w != [] && AllSpace(w)
    requires y == [] || !IsSpace(y[0])
    ensures Hyphenate(x + w + y) == x + "-" + Hyphenate(y)
    decreases |x|, 1
  {
    if x == [] {
      assert x + w + y == w + y;
      RunThenWord(w, y);
      var hy := Hyphenate(y);
      assert x + "-" + hy == "-" + hy;
    } else {
      WordBeforeRun(x, w, y);
    }
  }

  lemma {:induction false} WordBeforeRun(x: string, w: string, y: string)
    requires NoSpace(x) && x != [] && w != [] && AllSpace(w)
    requires y == [] || !IsSpace(y[0])
    ensures Hyphenate(x + w + y) == x + "-" + Hyphenate(y)
    decreases |x|, 0
  {
    var c := x[0];
    var tail := x[1..];
    assert x == [c] + tail;
    assert NoSpace(tail) by {
      forall i | 0 <= i < |tail| ensures !IsSpace(tail[i]) {
        assert tail[i] == x[i + 1];
      }
    }
    var rest := tail + w + y;
    assert x + w + y == [c] + rest by {
      assert x + w + y == ([c] + tail) + w + y;
    }
    HyphenateRun(tail, w, y);
    assert !IsSpace(c);
    WordThenRest(c, rest);
    var hy := Hyphenate(y);
    assert Hyphenate(rest) == tail + "-" + hy;
    assert [c] + (tail + "-" + hy) == x + "-" + hy;
  }

  lemma WordThenRest(c: char, s: string)
    requires !IsSpace(c)
    ensures Hyphenate([c] + s) == [c] + Hyphenate(s)
  {
    assert ([c] + s)[1..] == s;
  }

  lemma RunThenWord(w: string, y: string)
    requires w != [] && AllSpace(w)
    requires y == [] || !IsSpace(y[0])
    ensures Hyphenate(w + y) == "-" + Hyphenate(y)
  {
    var s := w + y;
    assert s[0] == w[0] && IsSpace(w[0]);
    assert s[1..] == w[1..] + y;
    TrimStartOfSpace(w[1..], y);
  }

  lemma {:induction false} TrimStartOfSpace(w: string, y: string)
    requires AllSpace(w)
    requires y == [] || !IsSpace(y[0])
    ensures TrimStart(w + y) == y
  {
    if w == [] {
      assert w + y == y;
    } else {
      assert (w + y)[1..] == w[1..] + y;
      TrimStartOfSpace(w[1..], y);
    }
  }

  /** Words separated by single spaces come out joined by hyphens. */
  lemma {:induction false} HyphenateWords(words: seq<string>)
    requires forall k :: 0 <= k < |words| ==> words[k] != [] && NoSpace(words[k])
    ensures Hyphenate(Join(words, " ")) == Join(words, "-")
  {
    if |words| == 1 {
      HyphenateOfNoSpace(words[0]);
    } else if |words| > 1 {
      HyphenateWords(words[1..]);
      var rest := Join(words[1..], " ");
      assert rest == [] || rest[0] == words[1][0] by {
        JoinStartsWithFirst(words[1..], " ");
      }
      HyphenateRun(words[0], " ", rest);
    }
  }

  lemma {:induction false} JoinStartsWithFirst(xs: seq<string>, sep: string)
    requires |xs| >= 1 && xs[0] != []
    ensures Join(xs, sep) != [] && Join(xs, sep)[0] == xs[0][0]
  {
  }

  /** The slug sent: the typed one when there is one, else the lower-cased name with its white space runs hyphenated. */
  function SlugFor(form: Form): (r: string)
    ensures form.slug != [] ==> r == form.slug
    ensures form.slug == [] ==> NoSpace(r) && |r| <= |form.name|
  {
    if form.slug != [] then form.slug
    else
      HyphenateShape(Lower(form.name));
      Hyphenate(Lower(form.name))
  }

  /** A name without white space gives its lower-case form as slug. */
  lemma SlugOfSingleWord(form: Form)
    requires form.slug == [] && NoSpace(form.name)
    ensures SlugFor(form) == Lower(form.name)
  {
    var l := Lower(form.name);
    assert NoSpace(l) by {
      forall i | 0 <= i < |l| ensures !IsSpace(l[i]) {
        assert l[i] == LowerChar(form.name[i]);
      }
    }
    HyphenateOfNoSpace(l);
  }

  // ---------------------------------------------------------------------------
  // The other fields
  // ---------------------------------------------------------------------------

  /** `s || null`: only the empty text becomes `null`; white space is kept. */
  function OrNull(s: string): (r: Option<string>)
    ensures r.None? <==> s == []
    ensures r.Some? ==> r.value == s
  {
    if s == [] then None else Some(s)
  }

  /** Every piece trimmed, none dropped. */
  function TrimAll(xs: seq<string>): (r: seq<string>)
    ensures |r| == |xs| && forall k :: 0 <= k < |r| ==> r[k] == Trim(xs[k])
  {
    seq(|xs|, k requires 0 <= k < |xs| => Trim(xs[k]))
  }

  /** `s ? s.split(",").map(x => x.trim()) : []`: an empty text gives no entries; otherwise one entry per comma-separated piece, empty pieces kept. */
  function ListField(s: string): (r: seq<string>)
    ensures s == [] ==> r == []
    ensures s != [] ==> |r| == |Split(s, ',')| >= 1
    ensures forall k :: 0 <= k < |r| ==> IsTrimmed(r[k]) && ',' !in r[k]
  {
    if s == [] then []
    else
      var pieces := Split(s, ',');
      var r := TrimAll(pieces);
      SplitPiecesFree(s, ',');
      assert forall k :: 0 <= k < |r| ==> ',' !in r[k] by {
        forall k | 0 <= k < |r| ensures ',' !in r[k] {
          TrimKeepsCharacters(pieces[k]);
        }
      }
      r
  }

  /** A text with a comma but nothing else gives two empty entries: the empty pieces are not filtered out. */
  lemma ListFieldKeepsEmptyPieces()
    ensures ListField(",") == ["", ""]
  {
    assert Split(",", ',') == [""] + Split("", ',');
  }

  /** Pieces typed with a comma and a space between them come back as typed. */
  lemma {:induction false} ListFieldOfJoin(xs: seq<string>)
    requires xs != []
    requires forall k :: 0 <= k < |xs| ==> xs[k] != [] && IsTrimmed(xs[k]) && ',' !in xs[k]
    ensures ListField(Join(xs, ", ")) == xs
  {
    JoinStartsWithFirst(xs, ", ");
    TrimAllOfSpaced("", xs);
    assert "" + Join(xs, ", ") == Join(xs, ", ");
  }

  /** The pieces after the first carry the space of ", " in front, which the trim removes. */
  lemma {:induction false} TrimAllOfSpaced(w: string, xs: seq<string>)
    requires w == "" || w == " "
    requires xs != []
    requires forall k :: 0 <= k < |xs| ==> IsTrimmed(xs[k]) && ',' !in xs[k]
    ensures TrimAll(Split(w + Join(xs, ", "), ',')) == xs
    decreases |xs|
  {
    FirstPiece(w, xs[0], "");
    if |xs| == 1 {
      assert w + Join(xs, ", ") == w + xs[0] + "";
    } else {
      var rest := Join(xs[1..], ", ");
      TrimAllOfSpaced(" ", xs[1..]);
      JoinCommaSpace(w, xs);
      FirstPiece(w, xs[0], " " + rest);
      assert [xs[0]] + xs[1..] == xs;
    }
  }

  /** The first piece of `w + x + "," + rest`, trimmed, is `x`. */
  lemma FirstPiece(w: string, x: string, rest: string)
    requires w == "" || w == " "
    requires IsTrimmed(x) && ',' !in x
    ensures TrimAll(Split(w + x + [','] + rest, ',')) == [x] + TrimAll(Split(rest, ','))
    ensures TrimAll(Split(w + x, ',')) == [x]
  {
    SplitPrefix(w + x, rest, ',');
    TrimAfterSpace(w, x);
    TrimAllAppend([w + x], Split(rest, ','));
    assert w + x + "" == w + x;
  }

  lemma JoinCommaSpace(w: string, xs: seq<string>)
    requires |xs| >= 2
    ensures w + Join(xs, ", ") == w + xs[0] + [','] + (" " + Join(xs[1..], ", "))
  {
  }

  lemma TrimAllAppend(a: seq<string>, b: seq<string>)
    ensures TrimAll(a + b) == TrimAll(a) + TrimAll(b)
  {
  }

  lemma {:induction false} TrimAfterSpace(w: string, x: string)
    requires AllSpace(w) && IsTrimmed(x)
    ensures Trim(w + x) == x
  {
    if w == [] {
      assert w + x == x;
      TrimOfTrimmed(x);
    } else {
      assert (w + x)[1..] == w[1..] + x;
      TrimAfterSpace(w[1..], x);
    }
  }

  /** `Number.parseInt(s) || 0`: NaN and 0 both give 0. */
  function StockOrZero(s: string): (r: int)
    ensures r == 0 <==> ParseInt(s).None? || ParseInt(s) == Some(0)
    ensures r != 0 ==> ParseInt(s) == Some(r)
  {
    if ParseInt(s).Some? then ParseInt(s).value else 0
  }

  /** A stock typed as a whole number is sent as that number. */
  lemma StockOfNumeral(n: int)
    ensures StockOrZero(IntToString(n)) == n
  {
    ParseIntOfIntToString(n);
  }

  /** The body `handleSubmit` posts, with `parseFloat` standing for `Number.parseFloat`. */
  function CreateBody(form: Form, parseFloat: string -> Num): (b: Body)
    ensures b.slug == SlugFor(form) && b.name == form.name
    ensures b.brand == OrNull(form.brand) && b.description == OrNull(form.description)
    ensures b.price == Json(parseFloat(form.price))
    ensures form.compareAtPrice == [] ==> b.compareAtPrice.None?
    ensures form.compareAtPrice != [] ==> b.compareAtPrice == Json(parseFloat(form.compareAtPrice))
    ensures b.stock == Some(StockOrZero(form.stock))
    ensures b.categories == ListField(form.categories) && b.tags == ListField(form.tags)
    ensures b.flavors == ListField(form.flavors) && b.images == ListField(form.images)
  {
    Body(
      form.name,
      SlugFor(form),
      OrNull(form.brand),
      OrNull(form.description),
      Json(parseFloat(form.price)),
      if form.compareAtPrice != [] then Json(parseFloat(form.compareAtPrice)) else None,
      Some(StockOrZero(form.stock)),
      ListField(form.categories),
      ListField(form.tags),
      ListField(form.flavors),
      ListField(form.images))
  }

  /** An untouched form sends empty lists, `null` for brand, description and compare-at price, and a stock of 0. */
  lemma EmptyFormBody(parseFloat: string -> Num)
    ensures var b := CreateBody(EmptyForm, parseFloat);
            b.brand.None? && b.description.None? && b.compareAtPrice.None? && b.stock == Some(0)
            && b.categories == [] && b.tags == [] && b.flavors == [] && b.images == [] && b.slug == []
  {
    assert TrimStart("") == "";
  }

  /** The dialog: its form and the `loading` flag. */
  class CreateProductDialog {
    var form: Form
    var loading: bool

    constructor()
      ensures form == EmptyForm && !loading
    {
      form := EmptyForm;
      loading := false;
    }

    /** Typing into one input. */
    method Type(field: Field, value: string)
      modifies this
      ensures form == With(old(form), field, value)
      ensures loading == old(loading)
    {
      form := With(form, field, value);
    }

    /**
     * `handleSubmit`: returns the body it posts; `ok` says whether a 2xx response was
     * read. The form is emptied only then; on an error it keeps what was typed. Loading
     * ends either way.
     */
    method Submit(parseFloat: string -> Num, ok: bool) returns (body: Body)
      modifies this
      ensures body == CreateBody(old(form), parseFloat)
      ensures form == (if ok then EmptyForm else old(form))
      ensures !loading
    {
      loading := true;
      body := CreateBody(form, parseFloat);
      if ok {
        form := EmptyForm;
      }
      loading := false;
    }
  }

  /** A failed creation keeps the form, so submitting again posts the same body. */
  method RetryAfterFailure(dialog: CreateProductDialog, parseFloat: string -> Num) returns (first: Body, second: Body)
    modifies dialog
    ensures first == second == CreateBody(old(dialog.form), parseFloat)
    ensures dialog.form == EmptyForm
  {
    first := dialog.Submit(parseFloat, false);
    second := dialog.Submit(parseFloat, true);
  }
}
