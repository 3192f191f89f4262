/**
 * The spreadsheet product import (app/api/admin/products/import/route.ts): cell
 * coercion (`toBool`, `toTextArray`), the payload built for each row, and the loop
 * that upserts rows and counts them as created, updated or failed.
 *
 * Decoding the uploaded file into rows (CSV text encoding guess, the spreadsheet
 * reader) is not modelled: the rows are an input.
 */
module ProductImport {
  import opened Text

  // ---------------------------------------------------------------------------
  // Cell coercion
  // ---------------------------------------------------------------------------

  /** A flag cell: null/undefined, a boolean, a number or a text. */
  datatype FlagCell = NoFlag | FlagBool(b: bool) | FlagNum(n: Num) | FlagText(s: string)

  const TrueWords: seq<string> := ["true", "1", "yes", "si", "sí"]
  const FalseWords: seq<string> := ["false", "0", "no"]

  /**
   * `toBool`: null for null/undefined, booleans as they are, numbers by `!== 0` (so NaN
   * is true), and texts by their trimmed, lower-cased spelling; anything else is null.
   */
  function ToBool(v: FlagCell): (r: Option<bool>)
    ensures v.NoFlag? ==> r.None?
    ensures v.FlagBool? ==> r == Some(v.b)
    ensures v.FlagNum? ==> r == Some(v.n != Fin(0.0))
    ensures v.FlagText? ==> (r == Some(true) <==> Lower(Trim(v.s)) in TrueWords)
    ensures v.FlagText? ==> (r == Some(false) <==> Lower(Trim(v.s)) in FalseWords)
  {
    match v
    case NoFlag => None
    case FlagBool(b) => Some(b)
    case FlagNum(n) => Some(n != Fin(0.0))
    case FlagText(s) =>
      var w := Lower(Trim(s));
      if w in TrueWords then Some(true) else if w in FalseWords then Some(false) else None
  }

  /** Padding and case do not matter: " Sí " is true. */
  lemma ToBoolPaddedAccent()
    ensures ToBool(FlagText(" Sí ")) == Some(true)
  {
    var padded := " Sí ";
    assert padded[1..] == "Sí " && IsSpace(padded[0]);
    assert "Sí "[..2] == "Sí" && IsSpace("Sí "[2]);
    TrimOfTrimmed("Sí");
    assert Trim(padded) == "Sí";
    assert Lower("Sí") == "sí";
  }

  /** Upper-case spellings are read too: "SÍ" is true and "No" is false. */
  lemma ToBoolUpperCase()
    ensures ToBool(FlagText("SÍ")) == Some(true)
    ensures ToBool(FlagText("No")) == Some(false)
  {
    TrimOfTrimmed("SÍ");
    TrimOfTrimmed("No");
    assert Lower("SÍ") == "sí";
    assert Lower("No") == "no";
  }

  /** Other words are null, and a NaN number is true. */
  lemma ToBoolOthers()
    ensures ToBool(FlagText("2")) == None
    ensures ToBool(FlagNum(NaN)) == Some(true)
  {
    TrimOfTrimmed("2");
    assert Lower("2") == "2";
  }

  /** A list cell: null/undefined, an array, or a text. */
  datatype ListCell = NoList | ListArray(xs: seq<string>) | ListText(s: string)

  /** The comma path of `toTextArray`. */
  function CommaList(s: string): (r: seq<string>)
    ensures forall k :: 0 <= k < |r| ==> r[k] != [] && IsTrimmed(r[k]) && ',' !in r[k]
  {
    SplitTrimmedFreeOfSeparator(s, ',');
    SplitTrimmed(s, ',')
  }

  predicate Bracketed(t: string) {
    |t| >= 1 && t[0] == '[' && t[|t| - 1] == ']'
  }

  /**
   * `toTextArray`: null for null and for blank text; arrays element-wise; a bracketed
   * text that `parseArray` (JSON.parse, `None` when it throws or is not an array) reads
   * as an array gives its elements; any other text is split at commas.
   */
  function ToTextArray(v: ListCell, parseArray: string -> Option<seq<string>>): (r: Option<seq<string>>)
    ensures v.NoList? ==> r.None?
    ensures v.ListArray? ==> r == Some(v.xs)
    ensures v.ListText? ==> (r.None? <==> Trim(v.s) == [])
    ensures v.ListText? && Trim(v.s) != [] && Bracketed(Trim(v.s)) && parseArray(Trim(v.s)).Some? ==>
              r == parseArray(Trim(v.s))
    ensures v.ListText? && Trim(v.s) != [] && !(Bracketed(Trim(v.s)) && parseArray(Trim(v.s)).Some?) ==>
              r == Some(CommaList(Trim(v.s)))
  {
    match v
    case NoList => None
    case ListArray(xs) => Some(xs)
    case ListText(s) =>
      var t := Trim(s);
      if t == [] then None
      else if Bracketed(t) && parseArray(t).Some? then parseArray(t)
      else Some(CommaList(t))
  }

  /** A lone comma gives the empty list, not null. */
  lemma LoneCommaIsEmptyList(parseArray: string -> Option<seq<string>>)
    ensures ToTextArray(ListText(","), parseArray) == Some([])
  {
    assert Trim(",") == ",";
    assert Split(",", ',') == ["", ""];
    assert Trim("") == [];
  }

  /** The comma path keeps the pieces in input order: text joined at a comma lists the first part's pieces first. */
  lemma CommaListInOrder(a: string, b: string)
    ensures CommaList(a + [','] + b) == CommaList(a) + CommaList(b)
    ensures ',' !in a && Trim(a) != [] ==> CommaList(a) == [Trim(a)]
  {
    SplitTrimmedAppend(a, b, ',');
    if ',' !in a {
      SplitTrimmedOfPiece(a, ',');
    }
  }

  // ---------------------------------------------------------------------------
  // Rows and payloads
  // ---------------------------------------------------------------------------

  /** A sheet row; `None` is a column the sheet does not have. */
  datatype Row = Row(
    id: Option<string>, slug: Option<string>, name: Option<string>, brand: Option<string>,
    description: Option<string>, price: Option<string>, compareAtPrice: Option<string>,
    image: Option<string>, category: Option<string>, subcategory: Option<string>,
    stock: Option<string>, isFeatured: FlagCell, isNew: FlagCell, rating: Option<string>,
    reviewsCount: Option<string>, tags: ListCell, benefits: ListCell, ingredients: ListCell,
    usageInstructions: Option<string>, warnings: Option<string>)

  /** The upserted record; `id` and `slug` are left out (`None`) when the row's cell is empty. */
  datatype Payload = Payload(
    id: Option<string>, slug: Option<string>, name: Option<string>, brand: Option<string>,
    description: Option<string>, price: Num, compareAtPrice: Option<Num>, image: Option<string>,
    category: Option<string>, subcategory: Option<string>, stock: Num, isFeatured: bool, isNew: bool,
    rating: Option<Num>, reviewsCount: Num, tags: Option<seq<string>>, benefits: Option<seq<string>>,
    ingredients: Option<seq<string>>, usageInstructions: Option<string>, warnings: Option<string>)

  function NumberOr(cell: Option<string>, toNumber: string -> Num, d: Num): Num {
    if cell.Some? then toNumber(cell.value) else d
  }

  function OptionalNumber(cell: Option<string>, toNumber: string -> Num): Option<Num> {
    if cell.Some? then Some(toNumber(cell.value)) else None
  }

  function FlagOrFalse(cell: FlagCell): bool {
    var b := ToBool(cell);
    b.Some? && b.value
  }

  /**
   * The payload for a row: empty key cells are dropped, missing numbers default to 0
   * (price, stock, reviews count) or null (compare-at price, rating), and flags
   * default to false.
   */
  function BuildPayload(r: Row, toNumber: string -> Num, parseArray: string -> Option<seq<string>>): (p: Payload)
    ensures p.id.Some? <==> Filled(r.id)
    ensures p.slug.Some? <==> Filled(r.slug)
    ensures p.slug.Some? ==> p.slug == r.slug
    ensures p.id.Some? ==> p.id == r.id
    ensures r.price.None? ==> p.price == Fin(0.0)
    ensures r.stock.None? ==> p.stock == Fin(0.0)
    ensures r.reviewsCount.None? ==> p.reviewsCount == Fin(0.0)
    ensures p.isFeatured <==> ToBool(r.isFeatured) == Some(true)
    ensures p.isNew <==> ToBool(r.isNew) == Some(true)
    ensures p.tags == ToTextArray(r.tags, parseArray)
  {
    Payload(
      if Filled(r.id) then r.id else None,
      if Filled(r.slug) then r.slug else None,
      r.name, r.brand, r.description,
      NumberOr(r.price, toNumber, Fin(0.0)),
      OptionalNumber(r.compareAtPrice, toNumber),
      r.image, r.category, r.subcategory,
      NumberOr(r.stock, toNumber, Fin(0.0)),
      FlagOrFalse(r.isFeatured), FlagOrFalse(r.isNew),
      OptionalNumber(r.rating, toNumber),
      NumberOr(r.reviewsCount, toNumber, Fin(0.0)),
      ToTextArray(r.tags, parseArray), ToTextArray(r.benefits, parseArray), ToTextArray(r.ingredients, parseArray),
      r.usageInstructions, r.warnings)
  }

  /** The column a row is looked up by and upserted on. */
  datatype Key = BySlug(slug: string) | ById(id: string)

  /** The slug when there is one, otherwise the id. */
  function KeyOf(p: Payload): (k: Option<Key>)
    ensures p.slug.Some? ==> k == Some(BySlug(p.slug.value))
    ensures p.slug.None? && p.id.Some? ==> k == Some(ById(p.id.value))
    ensures k.None? <==> p.slug.None? && p.id.None?
  {
    if p.slug.Some? then Some(BySlug(p.slug.value))
    else if p.id.Some? then Some(ById(p.id.value))
    else None
  }

  // ---------------------------------------------------------------------------
  // The row loop
  // ---------------------------------------------------------------------------

  /** The product keys already in the table. */
  datatype Table = Table(slugs: set<string>, ids: set<string>)

  predicate Exists(t: Table, k: Key) {
    match k
    case BySlug(s) => s in t.slugs
    case ById(i) => i in t.ids
  }

  /** The table after a successful upsert. */
  function Upserted(t: Table, p: Payload, k: Key): (t': Table)
    ensures Exists(t', k)
    ensures t.slugs <= t'.slugs && t.ids <= t'.ids
  {
    match k
    case BySlug(s) => Table(t.slugs + {s}, if p.id.Some? then t.ids + {p.id.value} else t.ids)
    case ById(i) => Table(t.slugs, t.ids + {i})
  }

  /** The database's answer for one row: both calls fine, or the lookup or the upsert failed with a message. */
  datatype DbAnswer = Fine | LookupFailed(message: Option<string>) | UpsertFailed(message: Option<string>)

  /** What the loop has gathered. */
  datatype Tally = Tally(created: nat, updated: nat, errors: seq<string>, upserts: seq<Payload>, table: Table)

  function RowLabel(r: Row): string {
    if Filled(r.slug) then " (slug " + r.slug.value + ")"
    else if Filled(r.id) then " (id " + r.id.value + ")"
    else ""
  }

  /** Spreadsheet line of row i: the header is line 1, so row i is line i + 2. */
  function LineNo(i: nat): string {
    NatToString(i + 2)
  }

  function MissingKeyError(i: nat): string {
    "Fila " + LineNo(i) + ": falta 'slug' o 'id' para upsert"
  }

  /** One iteration of the loop for row `i`. */
  function Step(t: Tally, i: nat, r: Row, a: DbAnswer, toNumber: string -> Num,
                parseArray: string -> Option<seq<string>>): (t': Tally)
    ensures t'.created + t'.updated + |t'.errors| == t.created + t.updated + |t.errors| + 1
    ensures !Filled(r.slug) && !Filled(r.id) ==>
              t' == t.(errors := t.errors + [MissingKeyError(i)])
    ensures t'.upserts == t.upserts
            || (t'.upserts == t.upserts + [BuildPayload(r, toNumber, parseArray)]
                && KeyOf(BuildPayload(r, toNumber, parseArray)).Some?)
  {
    if !Filled(r.slug) && !Filled(r.id) then t.(errors := t.errors + [MissingKeyError(i)])
    else
      var p := BuildPayload(r, toNumber, parseArray);
      var k := KeyOf(p).value;
      match a
      case Fine =>
        var t1 := t.(upserts := t.upserts + [p], table := Upserted(t.table, p, k));
        if Exists(t.table, k) then t1.(updated := t.updated + 1) else t1.(created := t.created + 1)
      case LookupFailed(m) =>
        t.(errors := t.errors + ["Fila " + LineNo(i) + RowLabel(r) + ": " + (if Filled(m) then m.value else "Error")])
      case UpsertFailed(m) =>
        t.(errors := t.errors + ["Fila " + LineNo(i) + RowLabel(r) + ": " + (if Filled(m) then m.value else "Error")])
  }

  /** The tally after the first `n` rows. */
  function Run(rows: seq<Row>, answers: seq<DbAnswer>, n: nat, table: Table, toNumber: string -> Num,
               parseArray: string -> Option<seq<string>>): (t: Tally)
    requires n <= |rows| == |answers|
    ensures t.created + t.updated + |t.errors| == n
  {
    if n == 0 then Tally(0, 0, [], [], table)
    else Step(Run(rows, answers, n - 1, table, toNumber, parseArray), n - 1, rows[n - 1], answers[n - 1], toNumber, parseArray)
  }

  /** The loop of `POST`: every row is tried in order, and a failure does not stop the loop. */
  method ImportRows(rows: seq<Row>, answers: seq<DbAnswer>, table: Table, toNumber: string -> Num,
                    parseArray: string -> Option<seq<string>>) returns (t: Tally)
    requires |rows| == |answers|
    ensures t == Run(rows, answers, |rows|, table, toNumber, parseArray)
    ensures t.created + t.updated + |t.errors| == |rows|
  {
    t := Tally(0, 0, [], [], table);
    for i := 0 to |rows|
      invariant t == Run(rows, answers, i, table, toNumber, parseArray)
    {
      var r := rows[i];
      if !Filled(r.slug) && !Filled(r.id) {
        t := t.(errors := t.errors + [MissingKeyError(i)]);
        continue;
      }
      var p := BuildPayload(r, toNumber, parseArray);
      var k := KeyOf(p).value;
      var found := Exists(t.table, k);
      match answers[i] {
        case Fine =>
          t := t.(upserts := t.upserts + [p], table := Upserted(t.table, p, k));
          if found {
            t := t.(updated := t.updated + 1);
          } else {
            t := t.(created := t.created + 1);
          }
        case LookupFailed(m) =>
          t := t.(errors := t.errors + ["Fila " + LineNo(i) + RowLabel(r) + ": " + (if Filled(m) then m.value else "Error")]);
        case UpsertFailed(m) =>
          t := t.(errors := t.errors + ["Fila " + LineNo(i) + RowLabel(r) + ": " + (if Filled(m) then m.value else "Error")]);
      }
    }
  }

  predicate AllKeyed(ps: seq<Payload>) {
    forall j :: 0 <= j < |ps| ==> KeyOf(ps[j]).Some?
  }

  lemma StepKeepsKeyed(t: Tally, i: nat, r: Row, a: DbAnswer, toNumber: string -> Num,
                       parseArray: string -> Option<seq<string>>)
    requires AllKeyed(t.upserts)
    ensures AllKeyed(Step(t, i, r, a, toNumber, parseArray).upserts)
  {
    var ps := Step(t, i, r, a, toNumber, parseArray).upserts;
    if ps != t.upserts {
      var p := BuildPayload(r, toNumber, parseArray);
      assert ps == t.upserts + [p] && KeyOf(p).Some?;
      forall j | 0 <= j < |ps|
        ensures KeyOf(ps[j]).Some?
      {
        if j < |t.upserts| {
          assert ps[j] == t.upserts[j];
        }
      }
    }
  }

  /** Every upserted payload has a key: rows with neither slug nor id are never written. */
  lemma {:induction false} UpsertsHaveKeys(rows: seq<Row>, answers: seq<DbAnswer>, n: nat, table: Table,
                                           toNumber: string -> Num, parseArray: string -> Option<seq<string>>)
    requires n <= |rows| == |answers|
    ensures AllKeyed(Run(rows, answers, n, table, toNumber, parseArray).upserts)
  {
    if n > 0 {
      UpsertsHaveKeys(rows, answers, n - 1, table, toNumber, parseArray);
      StepKeepsKeyed(Run(rows, answers, n - 1, table, toNumber, parseArray), n - 1, rows[n - 1], answers[n - 1],
                     toNumber, parseArray);
    }
  }

  /** A keyless row adds exactly its "Fila i+2" error, and writes and counts nothing. */
  lemma KeylessRowOnlyReported(t: Tally, i: nat, r: Row, a: DbAnswer, toNumber: string -> Num,
                               parseArray: string -> Option<seq<string>>)
    requires !Filled(r.slug) && !Filled(r.id)
    ensures var t' := Step(t, i, r, a, toNumber, parseArray);
            t'.errors == t.errors + ["Fila " + NatToString(i + 2) + ": falta 'slug' o 'id' para upsert"]
            && t'.upserts == t.upserts && t'.table == t.table && t'.created == t.created && t'.updated == t.updated
  {
  }

  /** A row with both a slug and an id is looked up and upserted by its slug. */
  lemma SlugTakesPrecedence(r: Row, toNumber: string -> Num, parseArray: string -> Option<seq<string>>)
    requires Filled(r.slug) && Filled(r.id)
    ensures KeyOf(BuildPayload(r, toNumber, parseArray)) == Some(BySlug(r.slug.value))
  {
  }

  /** The second of two rows with the same slug counts as an update when the first was written. */
  lemma RepeatedSlugUpdates(r1: Row, r2: Row, table: Table, toNumber: string -> Num,
                            parseArray: string -> Option<seq<string>>)
    requires Filled(r1.slug) && r2.slug == r1.slug
    ensures var t := Run([r1, r2], [Fine, Fine], 2, table, toNumber, parseArray);
            t.updated >= 1 && |t.upserts| == 2 && t.errors == []
  {
    var rows, answers := [r1, r2], [Fine, Fine];
    var t0 := Run(rows, answers, 0, table, toNumber, parseArray);
    var t1 := Run(rows, answers, 1, table, toNumber, parseArray);
    assert t1 == Step(t0, 0, r1, Fine, toNumber, parseArray);
    var k := BySlug(r1.slug.value);
    assert KeyOf(BuildPayload(r1, toNumber, parseArray)) == Some(k);
    assert KeyOf(BuildPayload(r2, toNumber, parseArray)) == Some(k);
    assert Exists(t1.table, k) && |t1.upserts| == 1 && t1.errors == [];
    assert Run(rows, answers, 2, table, toNumber, parseArray) == Step(t1, 1, r2, Fine, toNumber, parseArray);
  }

  /** The answer of `POST`. */
  datatype Response = MissingFile | Failed(error: string) | Summary(created: nat, updated: nat, errors: seq<string>)

  /**
   * `POST`: 400 without a file, 500 when the database credentials are missing (the client
   * constructor throws before any row is read), otherwise the loop's counts.
   */
  method Post(fileSent: bool, credentials: bool, rows: seq<Row>, answers: seq<DbAnswer>, table: Table,
              toNumber: string -> Num, parseArray: string -> Option<seq<string>>) returns (r: Response)
    requires |rows| == |answers|
    ensures !fileSent ==> r == MissingFile
    ensures fileSent && !credentials ==> r.Failed?
    ensures fileSent && credentials ==>
              var t := Run(rows, answers, |rows|, table, toNumber, parseArray);
              r == Summary(t.created, t.updated, t.errors) && r.created + r.updated + |r.errors| == |rows|
  {
    if !fileSent {
      return MissingFile;
    }
    if !credentials {
      return Failed("Faltan SUPABASE_URL o SUPABASE_SERVICE_ROLE_KEY en las variables de entorno del servidor");
    }
    var t := ImportRows(rows, answers, table, toNumber, parseArray);
    return Summary(t.created, t.updated, t.errors);
  }
}
