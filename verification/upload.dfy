/**
  How uploadRecipe turns the upload form into the request body
  (src/js/model.js:233-260). The ingredient fields are named
  `ingredient<Z>q<Z>N`, `ingredient<Z>u<Z>N`, `ingredient<Z>d<Z>N` (quantity,
  unit, description of ingredient N, the separator being the letter Z); the
  parser walks the entries whose name starts with "ingredient" and, whenever
  the index part of a name equals a running counter, reads a triple from that
  entry and the next two.
 */
module Upload {
  import opened Wrappers
  import opened JsLib
  import opened Types

  /** A field of the submitted form object: name and value, in Object.entries order. */
  type Field = (string, string)

  /** `[name.split('Z'), value].flat(1)`: the parts of the name, then the value. */
  type Entry = seq<string>

  /** `entry[i]`, which is `undefined` past the end. */
  function At(e: Entry, i: nat): (r: Option<string>)
    ensures r.Some? <==> i < |e|
  {
    if i < |e| then Some(e[i]) else None
  }

  /** `+v` on a string or `undefined` (NaN); None is a non-finite number. */
  function ToNumber(v: Option<string>): Option<real> {
    match v
    case None => None
    case Some(s) => StrToNumber(s)
  }

  /** The entries of the fields whose name starts with "ingredient", in order. */
  function IngredientEntries(form: seq<Field>): (es: seq<Entry>)
    ensures |es| <= |form|
  {
    if form == [] then []
    else
      var rest := IngredientEntries(form[1..]);
      if StartsWith(form[0].0, "ingredient") then [Split(form[0].0, 'Z') + [form[0].1]] + rest
      else rest
  }

  /** `counter === +entry[2]`: the entry starts the triple of ingredient `counter`. */
  predicate StartsTriple(e: Entry, counter: int) {
    ToNumber(At(e, 2)) == Some(counter as real)
  }

  /**
    The triple read from `es[0]`, `es[1]`, `es[2]` once es[0] starts one: a
    quantity that is not a finite number, or an empty description, is the
    'Wrong ingredient format' error; reading an entry or a value that is not
    there is a TypeError. Unit and description are trimmed.
   */
  function ReadTriple(es: seq<Entry>): (r: Result<Ingredient, Failure>)
    requires es != []
    ensures r.Ok? ==> r.value.quantity.Some?
  {
    if ToNumber(At(es[0], 3)).None? then Err(WrongIngredientFormat)
    else if |es| < 3 then Err(TypeError)
    else if At(es[2], 3) == Some("") then Err(WrongIngredientFormat)
    else if At(es[1], 3).None? || At(es[2], 3).None? then Err(TypeError)
    else Ok(Ingredient(ToNumber(At(es[0], 3)), Trim(es[1][3]), Trim(es[2][3])))
  }

  /** `all` followed by the outcome of the rest of the loop. */
  function Prepend(all: seq<Ingredient>, r: Result<seq<Ingredient>, Failure>): (r': Result<seq<Ingredient>, Failure>)
    ensures all == [] ==> r' == r
    ensures r.Err? <==> r'.Err?
    ensures r.Err? ==> r' == r
    ensures r.Ok? ==> r'.value == all + r.value
  {
    match r
    case Ok(rest) => assert all == [] ==> all + rest == rest; Ok(all + rest)
    case Err(f) => Err(f)
  }

  /**
    The ingredient list the counter loop builds from the remaining entries
    `es` (the first of them being entry i), with `counter` the next index it
    waits for.
   */
  function ParseFrom(es: seq<Entry>, counter: int): (r: Result<seq<Ingredient>, Failure>)
    ensures r.Err? ==> r.error == WrongIngredientFormat || r.error == TypeError
    ensures r.Ok? ==> |r.value| <= |es|
    ensures r.Ok? ==> forall k :: 0 <= k < |r.value| ==> r.value[k].quantity.Some?
    decreases |es|
  {
    if es == [] then Ok([])
    else if !StartsTriple(es[0], counter) then ParseFrom(es[1..], counter)
    else
      match ReadTriple(es)
      case Err(f) => Err(f)
      case Ok(ing) => Prepend([ing], ParseFrom(es[1..], counter + 1))
  }

  lemma PrependTwice(all: seq<Ingredient>, more: seq<Ingredient>, r: Result<seq<Ingredient>, Failure>)
    ensures Prepend(all, Prepend(more, r)) == Prepend(all + more, r)
  {
    if r.Ok? {
      assert all + (more + r.value) == (all + more) + r.value;
    }
  }

  /** The counter loop of uploadRecipe over the filtered ingredient entries. */
  method ParseIngredients(form: seq<Field>) returns (res: Result<seq<Ingredient>, Failure>)
    ensures res == ParseFrom(IngredientEntries(form), 1)
  {
    var es := IngredientEntries(form);
    var counter := 1;
    var all: seq<Ingredient> := [];
    var i := 0;
    assert es[i..] == es;
    while i < |es|
      invariant 0 <= i <= |es|
      invariant ParseFrom(es, 1) == Prepend(all, ParseFrom(es[i..], counter))
    {
      var entry := es[i];
      ghost var rest := es[i..];
      assert rest[0] == entry && rest[1..] == es[i + 1..];
      if StartsTriple(entry, counter) {
        if ToNumber(At(entry, 3)).None? {
          assert ReadTriple(rest) == Err(WrongIngredientFormat);
          return Err(WrongIngredientFormat);
        }
        if i + 2 >= |es| {
          assert ReadTriple(rest) == Err(TypeError);
          return Err(TypeError);
        }
        assert rest[1] == es[i + 1] && rest[2] == es[i + 2];
        if At(es[i + 2], 3) == Some("") {
          assert ReadTriple(rest) == Err(WrongIngredientFormat);
          return Err(WrongIngredientFormat);
        }
        if At(es[i + 1], 3).None? || At(es[i + 2], 3).None? {
          assert ReadTriple(rest) == Err(TypeError);
          return Err(TypeError);
        }
        var ing := Ingredient(ToNumber(At(entry, 3)), Trim(es[i + 1][3]), Trim(es[i + 2][3]));
        assert ReadTriple(rest) == Ok(ing);
        assert ParseFrom(rest, counter) == Prepend([ing], ParseFrom(es[i + 1..], counter + 1));
        PrependTwice(all, [ing], ParseFrom(es[i + 1..], counter + 1));
        all := all + [ing];
        counter := counter + 1;
      } else {
        assert ParseFrom(rest, counter) == ParseFrom(es[i + 1..], counter);
      }
      i := i + 1;
    }
    assert es[i..] == [] && all + [] == all;
    res := Ok(all);
  }

  // ------------------------------------------------------ what it accepts

  /** The three texts a user types for one ingredient. */
  datatype Row = Row(quantity: string, unit: string, description: string)

  /** What the parser asks of a row: a finite quantity and a non-empty description. */
  predicate RowAccepted(row: Row) {
    StrToNumber(row.quantity).Some? && row.description != ""
  }

  /** Every row is accepted, checked front to back. */
  predicate AllAccepted(rows: seq<Row>) {
    rows == [] || (RowAccepted(rows[0]) && AllAccepted(rows[1..]))
  }

  lemma {:induction false} AllAcceptedMeansEvery(rows: seq<Row>)
    ensures AllAccepted(rows) <==> forall j :: 0 <= j < |rows| ==> RowAccepted(rows[j])
  {
    if rows != [] {
      AllAcceptedMeansEvery(rows[1..]);
      assert forall j :: 1 <= j < |rows| ==> rows[1..][j - 1] == rows[j];
    }
  }

  function RowIngredient(row: Row): Ingredient {
    Ingredient(StrToNumber(row.quantity), Trim(row.unit), Trim(row.description))
  }

  function FieldName(part: char, n: nat): string {
    "ingredient" + "Z" + [part] + "Z" + NatToString(n)
  }

  /** The fields of rows numbered k, k+1, ... in the parser's naming convention. */
  function RowFields(rows: seq<Row>, k: nat): seq<Field>
    decreases |rows|
  {
    if rows == [] then []
    else
      [(FieldName('q', k), rows[0].quantity), (FieldName('u', k), rows[0].unit),
       (FieldName('d', k), rows[0].description)] + RowFields(rows[1..], k + 1)
  }

  lemma {:induction false} IngredientEntriesAppend(a: seq<Field>, b: seq<Field>)
    ensures IngredientEntries(a + b) == IngredientEntries(a) + IngredientEntries(b)
  {
    if a != [] {
      assert (a + b)[0] == a[0];
      assert (a + b)[1..] == a[1..] + b;
      IngredientEntriesAppend(a[1..], b);
      var f := a[0];
      if StartsWith(f.0, "ingredient") {
        assert IngredientEntries(a + b) == [Split(f.0, 'Z') + [f.1]] + IngredientEntries(a[1..] + b);
        assert IngredientEntries(a) == [Split(f.0, 'Z') + [f.1]] + IngredientEntries(a[1..]);
      } else {
        assert IngredientEntries(a + b) == IngredientEntries(a[1..] + b);
      }
    } else {
      assert a + b == b;
    }
  }

  lemma {:induction false} OtherFieldsIgnored(others: seq<Field>)
    requires forall j :: 0 <= j < |others| ==> !StartsWith(others[j].0, "ingredient")
    ensures IngredientEntries(others) == []
  {
    if others != [] {
      assert forall j :: 0 <= j < |others| - 1 ==> others[1..][j] == others[j + 1];
      OtherFieldsIgnored(others[1..]);
    }
  }

  lemma FieldNameEntry(part: char, n: nat, v: string)
    requires part != 'Z'
    ensures StartsWith(FieldName(part, n), "ingredient")
    ensures Split(FieldName(part, n), 'Z') + [v] == ["ingredient", [part], NatToString(n), v]
  {
    var digits := NatToString(n);
    assert forall j :: 0 <= j < |digits| ==> digits[j] != 'Z';
    assert 'Z' !in digits;
    assert FieldName(part, n) == "ingredient" + ['Z'] + ([part] + ['Z'] + digits);
    SplitAfterPrefix("ingredient", [part] + ['Z'] + digits, 'Z');
    SplitAfterPrefix([part], digits, 'Z');
    SplitNoSeparator(digits, 'Z');
  }

  /** The entries of well-named rows: one per field, carrying the row number at index 2. */
  function RowEntries(rows: seq<Row>, k: nat): seq<Entry>
    decreases |rows|
  {
    if rows == [] then []
    else
      [["ingredient", "q", NatToString(k), rows[0].quantity],
       ["ingredient", "u", NatToString(k), rows[0].unit],
       ["ingredient", "d", NatToString(k), rows[0].description]] + RowEntries(rows[1..], k + 1)
  }

  lemma IngredientEntriesCons(f: Field, rest: seq<Field>)
    ensures IngredientEntries([f] + rest) ==
            if StartsWith(f.0, "ingredient") then [Split(f.0, 'Z') + [f.1]] + IngredientEntries(rest)
            else IngredientEntries(rest)
  {
    assert ([f] + rest)[1..] == rest;
  }

  lemma {:induction false} RowFieldsEntries(rows: seq<Row>, k: nat)
    ensures IngredientEntries(RowFields(rows, k)) == RowEntries(rows, k)
  {
    if rows != [] {
      var r := rows[0];
      var rest := RowFields(rows[1..], k + 1);
      var fq, fu, fd := (FieldName('q', k), r.quantity), (FieldName('u', k), r.unit),
                        (FieldName('d', k), r.description);
      assert RowFields(rows, k) == [fq] + ([fu] + ([fd] + rest));
      FieldNameEntry('q', k, r.quantity);
      FieldNameEntry('u', k, r.unit);
      FieldNameEntry('d', k, r.description);
      IngredientEntriesCons(fd, rest);
      IngredientEntriesCons(fu, [fd] + rest);
      IngredientEntriesCons(fq, [fu] + ([fd] + rest));
      RowFieldsEntries(rows[1..], k + 1);
    }
  }

  /** The ingredients of accepted rows, in row order. */
  function RowIngredients(rows: seq<Row>): (r: seq<Ingredient>)
    ensures |r| == |rows|
  {
    if rows == [] then [] else [RowIngredient(rows[0])] + RowIngredients(rows[1..])
  }

  /** Ingredient j is read from row j. */
  lemma {:induction false} RowIngredientsAt(rows: seq<Row>, j: nat)
    requires j < |rows|
    ensures RowIngredients(rows)[j] == RowIngredient(rows[j])
  {
    if j > 0 {
      RowIngredientsAt(rows[1..], j - 1);
    }
  }

  /** An entry whose index part is not the counter is passed over. */
  lemma SkipEntry(e: Entry, rest: seq<Entry>, counter: int)
    requires !StartsTriple(e, counter)
    ensures ParseFrom([e] + rest, counter) == ParseFrom(rest, counter)
  {
    assert ([e] + rest)[1..] == rest;
  }

  /** The triple a well-named row yields: its ingredient, or the format error. */
  lemma ReadRowTriple(r: Row, n: string, tail: seq<Entry>)
    ensures ReadTriple([["ingredient", "q", n, r.quantity], ["ingredient", "u", n, r.unit],
                        ["ingredient", "d", n, r.description]] + tail) ==
            if RowAccepted(r) then Ok(RowIngredient(r)) else Err(WrongIngredientFormat)
  {
    var es := [["ingredient", "q", n, r.quantity], ["ingredient", "u", n, r.unit],
               ["ingredient", "d", n, r.description]] + tail;
    assert At(es[0], 3) == Some(r.quantity);
    assert At(es[1], 3) == Some(r.unit);
    assert At(es[2], 3) == Some(r.description);
  }

  /** Once an entry starts the triple, the loop reads it and moves on with the next counter. */
  lemma ParseFromTriple(es: seq<Entry>, counter: int)
    requires es != [] && StartsTriple(es[0], counter)
    ensures ParseFrom(es, counter) ==
            match ReadTriple(es)
            case Err(f) => Err(f)
            case Ok(ing) => Prepend([ing], ParseFrom(es[1..], counter + 1))
  {
  }

  /** The unit and description entries of row k never match counter k + 1. */
  lemma SkipRowRest(eu: Entry, ed: Entry, tail: seq<Entry>, k: nat)
    requires At(eu, 2) == Some(NatToString(k)) && At(ed, 2) == Some(NatToString(k))
    ensures ParseFrom([eu] + ([ed] + tail), k + 1) == ParseFrom(tail, k + 1)
  {
    NatToStringRoundTrip(k);
    SkipEntry(ed, tail, k + 1);
    SkipEntry(eu, [ed] + tail, k + 1);
  }

  /** One row's worth of the counter loop: read the triple, then skip its unit and description entries. */
  lemma ParseRowEntriesStep(rows: seq<Row>, k: nat, after: seq<Entry>)
    requires rows != []
    ensures ParseFrom(RowEntries(rows, k) + after, k) ==
            if !RowAccepted(rows[0]) then Err(WrongIngredientFormat)
            else Prepend([RowIngredient(rows[0])], ParseFrom(RowEntries(rows[1..], k + 1) + after, k + 1))
  {
    var r := rows[0];
    var n := NatToString(k);
    var tail := RowEntries(rows[1..], k + 1) + after;
    var eq: Entry := ["ingredient", "q", n, r.quantity];
    var eu: Entry := ["ingredient", "u", n, r.unit];
    var ed: Entry := ["ingredient", "d", n, r.description];
    var es := RowEntries(rows, k) + after;
    assert es == [eq, eu, ed] + tail;
    assert es[1..] == [eu] + ([ed] + tail);
    NatToStringRoundTrip(k);
    assert StartsTriple(eq, k);
    ReadRowTriple(r, n, tail);
    ParseFromTriple(es, k);
    SkipRowRest(eu, ed, tail, k);
  }

  /** Row by row: a rejected row is the format error, an accepted one puts its ingredient before the rest. */
  function RowsOutcome(rows: seq<Row>, rest: Result<seq<Ingredient>, Failure>): Result<seq<Ingredient>, Failure>
    decreases |rows|
  {
    if rows == [] then rest
    else if !RowAccepted(rows[0]) then Err(WrongIngredientFormat)
    else Prepend([RowIngredient(rows[0])], RowsOutcome(rows[1..], rest))
  }

  /** The row-by-row outcome is the format error unless every row is accepted, and then all their ingredients go first. */
  lemma {:induction false} RowsOutcomeAll(rows: seq<Row>, rest: Result<seq<Ingredient>, Failure>)
    ensures RowsOutcome(rows, rest) ==
            if AllAccepted(rows) then Prepend(RowIngredients(rows), rest) else Err(WrongIngredientFormat)
  {
    if rows != [] && RowAccepted(rows[0]) {
      RowsOutcomeAll(rows[1..], rest);
      if AllAccepted(rows[1..]) {
        PrependTwice([RowIngredient(rows[0])], RowIngredients(rows[1..]), rest);
      }
    }
  }

  /** The first row decides, or hands over to the rows after it. */
  lemma RowsOutcomeStep(rows: seq<Row>, first: Result<seq<Ingredient>, Failure>,
                        next: Result<seq<Ingredient>, Failure>, rest: Result<seq<Ingredient>, Failure>)
    requires rows != []
    requires first == if !RowAccepted(rows[0]) then Err(WrongIngredientFormat)
                      else Prepend([RowIngredient(rows[0])], next)
    requires next == RowsOutcome(rows[1..], rest)
    ensures first == RowsOutcome(rows, rest)
  {
  }

  /**
    Well-named rows numbered from the counter are read one triple per row,
    and then the following entries with the counter moved past them.
   */
  lemma {:induction false} ParseRowEntries(rows: seq<Row>, k: nat, after: seq<Entry>, end: int)
    requires end == k + |rows|
    ensures ParseFrom(RowEntries(rows, k) + after, k) == RowsOutcome(rows, ParseFrom(after, end))
  {
    if rows == [] {
      assert RowEntries(rows, k) + after == after;
    } else {
      ParseRowEntriesStep(rows, k, after);
      ParseRowEntries(rows[1..], k + 1, after, end);
      RowsOutcomeStep(rows, ParseFrom(RowEntries(rows, k) + after, k),
                      ParseFrom(RowEntries(rows[1..], k + 1) + after, k + 1), ParseFrom(after, end));
    }
  }

  /**
    A form made of other fields followed by well-named ingredient rows parses
    to exactly those rows' ingredients, in row order, when every row has a
    finite quantity and a non-empty description, and is rejected with the
    format error otherwise.
   */
  lemma ParseWellNamedForm(others: seq<Field>, rows: seq<Row>)
    requires forall j :: 0 <= j < |others| ==> !StartsWith(others[j].0, "ingredient")
    ensures ParseFrom(IngredientEntries(others + RowFields(rows, 1)), 1) ==
            if forall j :: 0 <= j < |rows| ==> RowAccepted(rows[j])
            then Ok(RowIngredients(rows))
            else Err(WrongIngredientFormat)
  {
    IngredientEntriesAppend(others, RowFields(rows, 1));
    OtherFieldsIgnored(others);
    RowFieldsEntries(rows, 1);
    assert IngredientEntries(others + RowFields(rows, 1)) == RowEntries(rows, 1) + [];
    ParseRowEntries(rows, 1, [], 1 + |rows|);
    RowsOutcomeAll(rows, ParseFrom([], 1 + |rows|));
    AllAcceptedMeansEvery(rows);
  }

  /** Field names without the letter Z never match the counter: no ingredient is read, and nothing fails. */
  lemma {:induction false} NamesWithoutSeparatorYieldNothing(form: seq<Field>, counter: int)
    requires forall j :: 0 <= j < |form| ==> 'Z' !in form[j].0
    ensures ParseFrom(IngredientEntries(form), counter) == Ok([])
  {
    if form != [] {
      NamesWithoutSeparatorYieldNothing(form[1..], counter);
      if StartsWith(form[0].0, "ingredient") {
        SplitNoSeparator(form[0].0, 'Z');
        var es := IngredientEntries(form);
        assert es[0] == [form[0].0, form[0].1];
        assert es[1..] == IngredientEntries(form[1..]);
      }
    }
  }

  // ------------------------------------------------------------ the request

  /** The body uploadRecipe POSTs to the recipe API. */
  datatype UploadBody = UploadBody(
    title: Option<string>, sourceUrl: Option<string>, image: Option<string>, publisher: Option<string>,
    cookingTime: Option<real>, servings: Option<real>, ingredients: seq<Ingredient>)

  /** `newRecipe[name]`: the value of the first field with that name. */
  function Lookup(form: seq<Field>, name: string): (v: Option<string>)
    ensures v.Some? <==> exists j :: 0 <= j < |form| && form[j].0 == name
    ensures v.Some? ==> exists j :: 0 <= j < |form| && form[j] == (name, v.value)
  {
    if form == [] then None
    else if form[0].0 == name then Some(form[0].1)
    else
      var v := Lookup(form[1..], name);
      assert forall j :: 1 <= j < |form| ==> form[j] == form[1..][j - 1];
      v
  }

  function BuildBody(form: seq<Field>, ingredients: seq<Ingredient>): UploadBody {
    UploadBody(Lookup(form, "title"), Lookup(form, "sourceUrl"), Lookup(form, "image"),
               Lookup(form, "publisher"), ToNumber(Lookup(form, "cookingTime")),
               ToNumber(Lookup(form, "servings")), ingredients)
  }
}
