/**
  The ingredient rows of the upload form (src/js/views/addRecipeView.js):
  the row counter `_numOfIngredients`, kept between the configured bounds by
  the add and remove buttons and reset by an upload, and the names the view
  gives the fields of the rows it creates.
 */
module AddRecipeView {
  import opened Wrappers
  import opened JsLib
  import opened Types
  import opened Upload

  /** Rows 1 to n, in order: the form as it stands after n - 6 additions to the default form. */
  function Rows(n: nat): (rows: seq<int>)
    ensures |rows| == n
  {
    seq(n, j requires 0 <= j < n => j + 1)
  }

  /** The ingredient part of the upload form. */
  class AddRecipeForm {
    /** `_numOfIngredients` */
    var num: int
    /** The numbers N of the rows (`label-N` and `div-N`) the form shows, in document order. */
    var rows: seq<int>

    ghost predicate Valid()
      reads this
    {
      MIN_INGREDIENTS <= num <= MAX_INGREDIENTS
    }

    /** The form is intact: it shows rows 1 to `_numOfIngredients`, so the counter names its last row. */
    ghost predicate Intact()
      reads this
    {
      0 <= num && rows == Rows(num)
    }

    /** The form of the page as it loads, taken to be the default rows. */
    constructor()
      ensures Valid() && Intact()
      ensures num == DEFAULT_INGREDIENTS
    {
      num := DEFAULT_INGREDIENTS;
      rows := Rows(DEFAULT_INGREDIENTS);
    }

    /**
      The add-ingredient handler: at the maximum nothing happens; otherwise a
      click on the add button counts one more row and appends it, labelled
      with the new count. Below the maximum, any click then scrolls to the row
      labelled with the count, which throws when no such row is shown.
     */
    method MoreIngredients(onAddButton: bool) returns (status: Status)
      requires Valid()
      modifies this
      ensures Valid()
      ensures old(num) == MAX_INGREDIENTS ==> status == Done && num == old(num) && rows == old(rows)
      ensures old(num) < MAX_INGREDIENTS && onAddButton ==>
                status == Done && num == old(num) + 1 && rows == old(rows) + [num]
      ensures old(num) < MAX_INGREDIENTS && !onAddButton ==>
                num == old(num) && rows == old(rows) &&
                (status == Done <==> old(num) in old(rows)) && (status != Done ==> status == Failed(TypeError))
      ensures old(Intact()) ==> Intact() && status == Done
    {
      if num == MAX_INGREDIENTS {
        return Done;
      }
      if onAddButton {
        num := num + 1;
        rows := rows + [num];
      }
      if old(Intact()) {
        if onAddButton {
          assert rows == Rows(num);
        }
        assert rows[num - 1] == num;
      }
      status := if num in rows then Done else Failed(TypeError);
    }

    /**
      The remove-ingredient handler: at the minimum nothing happens; otherwise
      a click on the remove button removes the row numbered with the count and
      then decrements it. When no such row is shown, looking it up yields null
      and the removal throws before the count changes.
     */
    method LessIngredients(onRemoveButton: bool) returns (status: Status)
      requires Valid()
      modifies this
      ensures Valid()
      ensures old(num) == MIN_INGREDIENTS || !onRemoveButton ==>
                status == Done && num == old(num) && rows == old(rows)
      ensures old(num) > MIN_INGREDIENTS && onRemoveButton && old(num) in old(rows) ==>
                status == Done && num == old(num) - 1 && rows == RemoveFirst(old(rows), old(num))
      ensures old(num) > MIN_INGREDIENTS && onRemoveButton && old(num) !in old(rows) ==>
                status == Failed(TypeError) && num == old(num) && rows == old(rows)
      ensures old(Intact()) ==> Intact() && status == Done
    {
      status := Done;
      if num == MIN_INGREDIENTS {
        return;
      }
      if onRemoveButton {
        if old(Intact()) {
          RemoveLastRow(num);
        }
        if num !in rows {
          return Failed(TypeError);
        }
        rows := RemoveFirst(rows, num);
        num := num - 1;
      }
    }

    /**
      The upload handler: the form is handed to the controller, whose
      `renderSpinner` clears the whole window before the first request, so no
      row is shown any more; then the count goes back to the default.
     */
    method UploadClicked(onUploadButton: bool)
      requires Valid()
      modifies this
      ensures Valid()
      ensures onUploadButton ==> num == DEFAULT_INGREDIENTS && rows == []
      ensures !onUploadButton ==> num == old(num) && rows == old(rows)
    {
      if onUploadButton {
        rows := [];
        num := DEFAULT_INGREDIENTS;
      }
    }

    /** defaultWindowContent: the form is rebuilt with the default rows. */
    method DefaultWindowContent()
      modifies this
      ensures rows == Rows(DEFAULT_INGREDIENTS) && num == old(num)
    {
      rows := Rows(DEFAULT_INGREDIENTS);
    }

    /**
      An upload followed by `returnUploadForm`'s rebuild of the window: the
      form is intact again, with the default rows and count, whatever rows
      were added or removed before.
     */
    method UploadAndRefresh()
      requires Valid()
      modifies this
      ensures Valid() && Intact() && num == DEFAULT_INGREDIENTS
    {
      UploadClicked(true);
      DefaultWindowContent();
    }
  }

  /** In an intact form the counter's row is the last one, and removing it leaves rows 1 to n - 1. */
  lemma RemoveLastRow(n: int)
    requires n >= 1
    ensures n in Rows(n) && FirstIndex(Rows(n), n) == n - 1
    ensures RemoveFirst(Rows(n), n) == Rows(n - 1)
  {
    var rows := Rows(n);
    assert rows[n - 1] == n;
    assert rows[..n - 1] == Rows(n - 1);
    AddThenRemoveRestores(Rows(n - 1), n);
    assert rows == Rows(n - 1) + [n];
  }

  /** The position of the first row numbered n. */
  function FirstIndex(rows: seq<int>, n: int): (k: nat)
    requires n in rows
    ensures k < |rows| && rows[k] == n && n !in rows[..k]
  {
    if rows[0] == n then 0
    else
      var k := FirstIndex(rows[1..], n);
      assert rows[..k + 1] == [rows[0]] + rows[1..][..k];
      k + 1
  }

  /** `getElementById(id).remove()` on the rows: the first row with that number goes. */
  function RemoveFirst(rows: seq<int>, n: int): (r: seq<int>)
    requires n in rows
    ensures |r| == |rows| - 1
  {
    rows[..FirstIndex(rows, n)] + rows[FirstIndex(rows, n) + 1..]
  }

  /** Adding a row and removing it again restores the form. */
  lemma AddThenRemoveRestores(rows: seq<int>, n: int)
    requires n !in rows
    ensures RemoveFirst(rows + [n], n) == rows
  {
    var r := rows + [n];
    assert r[..|rows|] == rows;
    assert FirstIndex(r, n) == |rows|;
  }

  // ------------------------------------------------------- field naming

  /** The name `_newIngredientMarkup` gives field `part` of row n: `ingredient-<part>-<n>`. */
  function DashFieldName(part: char, n: nat): (name: string)
    ensures StartsWith(name, "ingredient")
  {
    "ingredient" + "-" + [part] + "-" + NatToString(n)
  }

  /** The fields of rows numbered k, k+1, ... as the view names them. */
  function DashRowFields(rows: seq<Row>, k: nat): seq<Field>
    decreases |rows|
  {
    if rows == [] then []
    else
      [(DashFieldName('q', k), rows[0].quantity), (DashFieldName('u', k), rows[0].unit),
       (DashFieldName('d', k), rows[0].description)] + DashRowFields(rows[1..], k + 1)
  }

  lemma DashFieldNameHasNoZ(part: char, n: nat)
    requires part != 'Z'
    ensures 'Z' !in DashFieldName(part, n)
  {
    var digits := NatToString(n);
    assert forall j :: 0 <= j < |digits| ==> digits[j] != 'Z';
    var name := DashFieldName(part, n);
    assert name == "ingredient-" + [part] + "-" + digits;
    forall j | 0 <= j < |name|
      ensures name[j] != 'Z'
    {
      if j >= 13 {
        assert name[j] == digits[j - 13];
      }
    }
  }

  /** No field the view names contains the letter the parser splits on. */
  lemma {:induction false} DashRowFieldsHaveNoZ(rows: seq<Row>, k: nat)
    ensures forall j :: 0 <= j < |DashRowFields(rows, k)| ==> 'Z' !in DashRowFields(rows, k)[j].0
  {
    if rows != [] {
      DashRowFieldsHaveNoZ(rows[1..], k + 1);
      DashFieldNameHasNoZ('q', k);
      DashFieldNameHasNoZ('u', k);
      DashFieldNameHasNoZ('d', k);
    }
  }

  /** A form whose ingredient rows are all named by the view uploads no ingredient at all, whatever was typed. */
  lemma DashFormYieldsNoIngredients(others: seq<Field>, rows: seq<Row>)
    requires forall j :: 0 <= j < |others| ==> !StartsWith(others[j].0, "ingredient")
    ensures ParseFrom(IngredientEntries(others + DashRowFields(rows, 1)), 1) == Ok([])
  {
    IngredientEntriesAppend(others, DashRowFields(rows, 1));
    OtherFieldsIgnored(others);
    DashRowFieldsHaveNoZ(rows, 1);
    NamesWithoutSeparatorYieldNothing(DashRowFields(rows, 1), 1);
    assert [] + IngredientEntries(DashRowFields(rows, 1)) == IngredientEntries(DashRowFields(rows, 1));
  }

  /**
    Rows the view appends after correctly named rows are dropped: the upload
    reads the same ingredients, or fails the same way, as without them.
   */
  lemma ExtraRowsIgnored(others: seq<Field>, named: seq<Row>, extra: seq<Row>, k: nat)
    requires forall j :: 0 <= j < |others| ==> !StartsWith(others[j].0, "ingredient")
    ensures ParseFrom(IngredientEntries(others + RowFields(named, 1) + DashRowFields(extra, k)), 1) ==
            ParseFrom(IngredientEntries(others + RowFields(named, 1)), 1)
  {
    var dash := IngredientEntries(DashRowFields(extra, k));
    var end := 1 + |named|;
    IngredientEntriesAppend(others + RowFields(named, 1), DashRowFields(extra, k));
    IngredientEntriesAppend(others, RowFields(named, 1));
    OtherFieldsIgnored(others);
    RowFieldsEntries(named, 1);
    assert IngredientEntries(others + RowFields(named, 1)) == RowEntries(named, 1) + [];
    DashRowFieldsHaveNoZ(extra, k);
    NamesWithoutSeparatorYieldNothing(DashRowFields(extra, k), end);
    ParseRowEntries(named, 1, dash, end);
    ParseRowEntries(named, 1, [], end);
  }
}
