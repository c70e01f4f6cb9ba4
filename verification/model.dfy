/**
  The application state of src/js/model.js and the operations that change it.
  Network answers are parameters of the operations; localStorage is the map
  `storage` from the keys "bookmarks", "calendar" and "key" to the JSON each
  persist function writes there.
 */
module Model {
  import opened Wrappers
  import opened JsLib
  import opened Types
  import opened Upload

  const BOOKMARKS_ITEM := "bookmarks"
  const CALENDAR_ITEM := "calendar"
  const KEY_ITEM := "key"

  // ------------------------------------------------------------ paging

  /** `results.slice((page - 1) * R, page * R)` */
  function PageOf(results: seq<Summary>, page: int): (r: seq<Summary>)
    ensures |r| <= RES_PER_PAGE
    ensures page >= 1 && (page - 1) * RES_PER_PAGE <= |results| ==>
              r == results[(page - 1) * RES_PER_PAGE .. Min(page * RES_PER_PAGE, |results|)]
    ensures page >= 1 && (page - 1) * RES_PER_PAGE >= |results| ==> r == []
  {
    JsSlice(results, (page - 1) * RES_PER_PAGE, page * RES_PER_PAGE)
  }

  function Min(a: int, b: int): int {
    if a <= b then a else b
  }

  /** Pages 1..k, read one after the other, are the first k * R results. */
  lemma {:induction false} PagesCoverPrefix(results: seq<Summary>, k: nat)
    ensures Pages(results, k) == results[..Min(k * RES_PER_PAGE, |results|)]
  {
    if k > 0 {
      PagesCoverPrefix(results, k - 1);
      var a, b := Min((k - 1) * RES_PER_PAGE, |results|), Min(k * RES_PER_PAGE, |results|);
      if (k - 1) * RES_PER_PAGE <= |results| {
        assert results[..a] + results[a..b] == results[..b];
      } else {
        assert a == b;
      }
    }
  }

  function Pages(results: seq<Summary>, k: nat): seq<Summary> {
    if k == 0 then [] else Pages(results, k - 1) + PageOf(results, k)
  }

  // ---------------------------------------------------------- servings

  /** `(quantity * n) / servings`, where a `null` quantity counts as 0. */
  function Scale(q: Option<real>, n: int, servings: int): real
    requires servings > 0
  {
    (if q.Some? then q.value else 0.0) * (n as real) / (servings as real)
  }

  /** Every ingredient of the list with its quantity rescaled from `servings` to `n`. */
  function Rescale(ings: seq<Ingredient>, n: int, servings: int): (r: seq<Ingredient>)
    requires servings > 0
    ensures |r| == |ings|
    ensures forall j :: 0 <= j < |r| ==>
              r[j] == ings[j].(quantity := Some(Scale(ings[j].quantity, n, servings)))
  {
    seq(|ings|, j requires 0 <= j < |ings| => ings[j].(quantity := Some(Scale(ings[j].quantity, n, servings))))
  }

  /** The quantities of a list of ingredients, in order. */
  function Quantities(ings: seq<Ingredient>): (r: seq<Option<real>>)
    ensures |r| == |ings|
    ensures forall j :: 0 <= j < |r| ==> r[j] == ings[j].quantity
  {
    seq(|ings|, j requires 0 <= j < |ings| => ings[j].quantity)
  }

  lemma ScaleTwice(q: Option<real>, n: int, m: int, s: int)
    requires m > 0 && s > 0
    ensures Scale(Some(Scale(q, m, s)), n, m) == Scale(q, n, s)
  {
    var v := if q.Some? then q.value else 0.0;
    var x := v * (m as real) / (s as real);
    assert x * (s as real) == v * (m as real);
    assert (x * (n as real) / (m as real)) * (m as real) * (s as real) == v * (n as real) * (m as real);
  }

  /** Rescaling from s to m and then from m to n is rescaling from s to n. */
  lemma RescaleCompose(ings: seq<Ingredient>, n: int, m: int, s: int)
    requires m > 0 && s > 0
    ensures Rescale(Rescale(ings, m, s), n, m) == Rescale(ings, n, s)
  {
    var a, b := Rescale(Rescale(ings, m, s), n, m), Rescale(ings, n, s);
    forall j | 0 <= j < |ings|
      ensures a[j] == b[j]
    {
      ScaleTwice(ings[j].quantity, n, m, s);
    }
  }

  /** Over exact numbers, rescaling to n servings and back restores every quantity. */
  lemma RescaleRoundTrip(ings: seq<Ingredient>, n: int, s: int)
    requires n > 0 && s > 0
    requires forall j :: 0 <= j < |ings| ==> ings[j].quantity.Some?
    ensures Rescale(Rescale(ings, n, s), s, n) == ings
  {
    RescaleCompose(ings, s, n, s);
    var b := Rescale(ings, s, s);
    forall j | 0 <= j < |ings|
      ensures b[j] == ings[j]
    {
      var q := ings[j].quantity.value;
      assert Scale(ings[j].quantity, s, s) == q;
      assert ings[j].(quantity := Some(q)) == ings[j];
    }
  }

  // ---------------------------------------------------------- sorting

  /** The comparison key of sortResults: cooking time, or the number of ingredients. */
  function SortKey(a: ApiRecipe, byTime: bool): int {
    if byTime then a.cookingTime else |a.ingredients|
  }

  predicate SortedBy(s: seq<ApiRecipe>, byTime: bool) {
    forall i, j :: 0 <= i < j < |s| ==> SortKey(s[i], byTime) <= SortKey(s[j], byTime)
  }

  /** `x` placed before the first element whose key is not smaller. */
  function Insert(x: ApiRecipe, s: seq<ApiRecipe>, byTime: bool): (r: seq<ApiRecipe>)
    ensures |r| == |s| + 1
  {
    if s == [] || SortKey(x, byTime) <= SortKey(s[0], byTime) then [x] + s
    else [s[0]] + Insert(x, s[1..], byTime)
  }

  /** The ascending, stable order Array.prototype.sort gives with `(a, b) => key(a) - key(b)`. */
  function SortBy(s: seq<ApiRecipe>, byTime: bool): (r: seq<ApiRecipe>)
    ensures |r| == |s|
  {
    if s == [] then [] else Insert(s[0], SortBy(s[1..], byTime), byTime)
  }

  lemma {:induction false} InsertPermutes(x: ApiRecipe, s: seq<ApiRecipe>, byTime: bool)
    ensures multiset(Insert(x, s, byTime)) == multiset(s) + multiset{x}
  {
    if s != [] && SortKey(x, byTime) > SortKey(s[0], byTime) {
      InsertPermutes(x, s[1..], byTime);
      assert s == [s[0]] + s[1..];
    }
  }

  lemma {:induction false} InsertSorted(x: ApiRecipe, s: seq<ApiRecipe>, byTime: bool)
    requires SortedBy(s, byTime)
    ensures SortedBy(Insert(x, s, byTime), byTime)
  {
    if s != [] && SortKey(x, byTime) > SortKey(s[0], byTime) {
      var t := Insert(x, s[1..], byTime);
      InsertSorted(x, s[1..], byTime);
      InsertPermutes(x, s[1..], byTime);
      forall k | 0 <= k < |t|
        ensures SortKey(s[0], byTime) <= SortKey(t[k], byTime)
      {
        assert t[k] in multiset(t);
        if t[k] != x {
          assert t[k] in multiset(s[1..]);
          var i :| 0 <= i < |s[1..]| && s[1..][i] == t[k];
          assert s[i + 1] == t[k];
        }
      }
    }
  }

  /** The sorted results are ascending by the key and a permutation of the fetched list. */
  lemma {:induction false} SortBySortedPermutation(s: seq<ApiRecipe>, byTime: bool)
    ensures SortedBy(SortBy(s, byTime), byTime)
    ensures multiset(SortBy(s, byTime)) == multiset(s)
  {
    if s != [] {
      SortBySortedPermutation(s[1..], byTime);
      InsertSorted(s[0], SortBy(s[1..], byTime), byTime);
      InsertPermutes(s[0], SortBy(s[1..], byTime), byTime);
      assert s == [s[0]] + s[1..];
    }
  }

  /** The elements with key `v`, in order. */
  function WithKey(s: seq<ApiRecipe>, v: int, byTime: bool): seq<ApiRecipe> {
    if s == [] then []
    else (if SortKey(s[0], byTime) == v then [s[0]] else []) + WithKey(s[1..], v, byTime)
  }

  lemma {:induction false} WithKeyInsert(x: ApiRecipe, s: seq<ApiRecipe>, v: int, byTime: bool)
    ensures WithKey(Insert(x, s, byTime), v, byTime) ==
            (if SortKey(x, byTime) == v then [x] else []) + WithKey(s, v, byTime)
  {
    if s != [] && SortKey(x, byTime) > SortKey(s[0], byTime) {
      WithKeyInsert(x, s[1..], v, byTime);
      var t := Insert(x, s, byTime);
      assert t[1..] == Insert(x, s[1..], byTime);
    } else {
      var t := Insert(x, s, byTime);
      assert t[1..] == s;
    }
  }

  /** The sort is stable: recipes with equal keys keep their fetched order. */
  lemma {:induction false} SortByStable(s: seq<ApiRecipe>, v: int, byTime: bool)
    ensures WithKey(SortBy(s, byTime), v, byTime) == WithKey(s, v, byTime)
  {
    if s != [] {
      SortByStable(s[1..], v, byTime);
      WithKeyInsert(s[0], SortBy(s[1..], byTime), v, byTime);
    }
  }

  /** The results sortResults stores for the fetched recipes. */
  function SortedSummaries(fetched: seq<ApiRecipe>, byTime: bool): (r: seq<Summary>)
    ensures |r| == |fetched|
  {
    var sorted := SortBy(fetched, byTime);
    seq(|sorted|, j requires 0 <= j < |sorted| => ToSortedSummary(sorted[j]))
  }

  // ---------------------------------------------------------- bookmarks

  /** `list.some(b => b.id === id)` */
  function HasId(list: seq<Recipe>, id: string): (b: bool)
    ensures b <==> exists j :: 0 <= j < |list| && list[j].id == id
  {
    if list == [] then false
    else
      var rest := HasId(list[1..], id);
      assert forall j :: 1 <= j < |list| ==> list[j] == list[1..][j - 1];
      list[0].id == id || rest
  }

  /** `list.findIndex(b => b.id === id)`: the first position with that id, or -1. */
  function FindIndex(list: seq<Recipe>, id: string): (k: int)
    ensures -1 <= k < |list|
    ensures k == -1 <==> forall j :: 0 <= j < |list| ==> list[j].id != id
    ensures k >= 0 ==> list[k].id == id && forall j :: 0 <= j < k ==> list[j].id != id
  {
    if list == [] then -1
    else if list[0].id == id then 0
    else
      var k := FindIndex(list[1..], id);
      assert forall j :: 1 <= j < |list| ==> list[j] == list[1..][j - 1];
      if k == -1 then -1 else k + 1
  }

  /** What deleteBookmark leaves: the list spliced at the found index. */
  function WithoutBookmark(list: seq<Recipe>, id: string): seq<Recipe> {
    SpliceOut(list, FindIndex(list, id))
  }

  /** Deleting removes exactly the first bookmark with the id and keeps the others in order. */
  lemma DeleteRemovesFirst(list: seq<Recipe>, id: string)
    requires HasId(list, id)
    ensures var k := FindIndex(list, id);
            0 <= k < |list| && list[k].id == id &&
            WithoutBookmark(list, id) == list[..k] + list[k + 1..]
  {
  }

  /** With no bookmark of that id, `splice(-1, 1)` removes the last bookmark. */
  lemma DeleteAbsentDropsLast(list: seq<Recipe>, id: string)
    requires !HasId(list, id) && list != []
    ensures WithoutBookmark(list, id) == list[..|list| - 1]
  {
  }

  /** Bookmarking a recipe whose id is not yet bookmarked and then deleting that id restores the list. */
  lemma AddThenDeleteRestores(list: seq<Recipe>, r: Recipe)
    requires !HasId(list, r.id)
    ensures WithoutBookmark(list + [r], r.id) == list
  {
    var l := list + [r];
    assert l[|list|].id == r.id;
    assert forall j :: 0 <= j < |list| ==> l[j] == list[j];
    assert FindIndex(l, r.id) == |list|;
    assert l[..|list|] == list;
  }

  /** No two bookmarks share an id. */
  predicate DistinctIds(list: seq<Recipe>) {
    forall i, j :: 0 <= i < j < |list| ==> list[i].id != list[j].id
  }

  /** Appending a recipe whose id is not bookmarked keeps the ids distinct, and the id is then bookmarked. */
  lemma AppendFreshKeepsDistinct(list: seq<Recipe>, r: Recipe)
    requires DistinctIds(list) && !HasId(list, r.id)
    ensures DistinctIds(list + [r]) && HasId(list + [r], r.id)
  {
    assert (list + [r])[|list|] == r;
  }

  /**
    With distinct ids, deleting an id leaves distinct ids, leaves no bookmark
    with that id, and adds no id that was not there.
   */
  lemma DeleteKeepsDistinct(list: seq<Recipe>, id: string)
    requires DistinctIds(list)
    ensures DistinctIds(WithoutBookmark(list, id))
    ensures !HasId(WithoutBookmark(list, id), id)
    ensures forall x :: HasId(WithoutBookmark(list, id), x) ==> HasId(list, x)
  {
    var w := WithoutBookmark(list, id);
    var k := FindIndex(list, id);
    if k >= 0 {
      assert w == list[..k] + list[k + 1..];
      assert forall i :: 0 <= i < k ==> w[i] == list[i];
      assert forall i :: k <= i < |w| ==> w[i] == list[i + 1];
      forall x | HasId(w, x)
        ensures HasId(list, x)
      {
        var i :| 0 <= i < |w| && w[i].id == x;
        if i < k { assert list[i].id == x; } else { assert list[i + 1].id == x; }
      }
    } else if list != [] {
      assert w == list[..|list| - 1];
      assert forall i :: 0 <= i < |w| ==> w[i] == list[i];
    }
  }

  /** The ids of fetched recipes, in order. */
  function ApiIds(s: seq<ApiRecipe>): (ids: seq<string>)
    ensures |ids| == |s| && forall j :: 0 <= j < |s| ==> ids[j] == s[j].id
  {
    seq(|s|, j requires 0 <= j < |s| => s[j].id)
  }

  /** The ids of search results, in order. */
  function SummaryIds(s: seq<Summary>): (ids: seq<string>)
    ensures |ids| == |s| && forall j :: 0 <= j < |s| ==> ids[j] == s[j].id
  {
    seq(|s|, j requires 0 <= j < |s| => s[j].id)
  }

  lemma {:induction false} InsertKeepsIds(x: ApiRecipe, s: seq<ApiRecipe>, byTime: bool)
    ensures multiset(ApiIds(Insert(x, s, byTime))) == multiset(ApiIds(s)) + multiset{x.id}
  {
    if s != [] && SortKey(x, byTime) > SortKey(s[0], byTime) {
      InsertKeepsIds(x, s[1..], byTime);
      assert ApiIds(Insert(x, s, byTime)) == [s[0].id] + ApiIds(Insert(x, s[1..], byTime));
      assert ApiIds(s) == [s[0].id] + ApiIds(s[1..]);
    } else {
      assert ApiIds(Insert(x, s, byTime)) == [x.id] + ApiIds(s);
    }
  }

  /** Sorting only reorders: the sorted results carry the fetched ids, each as often as fetched. */
  lemma {:induction false} SortedSummariesKeepIds(fetched: seq<ApiRecipe>, byTime: bool)
    ensures multiset(SummaryIds(SortedSummaries(fetched, byTime))) == multiset(ApiIds(fetched))
  {
    assert SummaryIds(SortedSummaries(fetched, byTime)) == ApiIds(SortBy(fetched, byTime));
    SortByKeepsIds(fetched, byTime);
  }

  lemma {:induction false} SortByKeepsIds(s: seq<ApiRecipe>, byTime: bool)
    ensures multiset(ApiIds(SortBy(s, byTime))) == multiset(ApiIds(s))
  {
    if s != [] {
      SortByKeepsIds(s[1..], byTime);
      InsertKeepsIds(s[0], SortBy(s[1..], byTime), byTime);
      assert ApiIds(s) == [s[0].id] + ApiIds(s[1..]);
    }
  }

  /** The bookmarked flag of a dish: set only when the ids match. */
  function Flagged(d: Dish, id: string, flag: bool): (r: Dish)
    ensures r.Filled? <==> d.Filled?
    ensures d.Filled? && d.recipe.id == id ==> r == Filled(d.recipe.(bookmarked := Some(flag)))
    ensures d.Filled? && d.recipe.id != id ==> r == d
  {
    if d.Filled? && d.recipe.id == id then Filled(d.recipe.(bookmarked := Some(flag))) else d
  }

  // -------------------------------------------------------- shopping list

  /** The part `(amount: q unit)` of a shopping-list line. */
  datatype Amount = Amount(quantity: real, unit: string)

  /** One line `Item: DESCRIPTION   (amount: q unit)`, the amount part being optional. */
  datatype ShoppingLine = ShoppingLine(item: string, amount: Option<Amount>)

  /**
    retrieveIngredients: None when no recipe is loaded; otherwise one line per
    ingredient with the upper-cased description, and an amount exactly when the
    entry of `updatedQuantityValues` at the same position is a non-zero number.
   */
  function ShoppingList(recipe: Dish, uqv: seq<Option<real>>): (r: Option<seq<ShoppingLine>>)
    ensures r.Some? <==> recipe.Filled?
    ensures r.Some? ==> |r.value| == |recipe.recipe.ingredients|
    ensures r.Some? ==> forall j :: 0 <= j < |r.value| ==>
              r.value[j].item == ToUpper(recipe.recipe.ingredients[j].description)
    ensures r.Some? ==> forall j :: 0 <= j < |r.value| ==>
              (r.value[j].amount.Some? <==> j < |uqv| && uqv[j].Some? && uqv[j].value != 0.0)
    ensures r.Some? ==> forall j :: 0 <= j < |r.value| && r.value[j].amount.Some? ==>
              r.value[j].amount.value == Amount(uqv[j].value, recipe.recipe.ingredients[j].unit)
  {
    match recipe
    case Empty => None
    case Filled(rec) =>
      var ings := rec.ingredients;
      Some(seq(|ings|, j requires 0 <= j < |ings| =>
        ShoppingLine(ToUpper(ings[j].description),
                     if j < |uqv| && uqv[j].Some? && uqv[j].value != 0.0
                     then Some(Amount(uqv[j].value, ings[j].unit)) else None)))
  }

  /**
    createRecipeObject appends to `updatedQuantityValues` without clearing it:
    after a first recipe was loaded, the amounts of the next recipe's shopping
    list come from the first recipe's quantities.
   */
  lemma ShoppingListReadsStaleQuantities(r: Recipe, earlier: seq<Option<real>>, j: nat)
    requires j < |r.ingredients| && j < |earlier|
    requires earlier[j].Some? && earlier[j].value != 0.0
    ensures ShoppingList(Filled(r), earlier + Quantities(r.ingredients)).value[j].amount ==
            Some(Amount(earlier[j].value, r.ingredients[j].unit))
  {
  }

  /** With the quantities of the loaded recipe alone, every non-zero quantity is listed. */
  lemma ShoppingListFreshQuantities(r: Recipe, j: nat)
    requires j < |r.ingredients|
    requires r.ingredients[j].quantity.Some? && r.ingredients[j].quantity.value != 0.0
    ensures ShoppingList(Filled(r), Quantities(r.ingredients)).value[j].amount ==
            Some(Amount(r.ingredients[j].quantity.value, r.ingredients[j].unit))
  {
  }

  // --------------------------------------------------------- weekly plan

  /** emptyCalendarDay's pass over the plan: every slot whose day is `chosen` becomes empty. */
  function EmptiedDay(plan: seq<DaySlot>, chosen: int): (r: seq<DaySlot>)
    ensures |r| == |plan|
  {
    seq(|plan|, j requires 0 <= j < |plan| =>
      if plan[j].day == chosen then plan[j].(recipe := Empty) else plan[j])
  }

  /** On a valid plan, emptying a day clears exactly that day's slot; any other number changes nothing. */
  lemma EmptiedDayOnPlan(plan: seq<DaySlot>, chosen: int)
    requires PlanValid(plan)
    ensures PlanValid(EmptiedDay(plan, chosen))
    ensures 1 <= chosen <= 7 ==> EmptiedDay(plan, chosen) == plan[chosen - 1 := DaySlot(chosen, Empty)]
    ensures !(1 <= chosen <= 7) ==> EmptiedDay(plan, chosen) == plan
  {
  }

  /** Slot `d` of a seven-slot plan replaced by `dish`. */
  function SetSlot(plan: seq<DaySlot>, d: Day, dish: Dish): (r: seq<DaySlot>)
    requires |plan| == 7
    ensures |r| == 7
  {
    plan[d - 1 := DaySlot(d, dish)]
  }

  /**
    updateCalendarList(d, payload): the empty object changes nothing; a
    two-key `{ day, recipe }` slot first receives slot d's recipe at its own
    day and then puts its recipe into slot d; any other object becomes slot
    d's recipe.
   */
  function UpdatedPlan(plan: seq<DaySlot>, d: Day, payload: PlanObject): (r: seq<DaySlot>)
    requires |plan| == 7
    ensures |r| == 7
  {
    if KeyCount(payload) == 0 then plan
    else if KeyCount(payload) == 2 then
      var prev := if KeyCount(AsObject(plan[d - 1].recipe)) > 0 then plan[d - 1].recipe else Empty;
      SetSlot(SetSlot(plan, payload.day, prev), d, payload.dish)
    else SetSlot(plan, d, Filled(payload.recipe))
  }

  /** Every update keeps the plan's seven slots and their days, and leaves the slots it does not target alone. */
  lemma UpdatedPlanFrame(plan: seq<DaySlot>, d: Day, payload: PlanObject, j: int)
    requires PlanValid(plan) && 0 <= j < 7
    requires j != d - 1 && !(payload.SlotObject? && j == payload.day - 1)
    ensures PlanValid(UpdatedPlan(plan, d, payload))
    ensures UpdatedPlan(plan, d, payload)[j] == plan[j]
  {
  }

  /** A recipe object lands in slot d. */
  lemma UpdatedPlanRecipe(plan: seq<DaySlot>, d: Day, r: Recipe)
    requires PlanValid(plan)
    ensures UpdatedPlan(plan, d, RecipeObject(r)) == plan[d - 1 := DaySlot(d, Filled(r))]
  {
  }

  /** The payload dragstart produces for slot `from` of the plan. */
  function SlotPayload(plan: seq<DaySlot>, from: Day): PlanObject
    requires |plan| == 7
  {
    SlotObject(from, plan[from - 1].recipe)
  }

  /** The recipes of slots a and b exchanged. */
  function Swapped(plan: seq<DaySlot>, a: Day, b: Day): (r: seq<DaySlot>)
    requires |plan| == 7
    ensures |r| == 7
  {
    plan[a - 1 := DaySlot(a, plan[b - 1].recipe)][b - 1 := DaySlot(b, plan[a - 1].recipe)]
  }

  /** Dropping a slot dragged from the plan onto day d exchanges the two days' recipes. */
  lemma DragSwaps(plan: seq<DaySlot>, from: Day, d: Day)
    requires PlanValid(plan)
    ensures UpdatedPlan(plan, d, SlotPayload(plan, from)) == Swapped(plan, from, d)
  {
    var prev := if KeyCount(AsObject(plan[d - 1].recipe)) > 0 then plan[d - 1].recipe else Empty;
    assert prev == plan[d - 1].recipe;
  }

  /** Dragging a slot onto its own day changes nothing. */
  lemma DragOntoItselfIsNoOp(plan: seq<DaySlot>, d: Day)
    requires PlanValid(plan)
    ensures UpdatedPlan(plan, d, SlotPayload(plan, d)) == plan
  {
    DragSwaps(plan, d, d);
    assert Swapped(plan, d, d) == plan;
  }

  /** Dragging back what was just swapped restores the plan. */
  lemma DragSwapInvolution(plan: seq<DaySlot>, from: Day, d: Day)
    requires PlanValid(plan)
    ensures PlanValid(Swapped(plan, from, d))
    ensures Swapped(Swapped(plan, from, d), from, d) == plan
  {
    var s := Swapped(plan, from, d);
    var t := Swapped(s, from, d);
    forall j | 0 <= j < 7
      ensures t[j] == plan[j]
    {
    }
  }

  // ----------------------------------------------------------- the state

  /** A snapshot of every field of the state, for stating what an operation leaves unchanged. */
  datatype Snapshot = Snapshot(
    recipe: Dish, updatedQuantityValues: seq<Option<real>>, query: string, results: seq<Summary>,
    page: int, bookmarks: seq<Recipe>, calendarList: seq<DaySlot>, userKey: string,
    storage: map<string, Blob>)

  /** `state` (the `sortedResults` and `resultsPerPage` fields are never written). */
  class AppState {
    var recipe: Dish
    var updatedQuantityValues: seq<Option<real>>
    var query: string
    var results: seq<Summary>
    var page: int
    var bookmarks: seq<Recipe>
    var calendarList: seq<DaySlot>
    var userKey: string
    /** localStorage */
    var storage: map<string, Blob>

    ghost predicate Valid()
      reads this
    {
      PlanValid(calendarList)
    }

    /**
      Every bookmark id occurs once, and a current recipe not flagged as
      bookmarked is not among the bookmarks, so the bookmark button adds it
      without creating a second copy.
     */
    ghost predicate BookmarksConsistent()
      reads this
    {
      DistinctIds(bookmarks) &&
      (recipe.Filled? && recipe.recipe.bookmarked != Some(true) ==> !HasId(bookmarks, recipe.recipe.id))
    }

    ghost function State(): Snapshot
      reads this
    {
      Snapshot(recipe, updatedQuantityValues, query, results, page, bookmarks, calendarList, userKey, storage)
    }

    /** The initial state of model.js (before init2 reads localStorage). */
    constructor()
      ensures Valid() && BookmarksConsistent()
      ensures State() == Snapshot(Empty, [], "", [], 1, [], EmptyPlan(), "", map[])
    {
      recipe := Empty;
      updatedQuantityValues := [];
      query := "";
      results := [];
      page := 1;
      bookmarks := [];
      calendarList := EmptyPlan();
      userKey := "";
      storage := map[];
    }

    /** createRecipeObject: appends the new recipe's quantities and makes it the current recipe. */
    method CreateRecipeObject(a: ApiRecipe)
      modifies this
      ensures State() == old(State()).(
                recipe := Filled(ToRecipe(a)),
                updatedQuantityValues := old(updatedQuantityValues) + Quantities(a.ingredients))
    {
      var i := 0;
      while i < |a.ingredients|
        invariant 0 <= i <= |a.ingredients|
        invariant State() == old(State()).(
                    updatedQuantityValues := old(updatedQuantityValues) + Quantities(a.ingredients[..i]))
      {
        assert Quantities(a.ingredients[..i + 1]) == Quantities(a.ingredients[..i]) + [a.ingredients[i].quantity];
        updatedQuantityValues := updatedQuantityValues + [a.ingredients[i].quantity];
        i := i + 1;
      }
      assert a.ingredients[..i] == a.ingredients;
      recipe := Filled(ToRecipe(a));
    }

    /** loadRecipe(id): the fetched recipe becomes current, flagged by whether `id` is bookmarked. */
    method LoadRecipe(id: string, response: Result<ApiRecipe, string>) returns (status: Status)
      modifies this
      ensures response.Err? ==> status == Failed(Network(response.error)) && State() == old(State())
      ensures response.Ok? ==> status == Done && State() == old(State()).(
                recipe := Filled(ToRecipe(response.value).(bookmarked := Some(HasId(old(bookmarks), id)))),
                updatedQuantityValues := old(updatedQuantityValues) + Quantities(response.value.ingredients))
      ensures old(BookmarksConsistent()) && (response.Ok? ==> response.value.id == id) ==> BookmarksConsistent()
    {
      if response.Err? {
        return Failed(Network(response.error));
      }
      CreateRecipeObject(response.value);
      recipe := Filled(recipe.recipe.(bookmarked := Some(HasId(bookmarks, id))));
      status := Done;
    }

    /** loadSearchResults(q): the query is stored before the request; a response replaces the results and goes to page 1. */
    method LoadSearchResults(q: string, response: Result<seq<ApiSummary>, string>) returns (status: Status)
      modifies this
      ensures response.Err? ==> status == Failed(Network(response.error)) && State() == old(State()).(query := q)
      ensures response.Ok? ==> status == Done && State() == old(State()).(
                query := q, page := 1,
                results := seq(|response.value|, j requires 0 <= j < |response.value| => ToSummary(response.value[j])))
    {
      query := q;
      if response.Err? {
        return Failed(Network(response.error));
      }
      var list := response.value;
      results := seq(|list|, j requires 0 <= j < |list| => ToSummary(list[j]));
      page := 1;
      status := Done;
    }

    /** getSearchResultsPage(p): remembers the page and returns its slice of the results. */
    method GetSearchResultsPage(p: int) returns (items: seq<Summary>)
      modifies this
      ensures items == PageOf(results, p)
      ensures State() == old(State()).(page := p)
    {
      page := p;
      items := PageOf(results, p);
    }

    /**
      updateServings(n): clears `updatedQuantityValues`, then rescales every
      ingredient of the current recipe in place, recording each new quantity,
      and sets the servings. With no recipe loaded the pass over the missing
      ingredients throws a TypeError after the clearing.
     */
    method UpdateServings(n: int) returns (status: Status)
      requires n > 0
      requires recipe.Filled? ==> recipe.recipe.servings > 0
      modifies this
      ensures old(recipe).Empty? ==> status == Failed(TypeError) && State() == old(State()).(updatedQuantityValues := [])
      ensures old(recipe).Filled? ==> status == Done && State() == old(State()).(
                recipe := Filled(old(recipe).recipe.(
                            ingredients := Rescale(old(recipe).recipe.ingredients, n, old(recipe).recipe.servings),
                            servings := n)),
                updatedQuantityValues := Quantities(Rescale(old(recipe).recipe.ingredients, n, old(recipe).recipe.servings)))
      ensures old(BookmarksConsistent()) ==> BookmarksConsistent()
    {
      updatedQuantityValues := [];
      if recipe.Empty? {
        return Failed(TypeError);
      }
      var r := recipe.recipe;
      var s := r.servings;
      var i := 0;
      while i < |r.ingredients|
        invariant 0 <= i <= |r.ingredients|
        invariant recipe.Filled? && recipe.recipe == r.(ingredients := recipe.recipe.ingredients)
        invariant |recipe.recipe.ingredients| == |r.ingredients|
        invariant forall j :: 0 <= j < i ==>
                    recipe.recipe.ingredients[j] == r.ingredients[j].(quantity := Some(Scale(r.ingredients[j].quantity, n, s)))
        invariant forall j :: i <= j < |r.ingredients| ==> recipe.recipe.ingredients[j] == r.ingredients[j]
        invariant |updatedQuantityValues| == i
        invariant forall j :: 0 <= j < i ==> updatedQuantityValues[j] == Some(Scale(r.ingredients[j].quantity, n, s))
        invariant State() == old(State()).(recipe := recipe, updatedQuantityValues := updatedQuantityValues)
      {
        var q := Scale(recipe.recipe.ingredients[i].quantity, n, s);
        var ings := recipe.recipe.ingredients;
        recipe := Filled(recipe.recipe.(ingredients := ings[i := ings[i].(quantity := Some(q))]));
        updatedQuantityValues := updatedQuantityValues + [Some(q)];
        i := i + 1;
      }
      assert recipe.recipe.ingredients == Rescale(r.ingredients, n, s);
      assert updatedQuantityValues == Quantities(Rescale(r.ingredients, n, s));
      recipe := Filled(recipe.recipe.(servings := n));
      status := Done;
    }

    /**
      sortResults(byTime): nothing happens without results; otherwise the page
      goes back to 1 and, once every result was fetched in full, the results
      are replaced by the fetched recipes sorted by the key.
     */
    method SortResults(byTime: bool, fetched: Result<seq<ApiRecipe>, string>) returns (status: Status)
      modifies this
      ensures old(results) == [] ==> status == Done && State() == old(State())
      ensures old(results) != [] && fetched.Err? ==>
                status == Failed(Network(fetched.error)) && State() == old(State()).(page := 1)
      ensures old(results) != [] && fetched.Ok? ==>
                status == Done && State() == old(State()).(page := 1, results := SortedSummaries(fetched.value, byTime))
      ensures old(results) != [] && fetched.Ok? && ApiIds(fetched.value) == SummaryIds(old(results)) ==>
                multiset(SummaryIds(results)) == multiset(SummaryIds(old(results)))
    {
      if |results| == 0 {
        return Done;
      }
      page := 1;
      if fetched.Err? {
        return Failed(Network(fetched.error));
      }
      results := SortedSummaries(fetched.value, byTime);
      SortedSummariesKeepIds(fetched.value, byTime);
      status := Done;
    }

    /** addBookmark(r): appends r, flags the current recipe when it is r, and persists the list. */
    method AddBookmark(r: Recipe)
      modifies this
      ensures State() == old(State()).(
                bookmarks := old(bookmarks) + [r],
                recipe := Flagged(old(recipe), r.id, true),
                storage := old(storage)[BOOKMARKS_ITEM := BookmarksBlob(old(bookmarks) + [r])])
      ensures old(BookmarksConsistent()) && !HasId(old(bookmarks), r.id) ==> BookmarksConsistent()
    {
      if BookmarksConsistent() && !HasId(bookmarks, r.id) {
        AppendFreshKeepsDistinct(bookmarks, r);
      }
      bookmarks := bookmarks + [r];
      recipe := Flagged(recipe, r.id, true);
      storage := storage[BOOKMARKS_ITEM := BookmarksBlob(bookmarks)];
    }

    /** deleteBookmark(id): splices out the first bookmark with the id (the last one when there is none). */
    method DeleteBookmark(id: string)
      modifies this
      ensures State() == old(State()).(
                bookmarks := WithoutBookmark(old(bookmarks), id),
                recipe := Flagged(old(recipe), id, false),
                storage := old(storage)[BOOKMARKS_ITEM := BookmarksBlob(WithoutBookmark(old(bookmarks), id))])
      ensures old(BookmarksConsistent()) ==> BookmarksConsistent()
    {
      if BookmarksConsistent() {
        DeleteKeepsDistinct(bookmarks, id);
      }
      var index := FindIndex(bookmarks, id);
      bookmarks := SpliceOut(bookmarks, index);
      recipe := Flagged(recipe, id, false);
      storage := storage[BOOKMARKS_ITEM := BookmarksBlob(bookmarks)];
    }

    /**
      uploadRecipe(form): the ingredients are parsed before anything is sent;
      the recipe the server returns becomes the current recipe and is
      bookmarked. `sent` is the body of the request, when one is made.
     */
    method UploadRecipe(form: seq<Field>, response: Result<ApiRecipe, string>)
      returns (sent: Option<UploadBody>, status: Status)
      modifies this
      ensures ParseFrom(IngredientEntries(form), 1).Err? ==>
                sent == None && status == Failed(ParseFrom(IngredientEntries(form), 1).error) && State() == old(State())
      ensures ParseFrom(IngredientEntries(form), 1).Ok? ==>
                sent == Some(BuildBody(form, ParseFrom(IngredientEntries(form), 1).value))
      ensures ParseFrom(IngredientEntries(form), 1).Ok? && response.Err? ==>
                status == Failed(Network(response.error)) && State() == old(State())
      ensures ParseFrom(IngredientEntries(form), 1).Ok? && response.Ok? ==>
                status == Done && State() == old(State()).(
                  recipe := Filled(ToRecipe(response.value).(bookmarked := Some(true))),
                  updatedQuantityValues := old(updatedQuantityValues) + Quantities(response.value.ingredients),
                  bookmarks := old(bookmarks) + [ToRecipe(response.value)],
                  storage := old(storage)[BOOKMARKS_ITEM := BookmarksBlob(old(bookmarks) + [ToRecipe(response.value)])])
      ensures old(BookmarksConsistent()) && (response.Ok? ==> !HasId(old(bookmarks), response.value.id)) ==>
                BookmarksConsistent()
    {
      var parsed := ParseIngredients(form);
      if parsed.Err? {
        return None, Failed(parsed.error);
      }
      sent := Some(BuildBody(form, parsed.value));
      if response.Err? {
        return sent, Failed(Network(response.error));
      }
      CreateRecipeObject(response.value);
      AddBookmark(recipe.recipe);
      status := Done;
    }

    /** emptyCalendarDay(chosen): empties the slots whose day is `chosen` and persists the plan. */
    method EmptyCalendarDay(chosen: int)
      modifies this
      ensures State() == old(State()).(
                calendarList := EmptiedDay(old(calendarList), chosen),
                storage := old(storage)[CALENDAR_ITEM := CalendarBlob(EmptiedDay(old(calendarList), chosen))])
    {
      var i := 0;
      while i < |calendarList|
        invariant 0 <= i <= |calendarList| == |old(calendarList)|
        invariant forall j :: 0 <= j < i ==> calendarList[j] == EmptiedDay(old(calendarList), chosen)[j]
        invariant forall j :: i <= j < |calendarList| ==> calendarList[j] == old(calendarList)[j]
        invariant State() == old(State()).(calendarList := calendarList)
      {
        if calendarList[i].day == chosen {
          calendarList := calendarList[i := calendarList[i].(recipe := Empty)];
        }
        i := i + 1;
      }
      assert calendarList == EmptiedDay(old(calendarList), chosen);
      storage := storage[CALENDAR_ITEM := CalendarBlob(calendarList)];
    }

    /** updateCalendarList(d, payload): the plan update, persisted unless the payload is the empty object. */
    method UpdateCalendarList(d: Day, payload: PlanObject)
      requires Valid()
      modifies this
      ensures Valid()
      ensures KeyCount(payload) == 0 ==> State() == old(State())
      ensures KeyCount(payload) != 0 ==> State() == old(State()).(
                calendarList := UpdatedPlan(old(calendarList), d, payload),
                storage := old(storage)[CALENDAR_ITEM := CalendarBlob(UpdatedPlan(old(calendarList), d, payload))])
    {
      if KeyCount(payload) == 0 {
        return;
      }
      forall j | 0 <= j < 7
        ensures UpdatedPlan(calendarList, d, payload)[j].day == j + 1
      {
        if j != d - 1 && !(payload.SlotObject? && j == payload.day - 1) {
          UpdatedPlanFrame(calendarList, d, payload, j);
        }
      }
      calendarList := UpdatedPlan(calendarList, d, payload);
      storage := storage[CALENDAR_ITEM := CalendarBlob(calendarList)];
    }

    /** clearCalendar: seven empty slots again, and the stored plan removed. */
    method ClearCalendar()
      modifies this
      ensures Valid()
      ensures State() == old(State()).(calendarList := EmptyPlan(), storage := old(storage) - {CALENDAR_ITEM})
    {
      calendarList := EmptyPlan();
      storage := storage - {CALENDAR_ITEM};
    }

    /** saveNewKey(k): the key is stored and the bookmarks of the previous key are dropped. */
    method SaveNewKey(k: string)
      modifies this
      ensures State() == old(State()).(
                userKey := k, bookmarks := [],
                storage := (old(storage) - {BOOKMARKS_ITEM})[KEY_ITEM := KeyBlob(k)])
      ensures BookmarksConsistent()
    {
      userKey := k;
      bookmarks := [];
      storage := storage - {BOOKMARKS_ITEM};
      storage := storage[KEY_ITEM := KeyBlob(userKey)];
    }

    /** deleteKey: the key becomes empty and the bookmarks are dropped. */
    method DeleteKey()
      modifies this
      ensures State() == old(State()).(
                userKey := "", bookmarks := [],
                storage := (old(storage) - {BOOKMARKS_ITEM})[KEY_ITEM := KeyBlob("")])
      ensures BookmarksConsistent()
    {
      userKey := "";
      bookmarks := [];
      storage := storage - {BOOKMARKS_ITEM};
      storage := storage[KEY_ITEM := KeyBlob(userKey)];
    }
  }
}
