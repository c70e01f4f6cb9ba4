/**
  The entities the recipe application keeps in its state (src/js/model.js),
  the constants of src/js/config.js, and the objects that travel through
  drag-and-drop and the persistent store.
 */
module Types {
  import opened Wrappers

  // ---------------------------------------------------------------- config.js

  /** Search results shown per page (RES_PER_PAGE). */
  const RES_PER_PAGE: nat := 10
  /** Ingredient rows in a fresh upload form (defaultNumberOfIngredients). */
  const DEFAULT_INGREDIENTS: int := 6
  /** Most ingredient rows the upload form grows to (maxNumberOfIngredients). */
  const MAX_INGREDIENTS: int := 20
  /** Fewest ingredient rows the upload form shrinks to (minNumberOfIngredients). */
  const MIN_INGREDIENTS: int := 3

  // ----------------------------------------------------------------- recipes

  /** A weekday of the weekly plan. */
  type Day = d: int | 1 <= d <= 7 witness 1

  /** `quantity` is None where the API sends `null`. */
  datatype Ingredient = Ingredient(quantity: Option<real>, unit: string, description: string)

  /** A recipe as the recipe API sends it (its own field names: source_url, image_url, cooking_time). */
  datatype ApiRecipe = ApiRecipe(
    id: string, title: string, publisher: string, sourceUrl: string, imageUrl: string,
    servings: int, cookingTime: int, ingredients: seq<Ingredient>, key: Option<string>)

  /** One entry of a search response. */
  datatype ApiSummary = ApiSummary(
    id: string, title: string, publisher: string, imageUrl: string, key: Option<string>)

  /**
    A recipe in the application's shape. `key` is present only for recipes a
    user uploaded; `bookmarked` is absent until loadRecipe or addBookmark sets it.
   */
  datatype Recipe = Recipe(
    id: string, title: string, publisher: string, sourceUrl: string, image: string,
    servings: int, cookingTime: int, ingredients: seq<Ingredient>,
    key: Option<string>, bookmarked: Option<bool>)

  /** The extra fields sortResults keeps in a search result. */
  datatype Details = Details(cookingTime: int, ingredients: seq<Ingredient>)

  /** An entry of `state.search.results`. */
  datatype Summary = Summary(
    id: string, title: string, publisher: string, image: string,
    key: Option<string>, details: Option<Details>)

  /** `...(x.key && { key: x.key })`: the key is kept only when it is a non-empty string. */
  function KeyIfTruthy(k: Option<string>): (r: Option<string>)
    ensures r.Some? <==> k.Some? && k.value != ""
    ensures r.Some? ==> r == k
  {
    if k.Some? && k.value != "" then k else None
  }

  /** createRecipeObject's renaming of the server's fields. */
  function ToRecipe(a: ApiRecipe): Recipe {
    Recipe(a.id, a.title, a.publisher, a.sourceUrl, a.imageUrl, a.servings, a.cookingTime,
           a.ingredients, KeyIfTruthy(a.key), None)
  }

  /** The mapping loadSearchResults applies to each entry of a search response. */
  function ToSummary(a: ApiSummary): Summary {
    Summary(a.id, a.title, a.publisher, a.imageUrl, KeyIfTruthy(a.key), None)
  }

  /** The mapping sortResults applies to each fully fetched recipe. */
  function ToSortedSummary(a: ApiRecipe): Summary {
    Summary(a.id, a.title, a.publisher, a.imageUrl, KeyIfTruthy(a.key),
            Some(Details(a.cookingTime, a.ingredients)))
  }

  // ------------------------------------------------------------- weekly plan

  /** A recipe object, or the empty object `{}` that means "no recipe". */
  datatype Dish = Empty | Filled(recipe: Recipe)

  /** One `{ day, recipe }` entry of `state.calendarList`. */
  datatype DaySlot = DaySlot(day: Day, recipe: Dish)

  /** The plan always has seven slots, slot i holding day i + 1. */
  ghost predicate PlanValid(plan: seq<DaySlot>) {
    |plan| == 7 && forall i :: 0 <= i < |plan| ==> plan[i].day == i + 1
  }

  /** The plan the application starts with and clearCalendar restores. */
  function EmptyPlan(): (plan: seq<DaySlot>)
    ensures PlanValid(plan)
    ensures forall i :: 0 <= i < |plan| ==> plan[i].recipe == Empty
  {
    seq(7, i requires 0 <= i < 7 => DaySlot(i + 1, Empty))
  }

  /**
    The JSON objects that reach updateCalendarList: the empty object, a
    `{ day, recipe }` slot dragged from the plan, or a whole recipe object
    (the current recipe, or one dragged from the recipe view).
   */
  datatype PlanObject = EmptyObject | SlotObject(day: Day, dish: Dish) | RecipeObject(recipe: Recipe)

  /** The number of own keys of a recipe object. */
  function RecipeKeyCount(r: Recipe): (n: nat)
    ensures 8 <= n <= 10
  {
    8 + (if r.key.Some? then 1 else 0) + (if r.bookmarked.Some? then 1 else 0)
  }

  /** `Object.keys(o).length` */
  function KeyCount(o: PlanObject): (n: nat)
    ensures n == 0 <==> o.EmptyObject?
    ensures n == 2 <==> o.SlotObject?
  {
    match o
    case EmptyObject => 0
    case SlotObject(_, _) => 2
    case RecipeObject(r) => RecipeKeyCount(r)
  }

  /** The object `state.recipe` is: `{}` when nothing is loaded. */
  function AsObject(d: Dish): (o: PlanObject)
    ensures o.EmptyObject? <==> d.Empty?
    ensures d.Filled? ==> o == RecipeObject(d.recipe)
  {
    match d
    case Empty => EmptyObject
    case Filled(r) => RecipeObject(r)
  }

  /** The text a drag carries, as `isJSONparsable` and `JSON.parse` see it. */
  datatype DragData = Unparsable | Parsed(obj: PlanObject)

  // ------------------------------------------------------- persistent store

  /** The JSON strings the application writes under "key", "bookmarks" and "calendar". */
  datatype Blob = KeyBlob(key: string) | BookmarksBlob(list: seq<Recipe>) | CalendarBlob(plan: seq<DaySlot>)

  /** Why an operation failed: an upload form the parser rejects, a TypeError, or a failed request. */
  datatype Failure = WrongIngredientFormat | TypeError | Network(message: string)

  datatype Status = Done | Failed(failure: Failure)
}
