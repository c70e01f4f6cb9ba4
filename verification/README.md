# forkify, modelled in Dafny

forkify is a browser application for finding recipes. It searches a public recipe API, shows a recipe, and rescales the recipe to a chosen number of servings. Users can bookmark recipes and upload their own. A weekly plan of seven days holds one recipe per day, and recipes are dragged into it and between its days. A shopping list is built from the displayed recipe.

This project models the part of the application that keeps and changes state:

- **`Model` (`model.dfy`)**: the application state of `src/js/model.js` as a class `AppState`. Its fields are:
  - the current recipe and its parallel list of quantities;
  - the search query, results and page;
  - the bookmarks;
  - the seven-day plan;
  - the user key;
  - a map standing for the browser's local storage.

  Each operation of model.js is a method. Its contract gives the complete new state. Paging, rescaling, sorting, the bookmark list, the shopping list and the plan updates are specified by functions, with lemmas about them.
- **`Upload` (`upload.dfy`)**: the ingredient parser of `uploadRecipe`. The form is a list of named fields. Names that start with "ingredient" are split on the letter `Z`. A counter then walks the entries and reads one quantity, unit and description triple per ingredient.
- **`CalendarView` (`calendar_view.dfy`)**: the weekly-plan view as a class `Calendar`. It holds:
  - the selected day (`_curRecipe`, `_activeRecipe`);
  - the drag tracking (`_draggedOverDay`, the saved markup, `_switch`);
  - each day element's markup and background colour;
  - the plan last rendered (`_data`).

  The dblclick, click, dragover, dragstart and drag-reset handlers are methods. Markup generation is a function from the plan to day blocks.
- **`PaginationView` (`pagination_view.dfy`)**: which page buttons the results pagination shows.
- **`AddRecipeView` (`add_recipe_view.dfy`)**: the upload form's ingredient-row counter, as a class, and the names the form gives its fields.
- **`Controller` (`controller.dfy`)**: the controller handlers that change the bookmarks, the key and the weekly plan. They take the state and the calendar view as arguments. `InSync` says that the view shows and holds the state's plan.
- **Shared modules.** `Types` (`types.dfy`) holds the shared records and the configuration constants. `JsLib` (`jslib.dfy`) models the JavaScript built-ins the code relies on: `trim`, `split`, `toUpperCase`, unary `+` on strings, `slice` and `splice`. `Wrappers` (`wrappers.dfy`) defines Option and Result.

Network responses are parameters of the operations that wait for them. A failed request is the `Err` case of the response, and the operation reports it as `Failed(Network(message))`. Drag data is either unparsable or one of three JSON shapes:
- the empty object;
- a `{ day, recipe }` slot;
- a full recipe.

The key count of each shape drives `updateCalendarList`, as the code's key counts do.

Behaviour kept as the code has it:
- **`updateServings` with no recipe.** It empties `updatedQuantityValues` and then throws a TypeError on the missing ingredients.
- **Changing the key.** This removes the stored bookmarks entry from local storage.
- **Dragover on a second day.** While a day is tracked, dragging over a second day does nothing: the tracked day keeps the drop label and the second day is not tracked.
- **Clicks on a day.** While a day is selected, a click on any day clears the selection, the selected day included.
- **Dblclick on the selected day.** Because of the clicks before it, this selects the day again.
- **Field names.** The form names its ingredient fields `ingredient-q-N`, and the parser splits field names on `Z`.

## Model

| member | source | states |
|---|---|---|
| JsLib.TrimStartSpec | src/js/model.js:245-246 | trimStart removes exactly the leading white space: all removed characters are white and the rest does not start with white space |
| JsLib.TrimEndSpec | src/js/model.js:245-246 | trimEnd removes exactly the trailing white space: all removed characters are white and the rest does not end with white space |
| JsLib.TrimInfix | src/js/model.js:245-246 | the trimmed text is the part of the input that starts right after the leading white space |
| JsLib.TrimEnds | src/js/model.js:245-246 | the trimmed unit or description neither starts nor ends with white space |
| JsLib.TrimCutsTrailing | src/js/model.js:245-246 | everything trim cuts after the kept part is white space |
| JsLib.TrimNoWhite | src/js/model.js:245-246 | a text without white space is its own trim |
| JsLib.ToUpper | src/js/model.js:301 | toUpperCase keeps the length, leaves every character that is not a lower-case letter alone, and leaves no lower-case letter |
| JsLib.SplitJoin | src/js/model.js:235 | the pieces of `split('Z')` contain no `Z` and join back to the field name |
| JsLib.SplitNoSeparator | src/js/model.js:235 | a name without `Z` splits into itself alone |
| JsLib.SplitAfterPrefix | src/js/model.js:235 | a `Z` after a `Z`-free prefix splits off exactly that prefix |
| JsLib.NatToString | src/js/views/addRecipeView.js:153-157 | the row number written into a field name is a non-empty string of digits whose value is the number |
| JsLib.StrToNumberOfDigits | src/js/model.js:241 | unary `+` on a non-empty string of digits gives the number those digits spell |
| JsLib.NatToStringRoundTrip | src/js/model.js:241 | unary `+` reads a written row number back as that number, so the counter can match it |
| JsLib.JsSlice | src/js/model.js:113 | `slice` never returns more than the array; within bounds it is the sub-sequence, from past the end it is empty |
| JsLib.SpliceOut | src/js/model.js:208-209 | `splice(i, 1)` removes element i; with -1 it removes the last element; an empty array stays empty |
| Types.EmptyPlan | src/js/model.js:368-376 | the cleared plan has seven slots for days 1 to 7, all empty |
| Types.KeyCount | src/js/model.js:332-333 | `Object.keys(..).length` is 0 exactly for the empty object and 2 exactly for a `{ day, recipe }` slot |
| Upload.IngredientEntriesAppend | src/js/model.js:233-235 | filtering and splitting the form's fields works field by field: the entries of two field lists are the entries of each, in order |
| Upload.OtherFieldsIgnored | src/js/model.js:234 | fields whose name does not start with "ingredient" yield no entry |
| Upload.FieldNameEntry | src/js/model.js:233-235 | a field named `ingredientZ<p>Z<n>` passes the filter and yields the entry `[ingredient, p, n, value]` |
| Upload.RowFieldsEntries | src/js/model.js:233-235 | the fields of rows named the parser's way yield one entry per field, in form order |
| Upload.ParseFrom | src/js/model.js:240-250 | the parse fails only with the format error or a TypeError; otherwise it yields at most one ingredient per entry, each with a finite quantity |
| Upload.ParseIngredients | src/js/model.js:237-250 | the counter loop over the filtered entries computes exactly the recursive parse starting at counter 1 |
| Upload.SkipEntry | src/js/model.js:241 | an entry whose index part is not the counter is passed over |
| Upload.ParseFromTriple | src/js/model.js:241-248 | an entry matching the counter is read with the two entries after it, and the loop goes on with the next counter |
| Upload.ReadRowTriple | src/js/model.js:242-247 | a row's triple gives the ingredient (numeric quantity, trimmed unit and description) when the quantity is finite and the description non-empty, and the format error otherwise |
| Upload.SkipRowRest | src/js/model.js:241 | the unit and description entries of row k never match counter k + 1 |
| Upload.RowIngredientsAt | src/js/model.js:243-247 | ingredient j is read from row j |
| Upload.RowsOutcomeAll | src/js/model.js:242 | rows decide front to back: the format error unless every row is accepted, and then all their ingredients in row order |
| Upload.ParseRowEntries | src/js/model.js:237-250 | parsing rows numbered from k, followed by other entries, is the rows' outcome followed by the parse of the rest from counter k + number of rows |
| Upload.ParseWellNamedForm | src/js/model.js:233-250 | a form with rows named the parser's way uploads exactly its rows' ingredients in row order if every row has a finite quantity and a description, and fails with the format error otherwise |
| Upload.NamesWithoutSeparatorYieldNothing | src/js/model.js:235-241 | entries from names without `Z` never match the counter: no ingredient and no error |
| Upload.Lookup | src/js/model.js:253-258 | `newRecipe[name]` is present exactly when a field has that name, and is then that field's value |
| Model.PageOf | src/js/model.js:109-114 | a page holds at most ten results; from a page in range it is that page's slice, and past the end it is empty |
| Model.PagesCoverPrefix | src/js/model.js:109-114 | pages 1 to k read one after the other are the first 10·k results (or all of them): none is skipped or repeated |
| Model.Rescale | src/js/model.js:124-126 | one ingredient per ingredient, each unchanged except that its quantity is q·n/servings, with `null` read as 0 |
| Model.Quantities | src/js/model.js:39-41 | the recorded quantities are the ingredients' quantities, one per ingredient, in order |
| Model.ScaleTwice | src/js/model.js:125 | scaling from s to m and then from m to n equals scaling from s to n |
| Model.RescaleCompose | src/js/model.js:122-129 | two rescalings in a row equal one rescaling from the first serving count to the last |
| Model.RescaleRoundTrip | src/js/model.js:122-129 | over exact numbers, rescaling to n servings and back restores every ingredient, provided every ingredient has a quantity (a `null` quantity becomes 0 and is not restored) |
| Model.SortBySortedPermutation | src/js/model.js:153-155 | the sorted results ascend by cooking time or by ingredient count and are a permutation of the fetched recipes |
| Model.SortByStable | src/js/model.js:153-155 | recipes with equal keys keep their fetched order (the sort is stable) |
| Model.SortedSummariesKeepIds | src/js/model.js:146-165 | the stored results carry exactly the ids of the fetched recipes, each as often as fetched |
| Model.SortByKeepsIds | src/js/model.js:153-155 | sorting keeps the multiset of ids |
| Model.HasId | src/js/model.js:65 | `some(b => b.id === id)` holds exactly when a bookmark has the id |
| Model.FindIndex | src/js/model.js:208 | findIndex gives -1 exactly when no bookmark has the id, and otherwise the first position with it |
| Model.DeleteRemovesFirst | src/js/model.js:206-209 | deleting a present id removes exactly its first bookmark and keeps the others in order |
| Model.DeleteAbsentDropsLast | src/js/model.js:208-209 | deleting an absent id removes the last bookmark |
| Model.AddThenDeleteRestores | src/js/model.js:191-214 | adding a recipe whose id is not bookmarked and deleting that id restores the list |
| Model.AppendFreshKeepsDistinct | src/js/model.js:191-193 | appending a recipe whose id is not bookmarked keeps every id once, and the id is then bookmarked |
| Model.DeleteKeepsDistinct | src/js/model.js:206-209 | when every id occurs once, deleting an id keeps every id once, leaves no bookmark with that id and brings in no other id |
| Model.Flagged | src/js/model.js:195 | the current recipe's bookmarked flag is set only when its id is the one added or deleted |
| Model.ShoppingList | src/js/model.js:297-306 | no list without a recipe; otherwise one line per ingredient with the upper-cased description, and an amount with the unit exactly when the recorded quantity at that position is a non-zero number |
| Model.ShoppingListReadsStaleQuantities | src/js/model.js:39-41 | because createRecipeObject appends quantities without clearing them, a second recipe's shopping list shows the first recipe's quantities |
| Model.ShoppingListFreshQuantities | src/js/model.js:300-303 | with only the loaded recipe's quantities recorded, each non-zero quantity is listed with its unit |
| Model.EmptiedDayOnPlan | src/js/model.js:316-322 | on a valid plan, emptying day k clears exactly that slot, any other number changes nothing, and the plan stays valid |
| Model.UpdatedPlanFrame | src/js/model.js:331-349 | every plan update keeps seven slots numbered 1 to 7 and leaves the slots it does not target alone |
| Model.UpdatedPlanRecipe | src/js/model.js:342-346 | a recipe object becomes the recipe of the target day |
| Model.DragSwaps | src/js/model.js:333-341 | a `{ day, recipe }` slot taken from the plan and dropped on day d exchanges the recipes of the two days |
| Model.DragOntoItselfIsNoOp | src/js/model.js:333-341 | dropping a day's slot onto the same day changes nothing |
| Model.DragSwapInvolution | src/js/model.js:333-341 | swapping the same two days twice restores the plan, and a swap keeps the plan valid |
| Model.AppState.constructor | src/js/model.js:5-26 | the initial state: no recipe, no quantities, empty search on page 1, no bookmarks, seven empty days, no key; the bookmarks are consistent with the flag |
| Model.AppState.CreateRecipeObject | src/js/model.js:37-53 | the loop appends the new recipe's quantities to the recorded ones and the renamed recipe becomes current; nothing else changes |
| Model.AppState.LoadRecipe | src/js/model.js:61-73 | on a response, the recipe becomes current, flagged as bookmarked exactly when its id is bookmarked; on a failure nothing changes; when the response is the recipe asked for, the bookmarks stay consistent with the flag (ids distinct, an unflagged current recipe not bookmarked) |
| Model.AppState.LoadSearchResults | src/js/model.js:84-101 | the query is stored first; a response replaces the results by their summaries and returns to page 1 |
| Model.AppState.GetSearchResultsPage | src/js/model.js:109-114 | the page is remembered and its slice of the results returned |
| Model.AppState.UpdateServings | src/js/model.js:122-129 | the loop rescales every ingredient in place, records exactly one new quantity per ingredient and sets the servings; with no recipe the quantities are cleared and a TypeError results; the bookmark consistency is kept |
| Model.AppState.SortResults | src/js/model.js:137-170 | without results nothing happens; otherwise page 1 and, with every recipe fetched, the sorted summaries; when the fetched recipes are the results' own, the new results are the old ones re-ordered (same ids, each as often) |
| Model.AppState.AddBookmark | src/js/model.js:191-198 | the recipe is appended, the current recipe flagged when the ids match, and the list persisted; appending an id not yet bookmarked keeps the bookmarks consistent with the flag |
| Model.AppState.DeleteBookmark | src/js/model.js:206-214 | the first bookmark with the id is spliced out (the last one if none has it), the flag cleared when the ids match, and the list persisted; the bookmarks stay consistent with the flag |
| Model.AppState.UploadRecipe | src/js/model.js:230-270 | a form that does not parse sends nothing and changes nothing; otherwise the body with the parsed ingredients is sent, and the returned recipe becomes current and bookmarked; a returned id not yet bookmarked keeps the bookmarks consistent with the flag |
| Model.AppState.EmptyCalendarDay | src/js/model.js:316-322 | the loop empties every slot whose day is the chosen one and the plan is persisted |
| Model.AppState.UpdateCalendarList | src/js/model.js:331-349 | the empty object changes nothing and is not persisted; any other payload applies the plan update, keeps the plan valid and persists it |
| Model.AppState.ClearCalendar | src/js/model.js:367-378 | the plan becomes seven empty days and the stored plan is removed |
| Model.AppState.SaveNewKey | src/js/model.js:440-445 | the key is stored and the bookmarks are emptied, in memory and in storage, which makes them consistent with the flag |
| Model.AppState.DeleteKey | src/js/model.js:453-458 | the key becomes empty and the bookmarks are emptied, in memory and in storage, which makes them consistent with the flag |
| AddRecipeView.AddRecipeForm.constructor | src/js/views/addRecipeView.js:18 | the row counter starts at the default of 6 and the form is intact (rows 1 to 6 shown) |
| AddRecipeView.AddRecipeForm.MoreIngredients | src/js/views/addRecipeView.js:103-120 | at the maximum nothing changes; otherwise a click on the add button counts one more row and appends a row with the new number; below the maximum the scroll to the counter's row throws a TypeError exactly when that row is missing; the counter stays within 3 to 20; an intact form stays intact and never throws |
| AddRecipeView.AddRecipeForm.LessIngredients | src/js/views/addRecipeView.js:129-142 | at the minimum nothing changes; otherwise a click on the remove button removes the row numbered with the counter and decrements it, or fails with a TypeError before the decrement when no such row is shown; an intact form stays intact and never throws |
| AddRecipeView.AddRecipeForm.UploadClicked | src/js/views/addRecipeView.js:78-91 | an upload click leaves no row (the controller's spinner clears the window) and resets the counter to the default |
| AddRecipeView.AddRecipeForm.DefaultWindowContent | src/js/views/addRecipeView.js:188-258 | the rebuilt form shows rows 1 to 6 and the counter is left as it is |
| AddRecipeView.AddRecipeForm.UploadAndRefresh | src/js/views/addRecipeView.js:78-91 | an upload followed by the delayed rebuild of the window leaves an intact form with the default count |
| AddRecipeView.RemoveLastRow | src/js/views/addRecipeView.js:134-138 | in an intact form the counter's row is shown and is the last one, and removing it leaves rows 1 to n - 1 |
| AddRecipeView.AddThenRemoveRestores | src/js/views/addRecipeView.js:109-139 | adding a row and then removing it restores the rows shown |
| AddRecipeView.DashFieldName | src/js/views/addRecipeView.js:155-157 | the view's field names start with "ingredient", so the upload filter keeps them |
| AddRecipeView.DashRowFieldsHaveNoZ | src/js/views/addRecipeView.js:155-157 | no field name the view writes contains a `Z` |
| AddRecipeView.DashFormYieldsNoIngredients | src/js/views/addRecipeView.js:211-213 | a form whose rows are all named by the view uploads no ingredient at all, whatever was typed |
| AddRecipeView.ExtraRowsIgnored | src/js/views/addRecipeView.js:151-158 | rows the view appends after rows named the parser's way are dropped from the upload |
| PaginationView.NumPages | src/js/views/paginationView.js:33 | the page count is the least number of pages of ten that hold all results |
| PaginationView.FirstPage | src/js/views/paginationView.js:35-41 | on page 1 of several, only a "next" button to page 2 |
| PaginationView.LastPage | src/js/views/paginationView.js:43-49 | on the last of several pages, only a "prev" button to the page before |
| PaginationView.MiddlePage | src/js/views/paginationView.js:51-59 | on a page strictly between, "prev" to the page before and then "next" to the page after |
| PaginationView.NoButtons | src/js/views/paginationView.js:31-62 | there is no markup exactly when the results fit on one page or the page is past the last |
| PaginationView.TargetsInRange | src/js/views/paginationView.js:72-80 | every `data-goto` target is an existing page other than the current one, "next" exactly for the page after, and the total shown is the page count |
| CalendarView.DayAttribute | src/js/views/calendarView.js:99 | `dataset.day` is always a non-empty string |
| CalendarView.Blocks | src/js/views/calendarView.js:130-132 | one block per slot, in order, with that slot's day, and a preview with the recipe's image and title exactly when the slot holds a recipe |
| CalendarView.BlockInner | src/js/views/calendarView.js:140-158 | a rendered day starts with its label element `Day N`, and so with '<' |
| CalendarView.DefaultIsEmptyPlanRendered | src/js/views/calendarView.js:162-172 | the default calendar shows exactly what rendering seven empty days shows |
| CalendarView.RenderedNeverStartsWithDrop | src/js/views/calendarView.js:247 | rendered day markup never starts with "Drop", so a drag reset after a render keeps the new markup |
| CalendarView.DropLabel | src/js/views/calendarView.js:203 | the dragged-over label starts with "Drop" |
| CalendarView.DragPayload | src/js/views/calendarView.js:232-233 | the drag carries the whole slot `_data[d - 1]` (its day and recipe), and nothing parsable past the end of `_data` |
| CalendarView.Calendar.constructor | src/js/views/calendarView.js:13-17 | nothing is selected, no day is tracked, the switch is on and nothing is rendered yet |
| CalendarView.Calendar.HideFloatingButtons | src/js/views/calendarView.js:118-121 | the buttons are hidden and nothing else changes |
| CalendarView.Calendar.DefaultCalendarParameters | src/js/views/calendarView.js:124-127 | nothing is selected and `_curRecipe` becomes '' |
| CalendarView.Calendar.Dblclick | src/js/views/calendarView.js:66-92 | outside the days nothing changes; on the selected day every day turns plain and the selection and buttons go; on another day that day alone is highlighted, selected, and the buttons shown |
| CalendarView.Calendar.BodyClick | src/js/views/calendarView.js:93-106 | a click outside the days, or on any day while one is selected, clears the selection, the highlight and the buttons; a click on a day with nothing selected changes nothing |
| CalendarView.Calendar.BodyClickIntended | src/js/views/calendarView.js:97-104 | with the day compared as a number, a click on the selected day keeps the selection and a click on another day clears it |
| CalendarView.Calendar.DoubleClickGesture | src/js/views/calendarView.js:66-106 | the two clicks and the dblclick of a double click always end with that day selected, so a selected day cannot be deselected this way |
| CalendarView.Calendar.DoubleClickGestureIntended | src/js/views/calendarView.js:76-78 | with the intended click handler, a double click toggles the selection of the day |
| CalendarView.Calendar.DragOver | src/js/views/calendarView.js:184-210 | outside the days the tracked day gets its saved markup and plain colour back, is untracked, and the switch turns on; on a day with the switch on its markup is saved and replaced by the drop label, it is coloured and tracked, and the switch turns off; with the switch off nothing changes |
| CalendarView.Calendar.DragStart | src/js/views/calendarView.js:227-236 | the buttons are hidden and the dragged day's slot is put on the drag |
| CalendarView.Calendar.ReturnToDefaultDraggingSettings | src/js/views/calendarView.js:245-251 | with no tracked day nothing changes; otherwise its saved markup comes back only if it still shows a drop label, it turns plain, is untracked, and the switch turns on |
| CalendarView.Calendar.Render | src/js/views/View.js:18-33 | the plan becomes `_data` and every day shows its block |
| CalendarView.Calendar.DefaultCalendar | src/js/views/calendarView.js:162-172 | the days show their default markup and `_data` is left as it was |
| Controller.ControlAddBookmark | src/js/controller.js:136-145 | a recipe not flagged as bookmarked is appended to the bookmarks, a flagged one deleted from them, and its flag flips |
| Controller.BookmarkTwice | src/js/controller.js:138-140 | with the bookmarks consistent with the flag, pressing the bookmark button twice on a recipe not flagged as bookmarked leaves the bookmarks as they were and keeps them consistent |
| Controller.ControlGenerateKey | src/js/controller.js:341-360 | a key equal to the current one, or empty, is refused and nothing changes; otherwise it is saved, the bookmarks are emptied (consistent with the flag), and the result is true |
| Controller.ControlDeleteKey | src/js/controller.js:368-378 | the key becomes empty and the bookmarks are emptied |
| Controller.ControlCalendar | src/js/controller.js:230-237 | the current recipe becomes the selected day's recipe (no change without a recipe), the view shows and holds the plan with every day uncoloured, the selection is cleared, and the drag state and buttons are left as they were |
| Controller.AddToPlanClicked | src/js/views/calendarView.js:30-39 | the add-to-plan button runs controlCalendar and then hides the buttons and clears the selection, and the bubbled body click paints every day plain: the current recipe fills the selected day, the view shows and holds the plan, and the drag state is left as it was |
| Controller.EmptyDayClicked | src/js/controller.js:245-248 | with a day selected, that day's slot is emptied and persisted, the view shows and holds the plan, and the selection and buttons go while the drag state stays; with none, the plan is unchanged; either way the bubbled body click paints every day plain |
| Controller.ControlEmptyCalendar | src/js/controller.js:256-262 | the plan is cleared and the empty days shown uncoloured, but the view keeps the old plan as `_data`; selection, drag state and buttons stay |
| Controller.ControlEmptyCalendarIntended | src/js/controller.js:256-262 | the cleared plan is both shown and held by the view; selection, drag state and buttons stay |
| Controller.StaleDragAfterClear | src/js/controller.js:261 | after clearing as written, dragging a day that held a recipe onto another day puts that recipe back into the empty plan |
| Controller.SyncedDragCarriesSlot | src/js/views/calendarView.js:232-233 | when the view holds the state's plan, a dragged day carries its own day and recipe |
| Controller.ControlAddDraggedRecipe | src/js/controller.js:270-284 | unparsable data changes no state and only resets the drag: the tracked day gets its saved markup back if it still shows the drop label and turns plain; otherwise the tracked day, if any, receives the update, the drag is reset and the plan rendered, so the view shows and holds it; the selection and buttons stay in both cases |
| Controller.DragDayOntoDay | src/js/controller.js:270-284 | dragging one day of an up-to-date plan onto another, with the dragover on the origin day and one outside every day before reaching the target, exchanges their recipes and keeps the view in step |
| Controller.DragDayOntoDayDirectly | src/js/views/calendarView.js:199-206 | when the pointer goes from the origin day straight onto the target, the origin stays tracked and the drop leaves the plan unchanged |
| Controller.NavigationTarget | src/js/controller.js:292-298 | only a `{ day, recipe }` object navigates, to its recipe's id, and to "undefined" for a day without a recipe |
| Controller.EmptyDayNavigatesToUndefined | src/js/controller.js:296-297 | dropping an empty day on the recipe view navigates to the id "undefined" |
| Controller.NavigationTargetIntended | src/js/controller.js:292-298 | only a `{ day, recipe }` object holding a recipe navigates, to that recipe's id |
| Controller.DragDayToRecipeView | src/js/controller.js:292-298 | with the intended rule, a dragged day shows its recipe, and an empty day shows nothing |

## Left out

- Network: `AJAX`, the request timeout and `apiCall` (the calorie estimate through a second API) are not modelled. Responses are parameters, and `Promise.all` in `sortResults` is one response for the whole list.
- Persistence: `persistBookmarks`, `persistCalendar`, `persistKey` and `clearBookmarks` write the `storage` map. `init2`, which reads local storage at start-up, is not modelled.
- Screen output: `View.render` is modelled only for the calendar. `View.update`, spinners, messages, dialogue windows and the markup of the other views are not modelled.
- Event plumbing: mouse positions and `scrollIntoView` are not modelled. The DOM nodes kept in `_draggedOverDay` are modelled by day number, so a tracked element that a render has detached is treated as the new element for that day.
- Model.AppState.AddBookmark: the bookmark is a copy, while in the code it is the same object as the current recipe. So the flag set on the current recipe and later in-place rescalings do not reach the stored bookmark.
- Model.AppState.UpdateServings: requires positive serving counts. A recipe with 0 servings divides by zero in the code, giving NaN or Infinity. Quantities are exact reals, not doubles.
- Model.AppState.SortResults: the `sortedResults` state field, which no code writes, is left out.
- JsLib.StrToNumber: reads decimal literals with an optional sign and point. Exponents, hex, binary, octal and `Infinity` are left out, and text that is not such a literal is `None`. Values are exact reals: the rounding to doubles, and the overflow to `Infinity` of literals beyond about 1.8e308, are left out.
- JsLib.StrToNumberOfDigits: gives the exact value of any digit string. In the code, more than 308 digits overflow to `Infinity`, and long digit strings are rounded to the nearest double.
- Upload.ReadRowTriple: accepts every quantity that is a decimal literal. The code's `isFinite` also rejects a literal beyond the double range (about 1.8e308), which overflows to `Infinity`. The counter comparison `counter === +entry[2]` is also exact here, where the code can match an index such as `1.0000000000000001` that rounds to the counter.
- Upload.ParseWellNamedForm: the same two gaps, so a form whose quantity is beyond the double range is accepted here where the code throws the format error.
- JsLib.ToUpper: upper-cases ASCII letters only.
- Model.ShoppingList: gives the item and the amount. The line text, with the number printed by JavaScript, is not produced.
- Upload.Lookup: takes the first field with a name. `Object.fromEntries` keeps the last, and form field names are unique.
- Model.AppState.UpdateCalendarList: the plan stores a copy of the current recipe. In the code, `controlCalendar` stores `state.recipe` itself, so a later in-place rescale or bookmark flag reaches that plan slot and the next stored plan.
- CalendarView.Calendar.Render: `_data` is a copy of the plan, while `View.render` keeps `state.calendarList` itself. The two agree because every modelled plan change is followed by a render, except after `clearCalendar` replaces the array (see Findings).
- Model.AppState.LoadRecipe: keeps the bookmarks consistent only when the response is the recipe asked for, since the flag is computed from the requested id.
- Model.AppState.CreateRecipeObject: the new recipe is unflagged, so on its own it can break the bookmark consistency. Its callers `loadRecipe` and `uploadRecipe` set the flag straight after.
- AddRecipeView.AddRecipeForm.constructor: takes the initial rows to be rows 1 to 6. The page's own HTML is not part of this model.
- AddRecipeView.AddRecipeForm.UploadClicked: the spinner and the messages that replace the rows are not modelled; only the rows' disappearance is.
- CalendarView.Calendar.constructor: takes the initial markup to be the seven default days. The page's own HTML is not part of this model.
- CalendarView.Calendar.constructor: `_data` starts empty where the code has `undefined`. A drag before the first render, which throws in the code, is modelled as unparsable.
- CalendarView.Calendar.Render: requires a plan of seven valid days, which is all the state ever holds.
- CalendarView.BlockInner: template white space and the surrounding `calendar__day` element are left out.
- Controller.ControlCalendar: requires that a day is selected or no recipe is loaded. The add-to-plan button is only visible while a day is selected, and at page load no recipe is loaded yet.
- Controller.ControlAddDraggedRecipe: parsed data is one of the three shapes the application produces. Other JSON is not modelled.
- Event order across handlers is modelled by `DoubleClickGesture`, `DoubleClickGestureIntended`, `DragDayOntoDay`, `DragDayOntoDayDirectly`, `AddToPlanClicked`, `BookmarkTwice` and `UploadAndRefresh`. The other handlers are modelled one event at a time.

## Findings

| source | as written | input that shows it | evidently intended | confidence | as-written member | corrected member |
|---|---|---|---|---|---|---|
| src/js/views/addRecipeView.js:155-157 | the form names its ingredient fields `ingredient-q-N`, `ingredient-u-N`, `ingredient-d-N`, both for added rows and for the six rows `defaultWindowContent` writes (addRecipeView.js:211-243), while the upload parser splits names on `Z` (model.js:235) | a form rebuilt by `defaultWindowContent` after an upload, with one row "1", "kg", "rice", uploads with no ingredient | rows named so that the parser reads them (`ingredientZqZN`), making each filled row an ingredient | not executed; high for every form the view builds | AddRecipeView.DashFormYieldsNoIngredients | Upload.ParseWellNamedForm |
| src/js/views/calendarView.js:99 | the click handler compares the string `dataset.day` with the number `_curRecipe` using `!==`, so every click on a day clears an active selection | select day 3, then double-click day 3: the clicks clear the selection and the dblclick selects day 3 again | a click on the selected day keeps it, so a double click on it deselects (calendarView.js:76-78) | not executed; high | CalendarView.Calendar.DoubleClickGesture | CalendarView.Calendar.DoubleClickGestureIntended |
| src/js/controller.js:261 | emptying the calendar redraws the default days but leaves the view's `_data` holding the old plan | plan with a recipe on day 2; empty the calendar; drag day 2 onto day 5: the recipe is back, on day 5 | render the cleared plan, so dragged days carry empty slots | not executed; high | Controller.StaleDragAfterClear | Controller.ControlEmptyCalendarIntended |
| src/js/controller.js:296-297 | a dropped `{ day, recipe }` object navigates to `recipe.id` even when the recipe is `{}` | drag an empty day onto the recipe view: the hash becomes `#undefined` and a recipe "undefined" is requested | only a day holding a recipe navigates | not executed; high | Controller.EmptyDayNavigatesToUndefined | Controller.NavigationTargetIntended |
| src/js/model.js:38-40 | `createRecipeObject` appends each loaded recipe's quantities to `updatedQuantityValues` and nothing clears the list when another recipe is loaded (controller.js:31-48) | load a recipe whose first quantity is 2, then a recipe whose first quantity is 5: the second recipe's shopping list shows amount 2 for its first ingredient | the list holds the loaded recipe's quantities alone, so each non-zero quantity is listed with its own unit | not executed; high (until the servings are changed, which rebuilds the list) | Model.ShoppingListReadsStaleQuantities | Model.ShoppingListFreshQuantities |
