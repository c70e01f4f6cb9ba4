/**
  The controller (src/js/controller.js): the handlers that connect a user
  action to the application state and to the weekly-plan view. Only the
  handlers that change the bookmarks, the weekly plan or the key are
  modelled; the dialogue windows, messages and other views they update are
  screen output.
 */
module Controller {
  import opened Wrappers
  import opened JsLib
  import opened Types
  import opened Model
  import opened CalendarView

  /** The weekly plan on screen is the state's plan: `_data` and every day's markup come from it. */
  ghost predicate InSync(m: AppState, v: Calendar)
    reads m, v
  {
    v.data == m.calendarList && v.inner == RenderedInner(m.calendarList)
  }

  // ------------------------------------------------------------ bookmarks

  /**
    controlAddBookmark: a current recipe that is not flagged as bookmarked is
    added to the bookmarks, a flagged one is deleted from them; either way its
    flag flips.
   */
  method ControlAddBookmark(m: AppState)
    requires m.recipe.Filled?
    modifies m
    ensures var was := old(m.recipe.recipe.bookmarked) == Some(true);
            m.recipe == Filled(old(m.recipe.recipe).(bookmarked := Some(!was))) &&
            m.bookmarks == (if was then WithoutBookmark(old(m.bookmarks), old(m.recipe.recipe.id))
                            else old(m.bookmarks) + [old(m.recipe.recipe)])
    ensures m.State() == old(m.State()).(recipe := m.recipe, bookmarks := m.bookmarks,
                                         storage := old(m.storage)[BOOKMARKS_ITEM := BookmarksBlob(m.bookmarks)])
    ensures old(m.BookmarksConsistent()) ==> m.BookmarksConsistent()
  {
    if m.recipe.recipe.bookmarked != Some(true) {
      m.AddBookmark(m.recipe.recipe);
    } else {
      m.DeleteBookmark(m.recipe.recipe.id);
    }
  }

  /**
    Clicking the bookmark button twice on a recipe that is not flagged as
    bookmarked leaves the bookmarks as they were, with the recipe flagged as
    not bookmarked. The consistency of the bookmarks with the flag is what
    makes the first click add a recipe that is not yet there.
   */
  method BookmarkTwice(m: AppState)
    requires m.BookmarksConsistent()
    requires m.recipe.Filled? && m.recipe.recipe.bookmarked != Some(true)
    modifies m
    ensures m.BookmarksConsistent()
    ensures m.bookmarks == old(m.bookmarks)
    ensures m.recipe == Filled(old(m.recipe.recipe).(bookmarked := Some(false)))
  {
    ghost var r := m.recipe.recipe;
    ControlAddBookmark(m);
    ControlAddBookmark(m);
    AddThenDeleteRestores(old(m.bookmarks), r);
  }

  // ------------------------------------------------------------------ key

  /**
    controlGenerateKey: a key equal to the current one, or an empty one, is
    refused and nothing changes; otherwise it is saved.
   */
  method ControlGenerateKey(m: AppState, newKey: string) returns (accepted: bool)
    modifies m
    ensures accepted <==> newKey != old(m.userKey) && newKey != ""
    ensures !accepted ==> m.State() == old(m.State())
    ensures accepted ==> m.State() == old(m.State()).(
              userKey := newKey, bookmarks := [],
              storage := (old(m.storage) - {BOOKMARKS_ITEM})[KEY_ITEM := KeyBlob(newKey)])
    ensures accepted ==> m.BookmarksConsistent()
  {
    if m.userKey == newKey || |newKey| == 0 {
      return false;
    }
    m.SaveNewKey(newKey);
    accepted := true;
  }

  /** controlDeleteKey */
  method ControlDeleteKey(m: AppState)
    modifies m
    ensures m.State() == old(m.State()).(
              userKey := "", bookmarks := [],
              storage := (old(m.storage) - {BOOKMARKS_ITEM})[KEY_ITEM := KeyBlob("")])
    ensures m.BookmarksConsistent()
  {
    m.DeleteKey();
  }

  // --------------------------------------------------------- weekly plan

  /**
    controlCalendar itself, as run at page load: the current recipe is put
    into the selected day (nothing happens when there is no current recipe),
    the plan is rendered and the selection cleared.
   */
  method ControlCalendar(m: AppState, v: Calendar)
    requires m.Valid() && v.Valid()
    requires v.activeRecipe || m.recipe.Empty?
    modifies m, v
    ensures m.Valid() && v.Valid() && InSync(m, v)
    ensures old(m.recipe).Empty? ==> m.State() == old(m.State())
    ensures old(m.recipe).Filled? ==>
              var d := old(v.curRecipe).n;
              var plan := old(m.calendarList)[d - 1 := DaySlot(d, old(m.recipe))];
              m.State() == old(m.State()).(calendarList := plan,
                                           storage := old(m.storage)[CALENDAR_ITEM := CalendarBlob(plan)])
    ensures v.State() == old(v.State()).(data := m.calendarList, inner := RenderedInner(m.calendarList),
                                         background := AllDays(NO_COLOUR), activeRecipe := false, curRecipe := Str(""))
  {
    if m.recipe.Filled? {
      var d: Day := v.curRecipe.n;
      UpdatedPlanRecipe(m.calendarList, d, m.recipe.recipe);
      m.UpdateCalendarList(d, AsObject(m.recipe));
    }
    v.Render(m.calendarList);
    v.DefaultCalendarParameters();
  }

  /**
    A click on the add-to-plan button, only visible while a day is selected:
    the button's handler runs controlCalendar, then hides the floating
    buttons and clears the selection; the click then bubbles to the body's
    click handler, which, the button being outside every day, paints every
    day plain.
   */
  method AddToPlanClicked(m: AppState, v: Calendar)
    requires m.Valid() && v.Valid() && v.activeRecipe
    modifies m, v
    ensures m.Valid() && v.Valid() && InSync(m, v)
    ensures old(m.recipe).Empty? ==> m.State() == old(m.State())
    ensures old(m.recipe).Filled? ==>
              var d := old(v.curRecipe).n;
              var plan := old(m.calendarList)[d - 1 := DaySlot(d, old(m.recipe))];
              m.State() == old(m.State()).(calendarList := plan,
                                           storage := old(m.storage)[CALENDAR_ITEM := CalendarBlob(plan)])
    ensures v.State() == old(v.State()).(data := m.calendarList, inner := RenderedInner(m.calendarList),
                                         background := AllDays(PLAIN), buttonsShown := false,
                                         activeRecipe := false, curRecipe := Str(""))
  {
    ControlCalendar(m, v);
    v.HideFloatingButtons();
    v.DefaultCalendarParameters();
    v.BodyClick(None);
  }

  /**
    A click on the empty-day button. Its handler acts only while a day is
    selected: the selected day's slot is emptied, the plan rendered, and the
    selection and the buttons cleared. The click then bubbles to the body's
    click handler, which, the button being outside every day, paints every
    day plain and clears the selection and the buttons.
   */
  method EmptyDayClicked(m: AppState, v: Calendar)
    requires m.Valid() && v.Valid()
    modifies m, v
    ensures m.Valid() && v.Valid()
    ensures !old(v.activeRecipe) ==>
              m.State() == old(m.State()) &&
              v.State() == old(v.State()).(background := AllDays(PLAIN), buttonsShown := false,
                                           activeRecipe := false, curRecipe := Str(""))
    ensures old(v.activeRecipe) ==>
              var d := old(v.curRecipe).n;
              var plan := old(m.calendarList)[d - 1 := DaySlot(d, Empty)];
              InSync(m, v) &&
              m.State() == old(m.State()).(calendarList := plan,
                                           storage := old(m.storage)[CALENDAR_ITEM := CalendarBlob(plan)]) &&
              v.State() == old(v.State()).(data := plan, inner := RenderedInner(plan), background := AllDays(PLAIN),
                                           buttonsShown := false, activeRecipe := false, curRecipe := Str(""))
  {
    if v.activeRecipe {
      var d := v.curRecipe.n;
      EmptiedDayOnPlan(m.calendarList, d);
      m.EmptyCalendarDay(d);
      v.Render(m.calendarList);
      v.HideFloatingButtons();
      v.DefaultCalendarParameters();
    }
    v.BodyClick(None);
  }

  /**
    controlEmptyCalendar as written: the plan is cleared and the default days
    are shown, but the view's `_data` still holds the plan from before.
   */
  method ControlEmptyCalendar(m: AppState, v: Calendar)
    requires v.Valid()
    modifies m, v
    ensures m.Valid() && v.Valid()
    ensures m.State() == old(m.State()).(calendarList := EmptyPlan(), storage := old(m.storage) - {CALENDAR_ITEM})
    ensures v.inner == RenderedInner(m.calendarList)
    ensures v.State() == old(v.State()).(inner := DefaultInner(), background := AllDays(NO_COLOUR))
  {
    m.ClearCalendar();
    v.DefaultCalendar();
    DefaultIsEmptyPlanRendered();
  }

  /** controlEmptyCalendar as intended: the cleared plan is what the view shows and holds. */
  method ControlEmptyCalendarIntended(m: AppState, v: Calendar)
    requires v.Valid()
    modifies m, v
    ensures m.Valid() && v.Valid() && InSync(m, v)
    ensures m.State() == old(m.State()).(calendarList := EmptyPlan(), storage := old(m.storage) - {CALENDAR_ITEM})
    ensures v.State() == old(v.State()).(data := EmptyPlan(), inner := RenderedInner(EmptyPlan()),
                                         background := AllDays(NO_COLOUR))
  {
    m.ClearCalendar();
    v.Render(m.calendarList);
  }

  /**
    After the calendar is emptied as written, dragging a day that held a
    recipe onto another day puts that recipe back into the plan.
   */
  lemma StaleDragAfterClear(stale: seq<DaySlot>, from: Day, onto: Day)
    requires PlanValid(stale) && stale[from - 1].recipe.Filled? && from != onto
    ensures DragPayload(stale, from).Parsed?
    ensures UpdatedPlan(EmptyPlan(), onto, DragPayload(stale, from).obj)[onto - 1].recipe == stale[from - 1].recipe
  {
    DragSwaps(EmptyPlan(), from, onto);
    assert DragPayload(stale, from).obj.day == from;
    var payload := DragPayload(stale, from).obj;
    var prev := EmptyPlan()[onto - 1].recipe;
    assert KeyCount(AsObject(prev)) == 0;
  }

  /** With `_data` in step with the plan, every slot dragged carries the slot's own day and recipe. */
  lemma SyncedDragCarriesSlot(plan: seq<DaySlot>, from: Day)
    requires PlanValid(plan)
    ensures DragPayload(plan, from) == Parsed(SlotPayload(plan, from))
  {
  }

  /**
    controlAddDraggedRecipe: an unparsable drag only resets the drag state,
    giving the tracked day its saved markup back. Otherwise, when a day is
    being dragged over, the payload updates that day; then the drag state is
    reset and the plan rendered.
   */
  method ControlAddDraggedRecipe(m: AppState, v: Calendar, data: DragData)
    requires m.Valid() && v.Valid()
    modifies m, v
    ensures m.Valid() && v.Valid()
    ensures v.draggedOverDay.None? && v.dragSwitch
    ensures data.Unparsable? ==> m.State() == old(m.State())
    ensures data.Unparsable? && old(v.draggedOverDay).None? ==> v.State() == old(v.State())
    ensures data.Unparsable? && old(v.draggedOverDay).Some? ==>
              var i := old(v.draggedOverDay).value - 1;
              v.State() == old(v.State()).(
                inner := if StartsWith(old(v.inner)[i], "Drop") then old(v.inner)[i := old(v.lastInner).value] else old(v.inner),
                background := old(v.background)[i := PLAIN],
                draggedOverDay := None, dragSwitch := true)
    ensures data.Parsed? ==> InSync(m, v)
    ensures data.Parsed? ==>
              v.State() == old(v.State()).(data := m.calendarList, inner := RenderedInner(m.calendarList),
                                           background := AllDays(NO_COLOUR), draggedOverDay := None, dragSwitch := true)
    ensures data.Parsed? && old(v.draggedOverDay).Some? && KeyCount(data.obj) != 0 ==>
              var plan := UpdatedPlan(old(m.calendarList), old(v.draggedOverDay).value, data.obj);
              m.State() == old(m.State()).(calendarList := plan,
                                           storage := old(m.storage)[CALENDAR_ITEM := CalendarBlob(plan)])
    ensures data.Parsed? && (old(v.draggedOverDay).None? || KeyCount(data.obj) == 0) ==>
              m.State() == old(m.State())
  {
    if data.Unparsable? {
      v.ReturnToDefaultDraggingSettings();
      return;
    }
    if v.draggedOverDay.Some? {
      m.UpdateCalendarList(v.draggedOverDay.value, data.obj);
    }
    v.ReturnToDefaultDraggingSettings();
    v.Render(m.calendarList);
  }

  /**
    Dragging day `from` of an up-to-date plan onto day `onto`, as the browser
    delivers it: dragstart on `from`, a dragover on `from` itself (which
    tracks it and turns the switch off), a dragover outside every day (which
    restores and untracks it), a dragover on `onto`, and the drop. The two
    days' recipes are exchanged.
   */
  method DragDayOntoDay(m: AppState, v: Calendar, from: Day, onto: Day)
    requires m.Valid() && v.Valid() && InSync(m, v) && v.draggedOverDay.None?
    modifies m, v
    ensures m.Valid() && v.Valid() && InSync(m, v)
    ensures m.calendarList == Swapped(old(m.calendarList), from, onto)
  {
    var data := v.DragStart(from);
    v.DragOver(Some(from));
    v.DragOver(None);
    assert v.draggedOverDay.None? && v.data == m.calendarList;
    v.DragOver(Some(onto));
    SyncedDragCarriesSlot(m.calendarList, from);
    DragSwaps(m.calendarList, from, onto);
    ControlAddDraggedRecipe(m, v, data);
  }

  /**
    The same drag when the pointer passes from `from` straight onto `onto`
    with no dragover outside every day in between: `from` stays tracked, the
    dragover on `onto` does nothing, and the drop puts `from`'s slot back on
    `from`. The plan is unchanged (it is only stored again).
   */
  method DragDayOntoDayDirectly(m: AppState, v: Calendar, from: Day, onto: Day)
    requires m.Valid() && v.Valid() && InSync(m, v) && v.draggedOverDay.None?
    modifies m, v
    ensures m.Valid() && v.Valid() && InSync(m, v)
    ensures m.calendarList == old(m.calendarList)
  {
    var data := v.DragStart(from);
    v.DragOver(Some(from));
    v.DragOver(Some(onto));
    assert v.draggedOverDay == Some(from) && v.data == m.calendarList;
    SyncedDragCarriesSlot(m.calendarList, from);
    DragOntoItselfIsNoOp(m.calendarList, from);
    ControlAddDraggedRecipe(m, v, data);
  }

  /**
    controlDisplayRecipe: the hash the recipe view navigates to when
    something is dropped on it. Only a two-key `{ day, recipe }` object
    navigates, to its recipe's id, and a day without a recipe has none, so
    the hash becomes "undefined".
   */
  function NavigationTarget(data: DragData): (hash: Option<string>)
    ensures hash.Some? <==> data.Parsed? && data.obj.SlotObject?
    ensures data.Parsed? && data.obj.SlotObject? && data.obj.dish.Filled? ==> hash == Some(data.obj.dish.recipe.id)
    ensures data.Parsed? && data.obj.SlotObject? && data.obj.dish.Empty? ==> hash == Some("undefined")
  {
    if data.Unparsable? || KeyCount(data.obj) != 2 then None
    else if data.obj.dish.Empty? then Some("undefined")
    else Some(data.obj.dish.recipe.id)
  }

  /** Dropping an empty day on the recipe view navigates to the id "undefined". */
  lemma EmptyDayNavigatesToUndefined(plan: seq<DaySlot>, d: Day)
    requires PlanValid(plan) && plan[d - 1].recipe.Empty?
    ensures NavigationTarget(DragPayload(plan, d)) == Some("undefined")
  {
  }

  /** controlDisplayRecipe as intended: only a day holding a recipe navigates, to that recipe. */
  function NavigationTargetIntended(data: DragData): (hash: Option<string>)
    ensures hash.Some? <==> data.Parsed? && data.obj.SlotObject? && data.obj.dish.Filled?
    ensures hash.Some? ==> hash.value == data.obj.dish.recipe.id
  {
    if data.Unparsable? || KeyCount(data.obj) != 2 || data.obj.dish.Empty? then None
    else Some(data.obj.dish.recipe.id)
  }

  /** Dragging a day of an up-to-date plan onto the recipe view shows that day's recipe, and nothing for an empty day. */
  lemma DragDayToRecipeView(plan: seq<DaySlot>, d: Day)
    requires PlanValid(plan)
    ensures plan[d - 1].recipe.Filled? ==> NavigationTargetIntended(DragPayload(plan, d)) == Some(plan[d - 1].recipe.recipe.id)
    ensures plan[d - 1].recipe.Empty? ==> NavigationTargetIntended(DragPayload(plan, d)) == None
  {
  }
}
