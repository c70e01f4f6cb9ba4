/**
  The weekly-plan view (src/js/views/calendarView.js): which day is selected
  for the floating buttons, which day is being dragged over, and what each of
  the seven day elements shows. A day element is abstracted to its innerHTML
  and its inline background colour, both indexed by day - 1.
 */
module CalendarView {
  import opened Wrappers
  import opened JsLib
  import opened Types

  /** Background colours the view writes. "" is an element without an inline colour. */
  const PLAIN := "#f9f5f3"
  const SELECTED := "#d3c7c3"
  const DRAGGED_OVER := "#918581"
  const NO_COLOUR := ""

  /** The JavaScript values `_curRecipe` and `dataset.day` take. */
  datatype JsValue = Undefined | Str(s: string) | Num(n: int)

  /** `===` on those values: same type and same value. */
  predicate StrictEqual(a: JsValue, b: JsValue) {
    a == b
  }

  /** `element.dataset.day`: always a string. */
  function DayAttribute(d: Day): (v: JsValue)
    ensures v.Str? && v.s != ""
  {
    Str(NatToString(d))
  }

  /** A day attribute never equals a number, the empty string or undefined. */
  lemma DayAttributeNeverStrictlyEqual(d: Day, cur: JsValue)
    requires cur.Undefined? || cur == Str("") || cur.Num?
    ensures !StrictEqual(DayAttribute(d), cur)
  {
  }

  // -------------------------------------------------------------- markup

  /** The recipe preview inside a day block: the image and the title. */
  datatype Preview = Preview(image: string, title: string)

  /** One `calendar__day` block: its day number and the preview, if the slot holds a recipe. */
  datatype DayBlock = DayBlock(day: Day, preview: Option<Preview>)

  /** `_generateMarkup`: one block per slot, in order, with a preview only for a slot that holds a recipe. */
  function Blocks(plan: seq<DaySlot>): (r: seq<DayBlock>)
    ensures |r| == |plan|
    ensures forall j :: 0 <= j < |r| ==> r[j].day == plan[j].day
    ensures forall j :: 0 <= j < |r| ==> (r[j].preview.Some? <==> plan[j].recipe.Filled?)
    ensures forall j :: 0 <= j < |r| && plan[j].recipe.Filled? ==>
              r[j].preview.value == Preview(plan[j].recipe.recipe.image, plan[j].recipe.recipe.title)
  {
    seq(|plan|, j requires 0 <= j < |plan| => BlockOf(plan[j]))
  }

  /** `_generateCalendarRecipeMarkup` for one slot. */
  function BlockOf(slot: DaySlot): DayBlock {
    DayBlock(slot.day,
             if KeyCount(AsObject(slot.recipe)) != 0
             then Some(Preview(slot.recipe.recipe.image, slot.recipe.recipe.title)) else None)
  }

  /** The label every day block starts with. */
  function DayLabel(d: Day): (html: string)
    ensures |html| > 0 && html[0] == '<'
  {
    "<span class=\"calendar--name\">Day " + NatToString(d) + "</span>"
  }

  /** The preview list item of a block that holds a recipe. */
  function PreviewMarkup(p: Preview): string {
    "<li class=\"previewc\"><div class=\"image__box\"><figure class=\"previewc__fig\"><img src=\"" + p.image
    + "\" alt=\"" + p.title + "\" draggable=\"false\" /></figure></div><div class=\"previewc__data\">"
    + "<h4 class=\"previewc__title calendar-preview-title\">" + p.title + "</h4></div></li>"
  }

  /** The innerHTML of a rendered day block (template white space left out). */
  function BlockInner(b: DayBlock): (html: string)
    ensures StartsWith(html, DayLabel(b.day))
    ensures |html| > 0 && html[0] == '<'
  {
    var head := DayLabel(b.day);
    var rest := if b.preview.Some? then PreviewMarkup(b.preview.value) else "";
    assert (head + rest)[..|head|] == head;
    head + rest
  }

  /** The innerHTML of each day element after rendering a plan. */
  function RenderedInner(plan: seq<DaySlot>): (r: seq<string>)
    ensures |r| == |plan|
  {
    var blocks := Blocks(plan);
    seq(|blocks|, j requires 0 <= j < |blocks| => BlockInner(blocks[j]))
  }

  /** `defaultCalendar`: the seven day elements with their label only. */
  function DefaultInner(): (r: seq<string>)
    ensures |r| == 7
  {
    seq(7, j requires 0 <= j < 7 => BlockInner(DayBlock(j + 1, None)))
  }

  /** The default calendar shows exactly what rendering the empty plan shows. */
  lemma DefaultIsEmptyPlanRendered()
    ensures DefaultInner() == RenderedInner(EmptyPlan())
  {
    var a, b := DefaultInner(), RenderedInner(EmptyPlan());
    forall j | 0 <= j < 7
      ensures a[j] == b[j]
    {
      assert Blocks(EmptyPlan())[j] == DayBlock(j + 1, None);
    }
  }

  /** Rendered markup never starts with "Drop", so resetting the drag state after a render keeps the new markup. */
  lemma RenderedNeverStartsWithDrop(plan: seq<DaySlot>, j: nat)
    requires j < |plan|
    ensures !StartsWith(RenderedInner(plan)[j], "Drop")
  {
    assert RenderedInner(plan)[j][0] == '<';
  }

  /** What a dragged-over day shows. */
  function DropLabel(d: Day): (html: string)
    ensures StartsWith(html, "Drop")
  {
    "Drop Recipe to Day " + NatToString(d)
  }

  /** The text dragstart puts on the drag: the JSON of `_data[d - 1]`, or "undefined" past its end. */
  function DragPayload(data: seq<DaySlot>, d: Day): (p: DragData)
    ensures d - 1 < |data| ==> p == Parsed(SlotObject(data[d - 1].day, data[d - 1].recipe))
    ensures d - 1 >= |data| ==> p == Unparsable
  {
    if d - 1 < |data| then Parsed(SlotObject(data[d - 1].day, data[d - 1].recipe)) else Unparsable
  }

  // --------------------------------------------------------------- state

  /** A snapshot of every field of the view. */
  datatype Snapshot = Snapshot(
    curRecipe: JsValue, activeRecipe: bool, draggedOverDay: Option<Day>, lastInner: Option<string>,
    dragSwitch: bool, inner: seq<string>, background: seq<string>, data: seq<DaySlot>, buttonsShown: bool)

  /** Seven copies of a colour. */
  function AllDays(colour: string): (r: seq<string>)
    ensures |r| == 7 && forall j :: 0 <= j < 7 ==> r[j] == colour
  {
    seq(7, j requires 0 <= j < 7 => colour)
  }

  class Calendar {
    /** `_curRecipe`: the selected day, '' once reset, undefined at first. */
    var curRecipe: JsValue
    /** `_activeRecipe` */
    var activeRecipe: bool
    /** `_draggedOverDay`: the day element being dragged over, or false. */
    var draggedOverDay: Option<Day>
    /** `_lastDraggedOverDayInnerHTML` */
    var lastInner: Option<string>
    /** `_switch` */
    var dragSwitch: bool
    /** innerHTML of day 1..7 */
    var inner: seq<string>
    /** inline background colour of day 1..7 */
    var background: seq<string>
    /** `_data`: the plan last rendered */
    var data: seq<DaySlot>
    /** whether the floating buttons are visible */
    var buttonsShown: bool

    /**
      A day is selected exactly when `_activeRecipe` is set, and `_curRecipe`
      is then its number, 1 to 7; a day is tracked exactly when the switch is off,
      and its earlier markup is then saved.
     */
    ghost predicate Valid()
      reads this
    {
      |inner| == 7 && |background| == 7 &&
      (activeRecipe <==> curRecipe.Num?) &&
      (curRecipe.Undefined? || curRecipe == Str("") || curRecipe.Num?) &&
      (curRecipe.Num? ==> 1 <= curRecipe.n <= 7) &&
      (dragSwitch <==> draggedOverDay.None?) &&
      (draggedOverDay.Some? ==> lastInner.Some?)
    }

    ghost function State(): Snapshot
      reads this
    {
      Snapshot(curRecipe, activeRecipe, draggedOverDay, lastInner, dragSwitch, inner, background, data, buttonsShown)
    }

    /** The view as the page loads: nothing selected or tracked, the default days shown, nothing rendered yet. */
    constructor()
      ensures Valid()
      ensures State() == Snapshot(Undefined, false, None, None, true, DefaultInner(), AllDays(NO_COLOUR), [], false)
    {
      curRecipe := Undefined;
      activeRecipe := false;
      draggedOverDay := None;
      lastInner := None;
      dragSwitch := true;
      inner := DefaultInner();
      background := AllDays(NO_COLOUR);
      data := [];
      buttonsShown := false;
    }

    /** hideFloatingButtons */
    method HideFloatingButtons()
      modifies this
      ensures State() == old(State()).(buttonsShown := false)
    {
      buttonsShown := false;
    }

    /** defaultCalendarParameters: nothing selected. */
    method DefaultCalendarParameters()
      modifies this
      ensures State() == old(State()).(activeRecipe := false, curRecipe := Str(""))
    {
      activeRecipe := false;
      curRecipe := Str("");
    }

    /**
      The dblclick handler. Outside every day nothing happens. On a day, all
      days turn plain; the selected day is deselected, any other day becomes
      the selection, coloured and with the floating buttons shown.
     */
    method Dblclick(target: Option<Day>)
      requires Valid()
      modifies this
      ensures Valid()
      ensures target.None? ==> State() == old(State())
      ensures target.Some? && old(curRecipe) == Num(target.value) ==>
                State() == old(State()).(background := AllDays(PLAIN), buttonsShown := false,
                                         activeRecipe := false, curRecipe := Str(""))
      ensures target.Some? && old(curRecipe) != Num(target.value) ==>
                State() == old(State()).(background := AllDays(PLAIN)[target.value - 1 := SELECTED],
                                         buttonsShown := true, activeRecipe := true,
                                         curRecipe := Num(target.value))
    {
      if target.None? {
        return;
      }
      var d := target.value;
      background := AllDays(PLAIN);
      if curRecipe == Num(d) {
        HideFloatingButtons();
        DefaultCalendarParameters();
      } else {
        buttonsShown := true;
        activeRecipe := true;
        curRecipe := Num(d);
        background := background[d - 1 := SELECTED];
      }
    }

    /**
      The click handler on the page body: a click outside every day, or on a
      day whose (string) attribute is not `===` the selection while one is
      active, clears the selection. Since the attribute is never `===` a
      number, every click on a day while a day is selected clears it.
     */
    method BodyClick(target: Option<Day>)
      requires Valid()
      modifies this
      ensures Valid()
      ensures target.None? || old(activeRecipe) ==>
                State() == old(State()).(background := AllDays(PLAIN), buttonsShown := false,
                                         activeRecipe := false, curRecipe := Str(""))
      ensures target.Some? && !old(activeRecipe) ==> State() == old(State())
    {
      if target.Some? {
        DayAttributeNeverStrictlyEqual(target.value, curRecipe);
      }
      if target.None? || (!StrictEqual(DayAttribute(target.value), curRecipe) && activeRecipe) {
        background := AllDays(PLAIN);
        HideFloatingButtons();
        DefaultCalendarParameters();
      }
    }

    /**
      The body click as evidently intended: the day number is compared as a
      number, so a click on the selected day keeps the selection.
     */
    method BodyClickIntended(target: Option<Day>)
      requires Valid()
      modifies this
      ensures Valid()
      ensures target.None? || (old(activeRecipe) && old(curRecipe) != Num(target.value)) ==>
                State() == old(State()).(background := AllDays(PLAIN), buttonsShown := false,
                                         activeRecipe := false, curRecipe := Str(""))
      ensures target.Some? && (!old(activeRecipe) || old(curRecipe) == Num(target.value)) ==>
                State() == old(State())
    {
      if target.None? || (!StrictEqual(Num(target.value), curRecipe) && activeRecipe) {
        background := AllDays(PLAIN);
        HideFloatingButtons();
        DefaultCalendarParameters();
      }
    }

    /**
      A double click on day d as the browser delivers it: two clicks, then
      the dblclick. The clicks always clear an active selection first, so the
      gesture always ends with d selected: a selected day cannot be
      deselected this way.
     */
    method DoubleClickGesture(d: Day)
      requires Valid()
      modifies this
      ensures Valid()
      ensures activeRecipe && curRecipe == Num(d)
    {
      BodyClick(Some(d));
      BodyClick(Some(d));
      Dblclick(Some(d));
    }

    /** The same gesture with the intended body click: it toggles the selection of d. */
    method DoubleClickGestureIntended(d: Day)
      requires Valid()
      modifies this
      ensures Valid()
      ensures old(curRecipe) == Num(d) ==> !activeRecipe && curRecipe == Str("")
      ensures old(curRecipe) != Num(d) ==> activeRecipe && curRecipe == Num(d)
    {
      BodyClickIntended(Some(d));
      BodyClickIntended(Some(d));
      Dblclick(Some(d));
    }

    /**
      The dragover handler. Outside every day, the tracked day (if any) gets
      its saved markup and the plain colour back and is no longer tracked, and
      the switch is turned on. Over a day while the switch is on, that day's
      markup is saved and replaced by the drop label, it is coloured and
      tracked, and the switch is turned off; while it is off nothing happens.
     */
    method DragOver(target: Option<Day>)
      requires Valid()
      modifies this
      ensures Valid()
      ensures target.None? && old(draggedOverDay).None? ==> State() == old(State()).(dragSwitch := true)
      ensures target.None? && old(draggedOverDay).Some? ==>
                State() == old(State()).(
                  inner := old(inner)[old(draggedOverDay).value - 1 := old(lastInner).value],
                  background := old(background)[old(draggedOverDay).value - 1 := PLAIN],
                  draggedOverDay := None, dragSwitch := true)
      ensures target.Some? && old(dragSwitch) ==>
                State() == old(State()).(
                  lastInner := Some(old(inner)[target.value - 1]),
                  inner := old(inner)[target.value - 1 := DropLabel(target.value)],
                  background := old(background)[target.value - 1 := DRAGGED_OVER],
                  draggedOverDay := target, dragSwitch := false)
      ensures target.Some? && !old(dragSwitch) ==> State() == old(State())
    {
      if target.None? {
        if draggedOverDay.Some? {
          var dd := draggedOverDay.value;
          inner := inner[dd - 1 := lastInner.value];
          background := background[dd - 1 := PLAIN];
          draggedOverDay := None;
        }
        dragSwitch := true;
      }
      if target.Some? {
        if dragSwitch {
          var d := target.value;
          draggedOverDay := Some(d);
          lastInner := Some(inner[d - 1]);
          inner := inner[d - 1 := DropLabel(d)];
          background := background[d - 1 := DRAGGED_OVER];
          dragSwitch := false;
        }
      }
    }

    /** The dragstart handler: hides the floating buttons and puts the dragged day's slot on the drag. */
    method DragStart(d: Day) returns (payload: DragData)
      modifies this
      ensures payload == DragPayload(old(data), d)
      ensures State() == old(State()).(buttonsShown := false)
    {
      HideFloatingButtons();
      payload := DragPayload(data, d);
    }

    /**
      returnToDefaultDraggingSettings: with no tracked day nothing happens;
      otherwise the tracked day gets its saved markup back if it still shows a
      drop label, turns plain and is no longer tracked, and the switch is on.
     */
    method ReturnToDefaultDraggingSettings()
      requires Valid()
      modifies this
      ensures Valid()
      ensures old(draggedOverDay).None? ==> State() == old(State())
      ensures old(draggedOverDay).Some? ==>
                var i := old(draggedOverDay).value - 1;
                State() == old(State()).(
                  inner := if StartsWith(old(inner)[i], "Drop") then old(inner)[i := old(lastInner).value] else old(inner),
                  background := old(background)[i := PLAIN],
                  draggedOverDay := None, dragSwitch := true)
    {
      if draggedOverDay.None? {
        return;
      }
      var i := draggedOverDay.value - 1;
      if StartsWith(inner[i], "Drop") {
        inner := inner[i := lastInner.value];
      }
      background := background[i := PLAIN];
      draggedOverDay := None;
      dragSwitch := true;
    }

    /** render(plan): the plan becomes `_data` and the seven day elements are replaced by its blocks. */
    method Render(plan: seq<DaySlot>)
      requires Valid() && PlanValid(plan)
      modifies this
      ensures Valid()
      ensures State() == old(State()).(data := plan, inner := RenderedInner(plan), background := AllDays(NO_COLOUR))
    {
      data := plan;
      inner := RenderedInner(plan);
      background := AllDays(NO_COLOUR);
    }

    /** defaultCalendar: the seven default day elements; `_data` is left as it was. */
    method DefaultCalendar()
      requires Valid()
      modifies this
      ensures Valid()
      ensures State() == old(State()).(inner := DefaultInner(), background := AllDays(NO_COLOUR))
    {
      inner := DefaultInner();
      background := AllDays(NO_COLOUR);
    }
  }
}
