/**
 * The custom select: a trigger that shows the selected option's label and a
 * portalled menu placed below the trigger, or above it when there is no room
 * below. Options carry JavaScript values, which are compared two different
 * ways: strictly for the trigger's label and as strings for the highlight.
 */
module CustomSelect {
  import opened Common

  const MENU_HEIGHT: real := 240.0
  const MENU_GAP: real := 4.0
  const VIEWPORT_MARGIN: real := 8.0
  const MIN_MENU_WIDTH: real := 180.0
  const PLACEHOLDER: string := "Select..."

  /** A primitive JavaScript value; numbers are taken to be integers. */
  datatype JsValue = Str(s: string) | Num(n: int) | Bool(b: bool) | Null | Undefined

  /** `String(v)`. */
  function JsString(v: JsValue): (s: string)
    ensures v.Str? ==> s == v.s
    ensures v.Num? ==> s == IntToString(v.n)
  {
    match v
    case Str(s) => s
    case Num(n) => IntToString(n)
    case Bool(b) => if b then "true" else "false"
    case Null => "null"
    case Undefined => "undefined"
  }

  /** `a === b` on primitives (NaN is not modelled). */
  predicate StrictEquals(a: JsValue, b: JsValue)
  {
    a == b
  }

  /** Strictly equal values have the same string: every labelled option is also highlighted. */
  lemma StrictImpliesStringEqual(a: JsValue, b: JsValue)
    requires StrictEquals(a, b)
    ensures JsString(a) == JsString(b)
  {
  }

  /** An entry of `options`: `{ value, label }`. */
  datatype Choice = Choice(value: JsValue, caption: string)

  /** `options.find(o => o.value === value)`: the first strictly equal option. */
  function Selected(options: seq<Choice>, value: JsValue): (r: Option<nat>)
    ensures r.Some? ==> r.value < |options| && StrictEquals(options[r.value].value, value)
    ensures r.Some? ==> forall j :: 0 <= j < r.value ==> !StrictEquals(options[j].value, value)
    ensures r.None? <==> forall j :: 0 <= j < |options| ==> !StrictEquals(options[j].value, value)
  {
    if options == [] then None
    else if StrictEquals(options[0].value, value) then Some(0)
    else
      var rest := Selected(options[1..], value);
      if rest.Some? then Some(rest.value + 1) else None
  }

  /** `String(opt.value) === String(value)`: the option gets the accent and the check mark. */
  predicate Highlighted(opt: Choice, value: JsValue)
  {
    JsString(opt.value) == JsString(value)
  }

  /** The trigger's text: the selected option's label when non-empty, else the placeholder. */
  function TriggerText(options: seq<Choice>, value: JsValue, placeholder: string): (t: string)
    ensures Selected(options, value).None? ==> t == placeholder
    ensures Selected(options, value).Some? && options[Selected(options, value).value].caption != "" ==>
              t == options[Selected(options, value).value].caption
    ensures Selected(options, value).Some? && options[Selected(options, value).value].caption == "" ==>
              t == placeholder
  {
    match Selected(options, value)
    case None => placeholder
    case Some(i) => if options[i].caption != "" then options[i].caption else placeholder
  }

  /** The selected option is always highlighted in the menu. */
  lemma SelectedIsHighlighted(options: seq<Choice>, value: JsValue)
    requires Selected(options, value).Some?
    ensures Highlighted(options[Selected(options, value).value], value)
  {
  }

  /**
   * The two comparisons disagree: with the number 1 as value and an option
   * whose value is the string '1', the menu marks the option while the
   * trigger shows the placeholder.
   */
  lemma StrictAndStringDisagree()
    ensures var options := [Choice(Str("1"), "One")];
      && Highlighted(options[0], Num(1))
      && Selected(options, Num(1)).None?
      && TriggerText(options, Num(1), PLACEHOLDER) == PLACEHOLDER
  {
    assert JsString(Num(1)) == "1";
  }

  /** The trigger's bounding rectangle. */
  datatype TriggerRect = TriggerRect(top: real, bottom: real, left: real, width: real)

  datatype MenuPos = MenuPos(top: real, left: real, width: real, openAbove: bool)

  /**
   * `updatePosition`: above the trigger when fewer than 240 px remain below it
   * and more than 240 px lie above; otherwise 4 px below it. Above, the menu
   * is lifted by 240 px but never past 8 px from the top of the viewport.
   */
  function MenuPosition(rect: TriggerRect, innerHeight: real): (pos: MenuPos)
    ensures pos.openAbove <==> innerHeight - rect.bottom < MENU_HEIGHT && rect.top > MENU_HEIGHT
    ensures pos.openAbove ==> pos.top == rect.top - Min(MENU_HEIGHT, rect.top - VIEWPORT_MARGIN)
    ensures pos.openAbove ==> pos.top >= VIEWPORT_MARGIN && rect.top - pos.top <= MENU_HEIGHT
    ensures pos.openAbove && rect.top >= MENU_HEIGHT + VIEWPORT_MARGIN ==> pos.top == rect.top - MENU_HEIGHT
    ensures !pos.openAbove ==> pos.top == rect.bottom + MENU_GAP
    ensures pos.left == rect.left
    ensures pos.width == Max(rect.width, MIN_MENU_WIDTH) && pos.width >= MIN_MENU_WIDTH
  {
    var spaceBelow := innerHeight - rect.bottom;
    var openAbove := spaceBelow < MENU_HEIGHT && rect.top > MENU_HEIGHT;
    MenuPos(if openAbove then rect.top - Min(MENU_HEIGHT, rect.top - VIEWPORT_MARGIN) else rect.bottom + MENU_GAP,
            rect.left, Max(rect.width, MIN_MENU_WIDTH), openAbove)
  }

  /** The select's open flag, the menu's last computed position, and the values passed to `onChange`. */
  class SelectModel {
    var open: bool
    var menuPos: MenuPos
    var changes: seq<JsValue>

    constructor ()
      ensures !open && menuPos == MenuPos(0.0, 0.0, 0.0, false) && changes == []
    {
      open := false;
      menuPos := MenuPos(0.0, 0.0, 0.0, false);
      changes := [];
    }

    /** The trigger toggles the menu. */
    method TriggerClick()
      modifies this
      ensures open == !old(open) && menuPos == old(menuPos) && changes == old(changes)
    {
      open := !open;
    }

    /**
     * `updatePosition`, run when the menu opens and on every scroll or
     * resize while it is open.
     */
    method Reposition(rect: TriggerRect, innerHeight: real)
      requires open
      modifies this
      ensures open && changes == old(changes) && menuPos == MenuPosition(rect, innerHeight)
    {
      var spaceBelow := innerHeight - rect.bottom;
      var openAbove := spaceBelow < MENU_HEIGHT && rect.top > MENU_HEIGHT;
      menuPos := MenuPos(
        if openAbove then rect.top - Min(MENU_HEIGHT, rect.top - VIEWPORT_MARGIN) else rect.bottom + MENU_GAP,
        rect.left, Max(rect.width, MIN_MENU_WIDTH), openAbove);
    }

    /** Choosing an option (the menu is open to offer it) reports its value and closes the menu. */
    method OptionClick(opt: Choice)
      requires open
      modifies this
      ensures !open && menuPos == old(menuPos) && changes == old(changes) + [opt.value]
    {
      changes := changes + [opt.value];
      open := false;
    }

    /** The document listener, attached while open: a press outside both the trigger and the menu closes it. */
    method DocumentMouseDown(inTrigger: bool, inMenu: bool)
      modifies this
      ensures changes == old(changes) && menuPos == old(menuPos)
      ensures old(open) && !inTrigger && !inMenu ==> !open
      ensures !(old(open) && !inTrigger && !inMenu) ==> open == old(open)
    {
      if !open {
        return;
      }
      if inTrigger || inMenu {
        return;
      }
      open := false;
    }
  }
}
