/**
  The floating toolbar: a two-button bar that follows a non-empty text
  selection. Its whole state is `coords`, hidden (`None`) or a viewport
  position; every editor update recomputes it from a snapshot of the
  selection.
 */
module FloatingToolbar {
  import opened Js
  import opened Engine
  import ToolbarTypes
  import Toolbar

  /** A viewport position, in whole pixels. */
  datatype Coords = Coords(x: int, y: int)

  /** The engine's current selection, as far as the toolbar looks at it. */
  datatype Selection =
    | NoSelection                       // no selection at all
    | RangeSelection(collapsed: bool)   // a text range, possibly just a caret
    | OtherSelection                    // a node or table selection

  /**
    The bounding rectangle of the browser's first selection range. Only `left`
    and `top` are read; `width` and `height` are kept to show that the code
    makes no zero-size check on the rectangle.
   */
  datatype Rect = Rect(left: int, top: int, width: int, height: int)

  /**
    What one update observes: the engine's selection, and the bounding
    rectangle when the browser yields one (`None` when it has no selection
    object to take a range from).
   */
  datatype Snapshot = Snapshot(selection: Selection, rect: Option<Rect>)

  /** How far above the selection the toolbar is placed. */
  const VerticalOffset: int := 40

  /** The toolbar starts hidden. */
  const Initial: Option<Coords> := None

  /** A range selection that covers at least one character. */
  predicate IsExpandedRange(s: Selection) {
    s.RangeSelection? && !s.collapsed
  }

  /** An update that decides nothing: an expanded range, but no rectangle. */
  predicate KeepsState(u: Snapshot) {
    IsExpandedRange(u.selection) && u.rect.None?
  }

  /**
    One recomputation. An expanded range with a rectangle shows the toolbar
    40px above the rectangle's top, at its LEFT edge; any other selection
    hides it; an expanded range without a rectangle leaves it as it was.
   */
  function UpdateToolbar(coords: Option<Coords>, u: Snapshot): (next: Option<Coords>)
    ensures !IsExpandedRange(u.selection) ==> next.None?
    ensures KeepsState(u) ==> next == coords
    ensures IsExpandedRange(u.selection) && u.rect.Some? ==>
      next == Some(Coords(u.rect.value.left, u.rect.value.top - VerticalOffset))
    ensures next.Some? ==> IsExpandedRange(u.selection)
  {
    if IsExpandedRange(u.selection) then
      match u.rect
      case Some(r) => Some(Coords(r.left, r.top - VerticalOffset))
      case None => coords
    else None
  }

  /** Applying the same snapshot twice is the same as applying it once. */
  lemma UpdateIdempotent(coords: Option<Coords>, u: Snapshot)
    ensures UpdateToolbar(UpdateToolbar(coords, u), u) == UpdateToolbar(coords, u)
  {
  }

  /** Only an undecided update depends on the previous state. */
  lemma UpdateForgetsHistory(a: Option<Coords>, b: Option<Coords>, u: Snapshot)
    requires !KeepsState(u)
    ensures UpdateToolbar(a, u) == UpdateToolbar(b, u)
  {
  }

  /** The state after a sequence of editor updates, one transition per update. */
  function Run(updates: seq<Snapshot>): Option<Coords>
    decreases |updates|
  {
    if |updates| == 0 then Initial
    else UpdateToolbar(Run(updates[..|updates| - 1]), updates[|updates| - 1])
  }

  /** While no update decides anything, the toolbar stays hidden. */
  lemma {:induction false} RunWithoutDecisiveUpdate(updates: seq<Snapshot>)
    requires forall i :: 0 <= i < |updates| ==> KeepsState(updates[i])
    ensures Run(updates) == Initial
    decreases |updates|
  {
    if |updates| > 0 {
      var front := updates[..|updates| - 1];
      assert forall i :: 0 <= i < |front| ==> front[i] == updates[i];
      RunWithoutDecisiveUpdate(front);
    }
  }

  /**
    The state after any sequence of updates is decided by the LAST update that
    decides anything: the updates before it are forgotten, and the undecided
    ones after it change nothing.
   */
  lemma {:induction false} RunFollowsLastDecisiveUpdate(updates: seq<Snapshot>, i: nat)
    requires i < |updates| && !KeepsState(updates[i])
    requires forall j :: i < j < |updates| ==> KeepsState(updates[j])
    ensures Run(updates) == UpdateToolbar(Initial, updates[i])
    decreases |updates|
  {
    var front := updates[..|updates| - 1];
    if i < |updates| - 1 {
      assert forall j :: i < j < |front| ==> front[j] == updates[j];
      RunFollowsLastDecisiveUpdate(front, i);
      assert front[i] == updates[i];
    }
  }

  /**
    Whenever the toolbar is visible, its position was computed from the
    rectangle of some update whose selection was an expanded range.
   */
  lemma VisibleCoordsComeFromARect(updates: seq<Snapshot>)
    requires Run(updates).Some?
    ensures exists i :: (0 <= i < |updates| && IsExpandedRange(updates[i].selection)
                         && updates[i].rect.Some?
                         && Run(updates) == Some(Coords(updates[i].rect.value.left,
                                                        updates[i].rect.value.top - VerticalOffset)))
  {
    if forall k :: 0 <= k < |updates| ==> KeepsState(updates[k]) {
      RunWithoutDecisiveUpdate(updates);
      assert false;
    }
    var i := LastDecisive(updates);
    RunFollowsLastDecisiveUpdate(updates, i);
  }

  /** The index of the last update that decides something, given one exists. */
  function LastDecisive(updates: seq<Snapshot>): (i: nat)
    requires exists k :: 0 <= k < |updates| && !KeepsState(updates[k])
    ensures i < |updates| && !KeepsState(updates[i])
    ensures forall j :: i < j < |updates| ==> KeepsState(updates[j])
    decreases |updates|
  {
    var n := |updates| - 1;
    if !KeepsState(updates[n]) then n
    else
      var k :| 0 <= k < |updates| && !KeepsState(updates[k]);
      assert k < n && updates[..n][k] == updates[k];
      var i := LastDecisive(updates[..n]);
      assert updates[..n][i] == updates[i];
      i
  }

  /**
    The editor's update listener: each update applies the transition exactly
    once, in order.
   */
  method ReplayUpdates(updates: seq<Snapshot>) returns (coords: Option<Coords>)
    ensures coords == Run(updates)
    ensures coords.Some? ==> IsExpandedRange(updates[|updates| - 1].selection)
  {
    coords := Initial;
    var i := 0;
    while i < |updates|
      invariant 0 <= i <= |updates|
      invariant coords == Run(updates[..i])
    {
      assert updates[..i + 1][..i] == updates[..i];
      coords := UpdateToolbar(coords, updates[i]);
      i := i + 1;
    }
    assert updates[..|updates|] == updates;
  }

  // ---------------------------------------------------------------------------
  // Rendering

  /** A button of the floating toolbar: its text and the format it toggles. */
  datatype FloatingButton = FloatingButton(text: string, format: string)

  /** The bar as placed on screen: `position: fixed` at (left, top). */
  datatype View = View(top: int, left: int, buttons: seq<FloatingButton>)

  /** The two fixed buttons, whatever items the editor passes in. */
  const Buttons: seq<FloatingButton> := [FloatingButton("B", "bold"), FloatingButton("I", "italic")]

  /** Nothing is rendered while hidden; otherwise the bar sits at the state's coordinates. */
  function Render(coords: Option<Coords>): (view: Option<View>)
    ensures view.None? <==> coords.None?
    ensures view.Some? ==> view.value.top == coords.value.y && view.value.left == coords.value.x
    ensures view.Some? ==> (|view.value.buttons| == 2
                            && view.value.buttons[0].format == ToolbarTypes.Name(ToolbarTypes.Bold)
                            && view.value.buttons[1].format == ToolbarTypes.Name(ToolbarTypes.Italic))
  {
    match coords
    case None => None
    case Some(c) => Some(View(c.y, c.x, Buttons))
  }

  /**
    The button an item would get on a floating toolbar that honoured its
    items: its display label, and the literal of the type it stands for. Its
    click is `ClickItem` of the item, not a format toggle of that literal.
   */
  function ItemButton(item: ToolbarTypes.Item): FloatingButton {
    FloatingButton(Toolbar.DisplayLabel(item), ToolbarTypes.Name(item.itemType))
  }

  /**
    A floating toolbar that renders the items it is handed: placed like
    `Render`, with one button per item, in order.
   */
  function RenderItems(coords: Option<Coords>, items: seq<ToolbarTypes.Item>): (view: Option<View>)
    ensures view.None? <==> coords.None?
    ensures view.Some? ==> view.value.top == coords.value.y && view.value.left == coords.value.x
    ensures view.Some? ==> |view.value.buttons| == |items|
    ensures view.Some? ==> forall i :: 0 <= i < |items| ==>
      view.value.buttons[i].format == ToolbarTypes.Name(items[i].itemType)
      && view.value.buttons[i].text == Toolbar.DisplayLabel(items[i])
  {
    match coords
    case None => None
    case Some(c) => Some(View(c.y, c.x, seq(|items|, i requires 0 <= i < |items| => ItemButton(items[i]))))
  }

  /** Handed plain bold and italic items, that bar is exactly the fixed one. */
  lemma RenderItemsOfDefaults(coords: Option<Coords>)
    ensures RenderItems(coords, [ToolbarTypes.Item(ToolbarTypes.Bold, None, None),
                                 ToolbarTypes.Item(ToolbarTypes.Italic, None, None)])
         == Render(coords)
  {
    var items := [ToolbarTypes.Item(ToolbarTypes.Bold, None, None),
                  ToolbarTypes.Item(ToolbarTypes.Italic, None, None)];
    assert ItemButton(items[0]) == Buttons[0] && ItemButton(items[1]) == Buttons[1];
    assert seq(|items|, i requires 0 <= i < |items| => ItemButton(items[i])) == Buttons;
  }

  // ---------------------------------------------------------------------------
  // Clicking a button

  /** A click either emits effects or stops on an identifier the file never binds. */
  datatype ClickOutcome = Effects(effects: seq<Effect>) | ReferenceError(identifier: string)

  /** The identifier the click handlers use for the format-text command. */
  const CommandIdentifier: string := "FORMAT_TEXT_COMMAND"

  /** The names the plugin file binds through its imports. */
  const ImportsAsWritten: set<string> :=
    {"useLexicalComposerContext", "$getSelection", "$isRangeSelection",
     "useCallback", "useEffect", "useState", "createPortal"}

  /** The same imports with the format-text command added from the engine. */
  const ImportsCorrected: set<string> := ImportsAsWritten + {CommandIdentifier}

  /** A click on `b` given the names in scope. */
  function ClickWith(imports: set<string>, b: FloatingButton): ClickOutcome
  {
    if CommandIdentifier in imports then Effects([Dispatch(FormatTextCommand, b.format)])
    else ReferenceError(CommandIdentifier)
  }

  /** As written, every floating button's click handler fails on the unbound command name. */
  lemma ClickFailsAsWritten(b: FloatingButton)
    ensures ClickWith(ImportsAsWritten, b) == ReferenceError(CommandIdentifier)
  {
  }

  /**
    With the import in place, each floating button does exactly what the top
    toolbar does for the same format, and shows the same label.
   */
  lemma ClickMatchesToolbar(i: nat)
    requires i < |Buttons|
    ensures var t := if i == 0 then ToolbarTypes.Bold else ToolbarTypes.Italic;
      && ClickWith(ImportsCorrected, Buttons[i])
           == Effects(Toolbar.HandleToolbarAction(ToolbarTypes.Item(t, None, None)))
      && Buttons[i].text == Toolbar.ToolbarLabel(t)
  {
  }

  /**
    A click on the button for `item` of a floating toolbar that honoured its
    items, with the import in place: routed like the top toolbar's click, so
    exactly the four text formats dispatch, and they dispatch just what the
    fixed buttons do; headings and the paragraph only warn.
   */
  function ClickItem(item: ToolbarTypes.Item): (r: ClickOutcome)
    ensures r.Effects? && |r.effects| == 1
    ensures r.effects[0].Dispatch? <==> ToolbarTypes.IsTextFormat(item.itemType)
    ensures ToolbarTypes.IsTextFormat(item.itemType) ==> r == ClickWith(ImportsCorrected, ItemButton(item))
    ensures r.effects[0].Warn? ==> StartsWith(r.effects[0].message, ToolbarTypes.Name(item.itemType))
  {
    Effects(Toolbar.HandleToolbarAction(item))
  }

  /**
    Each button of a floating toolbar that honoured its items does exactly
    what the top toolbar's button for the same item at the same position does.
   */
  lemma ItemClickMatchesToolbar(items: seq<ToolbarTypes.Item>, i: nat)
    requires i < |items|
    ensures ClickItem(items[i]) == Effects(Toolbar.HandleToolbarAction(Toolbar.RenderToolbar(items)[i].item))
  {
  }
}

