/**
  The top toolbar: per-item button attributes (label, title, heading level,
  font size, weight, style, decoration, key) and the routing of a click to the
  editing engine.
 */
module Toolbar {
  import opened Js
  import opened ToolbarTypes
  import opened Engine

  // ---------------------------------------------------------------------------
  // Labels

  /** The fixed label table, one entry per item type. */
  function LabelTable(t: ItemType): string {
    match t
    case Bold => "B"
    case Italic => "I"
    case Underline => "U"
    case Strikethrough => "S"
    case Heading1 => "H1"
    case Heading2 => "H2"
    case Heading3 => "H3"
    case Heading4 => "H4"
    case Heading5 => "H5"
    case Heading6 => "H6"
    case Paragraph => "P"
  }

  /**
    The default label of an item type: the table entry, or the type's own
    literal if the entry were empty. Every entry is non-empty, so the fallback
    is never taken: a format or paragraph is labelled by its capitalised
    initial, and `headingN` by "H" and its level.
   */
  function ToolbarLabel(t: ItemType): (r: string)
    ensures r != "" && r != Name(t)
    ensures !IsHeadingType(t) ==> r == [Upper(Name(t)[0])]
    ensures IsHeadingType(t) ==> r == "H" + [Digit(LevelOf(t))]
  {
    StringOr(Some(LabelTable(t)), Name(t))
  }

  /** No two item types share a default label. */
  lemma ToolbarLabelInjective(a: ItemType, b: ItemType)
    ensures ToolbarLabel(a) == ToolbarLabel(b) <==> a == b
  {
  }

  /**
    The text a button shows when it has no icon: the custom label when one is
    given and non-empty, otherwise the default label of its type.
   */
  function DisplayLabel(item: Item): (r: string)
    ensures item.customLabel.Some? && item.customLabel.value != "" ==> r == item.customLabel.value
    ensures item.customLabel.None? || item.customLabel.value == "" ==> r == ToolbarLabel(item.itemType)
    ensures r != ""
  {
    StringOr(item.customLabel, ToolbarLabel(item.itemType))
  }

  /** The button's tooltip: the type literal with its first letter capitalised. */
  function Title(t: ItemType): (r: string)
    ensures |r| == |Name(t)|
    ensures 'A' <= r[0] <= 'Z' && r[0] == Upper(Name(t)[0])
    ensures forall i :: 0 < i < |r| ==> r[i] == Name(t)[i]
    ensures !IsHeadingType(t) ==> r[..1] == ToolbarLabel(t)
  {
    CapitalizeFirst(Name(t))
  }

  // ---------------------------------------------------------------------------
  // Headings and font size

  /** The code's heading test: the type literal starts with "heading". */
  predicate StartsWithHeading(t: ItemType) {
    StartsWith(Name(t), "heading")
  }

  /**
    The heading level the code reads off the type literal: "heading" removed,
    the rest passed to `parseInt`. `None` stands for both the `null` of a
    non-heading and a `NaN`, which the code treats alike.
   */
  function ParsedHeadingLevel(t: ItemType): (r: Option<nat>)
    ensures r.Some? <==> IsHeadingType(t)
    ensures StartsWithHeading(t) <==> IsHeadingType(t)
    ensures r.Some? ==> r.value == LevelOf(t) && 1 <= r.value <= 6
  {
    if StartsWithHeading(t) then
      HeadingLevelParses(t);
      ParseInt(ReplaceFirst(Name(t), "heading", ""))
    else None
  }

  /** For `headingN`, removing "heading" leaves exactly the digit N, which parses to N. */
  lemma HeadingLevelParses(t: ItemType)
    requires StartsWithHeading(t)
    ensures IsHeadingType(t)
    ensures ParseInt(ReplaceFirst(Name(t), "heading", "")) == Some(LevelOf(t))
  {
    assert Name(t)[0] == Name(t)[..7][0] == 'h';
    var n := LevelOf(t);
    HeadingName(t);
    ReplacePrefixWithEmpty(Name(t), "heading");
    assert Name(t)[|"heading"|..] == [Digit(n)] == NatToString(n);
    ParseNatToString(n, "");
    assert NatToString(n) + "" == NatToString(n);
  }

  /** The font size in px: `18 - 2N` for a heading of level N, 14 otherwise. */
  function FontSizePx(t: ItemType): (px: int)
    ensures IsHeadingType(t) ==> px == 18 - 2 * LevelOf(t)
    ensures !IsHeadingType(t) ==> px == 14
    ensures 6 <= px <= 16
  {
    match ParsedHeadingLevel(t)
    case Some(n) => if n != 0 then 18 - n * 2 else 14
    case None => 14
  }

  /** Higher heading levels get strictly smaller fonts. */
  lemma FontSizeDecreasesWithLevel(a: ItemType, b: ItemType)
    requires IsHeadingType(a) && IsHeadingType(b)
    ensures LevelOf(a) < LevelOf(b) <==> FontSizePx(a) > FontSizePx(b)
  {
  }

  /** A pixel length as the template literal `${px}px` writes it. */
  function PxCss(px: int): (css: string)
    ensures px >= 0 ==> css == NatToString(px) + "px" && ParseInt(css) == Some(px)
    ensures |css| >= 3 && css[|css| - 2..] == "px"
  {
    if px >= 0 then ParseNatToString(px, "px"); IntToString(px) + "px"
    else IntToString(px) + "px"
  }

  /** The literal "14px" is the decimal rendering of 14 followed by "px". */
  lemma FourteenPx()
    ensures "14px" == NatToString(14) + "px"
  {
    assert NatToString(14) == NatToString(1) + [Digit(4)];
  }

  /** The CSS `fontSize` value: the px size in decimal, then "px"; its leading number reads back as that size. */
  function FontSizeCss(t: ItemType): (css: string)
    ensures css == NatToString(FontSizePx(t)) + "px"
    ensures ParseInt(css) == Some(FontSizePx(t))
    ensures |css| >= 3 && css[|css| - 2..] == "px"
  {
    var level := ParsedHeadingLevel(t);
    if level.Some? && level.value != 0 then
      var px := 18 - level.value * 2;
      assert px == FontSizePx(t) && px >= 0;
      PxCss(px)
    else
      FourteenPx();
      ParseNatToString(14, "px");
      "14px"
  }

  // ---------------------------------------------------------------------------
  // Text styling

  function FontWeight(t: ItemType): (w: string)
    ensures w == "bold" <==> t == Bold
    ensures w == "normal" <==> t != Bold
  {
    if Name(t) == "bold" then "bold" else "normal"
  }

  function FontStyle(t: ItemType): (s: string)
    ensures s == "italic" <==> t == Italic
    ensures s == "normal" <==> t != Italic
  {
    if Name(t) == "italic" then "italic" else "normal"
  }

  function TextDecoration(t: ItemType): (d: string)
    ensures d == "underline" <==> t == Underline
    ensures d == "line-through" <==> t == Strikethrough
    ensures d == "none" <==> t != Underline && t != Strikethrough
  {
    if Name(t) == "underline" then "underline"
    else if Name(t) == "strikethrough" then "line-through"
    else "none"
  }

  // ---------------------------------------------------------------------------
  // Buttons

  /** What a button shows: the icon when one is given, otherwise its label. */
  datatype Content = IconContent(icon: Icon) | TextContent(text: string)

  /** One rendered button; clicking it routes `item` through `HandleToolbarAction`. */
  datatype Button = Button(
    key: string,
    title: string,
    content: Content,
    fontWeight: string,
    fontStyle: string,
    textDecoration: string,
    fontSize: string,
    item: Item)

  /** The React key of the button for the item at `index`: type, hyphen, index. */
  function ButtonKey(t: ItemType, index: nat): string {
    Name(t) + "-" + NatToString(index)
  }

  /** In `a + "-" + b` with no hyphen in `a`, the first hyphen is the one right after `a`. */
  lemma HyphenAfter(a: string, b: string)
    requires '-' !in a
    ensures (a + "-" + b)[|a|] == '-'
    ensures forall i :: 0 <= i < |a| ==> (a + "-" + b)[i] != '-'
  {
    forall i | 0 <= i < |a|
      ensures (a + "-" + b)[i] != '-'
    {
      assert (a + "-" + b)[i] == a[i];
    }
  }

  /** Two strings joined by a hyphen that neither left part contains split back uniquely. */
  lemma SplitAtFirstHyphen(a: string, b: string, a': string, b': string)
    requires '-' !in a && '-' !in a'
    requires a + "-" + b == a' + "-" + b'
    ensures a == a' && b == b'
  {
    var s := a + "-" + b;
    HyphenAfter(a, b);
    HyphenAfter(a', b');
    assert |a| == |a'|;
    assert a == s[..|a|] == a';
    assert b == s[|a| + 1..] == b';
  }

  /** Keys are equal only for the same type at the same position. */
  lemma ButtonKeyInjective(a: ItemType, i: nat, b: ItemType, j: nat)
    ensures ButtonKey(a, i) == ButtonKey(b, j) <==> a == b && i == j
  {
    if ButtonKey(a, i) == ButtonKey(b, j) {
      NameHasNoHyphen(a);
      NameHasNoHyphen(b);
      SplitAtFirstHyphen(Name(a), NatToString(i), Name(b), NatToString(j));
      NameInjective(a, b);
      NatToStringInjective(i, j);
    }
  }

  /**
    What the button shows: the caller's icon when there is one, otherwise a
    label that is never empty, the custom one when that is non-empty and the
    type's default label otherwise.
   */
  function ButtonContent(item: Item): (c: Content)
    ensures c.IconContent? <==> item.icon.Some?
    ensures c.IconContent? ==> c.icon == item.icon.value
    ensures c.TextContent? ==> c.text != ""
    ensures c.TextContent? && item.customLabel.Some? && item.customLabel.value != "" ==>
      c.text == item.customLabel.value
    ensures c.TextContent? && (item.customLabel.None? || item.customLabel.value == "") ==>
      c.text == ToolbarLabel(item.itemType)
  {
    match item.icon
    case Some(i) => IconContent(i)
    case None => TextContent(DisplayLabel(item))
  }

  /**
    The button for `item` at position `index` of the toolbar: keyed by type
    and position, titled by the capitalised literal, bold, italic, underlined
    or struck through exactly for its own format, sized by heading level, and
    carrying the item itself for the click.
   */
  function ToolbarButton(item: Item, index: nat): (b: Button)
    ensures b.key == ButtonKey(item.itemType, index)
    ensures b.title == Title(item.itemType) && b.content == ButtonContent(item)
    ensures b.fontWeight == "bold" <==> item.itemType == Bold
    ensures b.fontWeight == "normal" <==> item.itemType != Bold
    ensures b.fontStyle == "italic" <==> item.itemType == Italic
    ensures b.fontStyle == "normal" <==> item.itemType != Italic
    ensures b.textDecoration == "underline" <==> item.itemType == Underline
    ensures b.textDecoration == "line-through" <==> item.itemType == Strikethrough
    ensures b.textDecoration == "none" <==> item.itemType != Underline && item.itemType != Strikethrough
    ensures b.fontSize == NatToString(FontSizePx(item.itemType)) + "px"
    ensures ParseInt(b.fontSize) == Some(FontSizePx(item.itemType))
    ensures b.item == item
  {
    var t := item.itemType;
    Button(ButtonKey(t, index), Title(t), ButtonContent(item),
           FontWeight(t), FontStyle(t), TextDecoration(t), FontSizeCss(t), item)
  }

  /**
    The toolbar's buttons: one per item, in the order given, each the button
    of its own item at its own position, with keys that are pairwise distinct
    even when an item type repeats.
   */
  function RenderToolbar(items: seq<Item>): (buttons: seq<Button>)
    ensures |buttons| == |items|
    ensures forall i :: 0 <= i < |items| ==> buttons[i].item == items[i]
    ensures forall i :: 0 <= i < |items| ==>
      buttons[i] == ToolbarButton(items[i], i) && buttons[i].key == ButtonKey(items[i].itemType, i)
    ensures forall i, j :: 0 <= i < |items| && 0 <= j < |items| && i != j ==>
      buttons[i].key != buttons[j].key
  {
    var buttons := seq(|items|, i requires 0 <= i < |items| => ToolbarButton(items[i], i));
    KeysDistinct(items, buttons);
    buttons
  }

  /** Buttons keyed `type-index` by position have pairwise distinct keys. */
  lemma KeysDistinct(items: seq<Item>, buttons: seq<Button>)
    requires |buttons| == |items|
    requires forall i :: 0 <= i < |items| ==> buttons[i].key == ButtonKey(items[i].itemType, i)
    ensures forall i, j :: 0 <= i < |items| && 0 <= j < |items| && i != j ==>
      buttons[i].key != buttons[j].key
  {
    forall i, j | 0 <= i < |items| && 0 <= j < |items| && i != j
      ensures buttons[i].key != buttons[j].key
    {
      ButtonKeyInjective(items[i].itemType, i, items[j].itemType, j);
    }
  }

  // ---------------------------------------------------------------------------
  // Routing a click

  /** The warning text for a heading or paragraph item. */
  function NodesWarning(name: string): string {
    name + " formatting requires additional Lexical nodes. Please ensure your editor config includes the necessary nodes."
  }

  /** The code's test for a text-format item, on the type literal. */
  predicate IsFormatName(name: string) {
    name == "bold" || name == "italic" || name == "underline" || name == "strikethrough"
  }

  /** The code's test for an item that needs block nodes, on the type literal. */
  predicate IsBlockName(name: string) {
    StartsWith(name, "heading") || name == "paragraph"
  }

  /** On the item-type literals the two tests split the union exactly. */
  lemma NameTestsExact(t: ItemType)
    ensures IsFormatName(Name(t)) <==> IsTextFormat(t)
    ensures IsBlockName(Name(t)) <==> !IsTextFormat(t)
  {
    if StartsWith(Name(t), "heading") {
      assert Name(t)[0] == 'h';
    }
  }

  /**
    What a click on `item` does. Each of the four text formats dispatches the
    format-text command once, with the item's own type as payload; a heading
    or paragraph only warns. No item type falls through with no outcome.
   */
  function HandleToolbarAction(item: Item): (effects: seq<Effect>)
    ensures |effects| == 1
    ensures effects[0].Dispatch? <==> IsTextFormat(item.itemType)
    ensures effects[0].Dispatch? ==>
      effects[0].command == FormatTextCommand
      && ParseItemType(effects[0].payload) == Some(item.itemType)
    ensures effects[0].Warn? ==> StartsWith(effects[0].message, Name(item.itemType))
  {
    var name := Name(item.itemType);
    NameTestsExact(item.itemType);
    if IsFormatName(name) then
      ParseName(item.itemType);
      [Dispatch(FormatTextCommand, name)]
    else if IsBlockName(name) then
      [Warn(NodesWarning(name))]
    else
      []
  }
}
