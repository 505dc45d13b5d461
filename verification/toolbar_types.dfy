/**
  Toolbar item descriptors: the closed union of item types and the item record
  a caller hands to the toolbar. The code manipulates item types as string
  literals ("bold", "heading3", ...); `Name` is that encoding, and
  `ParseItemType` its inverse.
 */
module ToolbarTypes {
  import opened Js

  /** The eleven members of the item-type union, in declaration order. */
  datatype ItemType =
    | Bold | Italic | Underline | Strikethrough
    | Heading1 | Heading2 | Heading3 | Heading4 | Heading5 | Heading6
    | Paragraph

  /** An icon supplied by the caller; the toolbar only passes it through. */
  datatype Icon = Icon(id: nat)

  /** A toolbar item: its type, an optional custom label and an optional icon. */
  datatype Item = Item(itemType: ItemType, customLabel: Option<string>, icon: Option<Icon>)

  /** The string literal that stands for each item type. */
  function Name(t: ItemType): string {
    match t
    case Bold => "bold"
    case Italic => "italic"
    case Underline => "underline"
    case Strikethrough => "strikethrough"
    case Heading1 => "heading1"
    case Heading2 => "heading2"
    case Heading3 => "heading3"
    case Heading4 => "heading4"
    case Heading5 => "heading5"
    case Heading6 => "heading6"
    case Paragraph => "paragraph"
  }

  /** Reads an item-type literal back; any other string is not an item type. */
  function ParseItemType(s: string): (r: Option<ItemType>)
    ensures r.Some? ==> Name(r.value) == s
    ensures r.None? ==> forall t :: Name(t) != s
  {
    if s == "bold" then Some(Bold)
    else if s == "italic" then Some(Italic)
    else if s == "underline" then Some(Underline)
    else if s == "strikethrough" then Some(Strikethrough)
    else if s == "heading1" then Some(Heading1)
    else if s == "heading2" then Some(Heading2)
    else if s == "heading3" then Some(Heading3)
    else if s == "heading4" then Some(Heading4)
    else if s == "heading5" then Some(Heading5)
    else if s == "heading6" then Some(Heading6)
    else if s == "paragraph" then Some(Paragraph)
    else None
  }

  /** Every item type survives the round trip through its literal. */
  lemma ParseName(t: ItemType)
    ensures ParseItemType(Name(t)) == Some(t)
  {
  }

  /** Distinct item types have distinct literals. */
  lemma NameInjective(a: ItemType, b: ItemType)
    ensures Name(a) == Name(b) <==> a == b
  {
    if Name(a) == Name(b) {
      ParseName(a);
      ParseName(b);
    }
  }

  /** No item-type literal contains a hyphen (what makes the button keys unambiguous). */
  lemma NameHasNoHyphen(t: ItemType)
    ensures '-' !in Name(t)
    ensures 0 < |Name(t)|
  {
  }

  // ---------------------------------------------------------------------------
  // Reference classification of the union, independent of the string encoding

  /** The four inline text formats. */
  predicate IsTextFormat(t: ItemType) {
    t == Bold || t == Italic || t == Underline || t == Strikethrough
  }

  /** The six heading levels. */
  predicate IsHeadingType(t: ItemType) {
    t.Heading1? || t.Heading2? || t.Heading3? || t.Heading4? || t.Heading5? || t.Heading6?
  }

  /** The level N of `headingN`. */
  function LevelOf(t: ItemType): (n: nat)
    requires IsHeadingType(t)
    ensures 1 <= n <= 6
  {
    match t
    case Heading1 => 1
    case Heading2 => 2
    case Heading3 => 3
    case Heading4 => 4
    case Heading5 => 5
    case Heading6 => 6
  }

  /** The heading type of a level in 1..6. */
  function HeadingOfLevel(n: nat): (t: ItemType)
    requires 1 <= n <= 6
    ensures IsHeadingType(t) && LevelOf(t) == n
  {
    if n == 1 then Heading1
    else if n == 2 then Heading2
    else if n == 3 then Heading3
    else if n == 4 then Heading4
    else if n == 5 then Heading5
    else Heading6
  }

  /** Levels and heading types correspond one to one. */
  lemma LevelRoundTrip(t: ItemType, n: nat)
    requires IsHeadingType(t) && 1 <= n <= 6
    ensures HeadingOfLevel(LevelOf(t)) == t
    ensures LevelOf(HeadingOfLevel(n)) == n
  {
  }

  /** `headingN` is spelled "heading" followed by the single digit N. */
  lemma HeadingName(t: ItemType)
    requires IsHeadingType(t)
    ensures Name(t) == "heading" + [Digit(LevelOf(t))]
  {
  }
}
