# luxe-edit toolbar core, modelled in Dafny

luxe-edit wraps the Lexical rich-text engine in a React component,
`LuxeEditor`, with two toolbars. This project models the decision logic of
those three pieces as pure functions and proves properties of them:

- **Top toolbar** (`Toolbar`, in `toolbar.dfy`). Each toolbar item gets a
  button. The model derives the button's label, tooltip, heading level, font
  size, weight, style, decoration and React key the way the component does.
  It then routes a click either to a `FORMAT_TEXT_COMMAND` dispatch or to a
  console warning.
- **Floating toolbar** (`FloatingToolbar`, in `floating_toolbar.dfy`). Its only
  state is `coords`: hidden, or a viewport position. Every editor update
  recomputes it from a snapshot of the selection. The model also covers what
  is rendered for a state and what the two fixed buttons do.
- **Editor component** (`LuxeEditor`, in `editor.dfy`). It covers the shallow
  theme merge and the configuration key precedence. It also covers the
  default toolbar items and the conditions under which each toolbar is
  mounted, with the items it is handed.

Supporting modules:

- `ToolbarTypes` (`toolbar_types.dfy`) holds the closed union of the eleven
  item types. It includes their string literals and a parser that inverts
  them.
- `Engine` (`engine.dfy`) holds the effects a click can have: a dispatched
  command, or a warning.
- `Js` (`js.dfy`) holds the JavaScript built-ins the code relies on:
  `startsWith`, `replace` with a string pattern, `parseInt`, number-to-string
  conversion, first-letter capitalisation and the `||` fallback.

The engine is outside the model. A command dispatch and a `console.warn` are
values the model emits. The selection is an abstract snapshot with three
parts: whether it is a range selection, whether it is collapsed, and an
optional bounding rectangle with integer coordinates.

Facts about the code that a reader might not expect, all reflected in the
model:

- The floating toolbar's x coordinate is the rectangle's left edge, not its
  centre.
- When the rectangle is missing, the floating toolbar keeps its previous
  state rather than hiding. The code makes no zero-size or containment check
  on the rectangle.
- The floating toolbar always shows exactly a Bold and an Italic button. It
  neither reads nor filters the items it is handed.
- The item-type union has exactly eleven members.
- Heading and paragraph items only emit a warning. No block transform exists.

## Model

| member | source | states |
|---|---|---|
| ToolbarTypes.ParseItemType | packages/core/src/types/toolbar.ts:4-15 | a string reads back as an item type only when it is that type's literal; every other string is not an item type |
| ToolbarTypes.NameInjective | packages/core/src/types/toolbar.ts:4-15 | the eleven type literals are pairwise distinct, so a literal identifies its type |
| ToolbarTypes.LevelRoundTrip | packages/core/src/types/toolbar.ts:9-14 | the six heading types and the levels 1..6 correspond one to one |
| Toolbar.ToolbarLabel | packages/core/src/plugins/Toolbar.tsx:7-22 | the label lookup is total and never empty. It never equals the type literal, so the fallback to the literal is unreachable. A format or paragraph is labelled by the capitalised initial of its literal (B, I, U, S, P); `headingN` is labelled "H" followed by N |
| Toolbar.ToolbarLabelInjective | packages/core/src/plugins/Toolbar.tsx:7-22 | no two item types share a default label |
| Toolbar.DisplayLabel | packages/core/src/plugins/Toolbar.tsx:32 | the shown label is the custom label when it is present and non-empty; an absent or empty custom label falls back to the default label, and the result is never empty |
| Toolbar.ButtonContent | packages/core/src/plugins/Toolbar.tsx:61 | the button shows an icon exactly when the item has one, and then that icon; otherwise a never-empty text, which is the custom label when that is non-empty and the type's default label otherwise |
| Toolbar.Title | packages/core/src/plugins/Toolbar.tsx:37 | the tooltip is the type literal with only its first letter upper-cased (for every type, headings included); for a non-heading, that first letter is exactly the default label |
| Toolbar.ParsedHeadingLevel | packages/core/src/plugins/Toolbar.tsx:30-31 | a literal starts with "heading" exactly for the six heading types; stripping "heading" and parsing the rest gives N for `headingN`, within 1..6; a non-heading has no level |
| Toolbar.HeadingLevelParses | packages/core/src/plugins/Toolbar.tsx:31 | for a heading literal, removing "heading" leaves the single digit of its level, and `parseInt` reads that level back |
| Toolbar.FontSizePx | packages/core/src/plugins/Toolbar.tsx:47 | a heading of level N gets 18 - 2N px, which lies between 6 and 16; every other item gets 14 px |
| Toolbar.FontSizeDecreasesWithLevel | packages/core/src/plugins/Toolbar.tsx:47 | between two headings, the higher level gets the strictly smaller font, in both directions |
| Toolbar.FontSizeCss | packages/core/src/plugins/Toolbar.tsx:47 | the CSS font size is exactly the decimal px size followed by "px", and parsing its leading number gives back the px size |
| Toolbar.FontWeight | packages/core/src/plugins/Toolbar.tsx:44 | the weight is bold exactly for the bold type, and normal for every other type |
| Toolbar.FontStyle | packages/core/src/plugins/Toolbar.tsx:45 | the style is italic exactly for the italic type, and normal for every other type |
| Toolbar.TextDecoration | packages/core/src/plugins/Toolbar.tsx:46 | the decoration is underline exactly for underline and line-through exactly for strikethrough; every other type gets none |
| Toolbar.ButtonKeyInjective | packages/core/src/plugins/Toolbar.tsx:103 | two keys `type-index` are equal only for the same type at the same index, because no literal contains a hyphen |
| Toolbar.ToolbarButton | packages/core/src/plugins/Toolbar.tsx:29-62 | a button is keyed by its type and index and titled by the capitalised literal; its weight is bold for bold and normal otherwise, its style italic for italic and normal otherwise, its decoration underline, line-through or none by type; its font size is exactly the type's px size followed by "px"; it carries its item for the click |
| Toolbar.RenderToolbar | packages/core/src/plugins/Toolbar.tsx:101-107 | there is one button per item, in input order; the button at position i is the button of item i at index i, keyed `type-i`; the keys are pairwise distinct even when a type repeats |
| Toolbar.NameTestsExact | packages/core/src/plugins/Toolbar.tsx:77-83 | on the item-type literals, the code's format test holds exactly for the four text formats and its heading-or-paragraph test holds exactly for the rest |
| Toolbar.HandleToolbarAction | packages/core/src/plugins/Toolbar.tsx:73-86 | every click has exactly one effect. It is a dispatch exactly for the four text formats; the command is always `FORMAT_TEXT_COMMAND`, and its payload parses back to the clicked type. Headings and the paragraph only warn, with a message that starts with their literal |
| FloatingToolbar.UpdateToolbar | packages/core/src/plugins/FloatingToolbarPlugin.tsx:10-22 | a non-range or collapsed selection hides the toolbar whatever the previous state. A non-collapsed range with a rectangle shows it at (left, top - 40). A non-collapsed range without a rectangle keeps the previous state. A visible result implies a non-collapsed range |
| FloatingToolbar.UpdateIdempotent | packages/core/src/plugins/FloatingToolbarPlugin.tsx:10-22 | applying the same snapshot twice gives the same state as applying it once |
| FloatingToolbar.UpdateForgetsHistory | packages/core/src/plugins/FloatingToolbarPlugin.tsx:12-21 | every update except "range without rectangle" gives a result that does not depend on the previous state |
| FloatingToolbar.RunWithoutDecisiveUpdate | packages/core/src/plugins/FloatingToolbarPlugin.tsx:8-28 | starting hidden, a run of updates that each keep the state leaves the toolbar hidden |
| FloatingToolbar.RunFollowsLastDecisiveUpdate | packages/core/src/plugins/FloatingToolbarPlugin.tsx:8-28 | after any sequence of updates, the state is what the last deciding update would produce from any state. Earlier updates are forgotten, and the non-deciding updates after it change nothing |
| FloatingToolbar.VisibleCoordsComeFromARect | packages/core/src/plugins/FloatingToolbarPlugin.tsx:8-28 | whenever the toolbar is visible, its position is (left, top - 40) of the rectangle of some update whose selection was a non-collapsed range |
| FloatingToolbar.ReplayUpdates | packages/core/src/plugins/FloatingToolbarPlugin.tsx:24-28 | the update listener applies the transition once per update, in order; if the result is visible, the last update was a non-collapsed range |
| FloatingToolbar.Render | packages/core/src/plugins/FloatingToolbarPlugin.tsx:30-40 | nothing is rendered exactly when the state is hidden. When visible, top is y and left is x, and there are exactly two buttons, toggling bold and then italic |
| FloatingToolbar.RenderItems | apps/demo/src/pages/Docs.tsx:66-69 | a floating toolbar that honours its items is placed like the fixed one and has one button per item, in order, showing the item's display label and standing for the item's type |
| FloatingToolbar.RenderItemsOfDefaults | packages/core/src/plugins/FloatingToolbarPlugin.tsx:30-40 | handed plain bold and italic items, that toolbar is exactly the fixed two-button bar the code renders |
| FloatingToolbar.ClickFailsAsWritten | packages/core/src/plugins/FloatingToolbarPlugin.tsx:37-38 | with the imports as written, every floating button's click fails on `FORMAT_TEXT_COMMAND`, which line 2 never imports |
| FloatingToolbar.ClickMatchesToolbar | packages/core/src/plugins/FloatingToolbarPlugin.tsx:37-38 | with the import added, the floating B and I buttons have the same effect as the top toolbar's bold and italic items, and carry the same labels |
| FloatingToolbar.ClickItem | apps/demo/src/pages/Docs.tsx:66-69 | with the import in place, a click on an item's button of a floating toolbar that honours its items has exactly one effect; it dispatches exactly for the four text formats, then the same dispatch a fixed B or I button makes for that format, and headings and the paragraph only warn with a message starting with their literal |
| FloatingToolbar.ItemClickMatchesToolbar | packages/core/src/plugins/Toolbar.tsx:73-86 | on a floating toolbar that honours its items, the click on the button at each position equals the top toolbar's click on the button for the same item at that position |
| LuxeEditor.DefaultHeadingClass | packages/core/src/index.tsx:22-29 | in the default theme, heading level N in 1..6 maps to the class `luxe-heading-hN` |
| LuxeEditor.MergeTheme | packages/core/src/index.tsx:65-67 | with no user theme the default is used unchanged. Otherwise the keys are the union of both, each user key replaces the default entry wholesale, and each other default entry stays |
| LuxeEditor.MergeIsShallow | packages/core/src/index.tsx:65-67 | a user "text" group that sets only bold replaces the whole default text group, so the default italic class is lost; untouched groups stay default |
| LuxeEditor.MergeNeutral | packages/core/src/index.tsx:65-67 | an empty user theme, or the default theme itself, yields the default theme |
| LuxeEditor.ResolveConfig | packages/core/src/index.tsx:70-78 | the final keys are the defaults plus the user's keys. Theme is always the merged theme. Every other user key, even one set to undefined, overrides the default. The default namespace "LuxeEditor", node list and error handler stay only when the user omits them |
| LuxeEditor.ResolveItems | packages/core/src/index.tsx:81-85 | the items are the caller's list whenever one is given, even an empty one; without a list they are bold then italic, with no custom label and no icon |
| LuxeEditor.Mount | packages/core/src/index.tsx:49-104 | the top toolbar is mounted exactly when `showToolbar` is true (default false) and there is at least one item. The floating toolbar is mounted exactly when `showFloatingToolbar` is not false (default true). It receives `floatingToolbarItems` when given, otherwise the toolbar items, and is always created enabled. The engine gets the resolved configuration |
| LuxeEditor.MountWith | packages/core/src/index.tsx:49-104 | for either default of an omitted `showToolbar`, the top toolbar is mounted exactly when the given or default flag is true and there is an item; the floating toolbar (present unless switched off, always enabled, with its items) and the configuration do not depend on that default |
| LuxeEditor.MountAsDocumented | apps/demo/src/pages/Docs.tsx:55-57 | with `showToolbar` defaulting to true, the top toolbar is mounted unless switched off or empty; whenever `showToolbar` is given, the result is the same as the component's |
| LuxeEditor.DocsExampleHasNoToolbar | apps/demo/src/pages/Docs.tsx:101-113 | the documented custom-toolbar example, which omits `showToolbar`, mounts no top toolbar under the component as written, although it keeps its namespace |
| LuxeEditor.DocsExampleShowsToolbarAsDocumented | apps/demo/src/pages/Docs.tsx:101-113 | with the documented default, the same example mounts a top toolbar of bold, italic and underline |
| LuxeEditor.MountDefaults | packages/core/src/index.tsx:51-104 | with every property omitted, only the floating toolbar is mounted, and it is handed bold and italic |
| LuxeEditor.EmptyItemsHideToolbar | packages/core/src/index.tsx:85-92 | an explicitly empty item list hides the top toolbar even when `showToolbar` is true |
| LuxeEditor.RenderTopToolbar | packages/core/src/index.tsx:90-92 | when rendered, the top toolbar has one button per resolved item, in order, each the button of its item at its index, and is never empty |
| LuxeEditor.RenderFloatingToolbar | packages/core/src/index.tsx:99-104 | the floating toolbar renders only when it is mounted and visible, and then sits at top y, left x of the state and always shows its two fixed buttons whatever items it was handed |
| LuxeEditor.FloatingItemsIgnored | packages/core/src/plugins/FloatingToolbarPlugin.tsx:6 | two editors that differ only in `floatingToolbarItems` render the same floating toolbar |
| LuxeEditor.RenderFloatingAsDocumented | apps/demo/src/pages/Docs.tsx:66-69 | the documented floating toolbar renders under the same conditions and at the same place (top y, left x), with one button per item handed to it (the floating items when given, else the toolbar items), in order, each showing the item's display label and standing for its type |
| LuxeEditor.FloatingDefaultsAgree | packages/core/src/index.tsx:99-104 | when no items are given anywhere, the documented floating toolbar is identical to the one the code renders |

## Findings

| source | as written | input that shows it | evidently intended | confidence | as-written member | corrected member |
|---|---|---|---|---|---|---|
| packages/core/src/plugins/FloatingToolbarPlugin.tsx:37-38 | the click handlers pass `FORMAT_TEXT_COMMAND`, but line 2 imports only `$getSelection` and `$isRangeSelection` from the engine, so the name is unbound | clicking the floating B (or I) button on any visible floating toolbar | import `FORMAT_TEXT_COMMAND` from the engine so the click dispatches the bold or italic toggle, as the top toolbar does | not executed; high that the name is unbound in the file, medium on how the bundler surfaces it | FloatingToolbar.ClickFailsAsWritten | FloatingToolbar.ClickMatchesToolbar |
| packages/core/src/index.tsx:52 | an omitted `showToolbar` is false, while apps/demo/src/pages/Docs.tsx:55-57 documents the default as true | the documented custom-toolbar example (Docs.tsx:101-113: three items, no `showToolbar`) shows no top toolbar | the default agrees with the documentation: either `showToolbar = true`, or the documentation says false | not executed; high that the two disagree, low on which side is meant | LuxeEditor.DocsExampleHasNoToolbar | LuxeEditor.MountAsDocumented |
| packages/core/src/plugins/FloatingToolbarPlugin.tsx:6 | the plugin declares no properties, so the `items` the editor passes at index.tsx:100-103 are ignored, while Docs.tsx:66-69 documents `floatingToolbarItems` as custom floating items | any `floatingToolbarItems`, for example a single underline item: the floating toolbar still shows B and I | the floating toolbar renders the items it is handed, and a click on an item's button does what the top toolbar's button for that item does | not executed; high that the items are ignored | LuxeEditor.FloatingItemsIgnored | LuxeEditor.RenderFloatingAsDocumented |

## Left out

- `packages/core/src/utils.ts`: `getEditorJSON` and `getEditorText` are single calls into the engine's own state tree, which is not modelled.
- `packages/core/src/index.ts` is an older duplicate of `LuxeEditor` with no decision logic. `packages/core/dist/index.d.ts` is generated and `packages/core/tsup.config.ts` is build configuration; none is modelled.
- The demo application under `apps/demo/src` is presentation and routing. Its item types `undo` and `divider` are not even members of the item-type union.
- The item types listed at apps/demo/src/pages/Docs.tsx:81 beyond the eleven of the union (`undo`, `redo`, `headingDropdown`, `link`, `textColor`, `backgroundColor`, the four alignments, `fullscreen`, `divider`) and `getEditorFormattedText`, imported at apps/demo/src/pages/Playground.tsx:2, have no code in `packages/core`. They are not modelled.
- DOM and React mechanics are not modelled: `window.getSelection`, `getRangeAt` (including its throw on an empty selection), `getBoundingClientRect`, `createPortal`, hooks, hover style changes, the static inline styles, the placeholder, the rich-text and history plugins, and `children`. The selection and rectangle are inputs; commands and warnings are output values.
- Geometry is integers. Fractional `DOMRect` values are not modelled.
- The `enabled` and `items` properties passed to the floating toolbar are recorded in `LuxeEditor.Mount`, but the component declares no properties, so they have no further effect (see Findings).
- The model keeps the code's behaviour: `Mount`, `RenderTopToolbar` and `RenderFloatingToolbar` are what the component does. `MountAsDocumented` and `RenderFloatingAsDocumented` are the documented alternatives and are only compared against it.
- Toolbar.ButtonContent: a supplied icon is always shown, although a falsy React node (`0`, `""`, `false`) would fall back to the label in the code.
- LuxeEditor.ResolveConfig: any value under `theme` other than a theme object is treated as no theme, although the code would spread a truthy string or array into the default theme; the property's type excludes such values.
- Js.ParseInt: leading whitespace, signs and radix prefixes are not handled. It is only applied to the digit strings the code produces.
- Js.Upper: upper-cases ASCII letters only. The item literals are ASCII.
- Object key order in the merged theme and in the configuration is not modelled. Maps are unordered.
