/**
  The `LuxeEditor` component: how it resolves the engine configuration (theme
  merge, key precedence), which toolbar items it uses, and which of the two
  toolbars it mounts with what.
 */
module LuxeEditor {
  import opened Js
  import opened ToolbarTypes
  import Toolbar
  import FloatingToolbar

  // ---------------------------------------------------------------------------
  // Theme

  /** A theme entry: a class name, or a group of class names keyed by variant. */
  datatype ThemeEntry = ClassName(name: string) | Group(classes: map<string, string>)

  /** A theme: CSS class names for the engine's node kinds. */
  type Theme = map<string, ThemeEntry>

  const DefaultTheme: Theme := map[
    "paragraph" := ClassName("luxe-paragraph"),
    "heading" := Group(map[
      "h1" := "luxe-heading-h1",
      "h2" := "luxe-heading-h2",
      "h3" := "luxe-heading-h3",
      "h4" := "luxe-heading-h4",
      "h5" := "luxe-heading-h5",
      "h6" := "luxe-heading-h6"]),
    "text" := Group(map[
      "bold" := "luxe-bold",
      "italic" := "luxe-italic",
      "underline" := "luxe-underline",
      "strikethrough" := "luxe-strikethrough"])]

  /** The default theme's class for headings of level N is `luxe-heading-hN`. */
  function DefaultHeadingClass(level: nat): (c: string)
    requires 1 <= level <= 6
    ensures c == "luxe-heading-h" + [Digit(level)]
  {
    var key := "h" + [Digit(level)];
    var headings := DefaultTheme["heading"].classes;
    assert key in headings && headings[key] == "luxe-heading-h" + [Digit(level)] by {
      if level == 1 { assert key == "h1"; }
      else if level == 2 { assert key == "h2"; }
      else if level == 3 { assert key == "h3"; }
      else if level == 4 { assert key == "h4"; }
      else if level == 5 { assert key == "h5"; }
      else { assert key == "h6"; }
    }
    headings[key]
  }

  /**
    The effective theme: without a user theme, the default one; with one, a
    shallow merge in which every key the user gives replaces the default entry
    WHOLESALE (a nested group is not merged) and every other default entry
    stays.
   */
  function MergeTheme(user: Option<Theme>): (r: Theme)
    ensures user.None? ==> r == DefaultTheme
    ensures user.Some? ==> r.Keys == DefaultTheme.Keys + user.value.Keys
    ensures user.Some? ==> forall k :: k in user.value ==> r[k] == user.value[k]
    ensures forall k :: k in DefaultTheme && (user.None? || k !in user.value) ==> r[k] == DefaultTheme[k]
  {
    match user
    case None => DefaultTheme
    case Some(t) => DefaultTheme + t
  }

  /**
    Overriding one text class drops the other default text classes: the user's
    "text" group replaces the default group instead of being merged into it.
   */
  lemma MergeIsShallow(boldClass: string)
    ensures var r := MergeTheme(Some(map["text" := Group(map["bold" := boldClass])]));
      && r["text"] == Group(map["bold" := boldClass])
      && "italic" !in r["text"].classes
      && r["heading"] == DefaultTheme["heading"]
  {
  }

  /** An empty user theme, or the default theme itself, changes nothing. */
  lemma MergeNeutral()
    ensures MergeTheme(Some(map[])) == DefaultTheme
    ensures MergeTheme(Some(DefaultTheme)) == DefaultTheme
  {
  }

  // ---------------------------------------------------------------------------
  // Engine configuration

  /** The engine node classes a configuration can register. */
  datatype NodeClass = HeadingNode | ParagraphNode | TextNode | OtherNode(name: string)

  /** An error handler: the default one logs to the console. */
  datatype Handler = ConsoleError | CustomHandler(id: nat)

  /**
    A configuration value. `Undefined` is a key that is present with the
    value `undefined`, which object spread copies like any other value.
   */
  datatype Value =
    | Str(s: string)
    | Bool(b: bool)
    | Nodes(classes: seq<NodeClass>)
    | ErrorHandler(handler: Handler)
    | ThemeValue(theme: Theme)
    | Undefined
    | OpaqueValue(id: nat)

  /** A configuration object, key by key. */
  type Config = map<string, Value>

  const DefaultNodes: seq<NodeClass> := [HeadingNode, ParagraphNode, TextNode]

  /** The keys the component supplies itself. */
  const DefaultKeys: set<string> := {"namespace", "theme", "nodes", "onError"}

  /** The user's theme, when `initialConfig.theme` holds one (an absent or `undefined` theme is falsy). */
  function UserTheme(initial: Config): Option<Theme>
  {
    if "theme" in initial && initial["theme"].ThemeValue? then Some(initial["theme"].theme) else None
  }

  /**
    The configuration handed to the engine: the defaults, overridden by every
    key of `initialConfig` except `theme`, which is always the merged theme.
   */
  function ResolveConfig(initial: Config): (config: Config)
    ensures config.Keys == DefaultKeys + initial.Keys
    ensures config["theme"] == ThemeValue(MergeTheme(UserTheme(initial)))
    ensures forall k :: k in initial && k != "theme" ==> config[k] == initial[k]
    ensures "namespace" !in initial ==> config["namespace"] == Str("LuxeEditor")
    ensures "nodes" !in initial ==> config["nodes"] == Nodes(DefaultNodes)
    ensures "onError" !in initial ==> config["onError"] == ErrorHandler(ConsoleError)
  {
    var rest := initial - {"theme"};
    var defaults := map[
      "namespace" := Str("LuxeEditor"),
      "theme" := ThemeValue(MergeTheme(UserTheme(initial))),
      "nodes" := Nodes(DefaultNodes),
      "onError" := ErrorHandler(ConsoleError)];
    defaults + rest
  }

  // ---------------------------------------------------------------------------
  // Items and mounting

  const DefaultToolbarItems: seq<Item> := [Item(Bold, None, None), Item(Italic, None, None)]

  /**
    The toolbar items: the caller's list whenever one is given, even an empty
    one (an array is never falsy), otherwise bold and italic.
   */
  function ResolveItems(toolbarItems: Option<seq<Item>>): (items: seq<Item>)
    ensures toolbarItems.Some? ==> items == toolbarItems.value
    ensures toolbarItems.None? ==> |items| == 2 && items[0].itemType == Bold && items[1].itemType == Italic
    ensures toolbarItems.None? ==> forall i :: 0 <= i < |items| ==> items[i].customLabel.None? && items[i].icon.None?
  {
    match toolbarItems
    case Some(given) => given
    case None => DefaultToolbarItems
  }

  /** The component's properties; `None` is an omitted (or `undefined`) property. */
  datatype Props = Props(
    initialConfig: Config,
    showFloatingToolbar: Option<bool>,
    showToolbar: Option<bool>,
    toolbarItems: Option<seq<Item>>,
    floatingToolbarItems: Option<seq<Item>>)

  /** The properties the floating toolbar element is created with. */
  datatype FloatingProps = FloatingProps(enabled: bool, items: seq<Item>)

  /** What the component mounts: the engine configuration and the toolbars. */
  datatype Mounted = Mounted(
    config: Config,
    toolbar: Option<seq<Item>>,
    floating: Option<FloatingProps>)

  /**
    Mounting, given the value an omitted `showToolbar` takes. The top toolbar
    is mounted exactly when `showToolbar`, or else that default, is true and
    there is at least one item; the floating toolbar exactly when
    `showFloatingToolbar` is not false (it is on by default), and it is handed
    the floating items when given, else the toolbar items.
   */
  function MountWith(toolbarDefault: bool, props: Props): (m: Mounted)
    ensures m.config == ResolveConfig(props.initialConfig)
    ensures m.toolbar.Some? <==>
      (props.showToolbar == Some(true) || (props.showToolbar.None? && toolbarDefault))
      && |ResolveItems(props.toolbarItems)| > 0
    ensures m.toolbar.Some? ==> m.toolbar.value == ResolveItems(props.toolbarItems)
    ensures m.floating.Some? <==> props.showFloatingToolbar != Some(false)
    ensures m.floating.Some? ==> m.floating.value.enabled
    ensures m.floating.Some? && props.floatingToolbarItems.Some? ==>
      m.floating.value.items == props.floatingToolbarItems.value
    ensures m.floating.Some? && props.floatingToolbarItems.None? ==>
      m.floating.value.items == ResolveItems(props.toolbarItems)
  {
    var showFloating := match props.showFloatingToolbar case Some(b) => b case None => true;
    var showToolbar := match props.showToolbar case Some(b) => b case None => toolbarDefault;
    var items := ResolveItems(props.toolbarItems);
    var floatingItems := match props.floatingToolbarItems case Some(f) => f case None => items;
    Mounted(
      ResolveConfig(props.initialConfig),
      if showToolbar && |items| > 0 then Some(items) else None,
      if showFloating then Some(FloatingProps(true, floatingItems)) else None)
  }

  /**
    The component as written: an omitted `showToolbar` is false, so the top
    toolbar is mounted only when asked for explicitly.
   */
  function Mount(props: Props): (m: Mounted)
    ensures m.config == ResolveConfig(props.initialConfig)
    ensures m.toolbar.Some? <==>
      props.showToolbar == Some(true) && |ResolveItems(props.toolbarItems)| > 0
    ensures m.toolbar.Some? ==> m.toolbar.value == ResolveItems(props.toolbarItems)
    ensures m.floating.Some? <==> props.showFloatingToolbar != Some(false)
    ensures m.floating.Some? ==> m.floating.value.enabled
    ensures m.floating.Some? && props.floatingToolbarItems.Some? ==>
      m.floating.value.items == props.floatingToolbarItems.value
    ensures m.floating.Some? && props.floatingToolbarItems.None? ==>
      m.floating.value.items == ResolveItems(props.toolbarItems)
  {
    MountWith(false, props)
  }

  /**
    The component as its documentation describes it: an omitted `showToolbar`
    is true, so the top toolbar is mounted unless switched off or empty.
   */
  function MountAsDocumented(props: Props): (m: Mounted)
    ensures m.toolbar.Some? <==>
      props.showToolbar != Some(false) && |ResolveItems(props.toolbarItems)| > 0
    ensures m.toolbar.Some? ==> m.toolbar.value == ResolveItems(props.toolbarItems)
    ensures props.showToolbar.Some? ==> m == Mount(props)
  {
    MountWith(true, props)
  }

  /** The documented custom-toolbar example: bold, italic and underline under namespace "MyEditor". */
  const DocsExampleItems: seq<Item> := [Item(Bold, None, None), Item(Italic, None, None), Item(Underline, None, None)]

  function DocsExampleProps(): Props {
    Props(map["namespace" := Str("MyEditor")], None, None, Some(DocsExampleItems), None)
  }

  /** As written, the documented custom-toolbar example mounts no top toolbar at all. */
  lemma DocsExampleHasNoToolbar()
    ensures Mount(DocsExampleProps()).toolbar.None?
    ensures Mount(DocsExampleProps()).config["namespace"] == Str("MyEditor")
  {
  }

  /** With the documented default, the same example shows its three buttons in order. */
  lemma DocsExampleShowsToolbarAsDocumented()
    ensures MountAsDocumented(DocsExampleProps()).toolbar == Some(DocsExampleItems)
  {
  }

  /** With every property omitted, only the floating toolbar appears, fed bold and italic. */
  lemma MountDefaults(initial: Config)
    ensures var m := Mount(Props(initial, None, None, None, None));
      && m.toolbar.None?
      && m.floating == Some(FloatingProps(true, DefaultToolbarItems))
  {
  }

  /** An explicitly empty item list hides the top toolbar even when asked for. */
  lemma EmptyItemsHideToolbar(initial: Config, showFloating: Option<bool>)
    ensures Mount(Props(initial, showFloating, Some(true), Some([]), None)).toolbar.None?
  {
  }

  /**
    The top toolbar as rendered: absent unless mounted, and then one button per
    resolved item, in order, never an empty bar.
   */
  function RenderTopToolbar(props: Props): (buttons: Option<seq<Toolbar.Button>>)
    ensures buttons.Some? <==> props.showToolbar == Some(true) && |ResolveItems(props.toolbarItems)| > 0
    ensures buttons.Some? ==> |buttons.value| == |ResolveItems(props.toolbarItems)| > 0
    ensures buttons.Some? ==> forall i :: 0 <= i < |buttons.value| ==>
      buttons.value[i].item == ResolveItems(props.toolbarItems)[i]
      && buttons.value[i] == Toolbar.ToolbarButton(ResolveItems(props.toolbarItems)[i], i)
  {
    match Mount(props).toolbar
    case Some(items) => Some(Toolbar.RenderToolbar(items))
    case None => None
  }

  /**
    The floating toolbar as rendered: its two fixed buttons whatever items it
    was handed (the component declares no properties), and only while it is
    mounted and its state is visible.
   */
  function RenderFloatingToolbar(props: Props, coords: Option<FloatingToolbar.Coords>): (view: Option<FloatingToolbar.View>)
    ensures view.Some? <==> props.showFloatingToolbar != Some(false) && coords.Some?
    ensures view.Some? ==> view.value.top == coords.value.y && view.value.left == coords.value.x
    ensures view.Some? ==> view.value.buttons == FloatingToolbar.Buttons
  {
    if Mount(props).floating.Some? then FloatingToolbar.Render(coords) else None
  }

  /**
    As written, the floating toolbar ignores the items it is handed: two
    editors that differ only in `floatingToolbarItems` render the same bar.
   */
  lemma FloatingItemsIgnored(props: Props, other: Option<seq<Item>>, coords: Option<FloatingToolbar.Coords>)
    ensures RenderFloatingToolbar(props, coords)
         == RenderFloatingToolbar(props.(floatingToolbarItems := other), coords)
  {
  }

  /**
    The floating toolbar as its documentation describes it: one button per
    item it is handed (the floating items when given, else the toolbar items),
    in order, each showing the item's label and toggling its type.
   */
  function RenderFloatingAsDocumented(props: Props, coords: Option<FloatingToolbar.Coords>): (view: Option<FloatingToolbar.View>)
    ensures view.Some? <==> props.showFloatingToolbar != Some(false) && coords.Some?
    ensures view.Some? ==> view.value.top == coords.value.y && view.value.left == coords.value.x
    ensures view.Some? ==> var items := match props.floatingToolbarItems
                                        case Some(f) => f
                                        case None => ResolveItems(props.toolbarItems);
      && |view.value.buttons| == |items|
      && forall i :: 0 <= i < |items| ==>
           view.value.buttons[i].format == Name(items[i].itemType)
           && view.value.buttons[i].text == Toolbar.DisplayLabel(items[i])
  {
    match Mount(props).floating
    case Some(f) => FloatingToolbar.RenderItems(coords, f.items)
    case None => None
  }

  /**
    With no items given anywhere, the documented floating toolbar is exactly
    the fixed bar the code renders: the fix changes nothing for the defaults.
   */
  lemma FloatingDefaultsAgree(initial: Config, showFloating: Option<bool>, showToolbar: Option<bool>,
                              coords: Option<FloatingToolbar.Coords>)
    ensures var props := Props(initial, showFloating, showToolbar, None, None);
      RenderFloatingAsDocumented(props, coords) == RenderFloatingToolbar(props, coords)
  {
    FloatingToolbar.RenderItemsOfDefaults(coords);
  }
}
