/** The host program: the plugin registry built from the plugin folder, the
    choice of plugin for an opened file, and the dispatch of key, button and
    resize events and of each frame to either the file explorer or the
    active plugin.

    Plugins are dynamic libraries whose entry points may be missing; the
    model records which entry points are present and returns the sequence of
    calls the host makes, so that "no missing entry point is ever called" is
    a property of that sequence. */
module PluginHost {
  import opened Common
  import FileExplorer

  /** `plugin_idx` when no plugin is active. */
  const NO_PLUGIN: int := -1

  /** Which optional entry points a loaded plugin exports. */
  datatype Plugin = Plugin(hasInit: bool, hasUpdate: bool, hasCustomRender: bool, hasRender: bool,
                           hasFree: bool, hasKey: bool, hasButton: bool, hasResize: bool)

  /** One file of the plugin folder, with what loading it would yield:
      its entry points and the result of its `Extensions` export, if any. */
  datatype LibraryFile = LibraryFile(name: Str, hooks: Plugin, extensions: Option<seq<Str>>)

  datatype Hook =
    | InitHook(path: Str)
    | UpdateHook
    | CustomRenderHook
    | RenderHook
    | FreeHook
    | KeyHook(key: u8, action: int)
    | ButtonHook(button: u8, action: int)
    | ResizeHook(width: int, height: int)

  /** Calls the host makes, in order. */
  datatype Call =
    | PluginCall(plugin: nat, hook: Hook)
    | ExplorerKey(key: u8, action: int)
    | ExplorerUpdate
    | ExplorerRender
    | OpenWithOS(name: Str)
    | Viewport(width: int, height: int)

  datatype Host = Host(plugins: seq<Plugin>, names: seq<seq<Str>>, pluginIdx: int,
                       explorer: FileExplorer.Explorer)

  datatype Step = Step(host: Host, calls: seq<Call>)

  /** Plugins and their extension lists stay aligned, `plugin_idx` is -1 or
      a plugin index, and the explorer state is well formed. */
  predicate Valid(h: Host) {
    && |h.plugins| == |h.names|
    && (h.pluginIdx == NO_PLUGIN || 0 <= h.pluginIdx < |h.plugins|)
    && FileExplorer.Valid(h.explorer)
  }

  predicate Exports(p: Plugin, hook: Hook) {
    match hook
    case InitHook(_) => p.hasInit
    case UpdateHook => p.hasUpdate
    case CustomRenderHook => p.hasCustomRender
    case RenderHook => p.hasRender
    case FreeHook => p.hasFree
    case KeyHook(_, _) => p.hasKey
    case ButtonHook(_, _) => p.hasButton
    case ResizeHook(_, _) => p.hasResize
  }

  /** Every plugin call goes to an existing plugin through an entry point it exports. */
  predicate Safe(plugins: seq<Plugin>, calls: seq<Call>) {
    forall c :: c in calls && c.PluginCall? ==> c.plugin < |plugins| && Exports(plugins[c.plugin], c.hook)
  }

  lemma SafeConcat(plugins: seq<Plugin>, a: seq<Call>, b: seq<Call>)
    requires Safe(plugins, a) && Safe(plugins, b)
    ensures Safe(plugins, a + b)
  {
  }

  /** Calls hook `hook` of plugin `i` when that plugin exports it. */
  function CallIfPresent(plugins: seq<Plugin>, i: nat, hook: Hook): (cs: seq<Call>)
    requires i < |plugins|
    ensures Safe(plugins, cs)
    ensures cs == [] || cs == [PluginCall(i, hook)]
    ensures cs != [] <==> Exports(plugins[i], hook)
  {
    if Exports(plugins[i], hook) then [PluginCall(i, hook)] else []
  }

  //~ Registry

  function ExtensionList(f: LibraryFile): (names: seq<Str>)
    ensures f.extensions.None? ==> names == []
  {
    match f.extensions
    case Some(exts) => exts
    case None => []
  }

  function MapPlugins(fs: seq<LibraryFile>): (ps: seq<Plugin>)
    ensures |ps| == |fs| && forall k :: 0 <= k < |fs| ==> ps[k] == fs[k].hooks
  {
    seq(|fs|, k requires 0 <= k < |fs| => fs[k].hooks)
  }

  function MapExtensions(fs: seq<LibraryFile>): (ns: seq<seq<Str>>)
    ensures |ns| == |fs| && forall k :: 0 <= k < |fs| ==> ns[k] == ExtensionList(fs[k])
  {
    seq(|fs|, k requires 0 <= k < |fs| => ExtensionList(fs[k]))
  }

  lemma MapSnoc(fs: seq<LibraryFile>, f: LibraryFile)
    ensures MapPlugins(fs + [f]) == MapPlugins(fs) + [f.hooks]
    ensures MapExtensions(fs + [f]) == MapExtensions(fs) + [ExtensionList(f)]
  {
  }

  /** `FilloutPluginStructures`: one plugin and one extension list per
      library file of the folder, in listing order; `isLibrary` is the
      extension test on the file name. */
  method FilloutPluginStructures(listing: seq<LibraryFile>, isLibrary: LibraryFile -> bool)
    returns (plugins: seq<Plugin>, names: seq<seq<Str>>)
    ensures |plugins| == |names| == CountIf(listing, isLibrary)
    ensures plugins == MapPlugins(Filter(listing, isLibrary))
    ensures names == MapExtensions(Filter(listing, isLibrary))
  {
    plugins := [];
    names := [];
    var i := 0;
    while i < |listing|
      invariant 0 <= i <= |listing|
      invariant plugins == MapPlugins(Filter(listing[..i], isLibrary))
      invariant names == MapExtensions(Filter(listing[..i], isLibrary))
    {
      var f := listing[i];
      assert listing[..i + 1] == listing[..i] + [f];
      FilterSnoc(listing[..i], f, isLibrary);
      if isLibrary(f) {
        MapSnoc(Filter(listing[..i], isLibrary), f);
        match f.extensions {
          case Some(exts) =>
            names := names + [exts];
          case None =>
            names := names + [[]];
        }
        plugins := plugins + [f.hooks];
      }
      i := i + 1;
    }
    assert listing[..i] == listing;
  }

  //~ Choosing a plugin

  /** Some string of `exts` equals `ext`. */
  predicate Claims(exts: seq<Str>, ext: Str, eq: (Str, Str) -> bool) {
    exists k :: 0 <= k < |exts| && eq(exts[k], ext)
  }

  /** `check_plugin`: the first plugin, in registry order, one of whose
      extensions equals the file's extension becomes active and receives its
      `Init` with the path; without a match nothing changes. */
  method CheckPlugin(h: Host, path: Str, extOf: Str -> Str, eq: (Str, Str) -> bool)
    returns (found: bool, r: Step)
    requires Valid(h)
    ensures Valid(r.host) && Safe(h.plugins, r.calls)
    ensures found <==> exists i :: 0 <= i < |h.names| && Claims(h.names[i], extOf(path), eq)
    ensures found ==>
      && 0 <= r.host.pluginIdx < |h.names|
      && Claims(h.names[r.host.pluginIdx], extOf(path), eq)
      && (forall j :: 0 <= j < r.host.pluginIdx ==> !Claims(h.names[j], extOf(path), eq))
      && r.host == h.(pluginIdx := r.host.pluginIdx)
      && r.calls == CallIfPresent(h.plugins, r.host.pluginIdx, InitHook(path))
    ensures !found ==> r == Step(h, [])
  {
    var ext := extOf(path);
    var i := 0;
    while i < |h.names|
      invariant 0 <= i <= |h.names|
      invariant forall j :: 0 <= j < i ==> !Claims(h.names[j], ext, eq)
    {
      var exts := h.names[i];
      var k := 0;
      while k < |exts|
        invariant 0 <= k <= |exts|
        invariant forall m :: 0 <= m < k ==> !eq(exts[m], ext)
      {
        if eq(exts[k], ext) {
          var h' := h.(pluginIdx := i);
          return true, Step(h', CallIfPresent(h.plugins, i, InitHook(path)));
        }
        k := k + 1;
      }
      i := i + 1;
    }
    return false, Step(h, []);
  }

  //~ Event dispatch

  /** `key_callback`. With no plugin active the explorer handles the key;
      otherwise Alt+LeftArrow frees and leaves the plugin, other presses are
      dropped, and every other event goes to the plugin's key handler. */
  function KeyCallback(h: Host, kc: FileExplorer.KeyCodes, m: FileExplorer.Modifiers, leftArrow: u8,
                       altHeld: bool, key: u8, action: int): (r: Result<Step>)
    requires Valid(h)
    ensures r.Ok? ==> Valid(r.value.host) && Safe(h.plugins, r.value.calls)
    ensures r.Ok? ==> r.value.host.plugins == h.plugins && r.value.host.names == h.names
    ensures h.pluginIdx == NO_PLUGIN ==>
      && r == (match FileExplorer.InputKey(h.explorer, kc, m, key, action)
               case Ok(e) => Ok(Step(h.(explorer := e), [ExplorerKey(key, action)]))
               case Err(f) => Err(f))
    ensures h.pluginIdx != NO_PLUGIN ==>
      && r.Ok? && r.value.host.explorer == h.explorer
      && (r.value.host.pluginIdx == NO_PLUGIN <==>
            action == FileExplorer.INPUT_PRESS && key == leftArrow && altHeld)
      && (forall c :: c in r.value.calls ==> c.PluginCall? && c.plugin == h.pluginIdx)
      && (forall c :: c in r.value.calls && c.hook.KeyHook? ==> c.hook.action != FileExplorer.INPUT_PRESS)
    ensures h.pluginIdx != NO_PLUGIN && action == FileExplorer.INPUT_PRESS && key == leftArrow && altHeld ==>
      r == Ok(Step(h.(pluginIdx := NO_PLUGIN), CallIfPresent(h.plugins, h.pluginIdx, FreeHook)))
    ensures h.pluginIdx != NO_PLUGIN && action == FileExplorer.INPUT_PRESS && !(key == leftArrow && altHeld) ==>
      r == Ok(Step(h, []))
    ensures h.pluginIdx != NO_PLUGIN && action != FileExplorer.INPUT_PRESS ==>
      r == Ok(Step(h, CallIfPresent(h.plugins, h.pluginIdx, KeyHook(key, action))))
  {
    if h.pluginIdx == NO_PLUGIN then
      match FileExplorer.InputKey(h.explorer, kc, m, key, action)
      case Ok(e) => Ok(Step(h.(explorer := e), [ExplorerKey(key, action)]))
      case Err(f) => Err(f)
    else if action == FileExplorer.INPUT_PRESS then
      if key == leftArrow && altHeld then
        Ok(Step(h.(pluginIdx := NO_PLUGIN), CallIfPresent(h.plugins, h.pluginIdx, FreeHook)))
      else
        Ok(Step(h, []))
    else
      Ok(Step(h, CallIfPresent(h.plugins, h.pluginIdx, KeyHook(key, action))))
  }

  /** `button_callback`: forwarded only to an active plugin that handles buttons. */
  function ButtonCallback(h: Host, button: u8, action: int): (calls: seq<Call>)
    requires Valid(h)
    ensures Safe(h.plugins, calls)
    ensures calls != [] <==> h.pluginIdx != NO_PLUGIN && h.plugins[h.pluginIdx].hasButton
    ensures calls != [] ==> calls == [PluginCall(h.pluginIdx, ButtonHook(button, action))]
  {
    if h.pluginIdx != NO_PLUGIN then CallIfPresent(h.plugins, h.pluginIdx, ButtonHook(button, action)) else []
  }

  /** `resize_callback`: a zero width or height is ignored; otherwise the
      viewport follows and an active plugin that handles resizes is told. */
  function ResizeCallback(h: Host, width: int, height: int): (calls: seq<Call>)
    requires Valid(h)
    ensures Safe(h.plugins, calls)
    ensures width == 0 || height == 0 ==> calls == []
    ensures width != 0 && height != 0 ==>
      && |calls| >= 1 && calls[0] == Viewport(width, height)
      && (|calls| == 2 <==> h.pluginIdx != NO_PLUGIN && h.plugins[h.pluginIdx].hasResize)
      && |calls| <= 2
      && (|calls| == 2 ==> calls[1] == PluginCall(h.pluginIdx, ResizeHook(width, height)))
  {
    if width == 0 || height == 0 then []
    else
      [Viewport(width, height)]
        + (if h.pluginIdx != NO_PLUGIN then CallIfPresent(h.plugins, h.pluginIdx, ResizeHook(width, height)) else [])
  }

  //~ Frame

  /** What a frame's render phase calls for the given (possibly just
      changed) active plugin. */
  function RenderCalls(h: Host): (calls: seq<Call>)
    requires Valid(h)
    ensures Safe(h.plugins, calls)
    ensures h.pluginIdx == NO_PLUGIN ==> calls == [ExplorerRender]
    ensures h.pluginIdx != NO_PLUGIN ==> ExplorerRender !in calls
    ensures h.pluginIdx != NO_PLUGIN ==>
      calls == CallIfPresent(h.plugins, h.pluginIdx, CustomRenderHook) + CallIfPresent(h.plugins, h.pluginIdx, RenderHook)
    ensures h.pluginIdx != NO_PLUGIN ==>
      (|calls| == 2 <==> h.plugins[h.pluginIdx].hasCustomRender && h.plugins[h.pluginIdx].hasRender)
  {
    if h.pluginIdx == NO_PLUGIN then [ExplorerRender]
    else CallIfPresent(h.plugins, h.pluginIdx, CustomRenderHook) + CallIfPresent(h.plugins, h.pluginIdx, RenderHook)
  }

  /** Where an entry the explorer opened goes (fexp.c's `check_plugin` call
      and `OS_FileOpen` fallback): a file goes to the first plugin claiming its
      extension, or to the operating system when none does; a folder or
      nothing involves neither. */
  method RouteOpened(h: Host, outcome: FileExplorer.Opened, extOf: Str -> Str, eq: (Str, Str) -> bool)
    returns (r: Step)
    requires Valid(h) && h.pluginIdx == NO_PLUGIN
    ensures Valid(r.host) && Safe(h.plugins, r.calls)
    ensures r.host == h.(pluginIdx := r.host.pluginIdx)
    ensures r.host.pluginIdx != NO_PLUGIN <==>
      outcome.OpenedFile? && exists i :: 0 <= i < |h.names| && Claims(h.names[i], extOf(outcome.path), eq)
    ensures r.host.pluginIdx != NO_PLUGIN ==>
      && Claims(h.names[r.host.pluginIdx], extOf(outcome.path), eq)
      && (forall j :: 0 <= j < r.host.pluginIdx ==> !Claims(h.names[j], extOf(outcome.path), eq))
      && r.calls == CallIfPresent(h.plugins, r.host.pluginIdx, InitHook(outcome.path))
    ensures r.host.pluginIdx == NO_PLUGIN ==>
      r.calls == (if outcome.OpenedFile? then [OpenWithOS(outcome.name)] else [])
  {
    if !outcome.OpenedFile? {
      return Step(h, []);
    }
    var found, step := CheckPlugin(h, outcome.path, extOf, eq);
    if found {
      r := step;
    } else {
      r := Step(h, [OpenWithOS(outcome.name)]);
    }
  }

  /** One iteration of the main loop. With no plugin active the explorer
      updates over `listing` (the current folder's entries); a file opened
      there goes to the first plugin claiming its extension, or to the
      operating system when no plugin claims it. Then the (possibly new)
      active plugin, or the explorer, renders. `outcome` is what the explorer
      opened this frame. */
  method Frame(h: Host, listing: seq<FileExplorer.Entry>, keys: FileExplorer.FrameKeys,
               helpers: FileExplorer.Helpers, extOf: Str -> Str, eq: (Str, Str) -> bool)
    returns (r: Step, outcome: FileExplorer.Opened)
    requires Valid(h)
    ensures Valid(r.host) && Safe(h.plugins, r.calls)
    ensures r.host.plugins == h.plugins && r.host.names == h.names
    ensures h.pluginIdx != NO_PLUGIN ==>
      r == Step(h, CallIfPresent(h.plugins, h.pluginIdx, UpdateHook) + RenderCalls(h))
      && outcome == FileExplorer.NothingOpened
    ensures h.pluginIdx == NO_PLUGIN ==>
      && outcome == FileExplorer.Opening(h.explorer, listing, keys, helpers)
      && r.host.explorer == FileExplorer.UpdatedExplorer(h.explorer, listing, keys, helpers)
      && (r.host.pluginIdx != NO_PLUGIN <==>
            outcome.OpenedFile? && exists i :: 0 <= i < |h.names| && Claims(h.names[i], extOf(outcome.path), eq))
      && (r.host.pluginIdx != NO_PLUGIN ==>
            && Claims(h.names[r.host.pluginIdx], extOf(outcome.path), eq)
            && (forall j :: 0 <= j < r.host.pluginIdx ==> !Claims(h.names[j], extOf(outcome.path), eq))
            && r.calls == [ExplorerUpdate] + CallIfPresent(h.plugins, r.host.pluginIdx, InitHook(outcome.path))
                          + RenderCalls(r.host))
      && (r.host.pluginIdx == NO_PLUGIN ==>
            r.calls == [ExplorerUpdate] + (if outcome.OpenedFile? then [OpenWithOS(outcome.name)] else [])
                       + [ExplorerRender])
    ensures h.pluginIdx == NO_PLUGIN ==>
      && |r.calls| >= 1 && r.calls[0] == ExplorerUpdate
      && (forall c :: c in r.calls && c.PluginCall? ==> !c.hook.UpdateHook?)
    ensures (ExplorerRender in r.calls) <==> r.host.pluginIdx == NO_PLUGIN
  {
    if h.pluginIdx != NO_PLUGIN {
      var updates := CallIfPresent(h.plugins, h.pluginIdx, UpdateHook);
      SafeConcat(h.plugins, updates, RenderCalls(h));
      return Step(h, updates + RenderCalls(h)), FileExplorer.NothingOpened;
    }
    var e, _, chosen := FileExplorer.Update(h.explorer, listing, keys, helpers);
    outcome := chosen;
    var step := RouteOpened(h.(explorer := e), chosen, extOf, eq);
    SafeConcat(h.plugins, [ExplorerUpdate], step.calls);
    SafeConcat(h.plugins, [ExplorerUpdate] + step.calls, RenderCalls(step.host));
    r := Step(step.host, [ExplorerUpdate] + step.calls + RenderCalls(step.host));
  }

  /** Leaving the main loop frees the active plugin, if it exports `Free`. */
  function Shutdown(h: Host): (calls: seq<Call>)
    requires Valid(h)
    ensures Safe(h.plugins, calls)
    ensures calls != [] <==> h.pluginIdx != NO_PLUGIN && h.plugins[h.pluginIdx].hasFree
  {
    if h.pluginIdx != NO_PLUGIN then CallIfPresent(h.plugins, h.pluginIdx, FreeHook) else []
  }

  /** Start-up: the registry from the plugin folder, no active plugin, and a
      fresh explorer. */
  method Startup(listing: seq<LibraryFile>, isLibrary: LibraryFile -> bool, cwd: Str, pathMax: nat)
    returns (h: Host)
    ensures Valid(h) && h.pluginIdx == NO_PLUGIN
    ensures |h.plugins| == CountIf(listing, isLibrary)
    ensures h.plugins == MapPlugins(Filter(listing, isLibrary))
    ensures h.names == MapExtensions(Filter(listing, isLibrary))
    ensures h.explorer == FileExplorer.Init(cwd, pathMax)
  {
    var plugins, names := FilloutPluginStructures(listing, isLibrary);
    h := Host(plugins, names, NO_PLUGIN, FileExplorer.Init(cwd, pathMax));
  }
}
