/** The development harness as the objects it works on: Electron's ipcMain
    and app, the module loader's cache and the window, each with the state
    the harness changes, and the harness itself with its own maps and lists.
    Every method is proved to take the state pictured by `State()` exactly
    where the corresponding function of DevModel takes it. */
module DevHarness {
  import opened Paths
  import opened DevModel
  import opened DevProperties

  /** Electron's ipcMain: its listener slots in registration order and its
      invoke handlers by channel. */
  class IpcMain {
    var listeners: seq<BusEntry>
    var handlers: map<Channel, Handler>

    constructor()
      ensures listeners == [] && handlers == map[]
    {
      listeners := [];
      handlers := map[];
    }

    method On(c: Channel, l: Listener)
      modifies this
      ensures listeners == old(listeners) + [BusEntry(Sub(c, l), Persistent)] && handlers == old(handlers)
    {
      listeners := listeners + [BusEntry(Sub(c, l), Persistent)];
    }

    method Once(c: Channel, l: Listener)
      modifies this
      ensures listeners == old(listeners) + [BusEntry(Sub(c, l), OneShot)] && handlers == old(handlers)
    {
      listeners := listeners + [BusEntry(Sub(c, l), OneShot)];
    }

    method RemoveListener(c: Channel, l: Listener)
      modifies this
      ensures listeners == DevModel.RemoveListener(old(listeners), Sub(c, l)) && handlers == old(handlers)
    {
      listeners := DevModel.RemoveListener(listeners, Sub(c, l));
    }

    method Handle(c: Channel, l: Listener)
      modifies this
      ensures handlers == old(handlers)[c := Handler(l, Persistent)] && listeners == old(listeners)
    {
      handlers := handlers[c := Handler(l, Persistent)];
    }

    method HandleOnce(c: Channel, l: Listener)
      modifies this
      ensures handlers == old(handlers)[c := Handler(l, OneShot)] && listeners == old(listeners)
    {
      handlers := handlers[c := Handler(l, OneShot)];
    }

    method RemoveHandler(c: Channel)
      modifies this
      ensures handlers == old(handlers) - {c} && listeners == old(listeners)
    {
      handlers := handlers - {c};
    }
  }

  /** Electron's app: the subscriptions made on it. */
  class ElectronApp {
    var subscriptions: seq<AppSub>

    constructor()
      ensures subscriptions == []
    {
      subscriptions := [];
    }

    method On(e: string, l: Listener)
      modifies this
      ensures subscriptions == old(subscriptions) + [AppSub(e, l)]
    {
      subscriptions := subscriptions + [AppSub(e, l)];
    }
  }

  /** The module loader's cache: path to the module function it loaded. */
  class ModuleCache {
    var loaded: map<Path, Script>

    constructor()
      ensures loaded == map[]
    {
      loaded := map[];
    }

    /** `require(p)`: the cached module, else the file on disk (now cached);
        `found` is false where `require` throws for a missing file. */
    method Require(p: Path, disk: map<Path, Script>) returns (found: bool, script: Script)
      modifies this
      ensures p in old(loaded) ==> found && script == old(loaded)[p] && loaded == old(loaded)
      ensures p !in old(loaded) && p in disk ==> found && script == disk[p] && loaded == old(loaded)[p := disk[p]]
      ensures p !in old(loaded) && p !in disk ==> !found && loaded == old(loaded)
    {
      if p in loaded {
        found, script := true, loaded[p];
      } else if p in disk {
        found, script := true, disk[p];
        loaded := loaded[p := disk[p]];
      } else {
        found, script := false, [];
      }
    }

    /** `decache(p)`. */
    method Decache(p: Path)
      modifies this
      ensures loaded == old(loaded) - {p}
    {
      loaded := loaded - {p};
    }
  }

  /** The BrowserWindow, reduced to the reloads requested of it. */
  class Window {
    var reloads: nat

    constructor()
      ensures reloads == 0
    {
      reloads := 0;
    }

    method Reload()
      modifies this
      ensures reloads == old(reloads) + 1
    {
      reloads := reloads + 1;
    }
  }

  /** The harness of `main`: the tracked context's bookkeeping and the
      lifecycle and watcher callbacks, over the build output directory `root`. */
  class Harness {
    const root: Path
    const ipcMain: IpcMain
    const app: ElectronApp
    const modules: ModuleCache
    const window: Window
    var onMap: map<Path, Record>
    var onceMap: map<Path, Record>
    var handleChannels: seq<Channel>
    var appUsingEvents: seq<string>
    var ipcFiles: seq<Path>

    /** Everything the harness and the objects it drives hold, as one value. */
    function State(): DevModel.State
      reads this, ipcMain, app, modules, window
    {
      DevModel.State(onMap, onceMap, handleChannels, appUsingEvents, ipcFiles,
                     ipcMain.listeners, ipcMain.handlers, app.subscriptions, modules.loaded, window.reloads)
    }

    predicate Valid()
      reads this, ipcMain, app, modules, window
    {
      Aligned(State())
    }

    constructor(root: Path)
      ensures this.root == root && State() == Init() && Valid()
    {
      this.root := root;
      ipcMain := new IpcMain();
      app := new ElectronApp();
      modules := new ModuleCache();
      window := new Window();
      onMap, onceMap, handleChannels, appUsingEvents, ipcFiles := map[], map[], [], [], [];
    }

    // ------------------------------------------------- the tracked context

    /** `_on(key)(channel, listener)`. */
    method On(key: Path, c: Channel, l: Listener)
      modifies this, ipcMain
      ensures State() == Subscribe(old(State()), Persistent, key, c, l)
    {
      onMap := onMap[key := Push(RecordOf(onMap, key), c, l)];
      ipcMain.On(c, l);
    }

    /** `_once(key)(channel, listener)`. */
    method Once(key: Path, c: Channel, l: Listener)
      modifies this, ipcMain
      ensures State() == Subscribe(old(State()), OneShot, key, c, l)
    {
      onceMap := onceMap[key := Push(RecordOf(onceMap, key), c, l)];
      ipcMain.Once(c, l);
    }

    /** `_handle(channel, listener)`. */
    method Handle(c: Channel, l: Listener)
      modifies this, ipcMain
      ensures State() == RegisterHandler(old(State()), Persistent, c, l)
    {
      ipcMain.Handle(c, l);
      handleChannels := handleChannels + [c];
    }

    /** `_handleOnce(channel, listener)`. */
    method HandleOnce(c: Channel, l: Listener)
      modifies this, ipcMain
      ensures State() == RegisterHandler(old(State()), OneShot, c, l)
    {
      ipcMain.HandleOnce(c, l);
      handleChannels := handleChannels + [c];
    }

    /** The context's `app.on(event, listener)`. */
    method AppOn(e: string, l: Listener)
      modifies this, app
      ensures State() == AppSubscribe(old(State()), e, l)
    {
      if e in appUsingEvents {
        return;
      }
      appUsingEvents := appUsingEvents + [e];
      app.On(e, l);
    }

    /** One call a module's function makes on the context. */
    method Perform(a: Action)
      requires !a.Throw?
      modifies this, ipcMain, app
      ensures State() == Apply(old(State()), a)
    {
      match a
      case On(key, c, l) => On(key, c, l);
      case Once(key, c, l) => Once(key, c, l);
      case Handle(c, l) => Handle(c, l);
      case HandleOnce(c, l) => HandleOnce(c, l);
      case AppOn(e, l) => AppOn(e, l);
    }

    // ----------------------------------------------------------- lifecycle

    /** `channels.forEach((channel, index) => removeListener(channel, listeners[index]))`
        over one record. */
    method RemovePairs(r: Record)
      requires |r.channels| == |r.listeners|
      modifies ipcMain
      ensures ipcMain.listeners == RemoveEach(old(ipcMain.listeners), Pairs(r))
      ensures ipcMain.handlers == old(ipcMain.handlers)
    {
      var i := 0;
      while i < |r.channels|
        invariant 0 <= i <= |r.channels|
        invariant RemoveEach(ipcMain.listeners, Pairs(r)[i..]) == RemoveEach(old(ipcMain.listeners), Pairs(r))
        invariant ipcMain.handlers == old(ipcMain.handlers)
      {
        assert Pairs(r)[i..][0] == Sub(r.channels[i], r.listeners[i]);
        assert Pairs(r)[i..][1..] == Pairs(r)[i + 1..];
        ipcMain.RemoveListener(r.channels[i], r.listeners[i]);
        i := i + 1;
      }
    }

    /** `_ipcHandleChannels.forEach((channel) => removeHandler(channel))`. */
    method RemoveHandlers(cs: seq<Channel>)
      modifies ipcMain
      ensures ipcMain.handlers == DropHandlers(old(ipcMain.handlers), cs)
      ensures ipcMain.listeners == old(ipcMain.listeners)
    {
      var i := 0;
      while i < |cs|
        invariant 0 <= i <= |cs|
        invariant DropHandlers(ipcMain.handlers, cs[i..]) == DropHandlers(old(ipcMain.handlers), cs)
        invariant ipcMain.listeners == old(ipcMain.listeners)
      {
        assert cs[i..][1..] == cs[i + 1..];
        ipcMain.RemoveHandler(cs[i]);
        i := i + 1;
      }
    }

    /** clearEvents(p): remove p's `on` pairs, then its `once` pairs, from
        ipcMain and drop both records; then removeHandler for every tracked
        channel and empty the list. */
    method ClearEvents(p: Path)
      requires Valid()
      modifies this, ipcMain
      ensures State() == DevModel.ClearEvents(old(State()), p)
    {
      ghost var s0 := State();
      if p in onMap {
        RemovePairs(onMap[p]);
        onMap := onMap - {p};
      }
      ghost var s1 := State();
      assert s1 == ClearKind(s0, Persistent, p);
      if p in onceMap {
        RemovePairs(onceMap[p]);
        onceMap := onceMap - {p};
      }
      assert State() == ClearKind(s1, OneShot, p);
      RemoveHandlers(handleChannels);
      handleChannels := [];
    }

    /** unmountModule(p). */
    method UnmountModule(p: Path)
      requires Valid()
      modifies this, ipcMain, modules
      ensures Valid() && State() == Unmount(old(State()), p)
    {
      ClearEvents(p);
      modules.Decache(p);
    }

    /** `_module.call(this, hackContext(context))`: the module's function
        makes its calls on the tracked context in order; `ok` is false where
        it throws. */
    method CallModule(script: Script) returns (ok: bool)
      requires Valid()
      modifies this, ipcMain, app
      ensures Valid() && State() == Run(old(State()), script).state && ok == Run(old(State()), script).Done?
    {
      var i := 0;
      while i < |script| && !script[i].Throw?
        invariant 0 <= i <= |script|
        invariant Valid()
        invariant Run(State(), script[i..]) == Run(old(State()), script)
        modifies this, ipcMain, app
      {
        ghost var s := State();
        RunStep(s, script, i);
        ApplyKeepsAligned(s, script[i]);
        Perform(script[i]);
        i := i + 1;
      }
      ok := i == |script|;
    }

    /** mountModule(p): `require` it, then call its function with the
        tracked context; `ok` is false where either throws. */
    method MountModule(p: Path, disk: map<Path, Script>) returns (ok: bool)
      requires Valid()
      modifies this, ipcMain, app, modules
      ensures Valid() && State() == Mount(old(State()), p, disk).state && ok == Mount(old(State()), p, disk).Done?
    {
      var found, script := modules.Require(p, disk);
      if !found {
        return false;
      }
      ok := CallModule(script);
    }

    /** hotReplaceModule(p). */
    method HotReplaceModule(p: Path, disk: map<Path, Script>) returns (ok: bool)
      requires Valid()
      modifies this, ipcMain, app, modules
      ensures Valid() && State() == HotReplace(old(State()), p, disk).state && ok == HotReplace(old(State()), p, disk).Done?
    {
      UnmountModule(p);
      ok := MountModule(p, disk);
    }

    /** unmountAllIpc: hot-replace every listed ipc file in order, stopping
        at the first that throws. */
    method UnmountAllIpc(disk: map<Path, Script>) returns (ok: bool)
      requires Valid()
      modifies this, ipcMain, app, modules
      ensures Valid()
      ensures State() == HotReplaceAll(old(State()), old(ipcFiles), disk).state
      ensures ok == HotReplaceAll(old(State()), old(ipcFiles), disk).Done?
    {
      var files := ipcFiles;
      var i := 0;
      while i < |files|
        invariant 0 <= i <= |files|
        invariant Valid()
        invariant HotReplaceAll(State(), files[i..], disk) == HotReplaceAll(old(State()), files, disk)
        modifies this, ipcMain, app, modules
      {
        ghost var s := State();
        ghost var o := HotReplace(s, files[i], disk);
        HotReplaceAllStep(s, files, i, disk);
        var done := HotReplaceModule(files[i], disk);
        assert State() == o.state && done == o.Done?;
        if !done {
          return false;
        }
        i := i + 1;
      }
      ok := true;
    }

    /** hotReplacePreload. */
    method HotReplacePreload()
      modifies window
      ensures State() == ReloadWindow(old(State()))
    {
      window.Reload();
    }

    /** The start-up call of the entry module. */
    method Boot(disk: map<Path, Script>) returns (ok: bool)
      requires Valid() && State() == Init()
      modifies this, ipcMain, app, modules
      ensures Valid() && State() == Start(root, disk).state && ok == Start(root, disk).Done?
    {
      ok := MountModule(Entry(root), disk);
    }

    // ------------------------------------------------------- the watcher

    /** The `change` callback. */
    method OnChange(p: Path, disk: map<Path, Script>) returns (ok: bool)
      requires Valid()
      modifies this, ipcMain, app, modules, window
      ensures Valid() && State() == Change(old(State()), root, p, disk).state && ok == Change(old(State()), root, p, disk).Done?
    {
      if p == Preload(root) {
        HotReplacePreload();
        ok := true;
      } else if p == Config(root) {
        ok := true;
      } else if IsIpcFile(root, p) {
        ok := HotReplaceModule(p, disk);
      } else if p == Entry(root) {
        ok := HotReplaceModule(Entry(root), disk);
      } else {
        ok := HotReplaceModule(Entry(root), disk);
        if ok {
          ok := UnmountAllIpc(disk);
        }
      }
    }

    /** The `unlink` callback. */
    method OnUnlink(p: Path)
      requires Valid()
      modifies this, ipcMain, modules
      ensures Valid() && State() == Unlink(old(State()), root, p)
    {
      if IsIpcFile(root, p) {
        ipcFiles := Filter(ipcFiles, p);
        UnmountModule(p);
      }
    }

    /** The `add` callback. */
    method OnAdd(p: Path, disk: map<Path, Script>) returns (ok: bool)
      requires Valid()
      modifies this, ipcMain, app, modules
      ensures Valid() && State() == Add(old(State()), root, p, disk).state && ok == Add(old(State()), root, p, disk).Done?
    {
      if IsIpcFile(root, p) {
        ipcFiles := ipcFiles + [p];
        ok := MountModule(p, disk);
      } else {
        ok := true;
      }
    }
  }
}
