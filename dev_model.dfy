/** The development entry's hot-reload bookkeeping as state transitions on
    values: the registration tracker, the tracked context handed to modules,
    the module lifecycle and the change dispatcher, together with the parts of
    Electron and of the module loader they act on. The class in DevHarness
    performs these same transitions in place. */
module DevModel {
  import opened Paths

  type Channel = string

  /** The identity of a listener function (functions are compared by reference). */
  type Listener = nat

  /** A persistent (`on`, `handle`) or one-shot (`once`, `handleOnce`) registration. */
  datatype Kind = Persistent | OneShot

  /** A (channel, listener) pair, the unit `removeListener` takes. */
  datatype Sub = Sub(channel: Channel, listener: Listener)

  /** One listener slot of ipcMain, in registration order. */
  datatype BusEntry = BusEntry(sub: Sub, kind: Kind)

  /** The handler ipcMain answers `invoke` on a channel with. */
  datatype Handler = Handler(listener: Listener, kind: Kind)

  /** One subscription made on the real `app`. */
  datatype AppSub = AppSub(event: string, listener: Listener)

  /** What the tracker keeps per module path: `channels[i]` pairs with `listeners[i]`. */
  datatype Record = Record(channels: seq<Channel>, listeners: seq<Listener>)

  /** One call a module's exported function makes on the context it is given.
      `On` and `Once` carry the path key the module passes to the curried
      `ipcMain.on(key)(channel, listener)`; `Throw` is the function throwing. */
  datatype Action =
    | On(key: Path, channel: Channel, listener: Listener)
    | Once(key: Path, channel: Channel, listener: Listener)
    | Handle(channel: Channel, listener: Listener)
    | HandleOnce(channel: Channel, listener: Listener)
    | AppOn(event: string, listener: Listener)
    | Throw

  /** What calling a module's exported function does, in order. */
  type Script = seq<Action>

  /** The harness's own maps and lists, then ipcMain's listeners and handlers,
      the real app's subscriptions, the loader's cache (path to the script it
      loaded) and the number of window reloads requested. */
  datatype State = State(
    onMap: map<Path, Record>,
    onceMap: map<Path, Record>,
    handleChannels: seq<Channel>,
    appUsingEvents: seq<string>,
    ipcFiles: seq<Path>,
    listeners: seq<BusEntry>,
    handlers: map<Channel, Handler>,
    appSubs: seq<AppSub>,
    cache: map<Path, Script>,
    reloads: nat)

  /** A lifecycle step either completes or throws; either way the state it reached stays. */
  datatype Outcome = Done(state: State) | Failed(state: State)

  datatype Event = Changed(path: Path) | Unlinked(path: Path) | Added(path: Path)

  /** A watcher event together with what the files on disk hold when it is handled. */
  datatype Tick = Tick(event: Event, disk: map<Path, Script>)

  /** The tables as `main` creates them: no records, no handle channels, no
      used app events, no ipc files, and nothing registered or loaded yet. */
  function Init(): (s: State)
    ensures Aligned(s) && AppTracked(s) && HandlersTracked(s)
    ensures s.onMap == map[] && s.onceMap == map[] && s.handleChannels == [] && s.ipcFiles == []
  {
    State(map[], map[], [], [], [], [], map[], [], map[], 0)
  }

  // ---------------------------------------------------------------- invariants

  predicate AlignedMap(m: map<Path, Record>)
  {
    forall p :: p in m ==> |m[p].channels| == |m[p].listeners|
  }

  /** Every record's two lists have the same length. */
  predicate Aligned(s: State)
  {
    AlignedMap(s.onMap) && AlignedMap(s.onceMap)
  }

  predicate NoDup(xs: seq<string>)
  {
    forall i, j :: 0 <= i < j < |xs| ==> xs[i] != xs[j]
  }

  /** The real app holds one subscription per used event name, in the same order. */
  predicate AppTracked(s: State)
  {
    NoDup(s.appUsingEvents) && |s.appSubs| == |s.appUsingEvents| &&
    forall i :: 0 <= i < |s.appSubs| ==> s.appSubs[i].event == s.appUsingEvents[i]
  }

  /** The process-wide handle list names exactly the channels ipcMain has a handler for. */
  ghost predicate HandlersTracked(s: State)
  {
    forall c :: c in s.handlers <==> c in s.handleChannels
  }

  ghost predicate Inv(s: State)
  {
    Aligned(s) && AppTracked(s) && HandlersTracked(s)
  }

  // ------------------------------------------------------------------- records

  function Records(s: State, k: Kind): map<Path, Record>
  {
    if k == Persistent then s.onMap else s.onceMap
  }

  function WithRecords(s: State, k: Kind, m: map<Path, Record>): State
  {
    if k == Persistent then s.(onMap := m) else s.(onceMap := m)
  }

  /** The record of `p`, an absent one read as empty. */
  function RecordOf(m: map<Path, Record>, p: Path): Record
  {
    if p in m then m[p] else Record([], [])
  }

  function Push(r: Record, c: Channel, l: Listener): Record
  {
    Record(r.channels + [c], r.listeners + [l])
  }

  /** `r` with each pair of `subs` pushed, in order. */
  function Extend(r: Record, subs: seq<Sub>): Record
    decreases |subs|
  {
    if subs == [] then r else Extend(Push(r, subs[0].channel, subs[0].listener), subs[1..])
  }

  /** The record read as its (channel, listener) pairs. */
  function Pairs(r: Record): seq<Sub>
    requires |r.channels| == |r.listeners|
  {
    seq(|r.channels|, i requires 0 <= i < |r.channels| => Sub(r.channels[i], r.listeners[i]))
  }

  function Subs(xs: seq<BusEntry>): seq<Sub>
  {
    seq(|xs|, i requires 0 <= i < |xs| => xs[i].sub)
  }

  // ------------------------------------------------- the tracked context (proxy)

  /** `_on(key)(channel, listener)` (k = Persistent) and `_once(key)(channel, listener)`
      (k = OneShot): push onto key's record, creating it when absent, then
      register on ipcMain. */
  function Subscribe(s: State, k: Kind, key: Path, c: Channel, l: Listener): (r: State)
    ensures Records(r, k) == Records(s, k)[key := Push(RecordOf(Records(s, k), key), c, l)]
    ensures Records(r, if k == Persistent then OneShot else Persistent) == Records(s, if k == Persistent then OneShot else Persistent)
    ensures r.listeners == s.listeners + [BusEntry(Sub(c, l), k)]
    ensures r.handlers == s.handlers && r.handleChannels == s.handleChannels && r.appSubs == s.appSubs && r.cache == s.cache
  {
    var m := Records(s, k);
    WithRecords(s, k, m[key := Push(RecordOf(m, key), c, l)]).(listeners := s.listeners + [BusEntry(Sub(c, l), k)])
  }

  /** `_handle` (k = Persistent) and `_handleOnce` (k = OneShot): register on
      ipcMain, then append the channel to the process-wide list. */
  function RegisterHandler(s: State, k: Kind, c: Channel, l: Listener): (r: State)
    ensures c in r.handlers && r.handlers[c] == Handler(l, k)
    ensures r.handleChannels == s.handleChannels + [c]
    ensures r.onMap == s.onMap && r.onceMap == s.onceMap && r.listeners == s.listeners && r.appSubs == s.appSubs
  {
    s.(handlers := s.handlers[c := Handler(l, k)], handleChannels := s.handleChannels + [c])
  }

  /** The context's `app.on`: ignored when the event name is already used. */
  function AppSubscribe(s: State, e: string, l: Listener): (r: State)
    ensures e in r.appUsingEvents
    ensures e in s.appUsingEvents ==> r == s
    ensures e !in s.appUsingEvents ==>
              r.appUsingEvents == s.appUsingEvents + [e] && r.appSubs == s.appSubs + [AppSub(e, l)]
    ensures r.onMap == s.onMap && r.onceMap == s.onceMap && r.listeners == s.listeners && r.handlers == s.handlers
  {
    if e in s.appUsingEvents then s
    else s.(appUsingEvents := s.appUsingEvents + [e], appSubs := s.appSubs + [AppSub(e, l)])
  }

  /** One call a module's function makes on the tracked context. It adds
      exactly the ipcMain slot and the handle channel of that call, and
      never touches the ipc file list, the loader's cache or the window. */
  function Apply(s: State, a: Action): (r: State)
    requires !a.Throw?
    ensures r.listeners == s.listeners + EntryOf(a)
    ensures r.handleChannels == s.handleChannels + HandleOf(a)
    ensures r.ipcFiles == s.ipcFiles && r.cache == s.cache && r.reloads == s.reloads
  {
    match a
    case On(key, c, l) => Subscribe(s, Persistent, key, c, l)
    case Once(key, c, l) => Subscribe(s, OneShot, key, c, l)
    case Handle(c, l) => RegisterHandler(s, Persistent, c, l)
    case HandleOnce(c, l) => RegisterHandler(s, OneShot, c, l)
    case AppOn(e, l) => AppSubscribe(s, e, l)
  }

  /** Calling a module's exported function with the tracked context: its calls
      take effect in order until it throws. */
  function Run(s: State, script: Script): (o: Outcome)
    ensures o.state.ipcFiles == s.ipcFiles && o.state.cache == s.cache && o.state.reloads == s.reloads
    ensures Aligned(s) ==> Aligned(o.state)
    decreases |script|
  {
    if script == [] then Done(s)
    else if script[0].Throw? then Failed(s)
    else Run(Apply(s, script[0]), script[1..])
  }

  // ------------------------------------------------------------------ clearing

  /** ipcMain.removeListener(channel, listener): drops the most recently added
      slot holding that pair, if there is one. */
  function RemoveListener(xs: seq<BusEntry>, x: Sub): (r: seq<BusEntry>)
    ensures x !in Subs(xs) ==> r == xs
    ensures x in Subs(xs) ==> |r| == |xs| - 1
    decreases |xs|
  {
    if xs == [] then []
    else
      assert Subs(xs) == Subs(xs[..|xs| - 1]) + [xs[|xs| - 1].sub];
      if xs[|xs| - 1].sub == x then xs[..|xs| - 1]
      else RemoveListener(xs[..|xs| - 1], x) + [xs[|xs| - 1]]
  }

  /** One removeListener per pair, in order. */
  function RemoveEach(xs: seq<BusEntry>, subs: seq<Sub>): (r: seq<BusEntry>)
    ensures |xs| - |subs| <= |r| <= |xs|
    decreases |subs|
  {
    if subs == [] then xs else RemoveEach(RemoveListener(xs, subs[0]), subs[1..])
  }

  /** One removeHandler per channel, in order. */
  function DropHandlers(h: map<Channel, Handler>, cs: seq<Channel>): (r: map<Channel, Handler>)
    ensures forall c :: c in r <==> c in h && c !in cs
    ensures forall c :: c in r ==> r[c] == h[c]
    decreases |cs|
  {
    if cs == [] then h
    else
      assert forall c :: c in cs <==> c == cs[0] || c in cs[1..];
      DropHandlers(h - {cs[0]}, cs[1..])
  }

  /** The `on` (or `once`) half of clearEvents: when `p` has a record, remove
      each of its pairs from ipcMain and make the record absent. */
  function ClearKind(s: State, k: Kind, p: Path): (r: State)
    requires AlignedMap(Records(s, k))
    ensures Records(r, k) == Records(s, k) - {p}
    ensures Records(r, if k == Persistent then OneShot else Persistent) == Records(s, if k == Persistent then OneShot else Persistent)
    ensures p !in Records(s, k) ==> r.listeners == s.listeners
    ensures r.handlers == s.handlers && r.handleChannels == s.handleChannels && r.cache == s.cache && r.appSubs == s.appSubs
  {
    var m := Records(s, k);
    if p in m then WithRecords(s, k, m - {p}).(listeners := RemoveEach(s.listeners, Pairs(m[p])))
    else s
  }

  /** The handle half of clearEvents: removeHandler for every tracked channel,
      whoever registered it, then an empty list. */
  function ClearHandles(s: State): (r: State)
    ensures r.handleChannels == []
    ensures forall c :: c in s.handlers && c !in s.handleChannels ==> c in r.handlers
    ensures HandlersTracked(s) ==> r.handlers == map[]
    ensures r.onMap == s.onMap && r.onceMap == s.onceMap && r.listeners == s.listeners && r.cache == s.cache
  {
    s.(handlers := DropHandlers(s.handlers, s.handleChannels), handleChannels := [])
  }

  /** clearEvents(p). */
  function ClearEvents(s: State, p: Path): (r: State)
    requires Aligned(s)
    ensures Aligned(r)
  {
    ClearHandles(ClearKind(ClearKind(s, Persistent, p), OneShot, p))
  }

  // ----------------------------------------------------------------- lifecycle

  /** unmountModule(p): clearEvents, then evict p from the loader's cache. */
  function Unmount(s: State, p: Path): (r: State)
    requires Aligned(s)
    ensures Aligned(r)
  {
    var t := ClearEvents(s, p);
    t.(cache := t.cache - {p})
  }

  /** mountModule(p): `require` serves the cached script, or loads (and caches)
      what is on disk, or throws for a missing file; then the exported function
      runs with the tracked context. */
  function Mount(s: State, p: Path, disk: map<Path, Script>): (o: Outcome)
    ensures Aligned(s) ==> Aligned(o.state)
  {
    if p in s.cache then Run(s, s.cache[p])
    else if p in disk then Run(s.(cache := s.cache[p := disk[p]]), disk[p])
    else Failed(s)
  }

  /** hotReplaceModule(p). */
  function HotReplace(s: State, p: Path, disk: map<Path, Script>): (o: Outcome)
    requires Aligned(s)
    ensures Aligned(o.state)
  {
    Mount(Unmount(s, p), p, disk)
  }

  /** Start-up: the entry module is required and called once, before the
      watcher is set up (ipc files are mounted by the watcher's initial `add`
      events). */
  function Start(root: Path, disk: map<Path, Script>): (o: Outcome)
    ensures Aligned(o.state)
  {
    Mount(Init(), Entry(root), disk)
  }

  /** unmountAllIpc: hot-replace each file in order; a throw ends the loop. */
  function HotReplaceAll(s: State, files: seq<Path>, disk: map<Path, Script>): (o: Outcome)
    requires Aligned(s)
    ensures Aligned(o.state)
    decreases |files|
  {
    if files == [] then Done(s)
    else
      var o := HotReplace(s, files[0], disk);
      if o.Failed? then o else HotReplaceAll(o.state, files[1..], disk)
  }

  /** hotReplacePreload: the window exists once watching starts, so a reload is requested. */
  function ReloadWindow(s: State): (r: State)
    ensures r.reloads == s.reloads + 1
    ensures r.(reloads := s.reloads) == s
  {
    s.(reloads := s.reloads + 1)
  }

  // ---------------------------------------------------------------- dispatcher

  /** `ipcFiles.filter(q => q !== p)`. */
  function Filter(files: seq<Path>, p: Path): (r: seq<Path>)
    ensures p !in r && |r| <= |files|
    ensures forall q :: q in r ==> q in files
    decreases |files|
  {
    if files == [] then []
    else (if files[0] == p then [] else [files[0]]) + Filter(files[1..], p)
  }

  /** The `change` callback: first match wins. */
  function Change(s: State, root: Path, p: Path, disk: map<Path, Script>): (o: Outcome)
    requires Aligned(s)
    ensures Aligned(o.state)
  {
    if p == Preload(root) then Done(ReloadWindow(s))
    else if p == Config(root) then Done(s)
    else if IsIpcFile(root, p) then HotReplace(s, p, disk)
    else if p == Entry(root) then HotReplace(s, Entry(root), disk)
    else
      var o := HotReplace(s, Entry(root), disk);
      if o.Failed? then o else HotReplaceAll(o.state, o.state.ipcFiles, disk)
  }

  /** The `unlink` callback. */
  function Unlink(s: State, root: Path, p: Path): (r: State)
    requires Aligned(s)
    ensures Aligned(r)
  {
    if IsIpcFile(root, p) then Unmount(s.(ipcFiles := Filter(s.ipcFiles, p)), p) else s
  }

  /** The `add` callback. */
  function Add(s: State, root: Path, p: Path, disk: map<Path, Script>): (o: Outcome)
    ensures Aligned(s) ==> Aligned(o.state)
  {
    if IsIpcFile(root, p) then Mount(s.(ipcFiles := s.ipcFiles + [p]), p, disk) else Done(s)
  }

  function Dispatch(s: State, root: Path, e: Event, disk: map<Path, Script>): (o: Outcome)
    requires Aligned(s)
    ensures Aligned(o.state)
  {
    match e
    case Changed(p) => Change(s, root, p, disk)
    case Unlinked(p) => Done(Unlink(s, root, p))
    case Added(p) => Add(s, root, p, disk)
  }

  /** Events handled one after another; a callback that throws leaves its
      state behind and the watcher goes on. */
  function Replay(s: State, root: Path, ticks: seq<Tick>): (r: State)
    requires Aligned(s)
    ensures Aligned(r)
    decreases |ticks|
  {
    if ticks == [] then s
    else Replay(Dispatch(s, root, ticks[0].event, ticks[0].disk).state, root, ticks[1..])
  }

  // ------------------------------------------------ what a script registers

  predicate SubscribesAs(a: Action, k: Kind)
  {
    (a.On? && k == Persistent) || (a.Once? && k == OneShot)
  }

  /** The pair one call subscribes under `key` with kind `k`. */
  function RegisteredBy(a: Action, k: Kind, key: Path): seq<Sub>
  {
    if SubscribesAs(a, k) && a.key == key then [Sub(a.channel, a.listener)] else []
  }

  /** The ipcMain slot one call adds. */
  function EntryOf(a: Action): seq<BusEntry>
  {
    if a.On? then [BusEntry(Sub(a.channel, a.listener), Persistent)]
    else if a.Once? then [BusEntry(Sub(a.channel, a.listener), OneShot)]
    else []
  }

  /** The handle channel one call registers. */
  function HandleOf(a: Action): seq<Channel>
  {
    if a.Handle? || a.HandleOnce? then [a.channel] else []
  }

  /** The pairs the script subscribes under `key` with kind `k`, up to its first throw. */
  function Registered(script: Script, k: Kind, key: Path): seq<Sub>
    decreases |script|
  {
    if script == [] || script[0].Throw? then []
    else RegisteredBy(script[0], k, key) + Registered(script[1..], k, key)
  }

  /** The ipcMain slots the script adds, up to its first throw. */
  function Entries(script: Script): seq<BusEntry>
    decreases |script|
  {
    if script == [] || script[0].Throw? then [] else EntryOf(script[0]) + Entries(script[1..])
  }

  /** The handle channels the script registers, up to its first throw. */
  function HandleChannels(script: Script): seq<Channel>
    decreases |script|
  {
    if script == [] || script[0].Throw? then [] else HandleOf(script[0]) + HandleChannels(script[1..])
  }

  /** The script subscribes only under its own path `p`. */
  predicate Owns(script: Script, p: Path)
  {
    forall i :: 0 <= i < |script| && (script[i].On? || script[i].Once?) ==> script[i].key == p
  }

  /** The script never throws. */
  predicate Completes(script: Script)
  {
    forall i :: 0 <= i < |script| ==> !script[i].Throw?
  }

  /** How many subscriptions the real app holds for event `e`. */
  function CountEvent(subs: seq<AppSub>, e: string): nat
    decreases |subs|
  {
    if subs == [] then 0
    else CountEvent(subs[..|subs| - 1], e) + (if subs[|subs| - 1].event == e then 1 else 0)
  }
}
