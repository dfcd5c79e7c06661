# Hot-reload harness of the Electron development entry

This project models the bookkeeping that `src/template/entry-dev.ts` does to
hot-reload an Electron main process while it is being developed, and proves
what that bookkeeping guarantees.

The harness hands every module of the build output a *tracked context*.
That context is a proxy for `ipcMain.on/once/handle/handleOnce` and for
`app.on`. Through it, the harness records:

- per file path, the `(channel, listener)` pairs each module subscribed with
  `on` and with `once`, held in two lists kept in lockstep;
- one process-wide list of the channels handled with `handle`/`handleOnce`;
- the app event names already subscribed through the context, so that the
  context adds at most one subscription on the real app per event name.

The lifecycle operations work on these records:

- `clearEvents` removes one path's pairs from ipcMain, then drains every
  tracked handle channel.
- `unmountModule` is `clearEvents`, then evicting the module from the loader.
- `mountModule` is `require`, then calling the module's function with the
  tracked context.
- `hotReplaceModule` is unmount, then mount.

A file watcher routes `change`, `unlink` and `add` events to these
operations, first match wins:

1. the preload script only reloads the window;
2. the config file changes nothing;
3. an ipc file is hot-replaced on its own;
4. the entry module is hot-replaced on its own;
5. any other file hot-replaces the entry module, then every known ipc file.

The `add` and `unlink` events keep the list of known ipc files.

Modules:

- `Paths` (`paths.dfy`) covers paths as lists of segments, the fixed files,
  and `isIpcFile`.
- `DevModel` (`dev_model.dfy`) holds the whole state as one value and
  defines each operation as a function on it.
- Module functions are modelled as *scripts*: the sequence of calls a
  function makes on the context, with the key it passes to the curried
  `on(key)`/`once(key)`. `Throw` stands for the function throwing part way.
  The loader's cache maps a path to the script it loaded, and the disk is a
  parameter mapping paths to scripts.
- ipcMain's listeners are an ordered sequence of slots. `removeListener`
  drops the most recently added slot with that pair.
- `DevProperties` (`dev_properties.dfy`) proves the tracker, proxy and
  `clearEvents` properties.
- `DispatchProperties` (`dispatch_properties.dfy`) proves the lifecycle,
  routing and event-sequence invariants.
- `DevHarness` (`dev_harness.dfy`) is the imperative form.
  - Class `Harness` has the module-level fields `onMap`, `onceMap`,
    `handleChannels`, `appUsingEvents` and `ipcFiles`.
  - It works on objects for ipcMain, the app, the loader cache and the
    window. Its `forEach` loops are `while` loops.
  - Each method is proved to leave `State()` equal to the corresponding
    `DevModel` function of the old state.

A consequence the proofs make explicit: `clearEvents` drains *all* handle
channels, whoever registered them. So after an ipc file is hot-replaced,
ipcMain handles exactly that file's channels, and every other module's
handlers are gone (`DispatchProperties.ChangeOfIpcFile`). When the fallback
route completes, only the handle channels of the last module it hot-replaced
are still tracked: the last ipc file's, or the entry module's when no ipc file
is listed (`DispatchProperties.ChangeOfOtherFile`).

## Model

| member | source | states |
|---|---|---|
| Paths.Join | src/template/entry-dev.ts:171-174 | `join(dir, name)` is `dir` followed by the one segment `name` |
| Paths.Dir | src/template/entry-dev.ts:174 | `parse(p).dir` is p without its last segment, and p is that dir plus the last segment |
| Paths.Entry | src/template/entry-dev.ts:9 | `mPath` is the file `index.js` directly in the build output directory |
| Paths.Preload | src/template/entry-dev.ts:182 | the preload path is the file `preload.js` directly in the build output directory |
| Paths.Config | src/template/entry-dev.ts:184 | the config path is the file `config.js` directly in the build output directory |
| Paths.IsIpcFile | src/template/entry-dev.ts:173-175 | a path is an ipc file iff it is the build output directory, then `ipc`, then one last segment ending in `.js` |
| Paths.IsJs | src/template/entry-dev.ts:174 | the `/\.js$/` test read off the last segment: it holds exactly when that segment is some name followed by `.js` |
| Paths.IpcDir | src/template/entry-dev.ts:174 | `join(src, 'ipc')` is the build output directory with the one segment `ipc` appended |
| Paths.RenderedJsSuffix | src/template/entry-dev.ts:174 | for plain segments, reading `.js` off the last segment agrees with testing `/\.js$/` on the full path string, in both directions |
| Paths.RoutesDisjoint | src/template/entry-dev.ts:171-194 | preload, config and entry (`mPath`) are pairwise distinct, and none of them is an ipc file |
| DevModel.Init | src/template/entry-dev.ts:42-46 | the tables start empty, so every invariant holds at the start |
| DevModel.Subscribe | src/template/entry-dev.ts:49-71 | `_on`/`_once` push the pair onto the key's record, creating it when absent; every other record of either kind stays; exactly one slot of that kind is appended to ipcMain; handlers, app and cache are untouched |
| DevModel.RegisterHandler | src/template/entry-dev.ts:73-83 | `_handle`/`_handleOnce` give the channel the new handler and append the channel to the list; records and listeners are untouched |
| DevModel.AppSubscribe | src/template/entry-dev.ts:97-103 | the context's `app.on` leaves e marked as used; it is a no-op when e was used already, and otherwise records e and subscribes the real app once |
| DevModel.RemoveListener | src/template/entry-dev.ts:129-138 | removeListener leaves the slots unchanged when the pair is absent, and otherwise takes away exactly one slot |
| DevModel.DropHandlers | src/template/entry-dev.ts:144-146 | removeHandler for each listed channel leaves exactly the handlers of the channels not listed, with their values |
| DevModel.ClearKind | src/template/entry-dev.ts:126-141 | one half of clearEvents makes p's record of that kind absent, keeps the other kind's records, leaves ipcMain alone when p has no record, and does not touch handlers |
| DevModel.ClearHandles | src/template/entry-dev.ts:143-147 | the handle part of clearEvents empties the list, keeps untracked handlers, and leaves no handler when the list tracked them all |
| DevModel.ReloadWindow | src/template/entry-dev.ts:165-169 | hotReplacePreload requests one reload and changes nothing else |
| DevModel.Filter | src/template/entry-dev.ts:200 | the filtered list no longer holds p, is no longer than before, and holds only earlier entries |
| DevModel.Run | src/template/entry-dev.ts:156 | calling a module's function leaves the ipc list, the loader cache and the reload count unchanged, and keeps every record's two lists in lockstep |
| DevModel.ClearEvents | src/template/entry-dev.ts:124-148 | clearEvents keeps the records' lockstep invariant |
| DevModel.Unmount | src/template/entry-dev.ts:150-153 | unmountModule keeps the lockstep invariant |
| DevModel.Mount | src/template/entry-dev.ts:154-157 | mountModule keeps the lockstep invariant, whether or not it throws |
| DevModel.HotReplace | src/template/entry-dev.ts:159-163 | hotReplaceModule keeps the lockstep invariant |
| DevModel.Start | src/template/entry-dev.ts:115 | the start-up call of the entry module leaves lockstep records |
| DevModel.HotReplaceAll | src/template/entry-dev.ts:118-120 | unmountAllIpc keeps the lockstep invariant |
| DevModel.Change | src/template/entry-dev.ts:181-197 | the `change` callback keeps the lockstep invariant |
| DevModel.Unlink | src/template/entry-dev.ts:198-203 | the `unlink` callback keeps the lockstep invariant |
| DevModel.Add | src/template/entry-dev.ts:204-209 | the `add` callback keeps the lockstep invariant |
| DevModel.Dispatch | src/template/entry-dev.ts:181-209 | each watcher callback keeps the lockstep invariant |
| DevModel.Replay | src/template/entry-dev.ts:177-209 | any sequence of watcher events keeps the lockstep invariant, including events whose callback throws |
| DevProperties.PairsExtend | src/template/entry-dev.ts:49-71 | pushing pairs in order keeps a record's lists equal in length, and entry i of the two lists is the i-th pair pushed |
| DevProperties.RunTracksRecords | src/template/entry-dev.ts:49-71 | under any key a module passes to `on`/`once`, that key's record grows by exactly the pairs subscribed under it, in call order; the record exists afterwards iff it existed before or something was subscribed under it |
| DevProperties.RunTracksListeners | src/template/entry-dev.ts:58-70 | ipcMain gains exactly the module's `on`/`once` slots, of the right kind, appended in call order |
| DevProperties.RunTracksHandles | src/template/entry-dev.ts:73-83 | every `handle`/`handleOnce` appends its channel to the single process-wide list, whichever module calls; those channels have handlers, and other handlers are kept unchanged |
| DevProperties.HandleTwiceTrackedTwice | src/template/entry-dev.ts:73-77 | handling the same channel twice leaves two entries in the list, and the later handler is the one registered |
| DevProperties.RunCompletesUnlessThrow | src/template/entry-dev.ts:156 | calling a module's function completes exactly when it does not throw |
| DevProperties.RunPreservesInv | src/template/entry-dev.ts:48-108 | a module's calls on the context keep lockstep records, one app subscription per used event name, and a handle list naming exactly the channels with handlers |
| DevProperties.ApplyPreservesInv | src/template/entry-dev.ts:48-108 | each single call on the tracked context (`on`, `once`, `handle`, `handleOnce`, `app.on`) keeps lockstep records, one app subscription per used event name, and a handle list naming exactly the handled channels |
| DevProperties.OwnedElsewhere | src/template/entry-dev.ts:49-71 | a module that passes only its own path to `on`/`once` records nothing under any other key |
| DevProperties.OwnedEntries | src/template/entry-dev.ts:49-71 | the ipcMain slots such a module adds are, as a multiset of pairs, its `on` record together with its `once` record |
| DevProperties.RemoveListenerRemovesOne | src/template/entry-dev.ts:129-138 | removeListener takes away one occurrence of the pair, if there is one |
| DevModel.RemoveEach | src/template/entry-dev.ts:128-139 | the `forEach` of removeListener calls over a record's pairs: each call removes at most one slot, so the slots shrink by at most the number of pairs |
| DevProperties.RemoveEachRemoves | src/template/entry-dev.ts:128-139 | one removeListener per recorded pair takes away exactly the multiset of those pairs |
| DevProperties.ClearKindEffect | src/template/entry-dev.ts:126-141 | one half of clearEvents makes p's record of that kind absent, removes from ipcMain exactly its pairs, and changes nothing else |
| DevProperties.ClearEventsListeners | src/template/entry-dev.ts:124-141 | clearEvents(p) leaves p's entries absent in both maps and every other path's records unchanged; it removes from ipcMain exactly the pairs recorded under p; if p has no record, ipcMain's listeners are untouched |
| DevProperties.ClearEventsHandlers | src/template/entry-dev.ts:143-147 | clearEvents(p), for any p, calls removeHandler on every tracked channel and empties the list; other handlers, the cache, the app and the ipc list are untouched |
| DevProperties.ClearEventsDrainsAllHandlers | src/template/entry-dev.ts:143-147 | with the list tracking the handlers, clearEvents leaves no handler at all, including other modules' handlers, and keeps the invariants |
| DevProperties.UnmountRestoresListeners | src/template/entry-dev.ts:124-157 | after a mount of a module with no prior records that passes only its own path, clearing it gives back ipcMain's listeners exactly, in order |
| DevProperties.UnmountRestoresRecords | src/template/entry-dev.ts:124-157 | in the same situation, clearing gives back the record maps exactly |
| DevProperties.UnmountUndoesMount | src/template/entry-dev.ts:150-157 | unmountModule after a fresh mountModule restores listeners, both record maps and the loader cache; it empties the handle list, and app subscriptions stay |
| DevProperties.CountTracked | src/template/entry-dev.ts:97-103 | while the used-event list tracks the subscriptions made through the context, those subscriptions number exactly one per used event name and none for any other name |
| DevProperties.AppSubscribeOnce | src/template/entry-dev.ts:97-103 | the context's `app.on(e, l)` subscribes the real app only when e is unused; a second call with the same e is a no-op; exactly one subscription for e results |
| DispatchProperties.HotReplaceLoadsFresh | src/template/entry-dev.ts:150-163 | hotReplaceModule(p) loads p afresh from disk whatever the cache held; a missing file throws and leaves p uncached; it completes iff p's function does not throw; afterwards the handle list is exactly p's handle channels |
| DispatchProperties.HotReplaceAllDone | src/template/entry-dev.ts:118-120 | unmountAllIpc completes iff every listed file is on disk and none of their functions throws; a missing file or a throw ends the `forEach`; the ipc list and the reload count are unchanged |
| DispatchProperties.HotReplaceAllFrame | src/template/entry-dev.ts:118-120 | modules not listed keep their cache entries, whether or not the loop stops early |
| DispatchProperties.HotReplaceAllFresh | src/template/entry-dev.ts:118-120 | when unmountAllIpc completes, every listed file is cached exactly as it is on disk |
| DispatchProperties.HotReplaceAllLastHandles | src/template/entry-dev.ts:118-120 | when unmountAllIpc completes, only the last listed file's handle channels are still tracked |
| DispatchProperties.HotReplaceAllEffect | src/template/entry-dev.ts:118-120 | unmountAllIpc completes iff every listed file is on disk and none throws; then every listed file is freshly cached and only the last file's handle channels remain; unlisted modules keep their cache entries in every case |
| DispatchProperties.HotReplaceIsFreshRun | src/template/entry-dev.ts:150-163 | hot-replacing a file on disk drops its records, then runs its fresh script with the file cached anew, whatever the cache held before |
| DispatchProperties.HotReplaceRecordsElsewhere | src/template/entry-dev.ts:159-163 | hot-replacing a module that passes only its own path leaves every other path's records unchanged |
| DispatchProperties.HotReplaceRecordOwn | src/template/entry-dev.ts:159-163 | after hot-replacing p, p's records hold exactly what the fresh function subscribed, and nothing of the old registration |
| DispatchProperties.HotReplaceHandlers | src/template/entry-dev.ts:143-163 | after hot-replacing p, ipcMain has handlers for exactly the channels p's fresh function handles |
| DispatchProperties.ChangeRoutesIpcFile | src/template/entry-dev.ts:182-190 | a change of an ipc file takes the ipc route, never the preload or config one |
| DispatchProperties.ChangeOfFixedFiles | src/template/entry-dev.ts:182-192 | preload change: one window reload and nothing else; config change: no state change; entry change: hot replacement of the entry module only |
| DispatchProperties.ChangeOfIpcFile | src/template/entry-dev.ts:189-190 | an ipc file change hot-replaces that path only: other paths' records and cache entries are unchanged; its records and handle list are exactly those of its fresh function; every other module's handler is gone |
| DispatchProperties.ChangeRoutesOther | src/template/entry-dev.ts:193-196 | any other changed file hot-replaces the entry module, then, unless that threw, every listed ipc file |
| DispatchProperties.ChangeOfOtherFileDone | src/template/entry-dev.ts:193-196 | the fallback completes iff the entry module and every listed ipc file are on disk and none throws; if the entry's replacement throws, the ipc files are not touched |
| DispatchProperties.ChangeOfOtherFileFresh | src/template/entry-dev.ts:193-196 | when the fallback completes, the entry module and every ipc file are cached fresh from disk and only the last module's handle channels remain |
| DispatchProperties.ChangeOfOtherFile | src/template/entry-dev.ts:193-196 | any other change hot-replaces the entry module, then each ipc file in order. It completes iff all are on disk and none throws; then all are fresh and the last one's handle channels remain. If the entry's replacement throws (missing file or throwing function), the ipc files are not touched |
| DispatchProperties.FilterRemoves | src/template/entry-dev.ts:200 | the filter removes every occurrence of p and keeps every other entry with its multiplicity |
| DispatchProperties.UnlinkEffect | src/template/entry-dev.ts:198-203 | unlink of an ipc file removes it from the list and unmounts it without remounting (no records, not cached, handles drained, its pairs removed from ipcMain); unlink of any other path changes nothing |
| DispatchProperties.AddEffect | src/template/entry-dev.ts:204-209 | add of an ipc file appends it and mounts it with `mountModule`, not `hotReplaceModule`: a file already cached runs its cached function again, a missing file throws after the append, a new file is loaded and its subscriptions recorded; add of any other path changes nothing |
| DispatchProperties.UnmountPreservesInv | src/template/entry-dev.ts:150-153 | unmountModule keeps the invariants |
| DispatchProperties.MountPreservesInv | src/template/entry-dev.ts:154-157 | mountModule keeps the invariants, whether or not it throws |
| DispatchProperties.HotReplacePreservesInv | src/template/entry-dev.ts:159-163 | hotReplaceModule keeps the invariants |
| DispatchProperties.HotReplaceAllPreservesInv | src/template/entry-dev.ts:118-120 | unmountAllIpc keeps the invariants |
| DevProperties.HotReplaceAllStep | src/template/entry-dev.ts:118-120 | proof helper for `Harness.UnmountAllIpc`: unmountAllIpc's one-step unfolding at position i (file i first, the rest only when it did not throw) |
| DispatchProperties.HotReplaceAllIpcFiles | src/template/entry-dev.ts:118-120 | hot-replacing the ipc files does not change the ipc list |
| DispatchProperties.ChangePreservesInv | src/template/entry-dev.ts:181-197 | the `change` callback keeps the invariants and does not change the ipc list |
| DispatchProperties.UnlinkPreservesInv | src/template/entry-dev.ts:198-203 | the `unlink` callback keeps the invariants and an ipc list of ipc files |
| DispatchProperties.AddPreservesInv | src/template/entry-dev.ts:204-209 | the `add` callback keeps the invariants and an ipc list of ipc files |
| DispatchProperties.DispatchPreservesInv | src/template/entry-dev.ts:181-209 | every watcher callback keeps the invariants and an ipc list of ipc files |
| DispatchProperties.ReplayKeepsInvariants | src/template/entry-dev.ts:177-209 | the invariants hold along any sequence of watcher events, whichever callbacks throw |
| DispatchProperties.ReplayFromStart | src/template/entry-dev.ts:115-209 | from start-up on, along any events: records stay in lockstep; one app subscription per used event name; the handle list names exactly the handled channels; the ipc list holds only ipc files |
| DevHarness.IpcMain.constructor | src/template/entry-dev.ts:32 | ipcMain starts with no listeners and no handlers |
| DevHarness.IpcMain.On | src/template/entry-dev.ts:58 | `ipcMain.on` appends a persistent slot |
| DevHarness.IpcMain.Once | src/template/entry-dev.ts:70 | `ipcMain.once` appends a one-shot slot |
| DevHarness.IpcMain.RemoveListener | src/template/entry-dev.ts:129-138 | `removeListener` drops the most recent slot with that pair |
| DevHarness.IpcMain.Handle | src/template/entry-dev.ts:74 | `handle` sets the channel's handler |
| DevHarness.IpcMain.HandleOnce | src/template/entry-dev.ts:80 | `handleOnce` sets a one-shot handler for the channel |
| DevHarness.IpcMain.RemoveHandler | src/template/entry-dev.ts:145 | `removeHandler` drops the channel's handler |
| DevHarness.ElectronApp.constructor | src/template/entry-dev.ts:102 | the app starts with no subscriptions made through the context |
| DevHarness.ElectronApp.On | src/template/entry-dev.ts:102 | `electron.app.on` appends a subscription |
| DevHarness.ModuleCache.constructor | src/template/entry-dev.ts:155 | the loader starts with nothing cached |
| DevHarness.ModuleCache.Require | src/template/entry-dev.ts:155 | `require` serves the cached module, else loads and caches the file on disk, else throws |
| DevHarness.ModuleCache.Decache | src/template/entry-dev.ts:152 | `decache` evicts exactly that path |
| DevHarness.Window.constructor | src/template/entry-dev.ts:110 | the window starts with no reload requested |
| DevHarness.Window.Reload | src/template/entry-dev.ts:167 | a reload request increments the count |
| DevHarness.Harness.constructor | src/template/entry-dev.ts:42-46 | the harness starts with empty maps and lists: the initial state |
| DevHarness.Harness.On | src/template/entry-dev.ts:49-59 | `_on(key)(channel, listener)` takes the state where `Subscribe` (persistent) does |
| DevHarness.Harness.Once | src/template/entry-dev.ts:61-71 | `_once(key)(channel, listener)` takes the state where `Subscribe` (one-shot) does |
| DevHarness.Harness.Handle | src/template/entry-dev.ts:73-77 | `_handle` takes the state where `RegisterHandler` (persistent) does |
| DevHarness.Harness.HandleOnce | src/template/entry-dev.ts:79-83 | `_handleOnce` takes the state where `RegisterHandler` (one-shot) does |
| DevHarness.Harness.AppOn | src/template/entry-dev.ts:97-103 | the context's `app.on` takes the state where `AppSubscribe` does |
| DevModel.Apply | src/template/entry-dev.ts:87-105 | the tracked context's method table: one call adds exactly its own ipcMain slot (for `on`/`once`) and its own handle channel (for `handle`/`handleOnce`), and leaves the ipc file list, the loader's cache and the window alone |
| DevHarness.Harness.Perform | src/template/entry-dev.ts:87-105 | one call on the tracked context takes the state where `Apply` does |
| DevHarness.Harness.ClearEvents | src/template/entry-dev.ts:124-148 | the three `forEach` loops of clearEvents take the state where `DevModel.ClearEvents` does |
| DevHarness.Harness.RemovePairs | src/template/entry-dev.ts:128-139 | the `forEach` over one record's channels calls removeListener with each channel and the listener at the same index, in order, leaving ipcMain's handlers alone |
| DevHarness.Harness.RemoveHandlers | src/template/entry-dev.ts:144-146 | the `forEach` over the handle list calls removeHandler on every listed channel in order, leaving ipcMain's listeners alone |
| DevHarness.Harness.UnmountModule | src/template/entry-dev.ts:150-153 | unmountModule takes the state where `Unmount` does |
| DevHarness.Harness.CallModule | src/template/entry-dev.ts:156 | calling a module's function takes the state where `Run` does, and reports whether it threw |
| DevHarness.Harness.MountModule | src/template/entry-dev.ts:154-157 | mountModule takes the state where `Mount` does, and reports whether it threw |
| DevHarness.Harness.HotReplaceModule | src/template/entry-dev.ts:159-163 | hotReplaceModule takes the state where `HotReplace` does |
| DevHarness.Harness.UnmountAllIpc | src/template/entry-dev.ts:118-120 | the `forEach` over the captured ipc list takes the state where `HotReplaceAll` does, stopping at the first throw |
| DevHarness.Harness.HotReplacePreload | src/template/entry-dev.ts:165-169 | hotReplacePreload requests one window reload and changes nothing else |
| DevHarness.Harness.Boot | src/template/entry-dev.ts:115 | the start-up call of the entry module takes the initial state where `Start` does |
| DevHarness.Harness.OnChange | src/template/entry-dev.ts:181-197 | the `change` callback takes the state where `Change` does |
| DevHarness.Harness.OnUnlink | src/template/entry-dev.ts:198-203 | the `unlink` callback takes the state where `Unlink` does |
| DevHarness.Harness.OnAdd | src/template/entry-dev.ts:204-209 | the `add` callback takes the state where `Add` does |

## Left out

- `src/template/entry-prod.ts` is not part of this model. It is a one-shot production loader with no reload bookkeeping.
- The window is not modelled beyond a count of requested reloads. That leaves out BrowserWindow construction, its options, `loadURL` and the dev-server port from `process.env`. The window always exists once the watcher runs, so the `if (context.browserWindow)` guard of hotReplacePreload always holds.
- Reading `config.js` and the lodash merge of its `browserWindow` options are library and file-system behaviour outside the bookkeeping.
- chokidar, its polling, and the async `main`/`ready` wiring are not modelled. Watcher events are a sequence of events fed to the dispatcher one at a time, each with the disk contents at that moment. There is no concurrency.
- The initial `add` burst is not a separate step. It is a run of `Added` events, which is how the ipc files present at start-up get mounted.
- Real `require`/`clear-module` are abstracted. The loader is a cache from path to script, and the disk is a map from path to script. A module's top-level code beyond what its exported function does is not modelled. Module errors are limited to a missing file and the function throwing part way (`Throw`).
- A module that calls the curried `on` without first applying it to a key registers nothing in the source. The model has no such action: every `On`/`Once` carries a key.
- Listeners firing, and `once` listeners or `handleOnce` handlers removing themselves when they fire, are not modelled. No event is ever emitted in the model, so these slots stay until removed.
- IpcMain.Handle: a `handle` on an already-handled channel replaces the handler in the model. Electron instead throws, so the module's function stops there, leaving one tracked entry and the first handler. This can happen in several ways: twice within one module's function (the case `DevProperties.HandleTwiceTrackedTwice` states for the model); across modules mounted by `add`, which runs `mountModule` without `clearEvents` first, or by the start-up call, which requires and calls the entry module like `mountModule`, also without `clearEvents` first; or across modules on the same channel.
- IpcMain.HandleOnce: the same holds for `handleOnce` on an already-handled channel.
- `electron.app.on('ready', ...)` at src/template/entry-dev.ts:212 subscribes the real app before the harness exists. `appSubs` holds only the subscriptions made through the context, so a module subscribing `ready` through the context leaves the real app with two `ready` subscriptions, which the model does not count.
- DispatchProperties.ReplayFromStart: it replays watcher events after any start-up, including one whose entry module throws. In the source such a throw rejects `main` before the watcher exists, so the lemma covers more traces than the source can produce.
- `console.log` output, the `_on._hof` flag, and the spread of the other `electron` members into the proxy carry no state.
- Overwriting `context.electron` on every `hackContext` call has no observable effect here. Every call installs the same proxy over the same tables.
- `ipcFiles.filter` is modelled by the function `Filter` rather than by a loop, because it is an expression in the source.
