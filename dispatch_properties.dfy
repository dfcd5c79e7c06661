/** What the module lifecycle and the change dispatcher guarantee: fresh
    loads on hot replacement, the routing of `change` events, the upkeep of
    the ipc file list on `add`/`unlink`, and the invariants kept along any
    sequence of watcher events. */
module DispatchProperties {
  import opened Paths
  import opened DevModel
  import opened DevProperties

  /** Every path in the ipc file list is an ipc file of `root`. */
  predicate IpcFilesAreIpc(s: State, root: Path)
  {
    forall q :: q in s.ipcFiles ==> IsIpcFile(root, q)
  }

  // ---------------------------------------------------------------- lifecycle

  /** hotReplaceModule(p) always loads p afresh from disk, whatever the cache
      held (a missing file makes it throw and leaves p uncached); it completes
      exactly when p's function does not throw; afterwards the handle list is
      exactly what p's function registered; no other cached module changes. */
  lemma HotReplaceLoadsFresh(s: State, p: Path, disk: map<Path, Script>)
    requires Aligned(s)
    ensures HotReplace(s, p, disk).state.cache == if p in disk then s.cache[p := disk[p]] else s.cache - {p}
    ensures p !in disk ==> HotReplace(s, p, disk).Failed?
    ensures p in disk ==> (HotReplace(s, p, disk).Done? <==> Completes(disk[p]))
    ensures p in disk ==> HotReplace(s, p, disk).state.handleChannels == HandleChannels(disk[p])
    ensures HotReplace(s, p, disk).state.ipcFiles == s.ipcFiles && HotReplace(s, p, disk).state.reloads == s.reloads
  {
    var u := Unmount(s, p);
    ClearEventsHandlers(s, p);
    assert u.cache == s.cache - {p} && u.handleChannels == [];
    if p in disk {
      var u1 := u.(cache := u.cache[p := disk[p]]);
      assert u1.cache == s.cache[p := disk[p]];
      assert HotReplace(s, p, disk) == Run(u1, disk[p]);
      RunCompletesUnlessThrow(u1, disk[p]);
      RunTracksHandles(u1, disk[p]);
    }
  }

  /** unmountAllIpc completes exactly when every listed file is on disk and
      no file's function throws: a missing file makes `require` throw and
      ends the `forEach` as a throwing function does. */
  lemma {:induction false} HotReplaceAllDone(s: State, files: seq<Path>, disk: map<Path, Script>)
    requires Aligned(s)
    ensures HotReplaceAll(s, files, disk).state.ipcFiles == s.ipcFiles
    ensures HotReplaceAll(s, files, disk).state.reloads == s.reloads
    ensures HotReplaceAll(s, files, disk).Done? <==> forall q :: q in files ==> q in disk && Completes(disk[q])
    decreases |files|
  {
    if files != [] {
      var f, rest := files[0], files[1..];
      assert forall q :: q in files <==> q == f || q in rest;
      HotReplaceLoadsFresh(s, f, disk);
      var h := HotReplace(s, f, disk);
      if h.Done? {
        HotReplaceAllDone(h.state, rest, disk);
      }
    }
  }

  /** Modules not listed keep their cache entries, whether or not the loop
      stops early. */
  lemma {:induction false} HotReplaceAllFrame(s: State, files: seq<Path>, disk: map<Path, Script>, q: Path)
    requires Aligned(s) && q !in files
    ensures q in HotReplaceAll(s, files, disk).state.cache <==> q in s.cache
    ensures q in s.cache ==> HotReplaceAll(s, files, disk).state.cache[q] == s.cache[q]
    decreases |files|
  {
    if files != [] {
      HotReplaceLoadsFresh(s, files[0], disk);
      var h := HotReplace(s, files[0], disk);
      if h.Done? {
        HotReplaceAllFrame(h.state, files[1..], disk, q);
      }
    }
  }

  /** When unmountAllIpc completes, every listed file is cached as it is on disk. */
  lemma {:induction false} HotReplaceAllFresh(s: State, files: seq<Path>, disk: map<Path, Script>)
    requires Aligned(s)
    ensures HotReplaceAll(s, files, disk).Done? ==>
              forall q :: q in files ==> q in disk && q in HotReplaceAll(s, files, disk).state.cache &&
                                         HotReplaceAll(s, files, disk).state.cache[q] == disk[q]
    decreases |files|
  {
    if files != [] {
      var f, rest := files[0], files[1..];
      assert forall q :: q in files <==> q == f || q in rest;
      HotReplaceLoadsFresh(s, f, disk);
      var h := HotReplace(s, f, disk);
      if h.Done? {
        HotReplaceAllFresh(h.state, rest, disk);
        if f !in rest {
          HotReplaceAllFrame(h.state, rest, disk, f);
        }
      }
    }
  }

  /** When unmountAllIpc completes, only the last file's handle channels are
      still tracked: each hot replacement drained those of the files before. */
  lemma {:induction false} HotReplaceAllLastHandles(s: State, files: seq<Path>, disk: map<Path, Script>)
    requires Aligned(s)
    ensures HotReplaceAll(s, files, disk).Done? && files != [] ==>
              files[|files| - 1] in disk &&
              HotReplaceAll(s, files, disk).state.handleChannels == HandleChannels(disk[files[|files| - 1]])
    decreases |files|
  {
    if files != [] {
      var rest := files[1..];
      HotReplaceLoadsFresh(s, files[0], disk);
      var h := HotReplace(s, files[0], disk);
      if h.Done? {
        HotReplaceAllLastHandles(h.state, rest, disk);
        if rest != [] {
          assert files[|files| - 1] == rest[|rest| - 1];
        }
      }
    }
  }

  /** unmountAllIpc (which hot-replaces every ipc file in order) completes
      exactly when every listed file is on disk and none throws; then every
      listed file is cached fresh from disk and only the last file's handle
      channels are still tracked; unlisted modules keep their cache entries
      in every case. */
  lemma HotReplaceAllEffect(s: State, files: seq<Path>, disk: map<Path, Script>)
    requires Aligned(s)
    ensures HotReplaceAll(s, files, disk).state.ipcFiles == s.ipcFiles
    ensures HotReplaceAll(s, files, disk).state.reloads == s.reloads
    ensures HotReplaceAll(s, files, disk).Done? <==> forall q :: q in files ==> q in disk && Completes(disk[q])
    ensures HotReplaceAll(s, files, disk).Done? ==>
              forall q :: q in files ==> q in disk && q in HotReplaceAll(s, files, disk).state.cache &&
                                         HotReplaceAll(s, files, disk).state.cache[q] == disk[q]
    ensures forall q :: q !in files ==>
              (q in HotReplaceAll(s, files, disk).state.cache <==> q in s.cache) &&
              (q in s.cache ==> HotReplaceAll(s, files, disk).state.cache[q] == s.cache[q])
    ensures HotReplaceAll(s, files, disk).Done? && files != [] ==>
              files[|files| - 1] in disk &&
              HotReplaceAll(s, files, disk).state.handleChannels == HandleChannels(disk[files[|files| - 1]])
  {
    HotReplaceAllDone(s, files, disk);
    HotReplaceAllFresh(s, files, disk);
    HotReplaceAllLastHandles(s, files, disk);
    forall q | q !in files
      ensures (q in HotReplaceAll(s, files, disk).state.cache <==> q in s.cache) &&
              (q in s.cache ==> HotReplaceAll(s, files, disk).state.cache[q] == s.cache[q])
    {
      HotReplaceAllFrame(s, files, disk, q);
    }
  }

  // ------------------------------------------------------------------ change

  /** The fixed files: a preload change only requests a window reload and
      touches no module; a config change changes nothing; an entry change
      hot-replaces the entry module and nothing else. */
  lemma ChangeOfFixedFiles(s: State, root: Path, disk: map<Path, Script>)
    requires Aligned(s)
    ensures Change(s, root, Preload(root), disk) == Done(s.(reloads := s.reloads + 1))
    ensures Change(s, root, Config(root), disk) == Done(s)
    ensures Change(s, root, Entry(root), disk) == HotReplace(s, Entry(root), disk)
  {
    RoutesDisjoint(root);
  }

  /** hotReplaceModule(p) of a file on disk is a run of p's fresh script on
      the unmounted state with p cached anew. */
  lemma HotReplaceIsFreshRun(s: State, p: Path, disk: map<Path, Script>)
    requires Aligned(s) && p in disk
    ensures Unmount(s, p).onMap == s.onMap - {p} && Unmount(s, p).onceMap == s.onceMap - {p}
    ensures HotReplace(s, p, disk) == Run(Unmount(s, p).(cache := Unmount(s, p).cache[p := disk[p]]), disk[p])
  {
    ClearEventsListeners(s, p);
    ClearEventsHandlers(s, p);
    assert p !in Unmount(s, p).cache;
  }

  /** Hot-replacing a module that subscribes only under its own path leaves
      every other path's record as it was. */
  lemma HotReplaceRecordsElsewhere(s: State, p: Path, disk: map<Path, Script>, k: Kind, q: Path)
    requires Aligned(s) && p in disk && Owns(disk[p], p) && q != p
    ensures q in Records(HotReplace(s, p, disk).state, k) <==> q in Records(s, k)
    ensures RecordOf(Records(HotReplace(s, p, disk).state, k), q) == RecordOf(Records(s, k), q)
  {
    HotReplaceIsFreshRun(s, p, disk);
    var u1 := Unmount(s, p).(cache := Unmount(s, p).cache[p := disk[p]]);
    assert Records(u1, k) == Records(s, k) - {p};
    RunTracksRecords(u1, disk[p], k, q);
    OwnedElsewhere(disk[p], p, k, q);
  }

  /** After hot-replacing p, p's record holds exactly what the fresh
      function subscribed under p: nothing of the old registration is left. */
  lemma HotReplaceRecordOwn(s: State, p: Path, disk: map<Path, Script>, k: Kind)
    requires Aligned(s) && p in disk
    ensures RecordOf(Records(HotReplace(s, p, disk).state, k), p) == Extend(Record([], []), Registered(disk[p], k, p))
  {
    HotReplaceIsFreshRun(s, p, disk);
    var u1 := Unmount(s, p).(cache := Unmount(s, p).cache[p := disk[p]]);
    assert p !in Records(u1, k);
    RunTracksRecords(u1, disk[p], k, p);
  }

  /** With the handle list tracking ipcMain's handlers, hot-replacing p
      leaves handlers for exactly the channels p's fresh function handles. */
  lemma HotReplaceHandlers(s: State, p: Path, disk: map<Path, Script>)
    requires Inv(s) && p in disk
    ensures forall c :: c in HotReplace(s, p, disk).state.handlers <==> c in HandleChannels(disk[p])
  {
    var u := Unmount(s, p);
    ClearEventsDrainsAllHandlers(s, p);
    assert u.handlers == map[];
    var u1 := u.(cache := u.cache[p := disk[p]]);
    assert HotReplace(s, p, disk) == Run(u1, disk[p]);
    RunTracksHandles(u1, disk[p]);
  }

  lemma ChangeRoutesIpcFile(s: State, root: Path, p: Path, disk: map<Path, Script>)
    requires Aligned(s) && IsIpcFile(root, p)
    ensures Change(s, root, p, disk) == HotReplace(s, p, disk)
  {
    RoutesDisjoint(root);
  }

  /** A change of an ipc file p hot-replaces p only: every other path's
      records and cache entry, the entry module's included, stay as they
      were; p's records hold exactly what its fresh function subscribed; the
      handle list and ipcMain's handlers are exactly p's own handle channels,
      so handlers registered by any other module are gone. */
  lemma ChangeOfIpcFile(s: State, root: Path, p: Path, disk: map<Path, Script>)
    requires Inv(s) && IsIpcFile(root, p)
    requires p in disk && Owns(disk[p], p)
    ensures Change(s, root, p, disk) == HotReplace(s, p, disk)
    ensures Change(s, root, p, disk).state.cache == s.cache[p := disk[p]]
    ensures Change(s, root, p, disk).state.ipcFiles == s.ipcFiles
    ensures forall k, q :: q != p ==>
              (q in Records(Change(s, root, p, disk).state, k) <==> q in Records(s, k)) &&
              RecordOf(Records(Change(s, root, p, disk).state, k), q) == RecordOf(Records(s, k), q)
    ensures forall k :: RecordOf(Records(Change(s, root, p, disk).state, k), p) == Extend(Record([], []), Registered(disk[p], k, p))
    ensures Change(s, root, p, disk).state.handleChannels == HandleChannels(disk[p])
    ensures forall c :: c in Change(s, root, p, disk).state.handlers <==> c in HandleChannels(disk[p])
  {
    ChangeRoutesIpcFile(s, root, p, disk);
    HotReplaceLoadsFresh(s, p, disk);
    HotReplaceHandlers(s, p, disk);
    forall k, q | q != p
      ensures (q in Records(HotReplace(s, p, disk).state, k) <==> q in Records(s, k)) &&
              RecordOf(Records(HotReplace(s, p, disk).state, k), q) == RecordOf(Records(s, k), q)
    {
      HotReplaceRecordsElsewhere(s, p, disk, k, q);
    }
    forall k
      ensures RecordOf(Records(HotReplace(s, p, disk).state, k), p) == Extend(Record([], []), Registered(disk[p], k, p))
    {
      HotReplaceRecordOwn(s, p, disk, k);
    }
  }

  /** The fallback route of `change`: hot-replace the entry module, then,
      unless that threw, every listed ipc file. */
  lemma ChangeRoutesOther(s: State, root: Path, p: Path, disk: map<Path, Script>)
    requires Aligned(s)
    requires p != Preload(root) && p != Config(root) && !IsIpcFile(root, p) && p != Entry(root)
    ensures Change(s, root, p, disk) ==
              if HotReplace(s, Entry(root), disk).Failed? then HotReplace(s, Entry(root), disk)
              else HotReplaceAll(HotReplace(s, Entry(root), disk).state, s.ipcFiles, disk)
  {
    HotReplaceLoadsFresh(s, Entry(root), disk);
  }

  /** The fallback completes exactly when the entry module and every listed
      ipc file are on disk and none throws; when the entry module's
      replacement throws, the ipc modules are not touched. */
  lemma ChangeOfOtherFileDone(s: State, root: Path, p: Path, disk: map<Path, Script>)
    requires Aligned(s)
    requires p != Preload(root) && p != Config(root) && !IsIpcFile(root, p) && p != Entry(root)
    ensures Change(s, root, p, disk).state.ipcFiles == s.ipcFiles
    ensures Change(s, root, p, disk).Done? <==>
              Entry(root) in disk && Completes(disk[Entry(root)]) &&
              forall q :: q in s.ipcFiles ==> q in disk && Completes(disk[q])
    ensures HotReplace(s, Entry(root), disk).Failed? ==> Change(s, root, p, disk) == HotReplace(s, Entry(root), disk)
  {
    ChangeRoutesOther(s, root, p, disk);
    HotReplaceLoadsFresh(s, Entry(root), disk);
    var h := HotReplace(s, Entry(root), disk);
    if h.Done? {
      HotReplaceAllDone(h.state, s.ipcFiles, disk);
    }
  }

  /** When the fallback completes, the entry module and every listed ipc
      file are cached fresh from disk, and only the last module's handle
      channels are tracked. */
  lemma ChangeOfOtherFileFresh(s: State, root: Path, p: Path, disk: map<Path, Script>)
    requires Aligned(s) && IpcFilesAreIpc(s, root)
    requires p != Preload(root) && p != Config(root) && !IsIpcFile(root, p) && p != Entry(root)
    ensures Change(s, root, p, disk).Done? ==>
              Entry(root) in disk && Entry(root) in Change(s, root, p, disk).state.cache &&
              Change(s, root, p, disk).state.cache[Entry(root)] == disk[Entry(root)] &&
              forall q :: q in s.ipcFiles ==> q in disk && q in Change(s, root, p, disk).state.cache && Change(s, root, p, disk).state.cache[q] == disk[q]
    ensures Change(s, root, p, disk).Done? ==>
              (if s.ipcFiles == [] then Entry(root) else s.ipcFiles[|s.ipcFiles| - 1]) in disk &&
              Change(s, root, p, disk).state.handleChannels ==
              HandleChannels(disk[if s.ipcFiles == [] then Entry(root) else s.ipcFiles[|s.ipcFiles| - 1]])
  {
    RoutesDisjoint(root);
    ChangeRoutesOther(s, root, p, disk);
    HotReplaceLoadsFresh(s, Entry(root), disk);
    var h := HotReplace(s, Entry(root), disk);
    if h.Done? {
      assert Entry(root) !in s.ipcFiles;
      HotReplaceAllFresh(h.state, s.ipcFiles, disk);
      HotReplaceAllLastHandles(h.state, s.ipcFiles, disk);
      HotReplaceAllFrame(h.state, s.ipcFiles, disk, Entry(root));
    }
  }

  /** Any other changed file (a shared dependency, say): the entry module is
      hot-replaced, then every listed ipc file in order. The callback
      completes exactly when all of them are on disk and none throws; then
      all are freshly loaded and only the last module's handle channels are
      tracked. When the entry module's replacement throws (missing file or
      throwing function), the ipc modules are not touched. */
  lemma ChangeOfOtherFile(s: State, root: Path, p: Path, disk: map<Path, Script>)
    requires Aligned(s) && IpcFilesAreIpc(s, root)
    requires p != Preload(root) && p != Config(root) && !IsIpcFile(root, p) && p != Entry(root)
    ensures Change(s, root, p, disk).state.ipcFiles == s.ipcFiles
    ensures Change(s, root, p, disk).Done? <==>
              Entry(root) in disk && Completes(disk[Entry(root)]) &&
              forall q :: q in s.ipcFiles ==> q in disk && Completes(disk[q])
    ensures Change(s, root, p, disk).Done? ==>
              Entry(root) in disk && Entry(root) in Change(s, root, p, disk).state.cache &&
              Change(s, root, p, disk).state.cache[Entry(root)] == disk[Entry(root)] &&
              forall q :: q in s.ipcFiles ==> q in disk && q in Change(s, root, p, disk).state.cache && Change(s, root, p, disk).state.cache[q] == disk[q]
    ensures Change(s, root, p, disk).Done? ==>
              (if s.ipcFiles == [] then Entry(root) else s.ipcFiles[|s.ipcFiles| - 1]) in disk &&
              Change(s, root, p, disk).state.handleChannels ==
              HandleChannels(disk[if s.ipcFiles == [] then Entry(root) else s.ipcFiles[|s.ipcFiles| - 1]])
    ensures HotReplace(s, Entry(root), disk).Failed? ==> Change(s, root, p, disk) == HotReplace(s, Entry(root), disk)
  {
    ChangeOfOtherFileDone(s, root, p, disk);
    ChangeOfOtherFileFresh(s, root, p, disk);
  }

  // ---------------------------------------------------------- add and unlink

  /** `ipcFiles.filter(q => q !== p)` drops every occurrence of p and keeps
      every other entry, with its multiplicity. */
  lemma {:induction false} FilterRemoves(files: seq<Path>, p: Path)
    ensures forall q :: q in Filter(files, p) <==> q in files && q != p
    ensures multiset(Filter(files, p)) == multiset(files)[p := 0]
    decreases |files|
  {
    if files != [] {
      FilterRemoves(files[1..], p);
      assert files == [files[0]] + files[1..];
    }
  }

  /** `unlink` of an ipc file removes it from the list and unmounts it: its
      records are absent, it is evicted and not loaded again, all handle
      channels are drained; other cache entries, the app and the window are
      untouched. `unlink` of any other path changes nothing. */
  lemma UnlinkEffect(s: State, root: Path, p: Path)
    requires Aligned(s)
    ensures !IsIpcFile(root, p) ==> Unlink(s, root, p) == s
    ensures IsIpcFile(root, p) ==>
              Unlink(s, root, p).ipcFiles == Filter(s.ipcFiles, p) && p !in Unlink(s, root, p).ipcFiles &&
              (forall q :: q != p && q in s.ipcFiles ==> q in Unlink(s, root, p).ipcFiles)
    ensures IsIpcFile(root, p) ==>
              p !in Unlink(s, root, p).onMap && p !in Unlink(s, root, p).onceMap &&
              Unlink(s, root, p).cache == s.cache - {p} && Unlink(s, root, p).handleChannels == []
    ensures IsIpcFile(root, p) ==>
              multiset(Subs(Unlink(s, root, p).listeners)) ==
              multiset(Subs(s.listeners)) - multiset(Pairs(RecordOf(s.onMap, p))) - multiset(Pairs(RecordOf(s.onceMap, p)))
    ensures Unlink(s, root, p).appSubs == s.appSubs && Unlink(s, root, p).reloads == s.reloads
  {
    FilterRemoves(s.ipcFiles, p);
    var s1 := s.(ipcFiles := Filter(s.ipcFiles, p));
    ClearEventsListeners(s1, p);
    ClearEventsHandlers(s1, p);
  }

  /** `add` of an ipc file appends it to the list, then mounts it: a new file
      is loaded from disk and its function's subscriptions are recorded under
      the keys it passes; a missing file throws after the append. `add` of
      any other path changes nothing. */
  lemma AddEffect(s: State, root: Path, p: Path, disk: map<Path, Script>)
    ensures !IsIpcFile(root, p) ==> Add(s, root, p, disk) == Done(s)
    ensures IsIpcFile(root, p) ==> Add(s, root, p, disk).state.ipcFiles == s.ipcFiles + [p]
    ensures IsIpcFile(root, p) && p in s.cache ==>
              Add(s, root, p, disk) == Run(s.(ipcFiles := s.ipcFiles + [p]), s.cache[p])
    ensures IsIpcFile(root, p) && p !in s.cache && p !in disk ==>
              Add(s, root, p, disk) == Failed(s.(ipcFiles := s.ipcFiles + [p]))
    ensures IsIpcFile(root, p) && p !in s.cache && p in disk ==>
              Add(s, root, p, disk).state.cache == s.cache[p := disk[p]] &&
              (Add(s, root, p, disk).Done? <==> Completes(disk[p])) &&
              forall k, q :: RecordOf(Records(Add(s, root, p, disk).state, k), q) ==
                             Extend(RecordOf(Records(s, k), q), Registered(disk[p], k, q))
  {
    if IsIpcFile(root, p) && p !in s.cache && p in disk {
      var s1 := s.(ipcFiles := s.ipcFiles + [p], cache := s.cache[p := disk[p]]);
      assert Add(s, root, p, disk) == Run(s1, disk[p]);
      RunCompletesUnlessThrow(s1, disk[p]);
      forall k, q
        ensures RecordOf(Records(Run(s1, disk[p]).state, k), q) == Extend(RecordOf(Records(s, k), q), Registered(disk[p], k, q))
      {
        RunTracksRecords(s1, disk[p], k, q);
        assert Records(s1, k) == Records(s, k);
      }
    }
  }

  // --------------------------------------------------------------- invariants

  lemma UnmountPreservesInv(s: State, p: Path)
    requires Inv(s)
    ensures Inv(Unmount(s, p))
  {
    ClearEventsDrainsAllHandlers(s, p);
  }

  lemma MountPreservesInv(s: State, p: Path, disk: map<Path, Script>)
    requires Inv(s)
    ensures Inv(Mount(s, p, disk).state)
  {
    if p in s.cache {
      RunPreservesInv(s, s.cache[p]);
    } else if p in disk {
      RunPreservesInv(s.(cache := s.cache[p := disk[p]]), disk[p]);
    }
  }

  lemma {:induction false} HotReplaceAllPreservesInv(s: State, files: seq<Path>, disk: map<Path, Script>)
    requires Inv(s)
    ensures Inv(HotReplaceAll(s, files, disk).state)
    decreases |files|
  {
    if files != [] {
      UnmountPreservesInv(s, files[0]);
      MountPreservesInv(Unmount(s, files[0]), files[0], disk);
      var h := HotReplace(s, files[0], disk);
      if h.Done? {
        HotReplaceAllPreservesInv(h.state, files[1..], disk);
      }
    }
  }

  lemma HotReplacePreservesInv(s: State, p: Path, disk: map<Path, Script>)
    requires Inv(s)
    ensures Inv(HotReplace(s, p, disk).state)
  {
    UnmountPreservesInv(s, p);
    MountPreservesInv(Unmount(s, p), p, disk);
  }

  lemma ChangePreservesInv(s: State, root: Path, p: Path, disk: map<Path, Script>)
    requires Inv(s) && IpcFilesAreIpc(s, root)
    ensures Inv(Change(s, root, p, disk).state)
    ensures Change(s, root, p, disk).state.ipcFiles == s.ipcFiles
  {
    if p == Preload(root) {
      assert Change(s, root, p, disk) == Done(ReloadWindow(s));
    } else if p == Config(root) {
    } else if IsIpcFile(root, p) || p == Entry(root) {
      var q := if IsIpcFile(root, p) then p else Entry(root);
      assert Change(s, root, p, disk) == HotReplace(s, q, disk);
      HotReplacePreservesInv(s, q, disk);
      HotReplaceKeepsIpcFiles(s, q, disk);
    } else {
      ChangeRoutesOther(s, root, p, disk);
      var h := HotReplace(s, Entry(root), disk);
      HotReplacePreservesInv(s, Entry(root), disk);
      HotReplaceKeepsIpcFiles(s, Entry(root), disk);
      if h.Done? {
        HotReplaceAllPreservesInv(h.state, s.ipcFiles, disk);
        HotReplaceAllIpcFiles(h.state, s.ipcFiles, disk);
      }
    }
  }

  lemma HotReplaceKeepsIpcFiles(s: State, p: Path, disk: map<Path, Script>)
    requires Aligned(s)
    ensures HotReplace(s, p, disk).state.ipcFiles == s.ipcFiles
  {
    HotReplaceLoadsFresh(s, p, disk);
  }

  lemma UnlinkPreservesInv(s: State, root: Path, p: Path)
    requires Inv(s) && IpcFilesAreIpc(s, root)
    ensures Inv(Unlink(s, root, p)) && IpcFilesAreIpc(Unlink(s, root, p), root)
  {
    if IsIpcFile(root, p) {
      FilterRemoves(s.ipcFiles, p);
      var s1 := s.(ipcFiles := Filter(s.ipcFiles, p));
      UnmountPreservesInv(s1, p);
      ClearEventsHandlers(s1, p);
    }
  }

  lemma AddPreservesInv(s: State, root: Path, p: Path, disk: map<Path, Script>)
    requires Inv(s) && IpcFilesAreIpc(s, root)
    ensures Inv(Add(s, root, p, disk).state) && IpcFilesAreIpc(Add(s, root, p, disk).state, root)
  {
    if IsIpcFile(root, p) {
      var s1 := s.(ipcFiles := s.ipcFiles + [p]);
      MountPreservesInv(s1, p, disk);
      assert IpcFilesAreIpc(s1, root);
    }
  }

  /** Every watcher callback keeps the invariants, and keeps the ipc file
      list made of ipc files only, whether or not a module throws. */
  lemma DispatchPreservesInv(s: State, root: Path, e: Event, disk: map<Path, Script>)
    requires Inv(s) && IpcFilesAreIpc(s, root)
    ensures Inv(Dispatch(s, root, e, disk).state)
    ensures IpcFilesAreIpc(Dispatch(s, root, e, disk).state, root)
  {
    match e
    case Changed(p) => ChangePreservesInv(s, root, p, disk);
    case Unlinked(p) => UnlinkPreservesInv(s, root, p);
    case Added(p) => AddPreservesInv(s, root, p, disk);
  }

  lemma {:induction false} HotReplaceAllIpcFiles(s: State, files: seq<Path>, disk: map<Path, Script>)
    requires Aligned(s)
    ensures HotReplaceAll(s, files, disk).state.ipcFiles == s.ipcFiles
    decreases |files|
  {
    if files != [] {
      HotReplaceLoadsFresh(s, files[0], disk);
      var h := HotReplace(s, files[0], disk);
      if h.Done? {
        HotReplaceAllIpcFiles(h.state, files[1..], disk);
      }
    }
  }

  /** The invariants hold along any sequence of watcher events, whichever
      callbacks throw. */
  lemma {:induction false} ReplayKeepsInvariants(s: State, root: Path, ticks: seq<Tick>)
    requires Inv(s) && IpcFilesAreIpc(s, root)
    ensures Inv(Replay(s, root, ticks)) && IpcFilesAreIpc(Replay(s, root, ticks), root)
    decreases |ticks|
  {
    if ticks != [] {
      DispatchPreservesInv(s, root, ticks[0].event, ticks[0].disk);
      ReplayKeepsInvariants(Dispatch(s, root, ticks[0].event, ticks[0].disk).state, root, ticks[1..]);
    }
  }

  /** From start-up on, along any sequence of watcher events: every record's
      lists stay in lockstep, the real app holds exactly one subscription
      per used event name, the handle list names exactly the channels
      ipcMain has handlers for, and the ipc file list holds only ipc files. */
  lemma ReplayFromStart(root: Path, disk: map<Path, Script>, ticks: seq<Tick>)
    ensures Aligned(Replay(Start(root, disk).state, root, ticks))
    ensures forall e :: CountEvent(Replay(Start(root, disk).state, root, ticks).appSubs, e) ==
              if e in Replay(Start(root, disk).state, root, ticks).appUsingEvents then 1 else 0
    ensures forall c :: c in Replay(Start(root, disk).state, root, ticks).handlers <==>
              c in Replay(Start(root, disk).state, root, ticks).handleChannels
    ensures IpcFilesAreIpc(Replay(Start(root, disk).state, root, ticks), root)
  {
    var s0 := Start(root, disk).state;
    MountPreservesInv(Init(), Entry(root), disk);
    assert s0.ipcFiles == [];
    var t := Replay(s0, root, ticks);
    ReplayKeepsInvariants(s0, root, ticks);
    forall e
      ensures CountEvent(t.appSubs, e) == if e in t.appUsingEvents then 1 else 0
    {
      CountTracked(t.appSubs, t.appUsingEvents, e);
    }
  }
}
