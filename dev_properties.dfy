/** What the hot-reload bookkeeping guarantees: the tracker's lockstep lists,
    the exact undo done by clearEvents, the process-wide handle drain, the
    app-event de-duplication, the routing of watcher events and the
    invariants every event sequence keeps. */
module DevProperties {
  import opened Paths
  import opened DevModel

  // ------------------------------------------------------------------ records

  /** Pushing pairs keeps a record's lists in lockstep: entry i of the two
      lists together is the i-th pair pushed. */
  lemma {:induction false} PairsExtend(r: Record, subs: seq<Sub>)
    requires |r.channels| == |r.listeners|
    ensures |Extend(r, subs).channels| == |Extend(r, subs).listeners|
    ensures Pairs(Extend(r, subs)) == Pairs(r) + subs
    decreases |subs|
  {
    if subs != [] {
      var r1 := Push(r, subs[0].channel, subs[0].listener);
      assert Pairs(r1) == Pairs(r) + [subs[0]];
      PairsExtend(r1, subs[1..]);
      assert subs == [subs[0]] + subs[1..];
      assert Pairs(r) + [subs[0]] + subs[1..] == Pairs(r) + subs;
    }
  }

  // -------------------------------------------------------- running a module

  /** One call through the tracked context: `on`/`once` push onto the key's
      record (creating it) and append one ipcMain slot; nothing else touches
      the records or the slots. */
  lemma ApplySubscription(s: State, a: Action, k: Kind, key: Path)
    requires !a.Throw?
    ensures RecordOf(Records(Apply(s, a), k), key) ==
            if RegisteredBy(a, k, key) == [] then RecordOf(Records(s, k), key)
            else Push(RecordOf(Records(s, k), key), a.channel, a.listener)
    ensures key in Records(Apply(s, a), k) <==> key in Records(s, k) || RegisteredBy(a, k, key) != []
    ensures Apply(s, a).listeners == s.listeners + EntryOf(a)
  {
  }

  /** Whatever key a module passes to the curried `on`/`once`, that key's
      record grows by exactly the pairs subscribed under it, in call order. */
  lemma {:induction false} RunTracksRecords(s: State, script: Script, k: Kind, key: Path)
    ensures RecordOf(Records(Run(s, script).state, k), key) == Extend(RecordOf(Records(s, k), key), Registered(script, k, key))
    ensures key in Records(Run(s, script).state, k) <==> key in Records(s, k) || Registered(script, k, key) != []
    decreases |script|
  {
    if script != [] && !script[0].Throw? {
      var a, rest := script[0], script[1..];
      ApplySubscription(s, a, k, key);
      RunTracksRecords(Apply(s, a), rest, k, key);
      assert Registered(script, k, key) == RegisteredBy(a, k, key) + Registered(rest, k, key);
      if RegisteredBy(a, k, key) != [] {
        var x := Sub(a.channel, a.listener);
        assert Registered(script, k, key) == [x] + Registered(rest, k, key);
        assert ([x] + Registered(rest, k, key))[1..] == Registered(rest, k, key);
      } else {
        assert Registered(script, k, key) == Registered(rest, k, key);
      }
    }
  }

  /** ipcMain gains exactly the module's `on`/`once` slots, appended in call order. */
  lemma {:induction false} RunTracksListeners(s: State, script: Script)
    ensures Run(s, script).state.listeners == s.listeners + Entries(script)
    decreases |script|
  {
    if script != [] && !script[0].Throw? {
      ApplySubscription(s, script[0], Persistent, []);
      RunTracksListeners(Apply(s, script[0]), script[1..]);
    }
  }

  /** Every `handle`/`handleOnce` a module makes appends its channel to the
      single process-wide list, repeats included, whatever module makes it;
      each such channel has a handler afterwards and other handlers are kept. */
  lemma {:induction false} RunTracksHandles(s: State, script: Script)
    ensures Run(s, script).state.handleChannels == s.handleChannels + HandleChannels(script)
    ensures forall c :: c in Run(s, script).state.handlers <==> c in s.handlers || c in HandleChannels(script)
    ensures forall c :: c in s.handlers && c !in HandleChannels(script) ==>
              Run(s, script).state.handlers[c] == s.handlers[c]
    decreases |script|
  {
    if script != [] && !script[0].Throw? {
      var a, rest := script[0], script[1..];
      var s1 := Apply(s, a);
      ApplyHandles(s, a);
      assert Run(s, script) == Run(s1, rest);
      RunTracksHandles(s1, rest);
      assert HandleChannels(script) == HandleOf(a) + HandleChannels(rest);
    }
  }

  /** One call through the tracked context: `handle`/`handleOnce` register the
      channel on ipcMain and append it to the list; nothing else touches them. */
  lemma ApplyHandles(s: State, a: Action)
    requires !a.Throw?
    ensures Apply(s, a).handleChannels == s.handleChannels + HandleOf(a)
    ensures forall c :: c in Apply(s, a).handlers <==> c in s.handlers || c in HandleOf(a)
    ensures forall c :: c in s.handlers && c !in HandleOf(a) ==> Apply(s, a).handlers[c] == s.handlers[c]
  {
  }

  /** Registering the same handle channel twice leaves two entries in the
      tracked list; the bus answers with the later handler. */
  lemma HandleTwiceTrackedTwice(s: State, c: Channel, l1: Listener, l2: Listener)
    ensures Run(s, [Handle(c, l1), Handle(c, l2)]).state.handleChannels == s.handleChannels + [c, c]
    ensures c in Run(s, [Handle(c, l1), Handle(c, l2)]).state.handlers
    ensures Run(s, [Handle(c, l1), Handle(c, l2)]).state.handlers[c] == Handler(l2, Persistent)
  {
    var s1 := RegisterHandler(s, Persistent, c, l1);
    var s2 := RegisterHandler(s1, Persistent, c, l2);
    assert [Handle(c, l1), Handle(c, l2)][1..] == [Handle(c, l2)];
    assert [Handle(c, l2)][1..] == [];
    assert Run(s, [Handle(c, l1), Handle(c, l2)]) == Run(s1, [Handle(c, l2)]) == Run(s2, []);
  }

  /** One step of a module's function: a call that does not throw takes
      effect, then the rest of the function runs. */
  lemma RunStep(s: State, script: Script, i: nat)
    requires i < |script| && !script[i].Throw?
    ensures Run(s, script[i..]) == Run(Apply(s, script[i]), script[i + 1..])
  {
    assert script[i..][1..] == script[i + 1..];
  }

  /** One call through the tracked context keeps every record's lists in lockstep. */
  lemma ApplyKeepsAligned(s: State, a: Action)
    requires !a.Throw? && Aligned(s)
    ensures Aligned(Apply(s, a))
  {
    if a.On? || a.Once? {
      var k := if a.On? then Persistent else OneShot;
      var m := Records(s, k);
      var r := Push(RecordOf(m, a.key), a.channel, a.listener);
      assert |r.channels| == |r.listeners|;
      assert AlignedMap(m[a.key := r]);
    }
  }

  /** One call through the tracked context keeps all three invariants. */
  lemma ApplyPreservesInv(s: State, a: Action)
    requires !a.Throw? && Inv(s)
    ensures Inv(Apply(s, a))
  {
    ApplyKeepsAligned(s, a);
    var s1 := Apply(s, a);
    if a.AppOn? && a.event !in s.appUsingEvents {
      assert NoDup(s1.appUsingEvents) by {
        assert forall i :: 0 <= i < |s.appUsingEvents| ==> s.appUsingEvents[i] != a.event;
      }
    }
  }

  /** One step of unmountAllIpc: the next file is hot-replaced, and the rest
      follow unless it threw. */
  lemma HotReplaceAllStep(s: State, files: seq<Path>, i: nat, disk: map<Path, Script>)
    requires i < |files| && Aligned(s)
    ensures HotReplaceAll(s, files[i..], disk) ==
            var o := HotReplace(s, files[i], disk);
            if o.Failed? then o else HotReplaceAll(o.state, files[i + 1..], disk)
  {
    assert files[i..][0] == files[i];
    assert files[i..][1..] == files[i + 1..];
  }

  /** A mount completes exactly when the module's function does not throw. */
  lemma {:induction false} RunCompletesUnlessThrow(s: State, script: Script)
    ensures Run(s, script).Done? <==> Completes(script)
    decreases |script|
  {
    if script != [] {
      if script[0].Throw? {
        assert !Completes(script);
      } else {
        RunCompletesUnlessThrow(Apply(s, script[0]), script[1..]);
        assert forall i :: 0 <= i < |script[1..]| ==> script[1..][i] == script[i + 1];
        assert Completes(script) <==> Completes(script[1..]);
      }
    }
  }

  /** A module's function keeps the invariants: lockstep records, one app
      subscription per used event name, a handle list naming exactly the
      registered handlers. */
  lemma {:induction false} RunPreservesInv(s: State, script: Script)
    requires Inv(s)
    ensures Inv(Run(s, script).state)
    decreases |script|
  {
    if script != [] && !script[0].Throw? {
      ApplyPreservesInv(s, script[0]);
      RunPreservesInv(Apply(s, script[0]), script[1..]);
    }
  }

  lemma SubsConcat(a: seq<BusEntry>, b: seq<BusEntry>)
    ensures Subs(a + b) == Subs(a) + Subs(b)
  {
  }

  /** A module that subscribes only under its own path `p` subscribes
      nothing under any other key. */
  lemma {:induction false} OwnedElsewhere(script: Script, p: Path, k: Kind, q: Path)
    requires Owns(script, p) && q != p
    ensures Registered(script, k, q) == []
    decreases |script|
  {
    if script != [] && !script[0].Throw? {
      var rest := script[1..];
      assert Owns(rest, p) by {
        assert forall i :: 0 <= i < |rest| ==> rest[i] == script[i + 1];
      }
      OwnedElsewhere(rest, p, k, q);
      assert RegisteredBy(script[0], k, q) == [];
    }
  }

  /** The ipcMain slots a module adds are, as pairs, its on-pairs together
      with its once-pairs under its own path. */
  lemma {:induction false} OwnedEntries(script: Script, p: Path)
    requires Owns(script, p)
    ensures multiset(Subs(Entries(script))) ==
            multiset(Registered(script, Persistent, p)) + multiset(Registered(script, OneShot, p))
    decreases |script|
  {
    if script != [] && !script[0].Throw? {
      var a, rest := script[0], script[1..];
      assert Owns(rest, p) by {
        assert forall i :: 0 <= i < |rest| ==> rest[i] == script[i + 1];
      }
      assert (a.On? || a.Once?) ==> a.key == p;
      OwnedEntries(rest, p);
      OwnedEntry(a, p);
      SubsConcat(EntryOf(a), Entries(rest));
      assert Entries(script) == EntryOf(a) + Entries(rest);
      assert Registered(script, Persistent, p) == RegisteredBy(a, Persistent, p) + Registered(rest, Persistent, p);
      assert Registered(script, OneShot, p) == RegisteredBy(a, OneShot, p) + Registered(rest, OneShot, p);
    }
  }

  lemma OwnedEntry(a: Action, p: Path)
    requires (a.On? || a.Once?) ==> a.key == p
    ensures multiset(Subs(EntryOf(a))) == multiset(RegisteredBy(a, Persistent, p)) + multiset(RegisteredBy(a, OneShot, p))
  {
    if a.On? || a.Once? {
      assert Subs(EntryOf(a)) == [Sub(a.channel, a.listener)];
    } else {
      assert Subs(EntryOf(a)) == [];
    }
  }

  // ------------------------------------------------------------------ removal

  /** removeListener takes away one occurrence of the pair, if any. */
  lemma {:induction false} RemoveListenerRemovesOne(xs: seq<BusEntry>, x: Sub)
    ensures multiset(Subs(RemoveListener(xs, x))) == multiset(Subs(xs)) - multiset{x}
    decreases |xs|
  {
    if xs != [] {
      var init, e := xs[..|xs| - 1], xs[|xs| - 1];
      assert xs == init + [e];
      assert Subs(xs) == Subs(init) + [e.sub];
      if e.sub != x {
        RemoveListenerRemovesOne(init, x);
        var r := RemoveListener(init, x);
        assert Subs(r + [e]) == Subs(r) + [e.sub];
      }
    }
  }

  lemma DiffTwice(a: multiset<Sub>, b: multiset<Sub>, c: multiset<Sub>)
    ensures a - b - c == a - (b + c)
  {
  }

  /** Removing a list of pairs one by one takes away exactly that multiset. */
  lemma {:induction false} RemoveEachRemoves(xs: seq<BusEntry>, subs: seq<Sub>)
    ensures multiset(Subs(RemoveEach(xs, subs))) == multiset(Subs(xs)) - multiset(subs)
    decreases |subs|
  {
    if subs != [] {
      var x, rest := subs[0], subs[1..];
      var xs1 := RemoveListener(xs, x);
      RemoveListenerRemovesOne(xs, x);
      RemoveEachRemoves(xs1, rest);
      assert RemoveEach(xs, subs) == RemoveEach(xs1, rest);
      assert multiset(subs) == multiset{x} + multiset(rest) by {
        assert subs == [x] + rest;
      }
      DiffTwice(multiset(Subs(xs)), multiset{x}, multiset(rest));
    }
  }

  /** When the pair occurs among the last slots `e`, removeListener finds it there. */
  lemma {:induction false} RemoveListenerInSuffix(l: seq<BusEntry>, e: seq<BusEntry>, x: Sub)
    requires x in Subs(e)
    ensures RemoveListener(l + e, x) == l + RemoveListener(e, x)
    decreases |e|
  {
    var init, last := e[..|e| - 1], e[|e| - 1];
    assert e == init + [last];
    assert l + e == (l + init) + [last];
    assert (l + e)[..|l + e| - 1] == l + init;
    if last.sub != x {
      assert Subs(e) == Subs(init) + [last.sub];
      RemoveListenerInSuffix(l, init, x);
    }
  }

  lemma {:induction false} RemoveEachInSuffix(l: seq<BusEntry>, e: seq<BusEntry>, subs: seq<Sub>)
    requires multiset(subs) <= multiset(Subs(e))
    ensures RemoveEach(l + e, subs) == l + RemoveEach(e, subs)
    ensures multiset(Subs(RemoveEach(e, subs))) == multiset(Subs(e)) - multiset(subs)
    decreases |subs|
  {
    if subs != [] {
      var x := subs[0];
      assert subs == [x] + subs[1..];
      assert x in multiset(Subs(e));
      RemoveListenerInSuffix(l, e, x);
      RemoveListenerRemovesOne(e, x);
      RemoveEachInSuffix(l, RemoveListener(e, x), subs[1..]);
    }
  }

  // ------------------------------------------------------------- clearEvents

  /** One half of clearEvents: p's record of that kind becomes absent, every
      other record stays, and exactly the recorded pairs leave ipcMain. */
  lemma ClearKindEffect(s: State, k: Kind, p: Path)
    requires AlignedMap(Records(s, k))
    ensures Records(ClearKind(s, k, p), k) == Records(s, k) - {p}
    ensures ClearKind(s, k, p).listeners == RemoveEach(s.listeners, Pairs(RecordOf(Records(s, k), p)))
    ensures multiset(Subs(ClearKind(s, k, p).listeners)) ==
            multiset(Subs(s.listeners)) - multiset(Pairs(RecordOf(Records(s, k), p)))
    ensures ClearKind(s, k, p) == WithRecords(s, k, Records(s, k) - {p}).(listeners := ClearKind(s, k, p).listeners)
  {
    RemoveEachRemoves(s.listeners, Pairs(RecordOf(Records(s, k), p)));
    assert Pairs(Record([], [])) == [];
  }

  /** clearEvents(p) removes from ipcMain exactly the pairs recorded under p
      (on and once), makes p's records absent and leaves every other path's
      records as they were; with no record for p the listeners are untouched. */
  lemma ClearEventsListeners(s: State, p: Path)
    requires Aligned(s)
    ensures ClearEvents(s, p).onMap == s.onMap - {p} && ClearEvents(s, p).onceMap == s.onceMap - {p}
    ensures ClearEvents(s, p).listeners ==
            RemoveEach(RemoveEach(s.listeners, Pairs(RecordOf(s.onMap, p))), Pairs(RecordOf(s.onceMap, p)))
    ensures multiset(Subs(ClearEvents(s, p).listeners)) ==
            multiset(Subs(s.listeners)) - multiset(Pairs(RecordOf(s.onMap, p))) - multiset(Pairs(RecordOf(s.onceMap, p)))
    ensures p !in s.onMap && p !in s.onceMap ==> ClearEvents(s, p).listeners == s.listeners
  {
    var s1 := ClearKind(s, Persistent, p);
    ClearKindEffect(s, Persistent, p);
    ClearKindEffect(s1, OneShot, p);
  }

  /** clearEvents(p), for any p, drains every tracked handle channel,
      whichever module registered it, keeps untracked handlers, and touches
      neither the cache, the ipc file list nor the app. */
  lemma ClearEventsHandlers(s: State, p: Path)
    requires Aligned(s)
    ensures ClearEvents(s, p).handleChannels == []
    ensures forall c :: c in ClearEvents(s, p).handlers <==> c in s.handlers && c !in s.handleChannels
    ensures forall c :: c in ClearEvents(s, p).handlers ==> ClearEvents(s, p).handlers[c] == s.handlers[c]
    ensures ClearEvents(s, p).cache == s.cache && ClearEvents(s, p).ipcFiles == s.ipcFiles
    ensures ClearEvents(s, p).appSubs == s.appSubs && ClearEvents(s, p).appUsingEvents == s.appUsingEvents
    ensures ClearEvents(s, p).reloads == s.reloads
  {
    var s2 := ClearKind(ClearKind(s, Persistent, p), OneShot, p);
    assert s2.handlers == s.handlers && s2.handleChannels == s.handleChannels;
  }

  /** With the handle list tracking ipcMain's handlers, clearEvents of any
      path leaves ipcMain with no handler at all, and the invariants hold. */
  lemma ClearEventsDrainsAllHandlers(s: State, p: Path)
    requires Inv(s)
    ensures ClearEvents(s, p).handlers == map[]
    ensures Inv(ClearEvents(s, p))
  {
    ClearEventsHandlers(s, p);
  }

  // -------------------------------------------------------------- unmounting

  /** Clearing a path whose pairs are, as a multiset, exactly the last slots
      `e` of ipcMain takes off those slots and nothing before them. */
  lemma ClearTakesOffSuffix(t: State, p: Path, l: seq<BusEntry>, e: seq<BusEntry>)
    requires Aligned(t) && t.listeners == l + e
    requires multiset(Subs(e)) == multiset(Pairs(RecordOf(t.onMap, p))) + multiset(Pairs(RecordOf(t.onceMap, p)))
    ensures ClearEvents(t, p).listeners == l
  {
    var a, b := Pairs(RecordOf(t.onMap, p)), Pairs(RecordOf(t.onceMap, p));
    assert ClearEvents(t, p).listeners == RemoveEach(RemoveEach(l + e, a), b) by {
      ClearEventsListeners(t, p);
    }
    RemoveEachInSuffix(l, e, a);
    var e1 := RemoveEach(e, a);
    RemoveEachInSuffix(l, e1, b);
    var e2 := RemoveEach(e1, b);
    assert |multiset(Subs(e2))| == 0;
    assert e2 == [];
  }

  /** The listener half of the undo: after a fresh mount of a module that
      subscribes only under its own path p, clearing p takes off exactly the
      slots the mount added, leaving the earlier slots in place and in order. */
  lemma UnmountRestoresListeners(s: State, p: Path, script: Script)
    requires Aligned(s) && p !in s.onMap && p !in s.onceMap && Owns(script, p)
    ensures ClearEvents(Run(s, script).state, p).listeners == s.listeners
  {
    var t := Run(s, script).state;
    var a, b := Registered(script, Persistent, p), Registered(script, OneShot, p);
    OwnedEntries(script, p);
    RunTracksListeners(s, script);
    RunTracksRecords(s, script, Persistent, p);
    RunTracksRecords(s, script, OneShot, p);
    PairsExtend(Record([], []), a);
    PairsExtend(Record([], []), b);
    assert Pairs(Record([], [])) == [];
    assert Pairs(RecordOf(t.onMap, p)) == a;
    assert Pairs(RecordOf(t.onceMap, p)) == b;
    ClearTakesOffSuffix(t, p, s.listeners, Entries(script));
  }

  /** Two record maps that agree away from p, where the second has no p. */
  lemma AgreeAwayFrom(mt: map<Path, Record>, ms: map<Path, Record>, p: Path)
    requires p !in ms
    requires forall q :: q != p ==> (q in mt <==> q in ms) && RecordOf(mt, q) == RecordOf(ms, q)
    ensures mt - {p} == ms
  {
    forall q | q in mt - {p}
      ensures q in ms && (mt - {p})[q] == ms[q]
    {
      assert RecordOf(mt, q) == RecordOf(ms, q);
    }
  }

  /** Clearing p after a step that changed no record but p's gives back the
      records from before the step. */
  lemma ClearRestoresRecords(s: State, t: State, p: Path, k: Kind)
    requires Aligned(t) && p !in Records(s, k)
    requires forall q :: q != p ==> (q in Records(t, k) <==> q in Records(s, k)) && RecordOf(Records(t, k), q) == RecordOf(Records(s, k), q)
    ensures Records(ClearEvents(t, p), k) == Records(s, k)
  {
    ClearEventsListeners(t, p);
    AgreeAwayFrom(Records(t, k), Records(s, k), p);
  }

  /** The record half of the undo: records of every other path are untouched
      by such a module, and p's records are absent again. */
  lemma UnmountRestoresRecords(s: State, p: Path, script: Script, k: Kind)
    requires Aligned(s) && p !in Records(s, k) && Owns(script, p)
    ensures Records(ClearEvents(Run(s, script).state, p), k) == Records(s, k)
  {
    var t := Run(s, script).state;
    forall q | q != p
      ensures (q in Records(t, k) <==> q in Records(s, k)) && RecordOf(Records(t, k), q) == RecordOf(Records(s, k), q)
    {
      RunTracksRecords(s, script, k, q);
      OwnedElsewhere(script, p, k, q);
    }
    ClearRestoresRecords(s, t, p, k);
  }

  /** Unmounting a module that was mounted from a fresh load, and that
      subscribes only under its own path, restores ipcMain's listener slots
      exactly (contents, order and kinds), the tracker's maps and the cache,
      even when its function threw part-way. Its app subscriptions stay. */
  lemma UnmountUndoesMount(s: State, p: Path, disk: map<Path, Script>)
    requires Aligned(s)
    requires p !in s.onMap && p !in s.onceMap && p !in s.cache
    requires p in disk && Owns(disk[p], p)
    ensures Unmount(Mount(s, p, disk).state, p).listeners == s.listeners
    ensures Unmount(Mount(s, p, disk).state, p).onMap == s.onMap
    ensures Unmount(Mount(s, p, disk).state, p).onceMap == s.onceMap
    ensures Unmount(Mount(s, p, disk).state, p).cache == s.cache
    ensures Unmount(Mount(s, p, disk).state, p).handleChannels == []
    ensures Unmount(Mount(s, p, disk).state, p).appSubs == Mount(s, p, disk).state.appSubs
  {
    var s1 := s.(cache := s.cache[p := disk[p]]);
    var t := Run(s1, disk[p]).state;
    assert Mount(s, p, disk).state == t;
    UnmountRestoresListeners(s1, p, disk[p]);
    UnmountRestoresRecords(s1, p, disk[p], Persistent);
    UnmountRestoresRecords(s1, p, disk[p], OneShot);
    ClearEventsHandlers(t, p);
  }

  // ------------------------------------------------------------ app.on dedup

  /** With one subscription per used event name, the real app holds exactly
      one subscription for each used name and none for any other. */
  lemma {:induction false} CountTracked(subs: seq<AppSub>, events: seq<string>, e: string)
    requires NoDup(events) && |subs| == |events|
    requires forall i :: 0 <= i < |subs| ==> subs[i].event == events[i]
    ensures CountEvent(subs, e) == if e in events then 1 else 0
    decreases |subs|
  {
    if subs != [] {
      var n := |subs| - 1;
      assert NoDup(events[..n]);
      CountTracked(subs[..n], events[..n], e);
      assert events == events[..n] + [events[n]];
      if events[n] == e {
        assert e !in events[..n];
      }
    }
  }

  /** The context's `app.on(e, l)` subscribes the real app only when e is not
      yet used; a second call with the same e changes nothing, so the app
      holds exactly one subscription for e. */
  lemma AppSubscribeOnce(s: State, e: string, l1: Listener, l2: Listener)
    requires AppTracked(s)
    ensures e in s.appUsingEvents ==> AppSubscribe(s, e, l1) == s
    ensures e !in s.appUsingEvents ==> AppSubscribe(s, e, l1).appSubs == s.appSubs + [AppSub(e, l1)]
    ensures AppSubscribe(AppSubscribe(s, e, l1), e, l2) == AppSubscribe(s, e, l1)
    ensures AppTracked(AppSubscribe(s, e, l1))
    ensures CountEvent(AppSubscribe(s, e, l1).appSubs, e) == 1
  {
    var t := AppSubscribe(s, e, l1);
    if e !in s.appUsingEvents {
      assert forall i :: 0 <= i < |s.appUsingEvents| ==> s.appUsingEvents[i] != e;
    }
    assert AppTracked(t);
    CountTracked(t.appSubs, t.appUsingEvents, e);
  }
}
