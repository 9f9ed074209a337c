/** What holds of the hotplug registry in every interleaving. */
module HotplugSafety {
  import opened Wrappers
  import opened Hotplug
  import opened HotplugReplay

  predicate OwnIds(listeners: seq<Listener>) {
    forall i, j :: 0 <= i < j < |listeners| ==> listeners[i].id != listeners[j].id
  }

  /** A call in the queue is for a listener that exists or existed. */
  predicate CallFor(w: World, c: (Listener, Event)) {
    c.0.id in w.log && forall i :: 0 <= i < |w.listeners| && w.listeners[i].id == c.0.id ==> w.listeners[i] == c.0
  }

  predicate Listeners(w: World) {
    && OwnIds(w.listeners) && (forall i :: 0 <= i < |w.listeners| ==> w.listeners[i].id in w.log)
    && (forall id :: id in w.log ==> id <= w.nextId)
    && (forall k :: 0 <= k < |w.queue| ==> CallFor(w, w.queue[k]))
  }

  /** Who is where when. */
  predicate Phases(w: World) {
    && (w.queue != [] ==> w.lock.Seeding? || w.lock.Rescan?)
    && (w.lock.Rescan? <==> w.loop.Dispatching?)
    && (if w.started then w.watching && !w.loop.Absent? && !w.lock.Watching? && !w.lock.Scanning? && !w.lock.Spawning?
        else w.listeners == [] && w.loop.Absent? && !w.lock.Registering? && !w.lock.Seeding? && w.queue == [])
    && (w.lock.Scanning? || w.lock.Spawning? ==> w.watching)
    && Distinct(w.known) && (w.loop.Enumerated? ==> Distinct(w.loop.current))
  }

  /** A wake-up is on its way. */
  predicate Behind(w: World) {
    w.owed || w.pending
  }

  /** The last enumeration is up to date, or another is sure to come. */
  predicate Fresh(w: World) {
    && (w.lock.Scanning? && w.lock.dirty ==> Behind(w))
    && (w.lock.Spawning? ==> w.known == w.attached || Behind(w) || w.failed)
    && (w.started ==>
          match w.loop
          case Taken => true
          case Enumerating(dirty) => dirty ==> Behind(w)
          case Enumerated(current) => current == w.attached || Behind(w)
          case Ended => true
          case _ => w.known == w.attached || Behind(w) || w.failed)
  }

  /** What `l` has heard and is still to hear makes up what it should know. */
  predicate Told(w: World, l: Listener) {
    l.id in w.log &&
    (l.filter.class_.None? ==>
       Replay(w.log[l.id].base, w.log[l.id].heard + Todo(w.queue, l)) == Some(Identities(w.known, l.filter)))
  }

  predicate Inv(w: World) {
    Listeners(w) && Phases(w) && Fresh(w) && forall i :: 0 <= i < |w.listeners| ==> Told(w, w.listeners[i])
  }

  // ----- every step keeps it -----

  lemma {:induction false} WithoutIs(listeners: seq<Listener>, id: nat)
    requires OwnIds(listeners)
    ensures OwnIds(Without(listeners, id))
    ensures forall l :: l in Without(listeners, id) <==> l in listeners && l.id != id
  {
    if listeners != [] {
      var init, last := listeners[..|listeners| - 1], listeners[|listeners| - 1];
      assert listeners == init + [last];
      WithoutIs(init, id);
      var rest := Without(init, id);
      forall i | 0 <= i < |rest| ensures rest[i].id != last.id {
        assert rest[i] in init;
      }
    }
  }

  lemma {:induction false} CallsAre(listeners: seq<Listener>, events: seq<Event>)
    ensures forall k :: 0 <= k < |Calls(listeners, events)| ==> Calls(listeners, events)[k].0 in listeners
  {
    if events != [] {
      CallsAre(listeners, events[..|events| - 1]);
      ForAllAre(listeners, events[|events| - 1]);
    }
  }

  lemma {:induction false} ForAllAre(listeners: seq<Listener>, e: Event)
    ensures forall k :: 0 <= k < |ForAll(listeners, e)| ==> ForAll(listeners, e)[k].0 in listeners
  {
    if listeners != [] { ForAllAre(listeners[..|listeners| - 1], e); }
  }

  lemma AddFresh(w: World, step: Step)
    requires Phases(w) && Fresh(w) && Enabled(w, step)
    requires step.AddBegin? || step.AddWatch? || step.AddScan? || step.AddSpawn? || step.AddRegister? || step.AddDone?
    ensures Fresh(Apply(w, step))
  {
  }

  lemma LoopFresh(w: World, step: Step)
    requires Phases(w) && Fresh(w) && Enabled(w, step)
    requires step.LoopWake? || step.LoopTake? || step.LoopBegin? || step.LoopScan? || step.LoopDiff? || step.LoopDone?
    ensures Fresh(Apply(w, step))
  {
  }

  lemma FreshKept(w: World, step: Step)
    requires Phases(w) && Fresh(w) && Enabled(w, step)
    ensures Fresh(Apply(w, step))
  {
    if step.AddBegin? || step.AddWatch? || step.AddScan? || step.AddSpawn? || step.AddRegister? || step.AddDone? {
      AddFresh(w, step);
    } else if step.LoopWake? || step.LoopTake? || step.LoopBegin? || step.LoopScan? || step.LoopDiff? || step.LoopDone? {
      LoopFresh(w, step);
    }
  }

  lemma DiffPhases(w: World)
    requires Phases(w) && w.loop.Enumerated? && w.lock.NoOne?
    ensures Phases(Diffed(w))
  {
  }

  lemma RegisterPhases(w: World)
    requires Phases(w) && w.lock.Registering?
    ensures Phases(Registered(w))
  {
  }

  lemma DeliverPhases(w: World)
    requires Phases(w) && Enabled(w, Deliver)
    ensures Phases(Delivered(w))
  {
  }

  lemma AddPhases(w: World, step: Step)
    requires Phases(w) && Enabled(w, step) && (step.AddBegin? || step.AddWatch? || step.AddScan? || step.AddSpawn? || step.AddDone?)
    ensures Phases(Apply(w, step))
  {
  }

  lemma PhasesKept(w: World, step: Step)
    requires Phases(w) && Enabled(w, step)
    ensures Phases(Apply(w, step))
  {
    if step.LoopDiff? { DiffPhases(w); }
    else if step.AddRegister? { RegisterPhases(w); }
    else if step.Deliver? { DeliverPhases(w); }
    else if step.AddBegin? || step.AddWatch? || step.AddScan? || step.AddSpawn? || step.AddDone? { AddPhases(w, step); }
  }

  lemma RegisterListeners(w: World)
    requires Inv(w) && w.lock.Registering?
    ensures Listeners(Registered(w))
  {
    var v := Registered(w);
    var l := v.listeners[|w.listeners|];
    if w.lock.existing { CallsAre([l], Arrivals(w.known)); }
    forall i | 0 <= i < |w.listeners| ensures w.listeners[i].id <= w.nextId { assert w.listeners[i].id in w.log; }
  }

  lemma RemoveListeners(w: World, id: nat)
    requires Inv(w)
    ensures Listeners(Apply(w, Remove(id)))
  {
    WithoutIs(w.listeners, id);
    var v := Apply(w, Remove(id));
    forall i | 0 <= i < |v.listeners| ensures v.listeners[i] in w.listeners { assert v.listeners[i] in v.listeners; }
    forall k | 0 <= k < |v.queue| ensures CallFor(v, v.queue[k]) { assert CallFor(w, w.queue[k]); }
  }

  lemma DiffListeners(w: World)
    requires Inv(w) && w.loop.Enumerated? && w.lock.NoOne?
    ensures Listeners(Diffed(w))
  {
    CallsAre(w.listeners, Changes(w.known, w.loop.current));
    var v := Diffed(w);
    forall k | 0 <= k < |v.queue| ensures CallFor(v, v.queue[k]) {
      var i :| 0 <= i < |w.listeners| && w.listeners[i] == v.queue[k].0;
    }
  }

  lemma DeliverListeners(w: World)
    requires Inv(w) && Enabled(w, Deliver)
    ensures Listeners(Delivered(w))
  {
    var v := Delivered(w);
    forall k | 0 <= k < |v.queue| ensures CallFor(v, v.queue[k]) { assert CallFor(w, w.queue[k + 1]); }
  }

  lemma ListenersKept(w: World, step: Step)
    requires Inv(w) && Enabled(w, step)
    ensures Listeners(Apply(w, step))
  {
    if step.AddRegister? { RegisterListeners(w); }
    else if step.Remove? { RemoveListeners(w, step.id); }
    else if step.LoopDiff? { DiffListeners(w); }
    else if step.Deliver? { DeliverListeners(w); }
    else { SameListeners(w, Apply(w, step)); }
  }

  lemma SameListeners(w: World, v: World)
    requires Listeners(w) && v.listeners == w.listeners && v.log == w.log && v.nextId == w.nextId && v.queue == w.queue
    ensures Listeners(v)
  {
    forall k | 0 <= k < |v.queue| ensures CallFor(v, v.queue[k]) { assert CallFor(w, w.queue[k]); }
  }

  /** A listener that joins: its base and its first batch are what is known. */
  lemma RegisterTold(w: World, i: nat)
    requires Inv(w) && w.lock.Registering? && i < |Registered(w).listeners|
    ensures Told(Registered(w), Registered(w).listeners[i])
  {
    var v := Registered(w);
    var l := v.listeners[i];
    if i < |w.listeners| {
      assert Told(w, l) && l.id <= w.nextId;
      if w.lock.existing {
        var newer := Listener(w.nextId + 1, w.lock.filter);
        CallsAre([newer], Arrivals(w.known));
        TodoOther(v.queue, l);
      }
    } else if l.filter.class_.None? {
      if w.lock.existing {
        TodoCalls([l], Arrivals(w.known), l);
        ArrivalsPlay(w.known, l.filter, {});
        assert {} + Identities(w.known, l.filter) == Identities(w.known, l.filter);
        assert [] + Todo(v.queue, l) == Todo(v.queue, l);
      } else {
        assert v.log[l.id].heard + Todo(v.queue, l) == [];
      }
    }
  }

  lemma {:induction false} TodoOther(q: Queue, l: Listener)
    requires forall k :: 0 <= k < |q| ==> q[k].0 != l
    ensures Todo(q, l) == []
  {
    if q != [] {
      forall k | 0 <= k < |q[1..]| ensures q[1..][k].0 != l { assert q[k + 1].0 != l; }
      TodoOther(q[1..], l);
    }
  }

  /** A call made is no longer one to be made. */
  lemma DeliverTold(w: World, i: nat)
    requires Inv(w) && Enabled(w, Deliver) && i < |w.listeners|
    ensures Told(Delivered(w), w.listeners[i])
  {
    var l := w.listeners[i];
    assert Told(w, l) && CallFor(w, w.queue[0]);
    var (l0, e) := w.queue[0];
    if l0 == l && Matches(l.filter, e.info) {
      assert w.log[l.id].heard + ([e] + Todo(w.queue[1..], l)) == w.log[l.id].heard + [e] + Todo(w.queue[1..], l);
    }
  }

  /** A scan: what changed is what every listener is now to be told. */
  lemma DiffTold(w: World, i: nat)
    requires Inv(w) && w.loop.Enumerated? && w.lock.NoOne? && i < |w.listeners|
    ensures Told(Diffed(w), w.listeners[i])
  {
    var l := w.listeners[i];
    var r := w.log[l.id];
    assert Told(w, l) && w.queue == [] && r.heard + [] == r.heard;
    var events := Changes(w.known, w.loop.current);
    if l.filter.class_.None? {
      ChangesPlay(w.known, w.loop.current, l.filter);
      if events != [] {
        TodoCalls(w.listeners, events, l);
        ReplayAppend(r.base, r.heard, Wanted(l.filter, events));
      }
    }
  }

  lemma ToldKept(w: World, step: Step, i: nat)
    requires Inv(w) && Enabled(w, step) && i < |Apply(w, step).listeners|
    ensures Told(Apply(w, step), Apply(w, step).listeners[i])
  {
    if step.AddRegister? { RegisterStep(w, step, i); }
    else if step.Deliver? { DeliverStep(w, step, i); }
    else if step.LoopDiff? { DiffStep(w, step, i); }
    else if step.Remove? { RemoveStep(w, step, i); }
    else { OtherTold(w, step, i); }
  }

  lemma RegisterStep(w: World, step: Step, i: nat)
    requires Inv(w) && Enabled(w, step) && step.AddRegister? && i < |Apply(w, step).listeners|
    ensures Told(Apply(w, step), Apply(w, step).listeners[i])
  {
    RegisterTold(w, i);
  }

  lemma DeliverStep(w: World, step: Step, i: nat)
    requires Inv(w) && Enabled(w, step) && step.Deliver? && i < |Apply(w, step).listeners|
    ensures Told(Apply(w, step), Apply(w, step).listeners[i])
  {
    DeliverTold(w, i);
  }

  lemma DiffStep(w: World, step: Step, i: nat)
    requires Inv(w) && Enabled(w, step) && step.LoopDiff? && i < |Apply(w, step).listeners|
    ensures Told(Apply(w, step), Apply(w, step).listeners[i])
  {
    DiffTold(w, i);
  }

  lemma RemoveStep(w: World, step: Step, i: nat)
    requires Inv(w) && Enabled(w, step) && step.Remove? && i < |Apply(w, step).listeners|
    ensures Told(Apply(w, step), Apply(w, step).listeners[i])
  {
    RemoveTold(w, step.id, i);
  }

  /** Nothing that the listeners were told, or should be, has changed. */
  predicate SameNews(w: World, v: World) {
    v.listeners == w.listeners && v.log == w.log && v.queue == w.queue && (w.listeners != [] ==> v.known == w.known)
  }

  lemma AddUntold(w: World, step: Step)
    requires Phases(w) && Enabled(w, step)
    requires step.AddBegin? || step.AddWatch? || step.AddScan? || step.AddSpawn? || step.AddDone?
    ensures SameNews(w, Apply(w, step))
  {
  }

  lemma LoopUntold(w: World, step: Step)
    requires Enabled(w, step)
    requires step.LoopWake? || step.LoopTake? || step.LoopBegin? || step.LoopScan? || step.LoopDone? || step.LoopNext?
    ensures SameNews(w, Apply(w, step))
  {
  }

  lemma Untold(w: World, step: Step)
    requires Phases(w) && Enabled(w, step)
    requires !step.AddRegister? && !step.Deliver? && !step.LoopDiff? && !step.Remove?
    ensures SameNews(w, Apply(w, step))
  {
    if step.AddBegin? || step.AddWatch? || step.AddScan? || step.AddSpawn? || step.AddDone? { AddUntold(w, step); }
    else if !step.Change? && !step.Notify? && !step.Stop? { LoopUntold(w, step); }
  }

  lemma OtherTold(w: World, step: Step, i: nat)
    requires Inv(w) && Enabled(w, step) && i < |Apply(w, step).listeners|
    requires !step.AddRegister? && !step.Deliver? && !step.LoopDiff? && !step.Remove?
    ensures Told(Apply(w, step), Apply(w, step).listeners[i])
  {
    Untold(w, step);
    SameTold(w, Apply(w, step), i);
  }

  lemma RemoveTold(w: World, id: nat, i: nat)
    requires Inv(w) && i < |Without(w.listeners, id)|
    ensures Told(Apply(w, Remove(id)), Without(w.listeners, id)[i])
  {
    WithoutIs(w.listeners, id);
    var l := Without(w.listeners, id)[i];
    assert l in Without(w.listeners, id);
    var j :| 0 <= j < |w.listeners| && w.listeners[j] == l;
    assert Told(w, w.listeners[j]);
  }

  lemma SameTold(w: World, v: World, i: nat)
    requires Inv(w) && i < |w.listeners| && v.listeners == w.listeners
    requires v.log == w.log && v.queue == w.queue && v.known == w.known
    ensures Told(v, v.listeners[i])
  {
    assert Told(w, w.listeners[i]);
  }

  lemma StepInv(w: World, step: Step)
    requires Inv(w) && Enabled(w, step)
    ensures Inv(Apply(w, step))
  {
    ListenersKept(w, step);
    PhasesKept(w, step);
    FreshKept(w, step);
    forall i | 0 <= i < |Apply(w, step).listeners| ensures Told(Apply(w, step), Apply(w, step).listeners[i]) {
      ToldKept(w, step, i);
    }
  }

  lemma {:induction false} RunInv(w: World, steps: seq<Step>)
    requires Inv(w) && IsRun(w, steps)
    ensures Inv(RunFrom(w, steps))
    decreases |steps|
  {
    if steps != [] {
      StepInv(w, steps[0]);
      RunInv(Apply(w, steps[0]), steps[1..]);
    }
  }

  // ----- the results -----

  /** Playing back what a listener heard, whenever it joined, is never out of turn and gives just
      the known devices it asked for, whenever no call is left to make; and while calls are being
      made, it is never out of turn either. */
  lemma ReplayIsKnown(w: World, steps: seq<Step>, l: Listener)
    requires Initial(w) && IsRun(w, steps) && l in RunFrom(w, steps).listeners && l.filter.class_.None?
    ensures
      var e := RunFrom(w, steps);
      && l.id in e.log
      && Replay(e.log[l.id].base, e.log[l.id].heard).Some?
      && (!e.lock.Seeding? && !e.lock.Rescan? ==>
            Replay(e.log[l.id].base, e.log[l.id].heard) == Some(Identities(e.known, l.filter)))
  {
    RunInv(w, steps);
    var e := RunFrom(w, steps);
    var i :| 0 <= i < |e.listeners| && e.listeners[i] == l;
    assert Told(e, e.listeners[i]);
    ReplayAppend(e.log[l.id].base, e.log[l.id].heard, Todo(e.queue, l));
    assert e.log[l.id].heard + [] == e.log[l.id].heard;
  }

  /** No wake-up is lost: when the thread waits and nothing is pending or owed, what is known is what
      is attached, unless the last enumeration failed. */
  lemma NoLostWakeUp(w: World, steps: seq<Step>)
    requires Initial(w) && IsRun(w, steps)
    ensures
      var e := RunFrom(w, steps);
      e.started && e.loop.Waiting? && !e.pending && !e.owed && !e.failed ==> e.known == e.attached
  {
    RunInv(w, steps);
  }

  /** A notification, once given, keeps until the thread takes it, and a request to stop for good. */
  lemma {:induction false} FlagsKeep(w: World, steps: seq<Step>)
    requires IsRun(w, steps)
    ensures w.pending && LoopTake !in steps ==> RunFrom(w, steps).pending
    ensures w.stop ==> RunFrom(w, steps).stop
    decreases |steps|
  {
    if steps != [] {
      FlagKept(w, steps[0]);
      FlagsKeep(Apply(w, steps[0]), steps[1..]);
    }
  }

  predicate Keeps(w: World, v: World, taken: bool) {
    (w.pending && !taken ==> v.pending) && (w.stop ==> v.stop)
  }

  lemma DispatchKeeps(w: World, step: Step)
    requires Enabled(w, step) && (step.LoopDiff? || step.Deliver? || step.AddRegister? || step.Remove? || step.Change?)
    ensures Keeps(w, Apply(w, step), false)
  {
  }

  lemma AddKeeps(w: World, step: Step)
    requires Enabled(w, step) && (step.AddBegin? || step.AddWatch? || step.AddScan? || step.AddSpawn? || step.AddDone?)
    ensures Keeps(w, Apply(w, step), false)
  {
  }

  lemma LoopKeeps(w: World, step: Step)
    requires Enabled(w, step)
    requires step.LoopWake? || step.LoopTake? || step.LoopBegin? || step.LoopScan? || step.LoopDone? || step.LoopNext?
    ensures Keeps(w, Apply(w, step), step.LoopTake?)
  {
  }

  lemma FlagKept(w: World, step: Step)
    requires Enabled(w, step)
    ensures Keeps(w, Apply(w, step), step.LoopTake?)
  {
    if step.LoopDiff? || step.Deliver? || step.AddRegister? || step.Remove? || step.Change? { DispatchKeeps(w, step); }
    else if step.AddBegin? || step.AddWatch? || step.AddScan? || step.AddSpawn? || step.AddDone? { AddKeeps(w, step); }
    else if !step.Notify? && !step.Stop? { LoopKeeps(w, step); }
  }

  /** So then a listener has heard exactly of the devices that are attached. */
  lemma QuietMeansCurrent(w: World, steps: seq<Step>, l: Listener)
    requires Initial(w) && IsRun(w, steps) && l in RunFrom(w, steps).listeners && l.filter.class_.None?
    ensures
      var e := RunFrom(w, steps);
      && l.id in e.log
      && (e.loop.Waiting? && e.lock.NoOne? && !e.pending && !e.owed && !e.failed ==>
            Replay(e.log[l.id].base, e.log[l.id].heard) == Some(Identities(e.attached, l.filter)))
  {
    ReplayIsKnown(w, steps, l);
    NoLostWakeUp(w, steps);
    RunInv(w, steps);
  }

  lemma {:induction false} RunThen(w: World, steps: seq<Step>, step: Step)
    requires IsRun(w, steps) && Enabled(RunFrom(w, steps), step)
    ensures IsRun(w, steps + [step]) && RunFrom(w, steps + [step]) == Apply(RunFrom(w, steps), step)
    decreases |steps|
  {
    var all := steps + [step];
    if steps == [] {
      assert all[1..] == [];
      assert IsRun(Apply(w, step), all[1..]);
    } else {
      RunThen(Apply(w, steps[0]), steps[1..], step);
      assert all[1..] == steps[1..] + [step];
    }
  }

  /** A registry on a bus with `infos` attached, with one listener that is not told of them. */
  lemma SetUpWith(f: Filter, infos: seq<Info>) returns (w: World, steps: seq<Step>)
    requires Distinct(infos)
    ensures Initial(w) && IsRun(w, steps)
    ensures
      var e := RunFrom(w, steps);
      && e.started && e.watching && e.loop.Waiting? && e.lock.NoOne? && !e.pending && !e.owed && !e.stop && !e.failed
      && e.known == e.attached == infos && e.listeners == [Listener(1, f)] && e.queue == []
      && e.log == map[1 := Record(Identities(infos, f), [])]
  {
    w := World(infos, false, false, false, false, false, [], 0, [], NoOne, [], Absent, map[], false);
    steps := [];
    RunThen(w, steps, AddBegin(f, false));
    steps := steps + [AddBegin(f, false)];
    RunThen(w, steps, AddWatch(true));
    steps := steps + [AddWatch(true)];
    RunThen(w, steps, AddScan(Some(infos)));
    steps := steps + [AddScan(Some(infos))];
    RunThen(w, steps, AddSpawn(true));
    steps := steps + [AddSpawn(true)];
    RunThen(w, steps, AddRegister);
    steps := steps + [AddRegister];
    RunThen(w, steps, AddDone);
    steps := steps + [AddDone];
  }

  /** A bus that changes while the thread waits wakes it up. */
  lemma Awakened(w: World, before: seq<Step>, infos: seq<Info>) returns (steps: seq<Step>)
    requires IsRun(w, before) && Distinct(infos)
    requires var e := RunFrom(w, before);
      e.watching && e.loop.Waiting? && e.lock.NoOne? && !e.stop
    ensures IsRun(w, steps)
    ensures RunFrom(w, steps) == RunFrom(w, before).(attached := infos, owed := false, pending := true, loop := Woken)
  {
    steps := before;
    RunThen(w, steps, Change(infos));
    steps := steps + [Change(infos)];
    RunThen(w, steps, Notify);
    steps := steps + [Notify];
    RunThen(w, steps, LoopWake);
    steps := steps + [LoopWake];
  }

  /** A run in which a failed enumeration leaves a change unnoticed although nothing is pending. */
  lemma FailureLosesChange(d: Info) returns (w: World, steps: seq<Step>)
    ensures Initial(w) && IsRun(w, steps)
    ensures
      var e := RunFrom(w, steps);
      e.started && e.loop.Waiting? && e.lock.NoOne? && !e.pending && !e.owed && e.failed
      && e.known == [] && e.attached == [d]
  {
    w, steps := SetUpWith(Filter(None, None, None), []);
    steps := Awakened(w, steps, [d]);
    steps := Failing(w, steps);
  }

  /** An enumeration that fails. */
  lemma Failing(w: World, before: seq<Step>) returns (steps: seq<Step>)
    requires IsRun(w, before) && RunFrom(w, before).loop.Woken? && !RunFrom(w, before).stop
    ensures IsRun(w, steps)
    ensures RunFrom(w, steps) == RunFrom(w, before).(pending := false, failed := true, loop := Waiting)
  {
    RunThen(w, before, LoopTake);
    steps := before + [LoopTake];
    RunThen(w, steps, LoopBegin);
    steps := steps + [LoopBegin];
    RunThen(w, steps, LoopScan(None));
    steps := steps + [LoopScan(None)];
    RunThen(w, steps, LoopNext);
    steps := steps + [LoopNext];
  }

  /** In no run does the thread wait, with nothing pending or owed and the last enumeration come out
      as `failed` says, while what is known is not what is attached. */
  ghost predicate RestIsCurrent(failed: bool) {
    forall w, steps :: Initial(w) && IsRun(w, steps) && AtRest(RunFrom(w, steps), failed) ==>
      RunFrom(w, steps).known == RunFrom(w, steps).attached
  }

  predicate AtRest(e: World, failed: bool) {
    e.started && e.loop.Waiting? && !e.pending && !e.owed && e.failed == failed
  }

  /** So it is the outcome of the last enumeration that decides. */
  lemma RestIsCurrentExactly(failed: bool)
    ensures RestIsCurrent(failed) <==> !failed
  {
    if failed {
      var w, steps := FailureLosesChange(Info(Identity(0, 0, [], 0, 0), 0, None));
      assert AtRest(RunFrom(w, steps), true);
    } else {
      forall w, steps | Initial(w) && IsRun(w, steps) && AtRest(RunFrom(w, steps), failed)
        ensures RunFrom(w, steps).known == RunFrom(w, steps).attached
      {
        NoLostWakeUp(w, steps);
      }
    }
  }

  /** Then the bus comes to have `infos` attached, of which the registry finds nothing to report. */
  lemma ChangeUnseen(w: World, before: seq<Step>, infos: seq<Info>) returns (steps: seq<Step>)
    requires IsRun(w, before) && Distinct(infos)
    requires
      var e := RunFrom(w, before);
      && e.started && e.watching && e.loop.Waiting? && e.lock.NoOne? && !e.pending && !e.owed && !e.stop && !e.failed
      && e.queue == [] && Changes(e.known, infos) == []
    ensures IsRun(w, steps)
    ensures
      var e, e' := RunFrom(w, before), RunFrom(w, steps);
      && AtRest(e', false) && e'.lock.NoOne? && e'.known == e'.attached == infos
      && e'.listeners == e.listeners && e'.log == e.log
  {
    steps := Awakened(w, before, infos);
    RunThen(w, steps, LoopTake);
    steps := steps + [LoopTake];
    RunThen(w, steps, LoopBegin);
    steps := steps + [LoopBegin];
    RunThen(w, steps, LoopScan(Some(infos)));
    steps := steps + [LoopScan(Some(infos))];
    RunThen(w, steps, LoopDiff);
    steps := steps + [LoopDiff];
    RunThen(w, steps, LoopNext);
    steps := steps + [LoopNext];
  }

  /** What `l` heard, played back, is what it asked for of the known devices. */
  predicate UpToDate(e: World, l: Listener) {
    l.id in e.log && Replay(e.log[l.id].base, e.log[l.id].heard) == Some(Identities(e.known, l.filter))
  }

  predicate NothingToTell(e: World, l: Listener, f: Filter) {
    l in e.listeners && l.filter == f && !e.lock.Seeding? && !e.lock.Rescan?
  }

  /** In no run is a listener with this filter out of date while no call is left to make. */
  ghost predicate AlwaysUpToDate(f: Filter) {
    forall w, steps, l ::
      Initial(w) && IsRun(w, steps) && NothingToTell(RunFrom(w, steps), l, f) ==> UpToDate(RunFrom(w, steps), l)
  }

  /** A run that ends at rest with a listener out of date. */
  lemma ClassOutOfDate(f: Filter) returns (w: World, steps: seq<Step>, l: Listener)
    requires f.class_.Some?
    ensures Initial(w) && IsRun(w, steps) && NothingToTell(RunFrom(w, steps), l, f)
    ensures AtRest(RunFrom(w, steps), false) && RunFrom(w, steps).lock.NoOne? && !UpToDate(RunFrom(w, steps), l)
  {
    var previous, current := ClassChangeMissed(f);
    w, steps := SetUpWith(f, previous);
    steps := ChangeUnseen(w, steps, current);
    l := Listener(1, f);
    assert RunFrom(w, steps).log[1] == Record(Identities(previous, f), []);
  }

  /** So listeners are kept up to date by exactly the filters that ask for no class. */
  lemma UpToDateExactly(f: Filter)
    ensures AlwaysUpToDate(f) <==> f.class_.None?
  {
    if f.class_.Some? {
      var w, steps, l := ClassOutOfDate(f);
    } else {
      forall w, steps, l | Initial(w) && IsRun(w, steps) && NothingToTell(RunFrom(w, steps), l, f)
        ensures UpToDate(RunFrom(w, steps), l)
      {
        ReplayIsKnown(w, steps, l);
      }
    }
  }
}
