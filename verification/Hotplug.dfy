/** The hotplug registry: coalesced notifications, enumerate-and-diff, and listeners that join while
    it runs.  A step is what one thread does between two points where another may come in. */
module Hotplug {
  import opened Wrappers

  /** What identifies an attached device between two enumerations. */
  datatype Identity = Identity(bus: nat, address: nat, ports: seq<nat>, vendor: nat, product: nat)

  /** A snapshot of a device; `interfaces` are the classes of its alternate settings, if its active
      configuration can be read. */
  datatype Info = Info(id: Identity, class_: nat, interfaces: Option<seq<nat>>)

  datatype Event = Arrived(info: Info) | Left(info: Info)

  datatype Filter = Filter(vendor: Option<nat>, product: Option<nat>, class_: Option<nat>)

  predicate Matches(f: Filter, d: Info) {
    && (f.vendor.Some? ==> f.vendor.value == d.id.vendor)
    && (f.product.Some? ==> f.product.value == d.id.product)
    && (f.class_.Some? && d.class_ != f.class_.value ==> d.interfaces.Some? && f.class_.value in d.interfaces.value)
  }

  predicate SameDevice(a: Info, b: Info) {
    && a.id.bus == b.id.bus && a.id.address == b.id.address && a.id.ports == b.id.ports
    && a.id.vendor == b.id.vendor && a.id.product == b.id.product
  }

  predicate Known(d: Info, infos: seq<Info>) {
    exists i :: 0 <= i < |infos| && SameDevice(infos[i], d)
  }

  /** The devices of `infos` that `others` has not. */
  function Missing(infos: seq<Info>, others: seq<Info>): seq<Info> {
    if infos == [] then []
    else Missing(infos[..|infos| - 1], others) + (if Known(infos[|infos| - 1], others) then [] else [infos[|infos| - 1]])
  }

  function Departures(infos: seq<Info>): seq<Event> {
    if infos == [] then [] else Departures(infos[..|infos| - 1]) + [Left(infos[|infos| - 1])]
  }

  function Arrivals(infos: seq<Info>): seq<Event> {
    if infos == [] then [] else Arrivals(infos[..|infos| - 1]) + [Arrived(infos[|infos| - 1])]
  }

  /** What a rescan reports: departures first. */
  function Changes(previous: seq<Info>, current: seq<Info>): seq<Event> {
    Departures(Missing(previous, current)) + Arrivals(Missing(current, previous))
  }

  datatype Listener = Listener(id: nat, filter: Filter)

  /** Calls of callbacks still to be made, in order. */
  type Queue = seq<(Listener, Event)>

  function ForAll(listeners: seq<Listener>, e: Event): Queue {
    if listeners == [] then [] else ForAll(listeners[..|listeners| - 1], e) + [(listeners[|listeners| - 1], e)]
  }

  /** Every event goes to every listener before the next one does. */
  function Calls(listeners: seq<Listener>, events: seq<Event>): Queue {
    if events == [] then []
    else Calls(listeners, events[..|events| - 1]) + ForAll(listeners, events[|events| - 1])
  }

  // ----- the world -----

  /** What a listener was told; `base` is what matched when it joined, unless it was told that too. */
  datatype Record = Record(base: set<Identity>, heard: seq<Event>)

  /** Who holds the dispatch lock.  The first `add` goes through all of these; a later one registers
      right away. */
  datatype Holder =
    | NoOne
    | Watching(filter: Filter, existing: bool)
    | Scanning(filter: Filter, existing: bool, dirty: bool)
    | Spawning(filter: Filter, existing: bool)
    | Registering(filter: Filter, existing: bool)
    | Seeding
    | Rescan

  /** Where the hotplug thread is.  `dirty` says that devices changed during the enumeration, which
      may then have seen anything. */
  datatype LoopPc =
    | Absent
    | Waiting
    | Woken
    | Taken
    | Enumerating(dirty: bool)
    | Enumerated(current: seq<Info>)
    | Dispatching
    | Finished
    | Ended

  datatype World = World(
    attached: seq<Info>, watching: bool, owed: bool,   // the bus, and a notification it owes
    pending: bool, stop: bool,                         // the signal
    started: bool, known: seq<Info>, nextId: nat, listeners: seq<Listener>,
    lock: Holder, queue: Queue, loop: LoopPc,
    log: map<nat, Record>,                             // what the listeners have heard
    failed: bool)                                      // the last enumeration failed

  datatype Step =
    | Change(attached: seq<Info>)
    | Notify
    | Stop
    | Remove(id: nat)
    | AddBegin(filter: Filter, existing: bool)
    | AddWatch(ok: bool)
    | AddScan(result: Option<seq<Info>>)
    | AddSpawn(ok: bool)
    | AddRegister
    | AddDone
    | Deliver
    | LoopWake
    | LoopTake
    | LoopBegin
    | LoopScan(result: Option<seq<Info>>)
    | LoopDiff
    | LoopDone
    | LoopNext

  predicate Distinct(infos: seq<Info>) {
    forall i, j :: 0 <= i < j < |infos| ==> infos[i].id != infos[j].id
  }

  /** What an enumeration may return: the devices, unless they changed meanwhile, or a failure. */
  predicate Plausible(w: World, dirty: bool, result: Option<seq<Info>>) {
    result.Some? ==> Distinct(result.value) && (dirty || result.value == w.attached)
  }

  predicate Enabled(w: World, step: Step) {
    match step
    case Change(attached) => Distinct(attached)
    case Notify => w.watching
    case Stop => true
    case Remove(id) => true
    case AddBegin(filter, existing) => w.lock.NoOne? && !w.stop
    case AddWatch(ok) => w.lock.Watching?
    case AddScan(result) => w.lock.Scanning? && Plausible(w, w.lock.dirty, result)
    case AddSpawn(ok) => w.lock.Spawning?
    case AddRegister => w.lock.Registering?
    case AddDone => w.lock.Seeding? && w.queue == []
    case Deliver => (w.lock.Seeding? || w.lock.Rescan?) && w.queue != [] && w.queue[0].0.id in w.log
    case LoopWake => w.loop.Waiting? && (w.pending || w.stop)
    case LoopTake => w.loop.Woken?
    case LoopBegin => w.loop.Taken?
    case LoopScan(result) => w.loop.Enumerating? && Plausible(w, w.loop.dirty, result)
    case LoopDiff => w.loop.Enumerated? && w.lock.NoOne?
    case LoopDone => w.loop.Dispatching? && w.lock.Rescan? && w.queue == []
    case LoopNext => w.loop.Finished?
  }

  /** Devices come and go; a watched bus will say so, and enumerations under way are spoilt. */
  function Changed(w: World, attached: seq<Info>): World {
    w.(attached := attached, owed := w.owed || w.watching,
       lock := if w.lock.Scanning? then w.lock.(dirty := true) else w.lock,
       loop := if w.loop.Enumerating? then Enumerating(true) else w.loop)
  }

  function Identities(infos: seq<Info>, f: Filter): set<Identity> {
    set i | 0 <= i < |infos| && Matches(f, infos[i]) :: infos[i].id
  }

  function Registered(w: World): World
    requires w.lock.Registering?
  {
    var l := Listener(w.nextId + 1, w.lock.filter);
    w.(nextId := w.nextId + 1, listeners := w.listeners + [l],
       log := w.log[l.id := Record(if w.lock.existing then {} else Identities(w.known, l.filter), [])],
       queue := if w.lock.existing then Calls([l], Arrivals(w.known)) else [],
       lock := Seeding)
  }

  /** One callback: called if the filter matches. */
  function Delivered(w: World): World
    requires w.queue != [] && w.queue[0].0.id in w.log
  {
    var (l, e) := w.queue[0];
    var r := w.log[l.id];
    w.(queue := w.queue[1..], log := if Matches(l.filter, e.info) then w.log[l.id := r.(heard := r.heard + [e])] else w.log)
  }

  function Diffed(w: World): World
    requires w.loop.Enumerated?
  {
    var events := Changes(w.known, w.loop.current);
    if events == [] || w.listeners == [] then w.(known := w.loop.current, loop := Finished)
    else w.(known := w.loop.current, loop := Dispatching, lock := Rescan, queue := Calls(w.listeners, events))
  }

  function Without(listeners: seq<Listener>, id: nat): seq<Listener> {
    if listeners == [] then []
    else
      var init := Without(listeners[..|listeners| - 1], id);
      if listeners[|listeners| - 1].id == id then init else init + [listeners[|listeners| - 1]]
  }

  function Apply(w: World, step: Step): World
    requires Enabled(w, step)
  {
    match step
    case Change(attached) => Changed(w, attached)
    case Notify => w.(pending := true, owed := false)
    case Stop => w.(stop := true)
    case Remove(id) => w.(listeners := Without(w.listeners, id))
    case AddBegin(f, existing) => w.(lock := if w.started then Registering(f, existing) else Watching(f, existing))
    case AddWatch(ok) =>
      if ok then w.(watching := true, lock := Scanning(w.lock.filter, w.lock.existing, false)) else w.(lock := NoOne)
    case AddScan(result) =>
      w.(known := result.GetOr([]), failed := result.None?, lock := Spawning(w.lock.filter, w.lock.existing))
    case AddSpawn(ok) =>
      if ok then w.(started := true, loop := Waiting, lock := Registering(w.lock.filter, w.lock.existing))
      else w.(lock := NoOne)
    case AddRegister => Registered(w)
    case AddDone => w.(lock := NoOne)
    case Deliver => Delivered(w)
    case LoopWake => w.(loop := if w.stop then Ended else Woken)
    case LoopTake => w.(pending := false, loop := if w.stop then Ended else Taken)
    case LoopBegin => w.(loop := Enumerating(false))
    case LoopScan(result) =>
      if result.Some? then w.(loop := Enumerated(result.value), failed := false) else w.(loop := Finished, failed := true)
    case LoopDiff => Diffed(w)
    case LoopDone => w.(loop := Finished, lock := NoOne)
    case LoopNext => w.(loop := if w.stop then Ended else Waiting)
  }

  predicate Initial(w: World) {
    && Distinct(w.attached) && !w.watching && !w.owed && !w.pending && !w.stop && !w.started
    && w.known == [] && w.nextId == 0 && w.listeners == [] && w.lock.NoOne? && w.queue == []
    && w.loop.Absent? && w.log == map[] && !w.failed
  }

  predicate IsRun(w: World, steps: seq<Step>)
    decreases |steps|
  {
    steps == [] || (Enabled(w, steps[0]) && IsRun(Apply(w, steps[0]), steps[1..]))
  }

  function RunFrom(w: World, steps: seq<Step>): World
    requires IsRun(w, steps)
    decreases |steps|
  {
    if steps == [] then w else RunFrom(Apply(w, steps[0]), steps[1..])
  }
}
