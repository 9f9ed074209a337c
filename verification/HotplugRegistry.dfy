/** The registry and its signal as the code has them; `heard` is what the callbacks were called with. */
module HotplugRegistry {
  import opened Wrappers
  import opened Hotplug
  import opened HotplugReplay
  import HotplugSafety

  class Signal {
    var pending: bool
    var stop: bool

    constructor ()
      ensures !pending && !stop
    {
      pending, stop := false, false;
    }

    method Notify()
      modifies this`pending
      ensures pending
    {
      pending := true;
    }

    method Stop()
      modifies this`stop
      ensures stop
    {
      stop := true;
    }

    /** Consumes the flag, however many notifications set it. */
    method TakePending() returns (goOn: bool)
      modifies this`pending
      ensures !pending && goOn == !stop
    {
      pending := false;
      goOn := !stop;
    }
  }

  method AnySame(d: Info, infos: seq<Info>) returns (found: bool)
    ensures found == Known(d, infos)
  {
    for i := 0 to |infos|
      invariant forall k :: 0 <= k < i ==> !SameDevice(infos[k], d)
    {
      if SameDevice(infos[i], d) { return true; }
    }
    found := false;
  }

  /** The devices of `infos` of which `others` has none the same. */
  method NotIn(infos: seq<Info>, others: seq<Info>) returns (r: seq<Info>)
    ensures r == Missing(infos, others)
  {
    r := [];
    for i := 0 to |infos|
      invariant r == Missing(infos[..i], others)
    {
      assert infos[..i + 1][..i] == infos[..i];
      var found := AnySame(infos[i], others);
      if !found { r := r + [infos[i]]; }
    }
    assert infos[..|infos|] == infos;
  }

  lemma WantedOne(f: Filter, e: Event)
    ensures Wanted(f, [e]) == if Matches(f, e.info) then [e] else []
  {
    assert [e][..0] == [];
  }

  datatype AddError = NoHotplug | NoThread

  class Registry {
    var nextId: nat
    var listeners: seq<Listener>
    var known: seq<Info>
    var started: bool
    var heard: map<nat, seq<Event>>

    ghost predicate Valid()
      reads this
    {
      && HotplugSafety.OwnIds(listeners)
      && (forall i :: 0 <= i < |listeners| ==> listeners[i].id in heard)
      && (forall id :: id in heard ==> id <= nextId)
      && (!started ==> listeners == [])
    }

    constructor ()
      ensures Valid() && listeners == [] && known == [] && !started && heard == map[]
    {
      nextId, listeners, known, started, heard := 0, [], [], false, map[];
    }

    method Call(l: Listener, e: Event)
      requires Valid() && l.id in heard
      modifies this`heard
      ensures Valid() && heard == old(heard)[l.id := old(heard)[l.id] + Wanted(l.filter, [e])]
    {
      WantedOne(l.filter, e);
      if Matches(l.filter, e.info) {
        heard := heard[l.id := heard[l.id] + [e]];
      } else {
        assert heard[l.id] + [] == heard[l.id];
        assert heard[l.id := heard[l.id]] == heard;
      }
    }

    /** One event, to every listener that wants it. */
    method CallAll(e: Event)
      requires Valid()
      modifies this`heard
      ensures Valid() && heard.Keys == old(heard).Keys
      ensures forall i :: 0 <= i < |listeners| ==>
        heard[listeners[i].id] == old(heard)[listeners[i].id] + Wanted(listeners[i].filter, [e])
    {
      for k := 0 to |listeners|
        invariant Valid() && heard.Keys == old(heard).Keys
        invariant forall i :: 0 <= i < |listeners| ==>
          heard[listeners[i].id] == old(heard)[listeners[i].id] + (if i < k then Wanted(listeners[i].filter, [e]) else [])
      {
        Call(listeners[k], e);
      }
    }

    /** Events in order, each to every listener that wants it. */
    method Dispatch(events: seq<Event>)
      requires Valid()
      modifies this`heard
      ensures Valid() && heard.Keys == old(heard).Keys
      ensures forall i :: 0 <= i < |listeners| ==>
        heard[listeners[i].id] == old(heard)[listeners[i].id] + Wanted(listeners[i].filter, events)
      ensures forall i :: 0 <= i < |listeners| ==>
        OnlyAsked(listeners[i].filter, heard[listeners[i].id][|old(heard)[listeners[i].id]|..])
    {
      for k := 0 to |events|
        invariant Valid() && heard.Keys == old(heard).Keys
        invariant forall i :: 0 <= i < |listeners| ==>
          heard[listeners[i].id] == old(heard)[listeners[i].id] + Wanted(listeners[i].filter, events[..k])
      {
        ghost var before := heard;
        CallAll(events[k]);
        assert events[..k + 1] == events[..k] + [events[k]];
        forall i | 0 <= i < |listeners|
          ensures heard[listeners[i].id] == old(heard)[listeners[i].id] + Wanted(listeners[i].filter, events[..k + 1])
        {
          WantedAppend(listeners[i].filter, events[..k], [events[k]]);
        }
      }
      assert events[..|events|] == events;
      forall i | 0 <= i < |listeners|
        ensures OnlyAsked(listeners[i].filter, heard[listeners[i].id][|old(heard)[listeners[i].id]|..])
      {
        WantedAsked(listeners[i].filter, events);
      }
    }

    /** `rescan`: a failed enumeration is no news; otherwise every listener hears what it wants of the
        changes since the last scan, departures first. */
    method Rescan(enumeration: Option<seq<Info>>)
      requires Valid()
      modifies this`known, this`heard
      ensures Valid()
      ensures enumeration.None? ==> unchanged(this)
      ensures enumeration.Some? ==> known == enumeration.value && heard.Keys == old(heard).Keys
      ensures enumeration.Some? ==> forall i :: 0 <= i < |listeners| ==>
        heard[listeners[i].id] == old(heard)[listeners[i].id] + Wanted(listeners[i].filter, Changes(old(known), known))
    {
      if enumeration.None? {
        return;
      }
      var current := enumeration.value;
      var previous := known;
      known := current;
      var arrived := NotIn(current, previous);
      var left := NotIn(previous, current);
      if (arrived == [] && left == []) || listeners == [] {
        return;
      }
      Dispatch(Departures(left) + Arrivals(arrived));
    }

    /** What the first `add` does before it registers. */
    method Start(watch: bool, enumeration: Option<seq<Info>>, spawn: bool) returns (r: Result<(), AddError>)
      requires Valid()
      modifies this`known, this`started
      ensures Valid() && (r.Ok? ==> started) && (r.Err? ==> started == old(started))
      ensures r.Ok? <==> old(started) || (watch && spawn)
      ensures r.Err? ==> r.error == if watch then NoThread else NoHotplug
      ensures known == if old(started) || !watch then old(known) else enumeration.GetOr([])
    {
      if !started {
        if !watch { return Err(NoHotplug); }
        known := enumeration.GetOr([]);
        if !spawn { return Err(NoThread); }
        started := true;
      }
      r := Ok(());
    }

    /** The initial batch of a listener that has not heard anything. */
    method Seed(l: Listener)
      requires Valid() && l.id in heard && heard[l.id] == []
      modifies this`heard
      ensures Valid() && heard == old(heard)[l.id := Wanted(l.filter, Arrivals(known))]
    {
      assert heard == heard[l.id := []];
      for i := 0 to |known|
        invariant Valid() && heard == old(heard)[l.id := Wanted(l.filter, Arrivals(known[..i]))]
      {
        assert known[..i + 1][..i] == known[..i];
        WantedAppend(l.filter, Arrivals(known[..i]), [Arrived(known[i])]);
        Call(l, Arrived(known[i]));
      }
      assert known[..|known|] == known;
    }

    /** `add`: the first one starts watching, scans and spawns the thread; the listener then hears of
        what is known, if it asked to. */
    method Add(filter: Filter, existing: bool, watch: bool, enumeration: Option<seq<Info>>, spawn: bool)
      returns (r: Result<nat, AddError>)
      requires Valid()
      modifies this
      ensures Valid()
      ensures r.Ok? <==> old(started) || (watch && spawn)
      ensures r.Err? ==> listeners == old(listeners) && heard == old(heard) && started == old(started)
      ensures r.Err? ==> r.error == if watch then NoThread else NoHotplug
      ensures known == if old(started) || !watch then old(known) else enumeration.GetOr([])
      ensures r.Ok? ==>
        && started && r.value == old(nextId) + 1 == nextId && listeners == old(listeners) + [Listener(r.value, filter)]
        && heard == old(heard)[r.value := if existing then Wanted(filter, Arrivals(known)) else []]
    {
      var ready := Start(watch, enumeration, spawn);
      if ready.Err? { return Err(ready.error); }
      nextId := nextId + 1;
      var l := Listener(nextId, filter);
      forall i | 0 <= i < |listeners| ensures listeners[i].id != l.id { assert listeners[i].id in heard; }
      listeners := listeners + [l];
      heard := heard[l.id := []];
      if existing { Seed(l); }
      r := Ok(l.id);
    }

    method Remove(id: nat)
      requires Valid()
      modifies this`listeners
      ensures Valid() && listeners == Without(old(listeners), id)
    {
      var kept: seq<Listener> := [];
      HotplugSafety.WithoutIs(listeners, id);
      for i := 0 to |listeners|
        invariant kept == Without(listeners[..i], id)
      {
        assert listeners[..i + 1][..i] == listeners[..i];
        if listeners[i].id != id { kept := kept + [listeners[i]]; }
      }
      assert listeners[..|listeners|] == listeners;
      forall i | 0 <= i < |kept| ensures kept[i].id in heard {
        assert kept[i] in kept;
        var j :| 0 <= j < |listeners| && listeners[j] == kept[i];
      }
      assert listeners == [] ==> kept == [];
      listeners := kept;
    }
  }
}
