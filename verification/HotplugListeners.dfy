/** What a listener is told, by the numbers and the class it asked for. */
module HotplugListeners {
  import opened Wrappers
  import opened Hotplug
  import opened HotplugReplay
  import opened HotplugSafety

  // ----- every event a listener hears -----

  predicate HeardAsked(w: World, l: Listener) {
    l.id in w.log && OnlyAsked(l.filter, w.log[l.id].heard)
  }

  /** No listener has heard anything it did not ask for. */
  predicate AllAsked(w: World) {
    forall i :: 0 <= i < |w.listeners| ==> HeardAsked(w, w.listeners[i])
  }

  lemma RegisterAsked(w: World, i: nat)
    requires Inv(w) && AllAsked(w) && w.lock.Registering? && i < |Registered(w).listeners|
    ensures HeardAsked(Registered(w), Registered(w).listeners[i])
  {
    if i < |w.listeners| { assert HeardAsked(w, w.listeners[i]); }
  }

  lemma DeliverAsked(w: World, i: nat)
    requires Inv(w) && AllAsked(w) && w.queue != [] && w.queue[0].0.id in w.log && i < |w.listeners|
    ensures HeardAsked(Delivered(w), w.listeners[i])
  {
    var (l, e) := w.queue[0];
    assert HeardAsked(w, w.listeners[i]) && CallFor(w, w.queue[0]);
    MatchesExactly(l.filter, e.info);
  }

  lemma RemoveAsked(w: World, id: nat, i: nat)
    requires Inv(w) && AllAsked(w) && i < |Without(w.listeners, id)|
    ensures HeardAsked(w, Without(w.listeners, id)[i])
  {
    WithoutIs(w.listeners, id);
    var l := Without(w.listeners, id)[i];
    assert l in Without(w.listeners, id);
    var j :| 0 <= j < |w.listeners| && w.listeners[j] == l;
    assert HeardAsked(w, w.listeners[j]);
  }

  lemma StepAsked(w: World, step: Step)
    requires Inv(w) && AllAsked(w) && Enabled(w, step)
    ensures AllAsked(Apply(w, step))
  {
    var v := Apply(w, step);
    forall i | 0 <= i < |v.listeners| ensures HeardAsked(v, v.listeners[i]) { OneAsked(w, step, i); }
  }

  lemma OneAsked(w: World, step: Step, i: nat)
    requires Inv(w) && AllAsked(w) && Enabled(w, step) && i < |Apply(w, step).listeners|
    ensures HeardAsked(Apply(w, step), Apply(w, step).listeners[i])
  {
    if step.AddRegister? { RegisterAsked(w, i); }
    else if step.Deliver? { DeliverAsked(w, i); }
    else if step.Remove? { RemoveAsked(w, step.id, i); }
    else { SameAsked(w, step, i); }
  }

  lemma SameAsked(w: World, step: Step, i: nat)
    requires Inv(w) && AllAsked(w) && Enabled(w, step) && i < |Apply(w, step).listeners|
    requires !step.AddRegister? && !step.Deliver? && !step.Remove?
    ensures HeardAsked(Apply(w, step), Apply(w, step).listeners[i])
  {
    if !step.LoopDiff? { Untold(w, step); }
    assert HeardAsked(w, w.listeners[i]);
  }

  lemma {:induction false} RunAsked(w: World, steps: seq<Step>)
    requires Inv(w) && AllAsked(w) && IsRun(w, steps)
    ensures AllAsked(RunFrom(w, steps))
    decreases |steps|
  {
    if steps != [] {
      StepInv(w, steps[0]);
      StepAsked(w, steps[0]);
      RunAsked(Apply(w, steps[0]), steps[1..]);
    }
  }

  /** In every run: an event a listener hears is of a device with the vendor and the product it asked
      for, if it did, and of the class, if it asked for one. */
  lemma HeardIsAsked(w: World, steps: seq<Step>, l: Listener, k: nat)
    requires Initial(w) && IsRun(w, steps) && l in RunFrom(w, steps).listeners
    requires l.id in RunFrom(w, steps).log && k < |RunFrom(w, steps).log[l.id].heard|
    ensures
      var d := RunFrom(w, steps).log[l.id].heard[k].info;
      && (l.filter.vendor.Some? ==> d.id.vendor == l.filter.vendor.value)
      && (l.filter.product.Some? ==> d.id.product == l.filter.product.value)
      && (l.filter.class_.Some? && d.class_ != l.filter.class_.value ==>
            d.interfaces.Some? && l.filter.class_.value in d.interfaces.value)
  {
    RunAsked(w, steps);
    var e := RunFrom(w, steps);
    var i :| 0 <= i < |e.listeners| && e.listeners[i] == l;
    assert HeardAsked(e, e.listeners[i]);
  }

  // ----- and all of them together -----

  /** The devices with these numbers, as far as they are asked for. */
  function Numbered(infos: seq<Info>, vendor: Option<nat>, product: Option<nat>): set<Identity> {
    set d | d in infos && (vendor == None || vendor == Some(d.id.vendor)) && (product == None || product == Some(d.id.product)) :: d.id
  }

  lemma IdentitiesAre(infos: seq<Info>, f: Filter)
    requires f.class_.None?
    ensures Identities(infos, f) == Numbered(infos, f.vendor, f.product)
  {
    forall x ensures x in Identities(infos, f) <==> x in Numbered(infos, f.vendor, f.product) {
      forall i | 0 <= i < |infos| ensures Matches(f, infos[i]) <==> VendorAsked(f, infos[i]) && ProductAsked(f, infos[i]) {
        MatchesExactly(f, infos[i]);
      }
      if x in Numbered(infos, f.vendor, f.product) {
        var d :| d in infos && VendorAsked(f, d) && ProductAsked(f, d) && d.id == x;
        var i :| 0 <= i < |infos| && infos[i] == d;
        assert Matches(f, infos[i]);
      }
    }
  }

  /** In every run: what a listener without a class was told, played back, is outside of a dispatch the
      known devices with the numbers it asked for, and all of them if it asked for none. */
  lemma ReplayIsNumbered(w: World, steps: seq<Step>, l: Listener)
    requires Initial(w) && IsRun(w, steps) && l in RunFrom(w, steps).listeners && l.filter.class_.None?
    requires !RunFrom(w, steps).lock.Seeding? && !RunFrom(w, steps).lock.Rescan?
    ensures
      var e := RunFrom(w, steps);
      && l.id in e.log
      && Replay(e.log[l.id].base, e.log[l.id].heard) == Some(Numbered(e.known, l.filter.vendor, l.filter.product))
      && (l.filter.vendor.None? && l.filter.product.None? ==>
            Replay(e.log[l.id].base, e.log[l.id].heard) == Some(set d | d in e.known :: d.id))
  {
    ReplayIsKnown(w, steps, l);
    var known := RunFrom(w, steps).known;
    IdentitiesAre(known, l.filter);
    assert Numbered(known, None, None) == set d | d in known :: d.id;
  }

  /** A listener starts from nothing if it asked to be told of what is there, and from that otherwise. */
  lemma JoinsFrom(w: World)
    requires Inv(w) && w.lock.Registering?
    ensures
      var v, id := Apply(w, AddRegister), w.nextId + 1;
      && id in v.log && v.log[id].heard == [] && v.listeners == w.listeners + [Listener(id, w.lock.filter)]
      && v.log[id].base == (if w.lock.existing then {} else Identities(w.known, w.lock.filter))
      && (!w.lock.existing ==> v.queue == [])
  {
  }
}
