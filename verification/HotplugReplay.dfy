/** What a listener hears, played back. */
module HotplugReplay {
  import opened Wrappers
  import opened Hotplug

  /** A device that arrives must have been away, one that leaves must have been there. */
  function Hear(s: set<Identity>, e: Event): Option<set<Identity>> {
    match e
    case Arrived(d) => if d.id in s then None else Some(s + {d.id})
    case Left(d) => if d.id in s then Some(s - {d.id}) else None
  }

  /** The devices present after the events `heard`; nothing if some event was out of turn. */
  function Replay(base: set<Identity>, heard: seq<Event>): Option<set<Identity>> {
    if heard == [] then Some(base)
    else
      match Replay(base, heard[..|heard| - 1])
      case None => None
      case Some(s) => Hear(s, heard[|heard| - 1])
  }

  lemma {:induction false} ReplayAppend(base: set<Identity>, a: seq<Event>, b: seq<Event>)
    ensures Replay(base, a + b) == match Replay(base, a) { case None => None case Some(s) => Replay(s, b) }
  {
    if b == [] {
      assert a + b == a;
    } else {
      ReplayAppend(base, a, b[..|b| - 1]);
      assert (a + b)[..|a + b| - 1] == a + b[..|b| - 1];
    }
  }

  /** The events a filter lets through. */
  function Wanted(f: Filter, events: seq<Event>): seq<Event> {
    if events == [] then []
    else
      var init := Wanted(f, events[..|events| - 1]);
      if Matches(f, events[|events| - 1].info) then init + [events[|events| - 1]] else init
  }

  lemma {:induction false} WantedAppend(f: Filter, a: seq<Event>, b: seq<Event>)
    ensures Wanted(f, a + b) == Wanted(f, a) + Wanted(f, b)
  {
    if b == [] {
      assert a + b == a;
    } else {
      WantedAppend(f, a, b[..|b| - 1]);
      assert (a + b)[..|a + b| - 1] == a + b[..|b| - 1];
    }
  }

  /** One more event. */
  lemma OneMore(base: set<Identity>, f: Filter, events: seq<Event>, e: Event)
    ensures Replay(base, Wanted(f, events + [e])) ==
      if !Matches(f, e.info) then Replay(base, Wanted(f, events))
      else match Replay(base, Wanted(f, events)) { case None => None case Some(s) => Hear(s, e) }
  {
    assert (events + [e])[..|events|] == events;
    var w := Wanted(f, events);
    assert (w + [e])[..|w|] == w;
  }

  // ----- filters -----

  predicate VendorAsked(f: Filter, d: Info) {
    f.vendor == None || f.vendor == Some(d.id.vendor)
  }

  predicate ProductAsked(f: Filter, d: Info) {
    f.product == None || f.product == Some(d.id.product)
  }

  /** The device is of the class, or an alternate setting of its active configuration is. */
  predicate ClassAsked(f: Filter, d: Info) {
    f.class_ == None || f.class_ == Some(d.class_) || (d.interfaces.Some? && exists c :: c in d.interfaces.value && f.class_ == Some(c))
  }

  /** A filter takes just the devices that are all that it asks for. */
  lemma MatchesExactly(f: Filter, d: Info)
    ensures Matches(f, d) <==> VendorAsked(f, d) && ProductAsked(f, d) && ClassAsked(f, d)
  {
  }

  predicate OnlyAsked(f: Filter, heard: seq<Event>) {
    forall k :: 0 <= k < |heard| ==>
      var d := heard[k].info;
      VendorAsked(f, d) && ProductAsked(f, d) && ClassAsked(f, d)
  }

  lemma {:induction false} WantedAsked(f: Filter, events: seq<Event>)
    ensures OnlyAsked(f, Wanted(f, events))
    ensures forall e :: e in events && VendorAsked(f, e.info) && ProductAsked(f, e.info) && ClassAsked(f, e.info) ==> e in Wanted(f, events)
  {
    if events != [] {
      WantedAsked(f, events[..|events| - 1]);
      MatchesExactly(f, events[|events| - 1].info);
      forall e | e in events && e != events[|events| - 1] ensures e in events[..|events| - 1] {
        var i :| 0 <= i < |events| && events[i] == e;
        assert events[..|events| - 1][i] == e;
      }
    }
  }


  /** Whether two snapshots of one device always get the same answer. */
  ghost predicate Stable(f: Filter) {
    forall a: Info, b: Info :: SameDevice(a, b) ==> (Matches(f, a) <==> Matches(f, b))
  }

  /** A filter is stable exactly if it does not ask for a class: that is no part of the identity. */
  lemma StableWithoutClass(f: Filter)
    ensures Stable(f) <==> f.class_.None?
  {
    if f.class_.Some? {
      var id := Identity(0, 0, [], f.vendor.GetOr(0), f.product.GetOr(0));
      var c := f.class_.value;
    var a, b := Info(id, c + 1, Some([c])), Info(id, c + 1, Some([]));
      assert SameDevice(a, b) && Matches(f, a) && !Matches(f, b);
    }
  }

  // ----- a rescan, played back -----

  lemma IdentitiesLast(infos: seq<Info>, d: Info, f: Filter)
    ensures Identities(infos + [d], f) == Identities(infos, f) + if Matches(f, d) then {d.id} else {}
  {
    var all := infos + [d];
    forall i | 0 <= i < |infos| ensures all[i] == infos[i] {}
    assert all[|infos|] == d;
    forall x | x in Identities(infos, f) ensures x in Identities(all, f) {
      var i :| 0 <= i < |infos| && Matches(f, infos[i]) && infos[i].id == x;
      assert all[i] == infos[i];
    }
  }

  lemma {:induction false} DeparturesPlay(infos: seq<Info>, f: Filter, s: set<Identity>)
    requires Distinct(infos) && Identities(infos, f) <= s
    ensures Replay(s, Wanted(f, Departures(infos))) == Some(s - Identities(infos, f))
  {
    if infos == [] {
      assert s - Identities(infos, f) == s;
    } else {
      var init, d := infos[..|infos| - 1], infos[|infos| - 1];
      assert infos == init + [d];
      IdentitiesLast(init, d, f);
      DeparturesPlay(init, f, s);
      OneMore(s, f, Departures(init), Left(d));
      assert d.id !in Identities(init, f);
      if Matches(f, d) {
        assert s - Identities(init, f) - {d.id} == s - (Identities(init, f) + {d.id});
      } else {
        assert Identities(init, f) + {} == Identities(init, f);
      }
    }
  }

  lemma {:induction false} ArrivalsPlay(infos: seq<Info>, f: Filter, s: set<Identity>)
    requires Distinct(infos) && Identities(infos, f) !! s
    ensures Replay(s, Wanted(f, Arrivals(infos))) == Some(s + Identities(infos, f))
  {
    if infos == [] {
      assert s + Identities(infos, f) == s;
    } else {
      var init, d := infos[..|infos| - 1], infos[|infos| - 1];
      assert infos == init + [d];
      IdentitiesLast(init, d, f);
      ArrivalsPlay(init, f, s);
      OneMore(s, f, Arrivals(init), Arrived(d));
      assert d.id !in Identities(init, f);
      if Matches(f, d) {
        assert s + Identities(init, f) + {d.id} == s + (Identities(init, f) + {d.id});
      } else {
        assert Identities(init, f) + {} == Identities(init, f);
      }
    }
  }

  /** `Missing` keeps exactly the devices the other list has not, and keeps them distinct. */
  lemma {:induction false} MissingIs(infos: seq<Info>, others: seq<Info>)
    requires Distinct(infos)
    ensures Distinct(Missing(infos, others))
    ensures forall d :: d in Missing(infos, others) <==> d in infos && !Known(d, others)
  {
    if infos != [] {
      var init, d := infos[..|infos| - 1], infos[|infos| - 1];
      assert infos == init + [d];
      MissingIs(init, others);
      forall x | x in Missing(init, others) ensures x.id != d.id {
        var i :| 0 <= i < |init| && init[i] == x;
        assert infos[i] == x;
      }
    }
  }

  lemma IdentitiesIn(infos: seq<Info>, f: Filter, x: Identity)
    ensures x in Identities(infos, f) <==> exists d :: d in infos && Matches(f, d) && d.id == x
  {
    if d :| d in infos && Matches(f, d) && d.id == x {
      var i :| 0 <= i < |infos| && infos[i] == d;
    }
  }

  lemma SameIdentity(a: Info, b: Info)
    ensures SameDevice(a, b) <==> a.id == b.id
  {
  }

  lemma KnownById(d: Info, infos: seq<Info>)
    ensures Known(d, infos) <==> exists e :: e in infos && e.id == d.id
  {
    if Known(d, infos) {
      var i :| 0 <= i < |infos| && SameDevice(infos[i], d);
      SameIdentity(infos[i], d);
      assert infos[i] in infos;
    }
    if e :| e in infos && e.id == d.id {
      var i :| 0 <= i < |infos| && infos[i] == e;
      SameIdentity(infos[i], d);
    }
  }

  /** In the difference: matching, and unknown to the other side. */
  lemma MissingMatching(infos: seq<Info>, others: seq<Info>, f: Filter, x: Identity)
    requires Distinct(infos) && f.class_.None?
    ensures x in Identities(Missing(infos, others), f) <==> x in Identities(infos, f) && x !in Identities(others, f)
  {
    MissingIs(infos, others);
    IdentitiesIn(Missing(infos, others), f, x);
    IdentitiesIn(infos, f, x);
    IdentitiesIn(others, f, x);
    if d :| d in infos && Matches(f, d) && d.id == x {
      KnownById(d, others);
      if e :| e in others && e.id == x { assert Matches(f, e); }
    }
  }

  /** A listener that has the picture of the last scan has that of the next once it has heard what
      changed, and no event is out of turn. */
  lemma ChangesPlay(previous: seq<Info>, current: seq<Info>, f: Filter)
    requires Distinct(previous) && Distinct(current) && f.class_.None?
    ensures Replay(Identities(previous, f), Wanted(f, Changes(previous, current))) == Some(Identities(current, f))
  {
    var was, now := Identities(previous, f), Identities(current, f);
    var left, arrived := Missing(previous, current), Missing(current, previous);
    MissingIs(previous, current);
    MissingIs(current, previous);
    forall x ensures x in Identities(left, f) <==> x in was && x !in now { MissingMatching(previous, current, f, x); }
    forall x ensures x in Identities(arrived, f) <==> x in now && x !in was { MissingMatching(current, previous, f, x); }
    DeparturesPlay(left, f, was);
    var rest := was - Identities(left, f);
    ArrivalsPlay(arrived, f, rest);
    assert rest + Identities(arrived, f) == now;
    WantedAppend(f, Departures(left), Arrivals(arrived));
    ReplayAppend(was, Wanted(f, Departures(left)), Wanted(f, Arrivals(arrived)));
  }

  /** For a filter that asks for a class this fails: a device whose active configuration loses its
      interface of that class between two scans, being the same device, is not reported. */
  lemma ClassChangeMissed(f: Filter) returns (previous: seq<Info>, current: seq<Info>)
    requires f.class_.Some?
    ensures Distinct(previous) && Distinct(current) && Changes(previous, current) == []
    ensures Identities(previous, f) != Identities(current, f)
    ensures Replay(Identities(previous, f), Wanted(f, Changes(previous, current))) != Some(Identities(current, f))
  {
    var id := Identity(0, 0, [], f.vendor.GetOr(0), f.product.GetOr(0));
    var c := f.class_.value;
    var a, b := Info(id, c + 1, Some([c])), Info(id, c + 1, Some([]));
    previous, current := [a], [b];
    KnownById(a, current);
    KnownById(b, previous);
    assert previous[..0] == [] && current[..0] == [];
    assert Missing(previous, current) == Missing([], current) + [];
    assert Missing(current, previous) == Missing([], previous) + [];
    assert Matches(f, previous[0]) && id in Identities(previous, f);
    assert id !in Identities(current, f);
  }

  /** A rescan plays out for a filter, whatever the two snapshots are. */
  ghost predicate PlaysOut(f: Filter) {
    forall previous, current :: Distinct(previous) && Distinct(current) ==>
      Replay(Identities(previous, f), Wanted(f, Changes(previous, current))) == Some(Identities(current, f))
  }

  /** So the filters whose events can be relied on are exactly those without a class. */
  lemma PlaysOutExactly(f: Filter)
    ensures PlaysOut(f) <==> f.class_.None?
  {
    if f.class_.Some? {
      var previous, current := ClassChangeMissed(f);
    } else {
      forall previous, current | Distinct(previous) && Distinct(current)
        ensures Replay(Identities(previous, f), Wanted(f, Changes(previous, current))) == Some(Identities(current, f))
      {
        ChangesPlay(previous, current, f);
      }
    }
  }

  // ----- the queue of calls -----

  /** What is still to be told to `l`. */
  function Todo(q: Queue, l: Listener): seq<Event> {
    if q == [] then []
    else
      var rest := Todo(q[1..], l);
      if q[0].0 == l && Matches(l.filter, q[0].1.info) then [q[0].1] + rest else rest
  }

  lemma {:induction false} TodoAppend(a: Queue, b: Queue, l: Listener)
    ensures Todo(a + b, l) == Todo(a, l) + Todo(b, l)
  {
    if a == [] {
      assert a + b == b;
    } else {
      TodoAppend(a[1..], b, l);
      assert (a + b)[1..] == a[1..] + b;
      assert [a[0].1] + (Todo(a[1..], l) + Todo(b, l)) == [a[0].1] + Todo(a[1..], l) + Todo(b, l);
    }
  }

  lemma {:induction false} TodoForAll(listeners: seq<Listener>, e: Event, l: Listener)
    requires forall i, j :: 0 <= i < j < |listeners| ==> listeners[i] != listeners[j]
    ensures Todo(ForAll(listeners, e), l) == if l in listeners && Matches(l.filter, e.info) then [e] else []
  {
    if listeners != [] {
      var init, last := listeners[..|listeners| - 1], listeners[|listeners| - 1];
      assert listeners == init + [last];
      TodoForAll(init, e, l);
      TodoAppend(ForAll(init, e), [(last, e)], l);
      assert [(last, e)][1..] == [];
    }
  }

  /** Every listener is called for just the events it wants, in order. */
  lemma {:induction false} TodoCalls(listeners: seq<Listener>, events: seq<Event>, l: Listener)
    requires l in listeners && forall i, j :: 0 <= i < j < |listeners| ==> listeners[i] != listeners[j]
    ensures Todo(Calls(listeners, events), l) == Wanted(l.filter, events)
  {
    if events != [] {
      var init, e := events[..|events| - 1], events[|events| - 1];
      TodoCalls(listeners, init, l);
      TodoForAll(listeners, e, l);
      TodoAppend(Calls(listeners, init), ForAll(listeners, e), l);
    }
  }
}
