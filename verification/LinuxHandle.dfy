/** The methods of the Linux `Handle` on its fields.  Every method keeps the object a state that
    some run of the step relation reaches, so what is proved of all runs holds of it. */
module LinuxHandle {
  import opened Wrappers
  import opened UrbModel
  import opened UrbInvariant
  import opened UrbSafety

  datatype ErrorKind = Busy | Gone | NotFound | InvalidParam | Os

  lemma {:induction false} RunAppend(w: World, steps: seq<Step>, step: Step)
    requires IsRun(w, steps) && Enabled(RunFrom(w, steps), step)
    ensures IsRun(w, steps + [step])
    ensures RunFrom(w, steps + [step]) == Apply(RunFrom(w, steps), step)
    decreases |steps|
  {
    if steps != [] {
      assert (steps + [step])[1..] == steps[1..] + [step];
      RunAppend(Apply(w, steps[0]), steps[1..], step);
    } else {
      assert [step][1..] == [];
    }
  }

  class Handle {
    var xfers: map<Tid, Xfer>
    var pending: map<Urb, Tid>
    var disconnected: bool
    var ev: Events
    var hist: seq<History>  // its length names the boxes of the next submission
    // The kernel's side: what it holds, what it has finished, whether the device is gone, and
    // what it will write into each URB that is discarded.
    var active: set<Urb>
    var done: map<Urb, Reply>
    var gone: bool
    const verdict: Urb -> Reply
    // How this state came about.
    ghost var origin: World
    ghost var trace: seq<Step>

    ghost function View(): World
      reads this
    {
      World(xfers, pending, disconnected, active, done, gone, ev, hist)
    }

    ghost predicate Valid()
      reads this
    {
      Initial(origin) && IsRun(origin, trace) && RunFrom(origin, trace) == View() && Inv(View())
    }

    /** Nobody is inside `submit` and the event thread is in its loop. */
    ghost predicate Still()
      reads this
    {
      ev == Loop({}) && forall t :: t in xfers ==> xfers[t].phase.Free?
    }

    constructor (transfers: set<Tid>, verdict: Urb -> Reply)
      ensures Valid() && Still() && trace == [] && xfers.Keys == transfers && this.verdict == verdict
    {
      this.verdict := verdict;
      xfers := map t | t in transfers :: Xfer(false, Completed, 0, None, Free);
      pending, active, done := map[], {}, map[];
      disconnected, gone := false, false;
      ev := Loop({});
      hist := [];
      new;
      origin := View();
      trace := [];
      InitialInv(origin);
    }

    /** Notes that the fields now hold what `step` makes of `w`. */
    ghost method Took(w: World, step: Step)
      requires Initial(origin) && IsRun(origin, trace) && RunFrom(origin, trace) == w && Inv(w)
      requires Enabled(w, step) && View() == Apply(w, step)
      modifies this`trace
      ensures Valid() && trace == old(trace) + [step]
    {
      RunAppend(origin, trace, step);
      StepInv(w, step);
      trace := trace + [step];
    }

    // ----- the critical sections of `submit` -----

    /** `Transfer::submit` under the state lock, up to the check of `disconnected`. */
    method Start(t: Tid) returns (r: Result<(), ErrorKind>)
      requires Valid() && t in xfers && xfers[t].phase.Free?
      modifies this`xfers, this`hist, this`trace
      ensures Valid() && View() == SubmitStartStep(old(View()), t)
      ensures r == if old(xfers[t].inFlight) then Err(Busy) else if old(disconnected) then Err(Gone) else Ok(())
    {
      ghost var w := View();
      if xfers[t].inFlight {
        r := Err(Busy);
      } else {
        xfers := xfers[t := xfers[t].(actual := 0)];
        hist := hist + [History(t, {}, [], if disconnected then ReturnedErr else Running, [])];
        if disconnected {
          r := Err(Gone);
        } else {
          xfers := xfers[t := xfers[t].(inFlight := true, phase := Starting(|hist| - 1))];
          r := Ok(());
        }
      }
      Took(w, SubmitStart(t));
    }

    /** `Handle::submit` up to its SUBMITURB loop: build, and enter every URB into `pending`. */
    method Insert(t: Tid, plan: Option<Plan>) returns (r: Result<(), ErrorKind>)
      requires Valid() && CanInsert(View(), t, plan)
      modifies this`xfers, this`hist, this`pending, this`trace
      ensures Valid() && View() == SubmitInsertStep(old(View()), t, plan)
      ensures r.Ok? <==> plan.Some?
    {
      ghost var w := View();
      assert XferOk(w, t);
      var sid := xfers[t].phase.sid;
      if plan.None? {
        xfers := xfers[t := xfers[t].(inFlight := false, phase := Free)];
        hist := hist[sid := hist[sid].(answer := ReturnedErr)];
        r := Err(InvalidParam);
      } else {
        var s := Fresh(sid, plan.value);
        EnterAll(t, s);
        xfers := xfers[t := xfers[t].(sub := Some(s), phase := Submitting(sid, 0))];
        r := Ok(());
      }
      Took(w, SubmitInsert(t, plan));
    }

    method EnterAll(t: Tid, s: Submission)
      modifies this`pending
      ensures pending == old(pending) + map u: Urb | u in Tail(s, 0) :: t
    {
      var i := 0;
      while i < |s.lens|
        invariant 0 <= i <= |s.lens|
        invariant pending == old(pending) + map u: Urb | u in Tail(s, 0) && u.index < i :: t
      {
        pending := pending[Urb(s.sid, i) := t];
        i := i + 1;
      }
    }

    method RemoveFrom(s: Submission, from: nat)
      modifies this`pending
      ensures pending == old(pending) - Tail(s, from)
    {
      var i := from;
      while i < |s.lens|
        invariant from <= i && (i <= |s.lens| || i == from)
        invariant pending == old(pending) - (set u: Urb | u in Tail(s, from) && u.index < i)
      {
        pending := pending - {Urb(s.sid, i)};
        i := i + 1;
      }
      assert Tail(s, from) == set u: Urb | u in Tail(s, from) && u.index < i;
    }

    /** Asks the kernel for the URBs from `from` on; `n` of them had not come back yet. */
    method Discard(s: Submission, from: nat) returns (n: nat, ghost killed: map<Urb, Reply>)
      requires active !! done.Keys
      modifies this`active, this`done
      ensures Kills(old(View()), Tail(s, from), killed)
      ensures View() == Discarded(old(View()), Tail(s, from), killed)
      ensures n > 0 <==> old(active) * Tail(s, from) != {}
    {
      n := 0;
      killed := map[];
      var i := from;
      ghost var seen: set<Urb> := {};
      while i < |s.lens|
        invariant from <= i && (i <= |s.lens| || i == from)
        invariant seen == set j: nat | from <= j < i && j < |s.lens| :: Urb(s.sid, j)
        invariant active == old(active) - seen && done == old(done) + killed
        invariant killed.Keys == old(active) * seen
        invariant n > 0 <==> old(active) * seen != {}
      {
        var u := Urb(s.sid, i);
        if u in active {
          active := active - {u};
          done := done[u := verdict(u)];
          killed := killed[u := verdict(u)];
          n := n + 1;
          assert u in old(active) * (seen + {u});
        }
        seen := seen + {u};
        i := i + 1;
      }
      assert seen == Tail(s, from);
    }

    /** A SUBMITURB the kernel takes. */
    method Take(t: Tid)
      requires Valid() && InSubmit(View(), t) && !gone
      modifies this`active, this`xfers, this`trace
      ensures Valid() && View() == UrbAccepted(old(View()), t)
    {
      ghost var w := View();
      var i := xfers[t].phase.next;
      active := active + {Urb(xfers[t].sub.value.sid, i)};
      xfers := xfers[t := xfers[t].(phase := Submitting(xfers[t].phase.sid, i + 1))];
      Took(w, SubmitUrb(t, true, Killed(w, Tail(Partial(w.xfers[t].sub.value, i), 0))));
    }

    /** The first SUBMITURB is refused: the submission is undone. */
    method RefuseFirst(t: Tid)
      requires Valid() && InSubmit(View(), t) && xfers[t].phase.next == 0
      modifies this`xfers, this`pending, this`hist, this`trace
      ensures Valid() && View() == FirstRefused(old(View()), t)
    {
      ghost var w := View();
      assert XferOk(w, t);
      var s := xfers[t].sub.value;
      RemoveFrom(s, 0);
      xfers := xfers[t := xfers[t].(sub := None, inFlight := false, phase := Free)];
      hist := hist[s.sid := hist[s.sid].(answer := ReturnedErr)];
      Took(w, SubmitUrb(t, false, Killed(w, Tail(Partial(s, 0), 0))));
    }

    /** A later SUBMITURB is refused: the URBs already with the kernel are discarded and left to
        drain, and the failure is reported on completion. */
    method RefuseLater(t: Tid) returns (ghost killed: map<Urb, Reply>)
      requires Valid() && InSubmit(View(), t) && xfers[t].phase.next != 0
      modifies this`xfers, this`pending, this`hist, this`active, this`done, this`trace
      ensures Valid() && View() == LaterRefused(old(View()), t, killed)
    {
      ghost var w := View();
      assert XferOk(w, t);
      var rest := Truncate(t);
      var n;
      n, killed := Discard(rest, 0);
      assert View() == LaterRefused(w, t, killed);
      Took(w, SubmitUrb(t, false, killed));
    }

    method Truncate(t: Tid) returns (rest: Submission)
      requires InSubmit(View(), t) && xfers[t].sub.value.sid == xfers[t].phase.sid
      modifies this`xfers, this`pending, this`hist
      ensures rest == Partial(old(xfers[t].sub.value), old(xfers[t].phase.next))
      ensures View() == LaterRefused(old(View()), t, map[]).(active := active, done := done)
    {
      var s := xfers[t].sub.value;
      rest := Partial(s, xfers[t].phase.next);
      RemoveFrom(s, xfers[t].phase.next);
      xfers := xfers[t := xfers[t].(sub := Some(rest), phase := Free)];
      hist := hist[s.sid := hist[s.sid].(answer := ReturnedOk)];
      hist := hist[s.sid := hist[s.sid].(marks := hist[s.sid].marks + [Refused])];
    }

    method Return(t: Tid)
      requires Valid() && CanReturn(View(), t)
      modifies this`xfers, this`hist, this`trace
      ensures Valid() && View() == Returned(old(View()), t)
    {
      ghost var w := View();
      var sid := xfers[t].phase.sid;
      xfers := xfers[t := xfers[t].(phase := Free)];
      hist := hist[sid := hist[sid].(answer := ReturnedOk)];
      Took(w, SubmitReturn(t));
    }

    /** The SUBMITURB loop; the kernel would accept `takes` URBs. */
    method Offer(t: Tid, takes: nat) returns (r: Result<(), ErrorKind>)
      requires Valid() && ev == Loop({}) && InSubmit(View(), t) && xfers[t].phase.next == 0
      requires forall t' :: t' in xfers && t' != t ==> xfers[t'].phase.Free?
      modifies this`xfers, this`pending, this`hist, this`active, this`done, this`trace
      ensures Valid() && Still() && xfers.Keys == old(xfers.Keys)
      ensures r.Ok? <==> !old(gone) && takes > 0
      ensures var s := old(xfers[t].sub.value);
        if r.Err? then
          pending == old(pending) - Tail(s, 0) && active == old(active) && !xfers[t].inFlight
        else
          && xfers[t].inFlight && xfers[t].sub.Some?
          && xfers[t].sub.value.lens == s.lens[..if takes < |s.lens| then takes else |s.lens|]
    {
      var s := xfers[t].sub.value;
      assert XferOk(View(), t) && xfers[t].inFlight;
      var i := TakeAll(t, takes);
      assert s.lens == s.lens[..|s.lens|];
      r := Ok(());
      if i == |s.lens| {
        Return(t);
      } else if i == 0 {
        RefuseFirst(t);
        r := Err(Os);
      } else {
        ghost var killed := RefuseLater(t);
      }
    }

    /** The iterations of the loop up to the URB the kernel refuses, if it refuses one. */
    method TakeAll(t: Tid, takes: nat) returns (i: nat)
      requires Valid() && InSubmit(View(), t) && xfers[t].phase.next == 0
      modifies this`xfers, this`active, this`trace
      ensures Valid() && i == (var n := |old(xfers[t].sub.value.lens)|; if gone then 0 else if takes < n then takes else n)
      ensures xfers == old(xfers)[t := old(xfers[t]).(phase := Submitting(old(xfers[t].phase.sid), i))]
      ensures i == 0 ==> active == old(active)
    {
      var n := |xfers[t].sub.value.lens|;
      i := 0;
      while i < n && i < takes && !gone
        invariant 0 <= i <= n && Valid() && (i > 0 ==> !gone && i <= takes)
        invariant xfers == old(xfers)[t := old(xfers[t]).(phase := Submitting(old(xfers[t].phase.sid), i))]
        invariant i == 0 ==> active == old(active)
      {
        Take(t);
        i := i + 1;
      }
    }

    /** A whole `submit`: `plan` is what `build` decides and `takes` how many URBs the kernel
        would accept.  Ok exactly when the kernel took the first one; after Err the transfer is
        as idle as before and nothing of the submission is pending or with the kernel. */
    method Submit(t: Tid, plan: Option<Plan>, takes: nat) returns (r: Result<(), ErrorKind>)
      requires Valid() && Still() && t in xfers && (plan.Some? ==> 0 < |plan.value.lens| < USIZE_MAX)
      modifies this`xfers, this`pending, this`hist, this`active, this`done, this`trace
      ensures Valid() && Still() && xfers.Keys == old(xfers.Keys)
      ensures r.Ok? <==> !old(xfers[t].inFlight) && !old(disconnected) && !old(gone) && plan.Some? && takes > 0
      ensures r.Err? ==> pending == old(pending) && active == old(active) && xfers[t].inFlight == old(xfers[t].inFlight)
      ensures r.Ok? ==> xfers[t].inFlight && xfers[t].sub.Some?
                        && xfers[t].sub.value.lens == plan.value.lens[..if takes < |plan.value.lens| then takes else |plan.value.lens|]
    {
      r := Start(t);
      if r.Err? { return; }
      ghost var before := View();
      assert XferOk(before, t);
      r := Insert(t, plan);
      if r.Err? { return; }
      NothingYet(before, View(), t);
      r := Offer(t, takes);
    }

    /** `Handle::cancel`. */
    method Cancel(t: Tid) returns (r: Result<(), ErrorKind>, ghost killed: map<Urb, Reply>)
      requires Valid() && SubLockFree(View(), t)
      modifies this`xfers, this`hist, this`active, this`done, this`trace
      ensures Valid() && View() == CancelStep(old(View()), t, killed)
      ensures r == if old(xfers[t].sub.None?) then Err(NotFound) else Ok(())
    {
      ghost var w := View();
      killed := map[];
      if xfers[t].sub.None? {
        r := Err(NotFound);
      } else {
        killed := CancelNow(t);
        r := Ok(());
      }
      Took(w, CancelCall(t, killed));
    }

    method CancelNow(t: Tid) returns (ghost killed: map<Urb, Reply>)
      requires active !! done.Keys && SubLockFree(View(), t) && xfers[t].sub.Some?
      modifies this`xfers, this`hist, this`active, this`done
      ensures View() == CancelStep(old(View()), t, killed)
      ensures Kills(old(View()), Tail(old(xfers[t].sub.value), 0), killed)
    {
      var s := xfers[t].sub.value;
      var n;
      n, killed := Discard(s, 0);
      if n > 0 {
        xfers := xfers[t := xfers[t].(sub := Some(s.(cancelled := true)))];
        hist := hist[s.sid := hist[s.sid].(marks := hist[s.sid].marks + [CancelHit])];
      }
    }

    /** `expire` for one transfer whose deadline has passed. */
    method Expire(t: Tid) returns (ghost killed: map<Urb, Reply>)
      requires Valid() && SubLockFree(View(), t) && ev == Loop({})
      modifies this`xfers, this`hist, this`active, this`done, this`trace
      ensures Valid()
      ensures View() == if Expirable(old(View()), t) then ExpireStep(old(View()), t, killed) else old(View())
    {
      ghost var w := View();
      killed := map[];
      if xfers[t].sub.None? || xfers[t].sub.value.timedOut || !xfers[t].sub.value.armed { return; }
      killed := ExpireNow(t);
      Took(w, ExpireOne(t, killed));
    }

    method ExpireNow(t: Tid) returns (ghost killed: map<Urb, Reply>)
      requires active !! done.Keys && SubLockFree(View(), t) && Expirable(View(), t)
      modifies this`xfers, this`hist, this`active, this`done
      ensures View() == ExpireStep(old(View()), t, killed)
      ensures Kills(old(View()), Tail(old(xfers[t].sub.value), 0), killed)
    {
      var s := xfers[t].sub.value;
      var n;
      n, killed := Discard(s, 0);
      if n > 0 {
        s := s.(timedOut := true);
        hist := hist[s.sid := hist[s.sid].(marks := hist[s.sid].marks + [ExpireHit])];
      }
      s := s.(armed := false);
      xfers := xfers[t := xfers[t].(sub := Some(s))];
    }

    /** `Inner::complete`, for the submission the event thread has taken. */
    method Complete()
      requires Valid() && CanPublish(View())
      modifies this`xfers, this`hist, this`ev, this`trace
      ensures Valid() && View() == PublishStep(old(View()))
    {
      ghost var w := View();
      var t, sid, o := ev.t, ev.sid, ev.outcome;
      xfers := xfers[t := xfers[t].(inFlight := false, status := o.status, actual := o.actual)];
      hist := hist[sid := hist[sid].(calls := hist[sid].calls + [o])];
      ev := Loop(ev.rest);
      Took(w, Publish);
    }

    /** The bytes a URB brought back: packet by packet, or none for a negative length. */
    static method CountMoved(iso: bool, r: Reply) returns (n: nat)
      ensures n == Moved(iso, r)
    {
      if !iso {
        return if r.actual < 0 then 0 else r.actual;
      }
      n := 0;
      for k := 0 to |r.packets|
        invariant n == Sum(r.packets[..k])
      {
        assert r.packets[..k + 1][..k] == r.packets[..k];
        n := n + r.packets[k];
      }
      assert r.packets[..|r.packets|] == r.packets;
    }

    /** The bookkeeping of `finish_urb`; `cut` says that the URBs after `i` are to be discarded. */
    static method AccountUrb(before: Submission, i: nat, r: Reply) returns (sub: Submission, cut: bool)
      requires i < |before.lens|
      ensures sub == Account(before, i, r) && cut == CutsTail(before, i, r)
    {
      sub := before.(reaped := before.reaped + 1);
      var ours := i >= sub.discardedFrom || sub.cancelled || sub.timedOut;
      var moved := CountMoved(sub.iso, r);
      sub := sub.(actual := sub.actual + moved);
      if r.status != 0 && !ours {
        var failure := UrbStatus(r.status);
        if failure.Some? && sub.status.None? {
          sub := sub.(status := failure);
        }
      }
      var short := !sub.iso && r.actual < sub.lens[i];
      cut := (short || r.status != 0) && i + 1 < |sub.lens| && sub.discardedFrom > i + 1;
      if cut {
        sub := sub.(discardedFrom := i + 1);
      }
    }

    /** `finish_urb` under the `sub` lock, but for its discards; `cut` asks for them. */
    method FinishLocked() returns (cut: bool)
      requires Valid() && CanFinish(View()) && SubLockFree(View(), ev.t) && xfers[ev.t].sub.Some?
      modifies this`xfers, this`ev, this`hist
      ensures View() == AccountStep(old(View()))
      ensures cut == CutsTail(old(xfers[ev.t].sub.value), old(ev.urb.index), old(ev.reply))
    {
      var t, i, r := ev.t, ev.urb.index, ev.reply;
      var s := xfers[t].sub.value;
      var sub;
      sub, cut := AccountUrb(s, i, r);
      hist := hist[s.sid := hist[s.sid].(back := hist[s.sid].back + {i},
                                         marks := hist[s.sid].marks + [Reaped(i, s.iso, s.lens[i], r)])];
      if sub.reaped == |sub.lens| {
        xfers := xfers[t := xfers[t].(sub := None)];
        var status := if sub.timedOut then TimedOut else if sub.cancelled then Cancelled else sub.status.GetOr(Completed);
        ev := Completing(t, s.sid, Outcome(status, sub.actual, false), {});
      } else {
        xfers := xfers[t := xfers[t].(sub := Some(sub))];
        ev := Loop({});
      }
    }

    method FinishAndDiscard() returns (ghost killed: map<Urb, Reply>)
      requires Valid() && CanFinish(View()) && SubLockFree(View(), ev.t) && xfers[ev.t].sub.Some?
      modifies this`xfers, this`ev, this`hist, this`active, this`done
      ensures Kills(old(View()), FinishKills(old(View())), killed)
      ensures View() == FinishStep(old(View()), killed)
    {
      var s, i := xfers[ev.t].sub.value, ev.urb.index;
      killed := map[];
      var cut := FinishLocked();
      if cut {
        var n;
        n, killed := Discard(s, i + 1);
      } else {
        assert active - {} == active && done + map[] == done;
      }
    }

    /** `finish_urb` up to the completion.  A URB comes back only while its submission lives. */
    method FinishUrb() returns (ghost killed: map<Urb, Reply>)
      requires Valid() && CanFinish(View()) && SubLockFree(View(), ev.t)
      requires forall t :: t in xfers ==> xfers[t].phase.Free?
      modifies this`xfers, this`ev, this`hist, this`active, this`done, this`trace
      ensures Valid() && trace == old(trace) + [Finish(killed)]
      ensures xfers.Keys == old(xfers.Keys) && forall t :: t in xfers ==> xfers[t].phase.Free?
      ensures |active| + |done| == old(|active| + |done|)
      ensures ev == Loop({}) || (CanPublish(View()) && ev.rest == {})
    {
      ghost var w := View();
      assert XferOk(w, ev.t);
      killed := FinishAndDiscard();
      FinishShape(w, killed);
      DiscardKeeps(w, FinishKills(w), killed);
      Took(w, Finish(killed));
    }

    /** `reap`: takes back every URB the kernel has finished, and fails what is left once the
        kernel says that the device is gone. */
    method Reap()
      requires Valid() && Still()
      modifies this`xfers, this`hist, this`ev, this`disconnected, this`pending, this`active, this`done, this`trace
      ensures Valid() && Still() && xfers.Keys == old(xfers.Keys)
      ensures done == map[] && (gone ==> disconnected && pending == map[])
    {
      while done != map[]
        invariant Valid() && Still() && xfers.Keys == old(xfers.Keys)
        decreases |active| + |done|
      {
        var u :| u in done;
        ReapOne(u);
      }
      if gone {
        Disconnect();
      }
    }

    /** One REAPURBNDELAY: the URB is taken out of the kernel's hands and out of `pending`. */
    method TakeBack(u: Urb)
      requires Valid() && ev == Loop({}) && u in done
      modifies this`ev, this`done, this`pending, this`trace
      ensures Valid() && View() == ReapStep(old(View()), u) && u in old(pending)
    {
      ghost var w := View();
      assert UrbOk(w, u);
      ev := Finishing(pending[u], u, done[u]);
      done := done - {u};
      pending := pending - {u};
      Took(w, UrbModel.Reap(u));
    }

    method ReapOne(u: Urb)
      requires Valid() && Still() && u in done
      modifies this`xfers, this`ev, this`hist, this`active, this`done, this`pending, this`trace
      ensures Valid() && Still() && xfers.Keys == old(xfers.Keys)
      ensures |active| + |done| < old(|active| + |done|)
    {
      TakeBack(u);
      assert XferOk(View(), ev.t) && xfers[ev.t].phase.Free?;
      assert |done| == |done.Keys| == old(|done.Keys - {u}|) == old(|done|) - 1;
      ghost var killed := FinishUrb();
      if ev.Completing? {
        Complete();
      }
    }

    static lemma FinishShape(w: World, killed: map<Urb, Reply>)
      requires CanAccount(w, killed) && Inv(w) && forall t :: t in w.xfers ==> w.xfers[t].phase.Free?
      ensures var v := FinishStep(w, killed);
        && v.active == w.active - FinishKills(w) && v.done == w.done + killed && v.gone == w.gone
        && v.xfers.Keys == w.xfers.Keys && (forall t :: t in v.xfers ==> v.xfers[t].phase.Free?)
        && (v.ev == Loop({}) || (CanPublish(v) && v.ev.rest == {}))
    {
      assert XferOk(w, w.ev.t);
    }

    /** A discard neither loses nor makes URBs. */
    static lemma DiscardKeeps(w: World, urbs: set<Urb>, killed: map<Urb, Reply>)
      requires Kills(w, urbs, killed) && w.active !! w.done.Keys
      ensures |w.active - urbs| + |w.done + killed| == |w.active| + |w.done|
    {
      assert (w.active - urbs) + (w.active * urbs) == w.active;
      assert (w.done + killed).Keys == w.done.Keys + w.active * urbs;
      assert |w.done + killed| == |(w.done + killed).Keys| && |w.done| == |w.done.Keys|;
    }

    /** `disconnect`: every transfer with a URB outstanding completes with NoDevice. */
    method Disconnect()
      requires Valid() && Still() && gone && done == map[]
      modifies this`xfers, this`hist, this`ev, this`disconnected, this`pending, this`trace
      ensures Valid() && Still() && disconnected && pending == map[] && xfers.Keys == old(xfers.Keys)
      ensures forall t :: t in old(pending.Values) ==> t in xfers && !xfers[t].inFlight && xfers[t].status == NoDevice
    {
      DrainPending();
      DrainAll();
    }

    method DrainAll()
      requires Valid() && ev.Loop? && forall t :: t in xfers ==> xfers[t].phase.Free?
      requires forall t :: t in ev.rest ==> t in xfers && xfers[t].sub.Some?
      modifies this`xfers, this`hist, this`ev, this`trace
      ensures Valid() && Still() && xfers.Keys == old(xfers.Keys)
      ensures forall t :: t in old(ev.rest) ==> t in xfers && !xfers[t].inFlight && xfers[t].status == NoDevice
    {
      while ev.rest != {}
        invariant Valid() && ev.Loop? && ev.rest <= old(ev.rest) && xfers.Keys == old(xfers.Keys)
        invariant forall t {:trigger xfers[t]} :: t in xfers ==>
          && xfers[t].phase.Free?
          && (t in ev.rest ==> xfers[t].sub.Some?)
          && (t in old(ev.rest) && t !in ev.rest ==> !xfers[t].inFlight && xfers[t].status == NoDevice)
        decreases ev.rest
      {
        var t :| t in ev.rest;
        DrainOne(t);
      }
    }

    method DrainPending()
      requires Valid() && ev == Loop({}) && gone && done == map[]
      modifies this`ev, this`disconnected, this`pending, this`trace
      ensures Valid() && disconnected && pending == map[] && ev == Loop(old(pending.Values))
      ensures forall t :: t in old(pending.Values) ==> t in xfers && xfers[t].sub.Some?
    {
      ghost var w := View();
      forall t | t in pending.Values ensures t in xfers && xfers[t].sub.Some? {
        var u :| u in pending && pending[u] == t;
        assert UrbOk(w, u);
      }
      ev := Loop(pending.Values);
      disconnected := true;
      pending := map[];
      Took(w, UrbModel.Disconnect);
    }

    method DrainOne(t: Tid)
      requires Valid() && ev.Loop? && t in ev.rest && t in xfers && xfers[t].sub.Some?
      requires forall t :: t in xfers ==> xfers[t].phase.Free?
      modifies this`xfers, this`hist, this`ev, this`trace
      ensures Valid() && ev == Loop(old(ev.rest) - {t})
      ensures xfers == old(xfers)[t := Xfer(false, NoDevice, old(xfers[t].sub.value.actual), None, Free)]
    {
      ghost var w := View();
      assert XferOk(w, t);
      var s := xfers[t].sub.value;
      xfers := xfers[t := xfers[t].(sub := None)];
      ev := Completing(t, s.sid, Outcome(NoDevice, s.actual, true), ev.rest - {t});
      Took(w, Drain(t));
      Complete();
    }

    /** Taking a fresh submission's URBs out of `pending` again leaves what was there before. */
    static lemma NothingYet(w: World, v: World, t: Tid)
      requires Inv(w) && t in w.xfers && w.xfers[t].phase.Starting? && w.xfers[t].phase.sid < |w.hist|
      requires t in v.xfers && v.xfers[t].sub.Some? && v.xfers[t].sub.value.sid == w.xfers[t].phase.sid
      requires v.pending == w.pending + map u: Urb | u in Tail(v.xfers[t].sub.value, 0) :: t
      ensures v.pending - Tail(v.xfers[t].sub.value, 0) == w.pending
    {
      assert XferOk(w, t);
      forall u | u in w.pending ensures u.sid != w.xfers[t].phase.sid {
        assert UrbOk(w, u) && XferOk(w, w.pending[u]);
      }
    }
  }
}
