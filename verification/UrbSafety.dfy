/** The main results about runs of the URB life cycle. */
module UrbSafety {
  import opened Wrappers
  import opened UrbModel
  import opened UrbInvariant

  lemma StepInv(w: World, step: Step)
    requires Inv(w) && Enabled(w, step)
    ensures Inv(Apply(w, step))
  {
    match step {
      case SubmitStart(t) => StartInv(w, t);
      case SubmitInsert(t, plan) => InsertInv(w, t, plan);
      case SubmitUrb(t, accepted, killed) =>
        if accepted { AcceptInv(w, t); }
        else if w.xfers[t].phase.next == 0 { RefuseInv(w, t); }
        else { TruncateInv(w, t, killed); }
      case SubmitReturn(t) => ReturnInv(w, t);
      case CancelCall(t, killed) =>
        if w.xfers[t].sub.Some? {
          var s := w.xfers[t].sub.value;
          InterruptInv(w, t, Cancel(s, Hits(w, s)), CancelHit, Hits(w, s), killed);
        }
      case ExpireOne(t, killed) =>
        var s := w.xfers[t].sub.value;
        InterruptInv(w, t, Expire(s, Hits(w, s)), ExpireHit, Hits(w, s), killed);
      case KernelFinish(u, r) => KernelInv(w, w.active - {u}, w.done[u := r]);
      case Unplug(killed) => GoneInv(w, w.done + killed);
      case GiveUp => GoneInv(w, map[]);
      case Reap(u) => ReapInv(w, u);
      case Finish(killed) => FinishInv(w, killed);
      case Publish => PublishInv(w);
      case Disconnect => DisconnectInv(w);
      case Drain(t) => DrainInv(w, t);
    }
  }

  lemma {:induction false} RunInv(w: World, steps: seq<Step>)
    requires Inv(w) && IsRun(w, steps)
    ensures Inv(RunFrom(w, steps))
    decreases |steps|
  {
    if steps != [] {
      StepInv(w, steps[0]);
      RunInv(Apply(w, steps[0]), steps[1..]);
    }
  }

  /** The kernel holds no URB of `sid`, the event thread has neither one of them nor the submission in
      its hands, and an unplug, if there was one, has been noticed. */
  ghost predicate Quiet(w: World, sid: nat)
    requires sid < |w.hist|
  {
    && (forall i: nat :: !InKernel(w, Urb(sid, i)))
    && !(w.ev.Finishing? && w.ev.urb.sid == sid) && !(w.ev.Completing? && w.ev.sid == sid)
    && w.hist[sid].home !in Rest(w.ev)
    && (w.gone ==> w.disconnected)
  }

  /** An index below `n` that is not in `back`. */
  lemma {:induction false} MissingIndex(back: set<nat>, n: nat) returns (j: nat)
    requires |back| < n
    ensures j < n && j !in back
  {
    if n - 1 in back {
      j := MissingIndex(back - {n - 1}, n - 1);
    } else {
      j := n - 1;
    }
  }

  lemma OwedIsHeld(w: World, sid: nat)
    requires Inv(w) && sid < |w.hist| && w.hist[sid].answer == ReturnedOk && w.hist[sid].calls == []
    ensures !Quiet(w, sid)
  {
    var t := w.hist[sid].home;
    assert HistoryOk(w, sid) && XferOk(w, t);
    if !(w.ev.Finishing? && w.ev.urb.sid == sid) && !(w.ev.Completing? && w.ev.sid == sid) && t !in Rest(w.ev) {
      var j := MissingIndex(w.hist[sid].back, |w.xfers[t].sub.value.lens|);
      var u := Urb(sid, j);
      assert UrbOk(w, u);
      assert u in w.pending && XferOk(w, w.pending[u]);
      assert if w.gone then !w.disconnected else InKernel(w, u);
    }
  }

  /** Exactly-once completion, over every interleaving.  `Inner::complete` is called at most once
      for a submission, never if `submit` returned an error or has not returned; and exactly once
      for one that returned Ok, by the time the kernel and the event thread are done with it. */
  lemma ExactlyOnce(w: World, steps: seq<Step>, sid: nat)
    requires Initial(w) && IsRun(w, steps) && sid < |RunFrom(w, steps).hist|
    ensures
      var v := RunFrom(w, steps);
      var h := v.hist[sid];
      && |h.calls| <= 1
      && (h.calls != [] ==> h.answer == ReturnedOk)
      && (h.answer == ReturnedOk && Quiet(v, sid) ==> |h.calls| == 1)
  {
    InitialInv(w);
    RunInv(w, steps);
    var v := RunFrom(w, steps);
    assert HistoryOk(v, sid);
    if v.hist[sid].answer == ReturnedOk && v.hist[sid].calls == [] {
      OwedIsHeld(v, sid);
    }
  }

  /** While the kernel holds a URB its transfer is in flight: `idle()` fails for every setter and
      buffer guard, and a second submit changes nothing. */
  lemma BufferOwned(w: World, steps: seq<Step>, u: Urb)
    requires Initial(w) && IsRun(w, steps) && InKernel(RunFrom(w, steps), u)
    ensures
      var v := RunFrom(w, steps);
      && u in v.pending && u.sid < |v.hist|
      && var t := v.pending[u];
      && t == v.hist[u.sid].home && t in v.xfers && v.xfers[t].inFlight
      && Apply'(v, SubmitStart(t)) == v
  {
    InitialInv(w);
    RunInv(w, steps);
    var v := RunFrom(w, steps);
    assert UrbOk(v, u) && XferOk(v, v.pending[u]);
  }

  /** A step that is not enabled waits. */
  function Apply'(w: World, step: Step): World {
    if Enabled(w, step) then Apply(w, step) else w
  }

  function Below(n: nat): (r: set<nat>)
    ensures |r| == n && forall j: nat :: j in r <==> j < n
  {
    if n == 0 then {} else
      var r := Below(n - 1);
      assert n - 1 !in r;
      r + {n - 1}
  }

  lemma Partition(a: set<nat>, b: set<nat>, c: set<nat>, n: nat)
    requires a !! b && a !! c && b !! c
    requires forall j: nat :: j in a || j in b || j in c <==> j < n
    ensures |a| + |b| + |c| == n
  {
    assert a + b + c == Below(n);
    assert |a + b| == |a| + |b|;
  }

  /** The indices of a submission whose URB is in the pending map. */
  function PendingOf(w: World, s: Submission): set<nat> {
    set u | u in w.pending && u.sid == s.sid :: u.index
  }

  /** Conservation: of the URBs of a live submission, those pending, the one the event thread is
      finishing and those reaped add up to all of them, until a disconnect drains it. */
  lemma Conservation(w: World, steps: seq<Step>, t: Tid)
    requires Initial(w) && IsRun(w, steps) && t in RunFrom(w, steps).xfers
    requires RunFrom(w, steps).xfers[t].sub.Some? && t !in Rest(RunFrom(w, steps).ev)
    ensures
      var v := RunFrom(w, steps);
      var s := v.xfers[t].sub.value;
      |PendingOf(v, s)| + (if v.ev.Finishing? && v.ev.urb.sid == s.sid then 1 else 0) + s.reaped == |s.lens|
  {
    InitialInv(w);
    RunInv(w, steps);
    var v := RunFrom(w, steps);
    ConservationAt(v, t);
  }

  lemma ConservationAt(v: World, t: Tid)
    requires Inv(v) && t in v.xfers && v.xfers[t].sub.Some? && t !in Rest(v.ev)
    ensures
      var s := v.xfers[t].sub.value;
      |PendingOf(v, s)| + (if v.ev.Finishing? && v.ev.urb.sid == s.sid then 1 else 0) + s.reaped == |s.lens|
  {
    var s := v.xfers[t].sub.value;
    assert XferOk(v, t);
    var back := v.hist[s.sid].back;
    var hand := if v.ev.Finishing? && v.ev.urb.sid == s.sid then {v.ev.urb.index} else {};
    if v.ev.Finishing? { assert XferOk(v, v.ev.t); }
    forall j: nat ensures j in PendingOf(v, s) ==> j < |s.lens| && j !in back && j !in hand {
      var u := Urb(s.sid, j);
      assert UrbOk(v, u);
      if u in v.pending { assert XferOk(v, v.pending[u]); }
    }
    forall j: nat | j < |s.lens| ensures j in PendingOf(v, s) || j in hand || j in back {
      var u := Urb(s.sid, j);
      assert u in v.pending || InHand(v, u) || j in back;
    }
    Partition(PendingOf(v, s), hand, back, |s.lens|);
  }

  /** A cancel finds what it is to cancel: a transfer in flight that nobody is submitting has a live
      submission, or one that is just being published. */
  lemma CancelFindsIt(w: World, steps: seq<Step>, t: Tid)
    requires Initial(w) && IsRun(w, steps) && t in RunFrom(w, steps).xfers && RunFrom(w, steps).xfers[t].phase.Free?
    ensures
      var v := RunFrom(w, steps);
      v.xfers[t].inFlight <==> v.xfers[t].sub.Some? || PublishingFor(v, t)
  {
    InitialInv(w);
    RunInv(w, steps);
    assert XferOk(RunFrom(w, steps), t);
  }

  /** A step of the kernel, of the event thread or of a submit already under way. */
  predicate Forward(step: Step) {
    !step.SubmitStart? && !step.CancelCall? && !step.ExpireOne? && !step.Unplug? && !step.GiveUp?
  }

  function Killed(w: World, urbs: set<Urb>): map<Urb, Reply> {
    map u | u in w.active && u in urbs :: Reply(-ENOENT, 0, [])
  }

  /** A submit holding the locks of `t` can always go on. */
  lemma SubmitGoesOn(w: World, t: Tid) returns (step: Step)
    requires Inv(w) && t in w.xfers && w.xfers[t].phase.Submitting?
    ensures Enabled(w, step) && Forward(step)
  {
    var x := w.xfers[t];
    assert XferOk(w, t);
    if x.phase.next == |x.sub.value.lens| {
      step := SubmitReturn(t);
    } else {
      step := SubmitUrb(t, false, Killed(w, Tail(Partial(x.sub.value, x.phase.next), 0)));
    }
  }

  /** No deadlock: while a completion is owed, somebody other than the caller can take a step. */
  lemma NeverStuck(w: World, steps: seq<Step>, sid: nat) returns (step: Step)
    requires Initial(w) && IsRun(w, steps) && sid < |RunFrom(w, steps).hist|
    requires var h := RunFrom(w, steps).hist[sid]; h.answer == ReturnedOk && h.calls == []
    ensures Enabled(RunFrom(w, steps), step) && Forward(step)
  {
    InitialInv(w);
    RunInv(w, steps);
    var v := RunFrom(w, steps);
    OwedIsHeld(v, sid);
    match v.ev {
      case Completing(t, _, _, _) => step := Publish;
      case Finishing(t, u, r) =>
        if v.xfers[t].phase.Submitting? { step := SubmitGoesOn(v, t); }
        else {
          assert XferOk(v, t);
          step := Finish(Killed(v, FinishKills(v)));
        }
      case Loop(rest) =>
        if rest != {} {
          var t :| t in rest;
          assert t in Rest(v.ev) && XferOk(v, t);
          if v.xfers[t].phase.Submitting? { step := SubmitGoesOn(v, t); } else { step := Drain(t); }
        } else if v.done != map[] {
          var u :| u in v.done;
          step := Reap(u);
        } else if v.active != {} {
          var u :| u in v.active;
          step := KernelFinish(u, Reply(0, 0, []));
        } else {
          step := Disconnect;
        }
    }
  }
}
