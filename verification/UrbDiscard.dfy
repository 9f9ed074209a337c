/** What is discarded is discarded: no URB the library gave up on stays with the kernel. */
module UrbDiscard {
  import opened Wrappers
  import opened UrbModel
  import opened UrbInvariant
  import opened UrbSafety
  import opened UrbStatus

  /** Something happened to a submission after which its URB `index` is of no use. */
  predicate Useless(marks: seq<Mark>, index: nat) {
    BrokeBefore(marks, index) || CancelHit in marks || ExpireHit in marks || Refused in marks
  }

  /** The kernel is not working on any useless URB of `t`, unless `t` is only being submitted. */
  ghost predicate Quenched(w: World, t: Tid) {
    t in w.xfers && w.xfers[t].sub.Some? && w.xfers[t].phase.Free? ==>
      var s := w.xfers[t].sub.value;
      s.sid < |w.hist| && forall j: nat {:trigger Urb(s.sid, j)} :: Useless(w.hist[s.sid].marks, j) ==> Urb(s.sid, j) !in w.active
  }

  /** A step that leaves `t` and its history alone, and hands the kernel no URB of it. */
  lemma Unmoved(w: World, v: World, t: Tid)
    requires Quenched(w, t) && t in w.xfers && t in v.xfers && v.xfers[t].sub == w.xfers[t].sub
    requires v.xfers[t].phase.Free? ==> w.xfers[t].phase.Free?
    requires w.xfers[t].sub.Some? ==>
      var sid := w.xfers[t].sub.value.sid;
      && sid < |w.hist| && sid < |v.hist| && v.hist[sid].marks == w.hist[sid].marks
      && forall j: nat {:trigger Urb(sid, j)} :: Urb(sid, j) in v.active ==> Urb(sid, j) in w.active
    ensures Quenched(v, t)
  {
  }

  /** The kernel holds only URBs that are in range. */
  lemma InRange(w: World, t: Tid, j: nat)
    requires Inv(w) && t in w.xfers && w.xfers[t].sub.Some? && w.xfers[t].phase.Free?
    requires Urb(w.xfers[t].sub.value.sid, j) in w.active
    ensures j < |w.xfers[t].sub.value.lens|
  {
    var u := Urb(w.xfers[t].sub.value.sid, j);
    assert XferOk(w, t) && UrbOk(w, u);
    assert u in w.pending && XferOk(w, w.pending[u]);
  }

  /** Two transfers have two submissions. */
  lemma OwnSubmissions(w: World, t: Tid, t': Tid)
    requires Inv(w) && t in w.xfers && t' in w.xfers && t != t' && w.xfers[t].sub.Some? && w.xfers[t'].sub.Some?
    ensures w.xfers[t].sub.value.sid != w.xfers[t'].sub.value.sid
  {
    assert XferOk(w, t) && XferOk(w, t');
  }

  lemma OfferQuenched(w: World, t: Tid, accepted: bool, killed: map<Urb, Reply>)
    requires StatusInv(w) && CanSubmitUrb(w, t, accepted, killed)
    ensures Quenched(SubmitUrbStep(w, t, accepted, killed), t)
  {
    assert XferOk(w, t) && LiveAgrees(w, t);
    if !accepted && w.xfers[t].phase.next > 0 {
      var v, s := LaterRefused(w, t, killed), w.xfers[t].sub.value;
      forall j: nat ensures Urb(s.sid, j) !in v.active {
        assert UrbOk(w, Urb(s.sid, j));
        if Urb(s.sid, j) in w.active { assert XferOk(w, w.pending[Urb(s.sid, j)]); }
      }
    }
  }

  lemma ReturnQuenched(w: World, t: Tid)
    requires StatusInv(w) && CanReturn(w, t)
    ensures Quenched(Returned(w, t), t)
  {
    assert XferOk(w, t) && LiveAgrees(w, t);
  }

  lemma InterruptQuenched(w: World, t: Tid, after: Submission, m: Mark, hit: bool, killed: map<Urb, Reply>)
    requires Inv(w) && t in w.xfers && w.xfers[t].sub.Some? && w.xfers[t].phase.Free?
    requires after.sid == w.xfers[t].sub.value.sid < |w.hist| && after.lens == w.xfers[t].sub.value.lens
    ensures Quenched(Interrupted(w, t, after, m, hit, killed), t)
  {
    var v := Interrupted(w, t, after, m, hit, killed);
    forall j: nat ensures Urb(after.sid, j) !in v.active {
      if Urb(after.sid, j) in w.active { InRange(w, t, j); }
    }
  }

  lemma FinishQuenched(w: World, killed: map<Urb, Reply>)
    requires StatusInv(w) && CanAccount(w, killed) && w.xfers[w.ev.t].phase.Free? && Quenched(w, w.ev.t)
    ensures Quenched(FinishStep(w, killed), w.ev.t)
  {
    var t, i, r := w.ev.t, w.ev.urb.index, w.ev.reply;
    if w.xfers[t].sub.Some? {
      assert XferOk(w, t) && LiveAgrees(w, t);
      var s := w.xfers[t].sub.value;
      var marks := w.hist[s.sid].marks;
      var m := Reaped(i, s.iso, s.lens[i], r);
      var v := FinishStep(w, killed);
      forall j: nat | Useless(marks + [m], j) ensures Urb(s.sid, j) !in v.active {
        if Urb(s.sid, j) in w.active {
          InRange(w, t, j);
          BrokeBeforeLast(marks, m, j);
        }
      }
    }
  }

  lemma StepQuenched(w: World, step: Step, t: Tid)
    requires StatusInv(w) && Enabled(w, step) && Quenched(w, t)
    ensures Quenched(Apply(w, step), t)
  {
    if Subject(w, step) == Some(t) || step == SubmitReturn(t) {
      OwnQuenched(w, step, t);
    } else {
      OtherQuenched(w, step, t);
    }
  }

  lemma OwnQuenched(w: World, step: Step, t: Tid)
    requires StatusInv(w) && Enabled(w, step) && Quenched(w, t) && (Subject(w, step) == Some(t) || step == SubmitReturn(t))
    ensures Quenched(Apply(w, step), t)
  {
    assert XferOk(w, t);
    match step {
      case SubmitUrb(_, accepted, killed) => OfferQuenched(w, t, accepted, killed);
      case SubmitReturn(_) => ReturnQuenched(w, t);
      case CancelCall(_, killed) =>
        if w.xfers[t].sub.Some? {
          var s := w.xfers[t].sub.value;
          InterruptQuenched(w, t, Cancel(s, Hits(w, s)), CancelHit, Hits(w, s), killed);
        }
      case ExpireOne(_, killed) =>
        var s := w.xfers[t].sub.value;
        InterruptQuenched(w, t, Expire(s, Hits(w, s)), ExpireHit, Hits(w, s), killed);
      case Finish(killed) => FinishQuenched(w, killed);
      case _ =>
    }
  }

  lemma OtherQuenched(w: World, step: Step, t: Tid)
    requires StatusInv(w) && Enabled(w, step) && Quenched(w, t)
    requires Subject(w, step) != Some(t) && step != SubmitReturn(t)
    ensures Quenched(Apply(w, step), t)
  {
    var v := Apply(w, step);
    assert XferOk(w, t);
    if Subject(w, step).Some? { assert XferOk(w, Subject(w, step).value); }
    OthersSame(w, step, t);
    if t in w.xfers && w.xfers[t].sub.Some? {
      PhaseSame(w, step, t);
      ActiveLess(w, step, t);
      Unmoved(w, v, t);
    }
  }

  predicate FreeBefore(w: World, v: World, t: Tid) {
    t in w.xfers && t in v.xfers && (v.xfers[t].phase.Free? ==> w.xfers[t].phase.Free?)
  }

  lemma SubmitPhase(w: World, step: Step, t: Tid)
    requires Enabled(w, step) && t in w.xfers && Subject(w, step) != Some(t) && step != SubmitReturn(t)
    requires step.SubmitStart? || step.SubmitInsert? || step.SubmitReturn?
    ensures FreeBefore(w, Apply(w, step), t)
  {
  }

  lemma OfferPhase(w: World, t': Tid, accepted: bool, killed: map<Urb, Reply>, t: Tid)
    requires InSubmit(w, t') && t in w.xfers && t != t'
    ensures FreeBefore(w, SubmitUrbStep(w, t', accepted, killed), t)
  {
  }

  lemma InterruptPhase(w: World, step: Step, t: Tid)
    requires Enabled(w, step) && t in w.xfers && (step.CancelCall? || step.ExpireOne?)
    ensures FreeBefore(w, Apply(w, step), t)
  {
  }

  lemma FinishPhase(w: World, killed: map<Urb, Reply>, t: Tid)
    requires CanAccount(w, killed) && t in w.xfers
    ensures FreeBefore(w, FinishStep(w, killed), t)
  {
  }

  lemma EventPhase(w: World, step: Step, t: Tid)
    requires Enabled(w, step) && t in w.xfers
    requires !step.SubmitStart? && !step.SubmitInsert? && !step.SubmitReturn? && !step.SubmitUrb?
    requires !step.CancelCall? && !step.ExpireOne? && !step.Finish?
    ensures FreeBefore(w, Apply(w, step), t)
  {
  }

  lemma PhaseSame(w: World, step: Step, t: Tid)
    requires Enabled(w, step) && t in w.xfers && Subject(w, step) != Some(t) && step != SubmitReturn(t)
    ensures FreeBefore(w, Apply(w, step), t)
  {
    match step {
      case SubmitStart(_) => SubmitPhase(w, step, t);
      case SubmitInsert(_, _) => SubmitPhase(w, step, t);
      case SubmitReturn(_) => SubmitPhase(w, step, t);
      case SubmitUrb(t', accepted, killed) => OfferPhase(w, t', accepted, killed, t);
      case CancelCall(_, _) => InterruptPhase(w, step, t);
      case ExpireOne(_, _) => InterruptPhase(w, step, t);
      case Finish(killed) => FinishPhase(w, killed, t);
      case _ => EventPhase(w, step, t);
    }
  }

  lemma ActiveLess(w: World, step: Step, t: Tid)
    requires Inv(w) && Enabled(w, step) && t in w.xfers && w.xfers[t].sub.Some? && Subject(w, step) != Some(t)
    ensures forall j: nat :: Urb(w.xfers[t].sub.value.sid, j) in Apply(w, step).active ==> Urb(w.xfers[t].sub.value.sid, j) in w.active
  {
    if step.SubmitUrb? { OwnSubmissions(w, t, step.t); }
  }

  lemma {:induction false} RunQuenched(w: World, steps: seq<Step>)
    requires StatusInv(w) && (forall t :: Quenched(w, t)) && IsRun(w, steps)
    ensures forall t :: Quenched(RunFrom(w, steps), t)
    decreases |steps|
  {
    if steps != [] {
      var v := Apply(w, steps[0]);
      forall t ensures Quenched(v, t) { StepQuenched(w, steps[0], t); }
      StepStatus(w, steps[0]);
      RunQuenched(v, steps[1..]);
    }
  }

  /** In every run: once a URB came back short or failed the kernel works on no later URB of that
      submission, and once the submission was cancelled, timed out or refused in part on none. */
  lemma NoneRunsOn(w: World, steps: seq<Step>, t: Tid, j: nat)
    requires Initial(w) && IsRun(w, steps) && t in RunFrom(w, steps).xfers
    requires RunFrom(w, steps).xfers[t].sub.Some? && RunFrom(w, steps).xfers[t].phase.Free?
    ensures
      var v := RunFrom(w, steps);
      var sid := v.xfers[t].sub.value.sid;
      sid < |v.hist| && (Useless(v.hist[sid].marks, j) ==> Urb(sid, j) !in v.active)
  {
    InitialInv(w);
    assert StatusInv(w);
    RunQuenched(w, steps);
    assert Quenched(RunFrom(w, steps), t);
  }

  // ----- and nothing else is -----

  lemma MarkedUseless(marks: seq<Mark>, m: Mark, j: nat)
    requires m == CancelHit || m == ExpireHit || m == Refused || (m.Reaped? && m.index < j && Failed(m))
    ensures Useless(marks + [m], j)
  {
    assert (marks + [m])[|marks|] == m;
  }

  lemma OfferKills(w: World, t: Tid, accepted: bool, killed: map<Urb, Reply>, u: Urb)
    requires StatusInv(w) && CanSubmitUrb(w, t, accepted, killed) && u in w.active
    requires u !in SubmitUrbStep(w, t, accepted, killed).active
    ensures var v := SubmitUrbStep(w, t, accepted, killed); u.sid < |v.hist| && Useless(v.hist[u.sid].marks, u.index)
  {
    assert XferOk(w, t);
    MarkedUseless(w.hist[w.xfers[t].phase.sid].marks, Refused, u.index);
  }

  lemma InterruptKills(w: World, t: Tid, after: Submission, m: Mark, killed: map<Urb, Reply>, u: Urb)
    requires t in w.xfers && after.sid < |w.hist| && u in w.active && (m == CancelHit || m == ExpireHit)
    requires u !in Interrupted(w, t, after, m, Hits(w, after), killed).active
    ensures
      var v := Interrupted(w, t, after, m, Hits(w, after), killed);
      u.sid < |v.hist| && Useless(v.hist[u.sid].marks, u.index)
  {
    assert u in w.active * Tail(after, 0);
    MarkedUseless(w.hist[after.sid].marks, m, u.index);
  }

  lemma FinishKillsUseless(w: World, killed: map<Urb, Reply>, u: Urb)
    requires StatusInv(w) && CanAccount(w, killed) && u in w.active && u !in FinishStep(w, killed).active
    ensures var v := FinishStep(w, killed); u.sid < |v.hist| && Useless(v.hist[u.sid].marks, u.index)
  {
    assert XferOk(w, w.ev.t);
    var s := w.xfers[w.ev.t].sub.value;
    MarkedUseless(w.hist[s.sid].marks, Reaped(w.ev.urb.index, s.iso, s.lens[w.ev.urb.index], w.ev.reply), u.index);
  }

  /** The library takes from the kernel only what is useless by then. */
  lemma OnlyUselessKilled(w: World, steps: seq<Step>, step: Step, u: Urb)
    requires Initial(w) && IsRun(w, steps) && Enabled(RunFrom(w, steps), step)
    requires u in RunFrom(w, steps).active && u !in Apply(RunFrom(w, steps), step).active
    requires !step.KernelFinish? && !step.Unplug?
    ensures
      var v := Apply(RunFrom(w, steps), step);
      u.sid < |v.hist| && Useless(v.hist[u.sid].marks, u.index)
  {
    InitialInv(w);
    assert StatusInv(w);
    RunStatus(w, steps);
    var e := RunFrom(w, steps);
    match step {
      case SubmitUrb(t, accepted, killed) => OfferKills(e, t, accepted, killed, u);
      case CancelCall(t, killed) =>
        if e.xfers[t].sub.Some? {
          var s := e.xfers[t].sub.value;
          SameHits(e, s, Cancel(s, Hits(e, s)));
          InterruptKills(e, t, Cancel(s, Hits(e, s)), CancelHit, killed, u);
        }
      case ExpireOne(t, killed) =>
        var s := e.xfers[t].sub.value;
        SameHits(e, s, Expire(s, Hits(e, s)));
        InterruptKills(e, t, Expire(s, Hits(e, s)), ExpireHit, killed, u);
      case Finish(killed) => FinishKillsUseless(e, killed, u);
      case _ =>
    }
  }

  lemma SameHits(w: World, s: Submission, after: Submission)
    requires after.sid == s.sid && after.lens == s.lens
    ensures Hits(w, after) == Hits(w, s)
  {
    assert Tail(after, 0) == Tail(s, 0);
  }
}
