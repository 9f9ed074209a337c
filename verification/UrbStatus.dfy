/** Which status and length a completed submission reports, and why. */
module UrbStatus {
  import opened Wrappers
  import opened UrbModel
  import opened UrbInvariant
  import opened UrbSafety
  import opened UrbKernel

  // ----- what the kernel says, and what the code makes of it -----

  /** The status a condition deserves by itself; an unlink is the library's own doing. */
  function Deserved(c: Condition): Option<Status> {
    match c
    case Finished => Some(Completed)
    case Unlinked => None
    case Removed => Some(NoDevice)
    case Stalled => Some(Stall)
    case Babbled => Some(Overflow)
    case TooLate => Some(TimedOut)
    case Faulty => Some(Error)
  }

  /** Every code of a condition is read as the condition. */
  lemma CodeReadsBack(c: Condition, code: int)
    requires Writes(c, code)
    ensures UrbModel.UrbStatus(code) == Deserved(c)
  {
  }

  /** The bytes a URB brought back; the kernel may leave a length below zero. */
  function Brought(iso: bool, r: Reply): int {
    if iso then InPackets(r.packets) else if r.actual > 0 then r.actual else 0
  }

  lemma {:induction false} SumIsInPackets(lengths: seq<nat>)
    ensures Sum(lengths) == InPackets(lengths)
  {
    if lengths != [] {
      var init := lengths[..|lengths| - 1];
      SumIsInPackets(init);
      InPacketsLast(init, lengths[|lengths| - 1]);
      assert init + [lengths[|lengths| - 1]] == lengths;
    }
  }

  lemma MovedIsBrought(iso: bool, r: Reply)
    ensures Moved(iso, r) == Brought(iso, r)
  {
    SumIsInPackets(r.packets);
  }

  /** The URB did not finish, or brought back less than it has room for. */
  predicate Failed(m: Mark)
    requires m.Reaped?
  {
    !Writes(Finished, m.reply.status) || (!m.iso && m.len > m.reply.actual)
  }

  // ----- reference definitions over what happened to a submission -----

  function Total(marks: seq<Mark>): nat {
    if marks == [] then 0
    else
      var m := marks[|marks| - 1];
      Total(marks[..|marks| - 1]) + if m.Reaped? then Brought(m.iso, m.reply) else 0
  }

  /** A URB before `index` came back short or failed. */
  predicate BrokeBefore(marks: seq<Mark>, index: nat) {
    exists k: nat :: k < |marks| && marks[k].Reaped? && marks[k].index < index && Failed(marks[k])
  }

  /** Mark `p` is a failure the device caused: not an unlink, and not of a URB that only
      continues one that came back short or failed earlier. */
  predicate Genuine(marks: seq<Mark>, p: nat) {
    && p < |marks| && marks[p].Reaped?
    && !Writes(Finished, marks[p].reply.status) && !Writes(Unlinked, marks[p].reply.status)
    && !BrokeBefore(marks[..p], marks[p].index)
  }

  /** What caused the first genuine failure. */
  function FirstGenuine(marks: seq<Mark>): (r: Option<Condition>) {
    if marks == [] then None
    else
      var init := marks[..|marks| - 1];
      if FirstGenuine(init).Some? then FirstGenuine(init)
      else if Genuine(marks, |marks| - 1) then Some(Meant(marks[|marks| - 1].reply.status))
      else None
  }

  /** The status a submission deserves. */
  function Verdict(marks: seq<Mark>): Status {
    if ExpireHit in marks then TimedOut
    else if CancelHit in marks then Cancelled
    else if Refused in marks then Error
    else Deserved(FirstGenuine(marks).GetOr(Finished)).GetOr(Completed)
  }

  /** `FirstGenuine` is the condition of the earliest genuine failure, if there is one. */
  lemma {:induction false} FirstGenuineIsFirst(marks: seq<Mark>)
    ensures FirstGenuine(marks).None? <==> forall p: nat :: !Genuine(marks, p)
    ensures FirstGenuine(marks).Some? ==>
      exists p: nat :: Genuine(marks, p) && Writes(FirstGenuine(marks).value, marks[p].reply.status)
                       && forall q: nat :: q < p ==> !Genuine(marks, q)
  {
    if marks != [] {
      var n := |marks| - 1;
      var init := marks[..n];
      FirstGenuineIsFirst(init);
      forall q: nat | q < n ensures Genuine(marks, q) <==> Genuine(init, q) {
        assert marks[..q] == init[..q];
      }
    }
  }

  // ----- the counters of a live submission agree with its history -----

  predicate Agrees(s: Submission, marks: seq<Mark>) {
    && s.actual == Total(marks)
    && (s.timedOut <==> ExpireHit in marks)
    && (s.cancelled <==> CancelHit in marks)
    && (forall j: nat :: j < |s.lens| ==> (s.discardedFrom <= j <==> BrokeBefore(marks, j)))
    && (!s.timedOut && !s.cancelled ==>
          s.status == if Refused in marks then Some(Error)
                      else if FirstGenuine(marks).Some? then Deserved(FirstGenuine(marks).value) else None)
    && FirstGenuine(marks) != Some(Finished) && FirstGenuine(marks) != Some(Unlinked)
  }

  lemma BrokeBeforeLast(marks: seq<Mark>, m: Mark, j: nat)
    ensures BrokeBefore(marks + [m], j) <==>
      BrokeBefore(marks, j) || (m.Reaped? && m.index < j && Failed(m))
  {
    var all := marks + [m];
    assert all[|marks|] == m;
    forall k: nat | k < |marks| ensures all[k] == marks[k] {}
  }

  lemma AccountAgrees(s: Submission, marks: seq<Mark>, i: nat, r: Reply)
    requires Agrees(s, marks) && i < |s.lens|
    ensures Agrees(Account(s, i, r), marks + [Reaped(i, s.iso, s.lens[i], r)])
  {
    var m := Reaped(i, s.iso, s.lens[i], r);
    var all := marks + [m];
    assert all[..|marks|] == marks;
    MovedIsBrought(s.iso, r);
    CodeReadsBack(Meant(r.status), r.status);
    forall j: nat | j < |s.lens| ensures Account(s, i, r).discardedFrom <= j <==> BrokeBefore(all, j) {
      BrokeBeforeLast(marks, m, j);
    }
  }

  lemma HitAgrees(s: Submission, marks: seq<Mark>, m: Mark, after: Submission)
    requires Agrees(s, marks)
    requires (m == CancelHit && after == Cancel(s, true)) || (m == ExpireHit && after == Expire(s, true))
    ensures Agrees(after, marks + [m])
  {
    var all := marks + [m];
    assert all[..|marks|] == marks;
    forall j: nat | j < |s.lens| ensures after.discardedFrom <= j <==> BrokeBefore(all, j) {
      BrokeBeforeLast(marks, m, j);
    }
  }

  /** What the history of a submission says about what was, or will be, published for it. */
  predicate Explains(h: History) {
    forall o :: o in h.calls ==> Justified(o, h.marks)
  }

  /** A drained submission reports `NoDevice`; any other what its marks deserve. */
  predicate Justified(o: Outcome, marks: seq<Mark>) {
    o.actual == Total(marks) && o.status == if o.drained then NoDevice else Verdict(marks)
  }

  predicate LiveAgrees(w: World, t: Tid) {
    t in w.xfers && w.xfers[t].sub.Some? ==>
      var s := w.xfers[t].sub.value;
      s.sid < |w.hist| && Agrees(s, w.hist[s.sid].marks)
      && (w.xfers[t].phase.Submitting? ==> w.hist[s.sid].marks == [] && s.discardedFrom == USIZE_MAX && !s.cancelled && !s.timedOut)
  }

  ghost predicate StatusInv(w: World) {
    && Inv(w)
    && (forall t {:trigger LiveAgrees(w, t)} :: LiveAgrees(w, t))
    && (forall sid: nat {:trigger Explains(w.hist[sid])} :: sid < |w.hist| ==> Explains(w.hist[sid]))
    && OutcomeOk(w)
  }

  /** The transfer a step works on, if it touches a submission. */
  function Subject(w: World, step: Step): Option<Tid> {
    match step
    case SubmitInsert(t, _) => Some(t)
    case SubmitUrb(t, _, _) => Some(t)
    case CancelCall(t, _) => Some(t)
    case ExpireOne(t, _) => Some(t)
    case Finish(_) => if w.ev.Finishing? then Some(w.ev.t) else None
    case Drain(t) => Some(t)
    case _ => None
  }

  predicate SubjectOk(w: World, step: Step) {
    Subject(w, step).Some? ==> XferOk(w, Subject(w, step).value)
  }

  predicate OutcomeOk(w: World) {
    w.ev.Completing? ==> w.ev.sid < |w.hist| && Justified(w.ev.outcome, w.hist[w.ev.sid].marks)
  }

  /** Transfer `t` and the marks of its submission are the same in `v` as in `w`. */
  predicate SameFor(w: World, v: World, t: Tid) {
    && v.xfers.Keys == w.xfers.Keys
    && (t in w.xfers ==>
          && v.xfers[t].sub == w.xfers[t].sub
          && (v.xfers[t].phase.Submitting? ==> w.xfers[t].phase.Submitting?)
          && (w.xfers[t].sub.Some? && w.xfers[t].sub.value.sid < |w.hist| ==>
                var sid := w.xfers[t].sub.value.sid;
                sid < |v.hist| && v.hist[sid].marks == w.hist[sid].marks))
  }

  predicate AtHome(w: World, t: Tid) {
    t in w.xfers && w.xfers[t].sub.Some? ==>
      w.xfers[t].sub.value.sid < |w.hist| && w.hist[w.xfers[t].sub.value.sid].home == t
      && (w.xfers[t].phase.Submitting? ==> w.xfers[t].phase.sid == w.xfers[t].sub.value.sid)
  }

  lemma SubmitOthers(w: World, step: Step, t: Tid)
    requires Enabled(w, step) && step.SubmitUrb? && step.t != t && AtHome(w, step.t) && AtHome(w, t)
    ensures SameFor(w, Apply(w, step), t)
  {
  }

  lemma InsertOthers(w: World, t0: Tid, plan: Option<Plan>, t: Tid)
    requires CanInsert(w, t0, plan) && t0 != t && AtHome(w, t) && w.hist[w.xfers[t0].phase.sid].home == t0
    ensures SameFor(w, SubmitInsertStep(w, t0, plan), t)
  {
  }

  lemma InterruptOthers(w: World, t0: Tid, after: Submission, m: Mark, hit: bool, killed: map<Urb, Reply>, t: Tid)
    requires t0 in w.xfers && after.sid < |w.hist| && w.hist[after.sid].home == t0 && t0 != t && AtHome(w, t)
    ensures SameFor(w, Interrupted(w, t0, after, m, hit, killed), t)
  {
  }

  lemma FinishOthers(w: World, killed: map<Urb, Reply>, t: Tid)
    requires CanAccount(w, killed) && w.ev.t != t && AtHome(w, w.ev.t) && AtHome(w, t)
    ensures SameFor(w, FinishStep(w, killed), t)
  {
  }

  lemma IdleOthers(w: World, step: Step, t: Tid)
    requires Enabled(w, step) && Subject(w, step).None?
    ensures SameFor(w, Apply(w, step), t)
  {
  }

  lemma OthersSame(w: World, step: Step, t: Tid)
    requires Enabled(w, step) && EventsOk(w) && SubjectOk(w, step) && Subject(w, step) != Some(t) && XferOk(w, t)
    ensures SameFor(w, Apply(w, step), t)
  {
    assert AtHome(w, t);
    if Subject(w, step).None? { IdleOthers(w, step, t); }
    else {
      assert AtHome(w, Subject(w, step).value);
      match step {
        case SubmitInsert(t0, plan) => InsertOthers(w, t0, plan, t);
        case SubmitUrb(_, _, _) => SubmitOthers(w, step, t);
        case CancelCall(t0, killed) =>
          if w.xfers[t0].sub.Some? {
            var s := w.xfers[t0].sub.value;
            InterruptOthers(w, t0, Cancel(s, Hits(w, s)), CancelHit, Hits(w, s), killed, t);
          }
        case ExpireOne(t0, killed) =>
          var s := w.xfers[t0].sub.value;
          InterruptOthers(w, t0, Expire(s, Hits(w, s)), ExpireHit, Hits(w, s), killed, t);
        case Finish(killed) => FinishOthers(w, killed, t);
        case Drain(_) =>
      }
    }
  }

  lemma CancelAgrees(w: World, t: Tid, killed: map<Urb, Reply>)
    requires CanCancel(w, t, killed) && XferOk(w, t) && LiveAgrees(w, t)
    ensures LiveAgrees(CancelStep(w, t, killed), t)
  {
    var x := w.xfers[t];
    if x.sub.Some? && Hits(w, x.sub.value) {
      HitAgrees(x.sub.value, w.hist[x.sub.value.sid].marks, CancelHit, Cancel(x.sub.value, true));
    }
  }

  lemma ExpireAgrees(w: World, t: Tid, killed: map<Urb, Reply>)
    requires CanExpire(w, t, killed) && XferOk(w, t) && LiveAgrees(w, t)
    ensures LiveAgrees(ExpireStep(w, t, killed), t)
  {
    var s := w.xfers[t].sub.value;
    if Hits(w, s) {
      HitAgrees(s, w.hist[s.sid].marks, ExpireHit, Expire(s, true));
    }
  }

  lemma FinishAgrees(w: World, killed: map<Urb, Reply>)
    requires CanAccount(w, killed) && EventsOk(w) && XferOk(w, w.ev.t) && LiveAgrees(w, w.ev.t)
    ensures LiveAgrees(FinishStep(w, killed), w.ev.t)
    ensures OutcomeOk(FinishStep(w, killed))
  {
    var s := w.xfers[w.ev.t].sub.value;
    AccountAgrees(s, w.hist[s.sid].marks, w.ev.urb.index, w.ev.reply);
  }

  lemma InsertAgrees(w: World, t: Tid, plan: Option<Plan>)
    requires CanInsert(w, t, plan) && XferOk(w, t) && LiveAgrees(w, t)
    ensures LiveAgrees(SubmitInsertStep(w, t, plan), t)
  {
  }

  lemma FirstRefusedAgrees(w: World, t: Tid)
    requires InSubmit(w, t)
    ensures LiveAgrees(FirstRefused(w, t), t)
  {
  }

  lemma PartialAgrees(s: Submission, i: nat)
    requires 0 < i < |s.lens| < USIZE_MAX && Agrees(s, []) && !s.cancelled && !s.timedOut
    ensures Agrees(Partial(s, i), [Refused])
  {
    assert [Refused][..0] == [];
  }

  lemma LaterRefusedAgrees(w: World, t: Tid, killed: map<Urb, Reply>)
    requires CanSubmitUrb(w, t, false, killed) && XferOk(w, t) && LiveAgrees(w, t) && w.xfers[t].phase.next > 0
    ensures LiveAgrees(LaterRefused(w, t, killed), t)
  {
    var s := w.xfers[t].sub.value;
    PartialAgrees(s, w.xfers[t].phase.next);
    assert w.hist[s.sid].marks + [Refused] == [Refused];
  }

  lemma SubmitAgrees(w: World, step: Step, t: Tid)
    requires Enabled(w, step) && XferOk(w, t) && LiveAgrees(w, t)
    requires Subject(w, step) == Some(t) && (step.SubmitInsert? || step.SubmitUrb? || step.Drain?)
    ensures LiveAgrees(Apply(w, step), t)
  {
    if step.SubmitInsert? { InsertAgrees(w, t, step.plan); }
    if step.SubmitUrb? && !step.accepted {
      if w.xfers[t].phase.next == 0 { FirstRefusedAgrees(w, t); } else { LaterRefusedAgrees(w, t, step.killed); }
    }
  }

  /** Only a publication adds a call, and marks are added only while none was made. */
  predicate Grows(w: World, v: World, sid: nat)
    requires sid < |w.hist|
  {
    && sid < |v.hist|
    && (v.hist[sid].calls == w.hist[sid].calls
        || (w.ev.Completing? && w.ev.sid == sid && v.hist[sid].calls == w.hist[sid].calls + [w.ev.outcome]
            && v.hist[sid].marks == w.hist[sid].marks))
    && (v.hist[sid].marks == w.hist[sid].marks || w.hist[sid].calls == [])
  }

  lemma SubmitGrows(w: World, step: Step, sid: nat)
    requires Enabled(w, step) && SubjectOk(w, step) && sid < |w.hist|
    requires step.SubmitStart? || step.SubmitInsert? || step.SubmitUrb? || step.SubmitReturn?
    ensures Grows(w, Apply(w, step), sid)
  {
  }

  lemma InterruptGrows(w: World, t: Tid, after: Submission, m: Mark, hit: bool, killed: map<Urb, Reply>, sid: nat)
    requires t in w.xfers && after.sid < |w.hist| && w.hist[after.sid].calls == [] && sid < |w.hist|
    ensures Grows(w, Interrupted(w, t, after, m, hit, killed), sid)
  {
  }

  lemma FinishGrows(w: World, killed: map<Urb, Reply>, sid: nat)
    requires CanAccount(w, killed) && SubjectOk(w, Finish(killed)) && sid < |w.hist|
    ensures Grows(w, FinishStep(w, killed), sid)
  {
  }

  lemma EventGrows(w: World, step: Step, sid: nat)
    requires Enabled(w, step) && SubjectOk(w, step) && sid < |w.hist|
    requires !step.SubmitStart? && !step.SubmitInsert? && !step.SubmitUrb? && !step.SubmitReturn?
    requires !step.CancelCall? && !step.ExpireOne?
    ensures Grows(w, Apply(w, step), sid)
  {
    if step.Finish? { FinishGrows(w, step.killed, sid); }
  }

  lemma OldExplains(w: World, step: Step, sid: nat)
    requires Enabled(w, step) && SubjectOk(w, step) && OutcomeOk(w)
    requires sid < |w.hist| && Explains(w.hist[sid])
    ensures sid < |Apply(w, step).hist| && Explains(Apply(w, step).hist[sid])
  {
    match step {
      case CancelCall(t, killed) =>
        if w.xfers[t].sub.Some? {
          var s := w.xfers[t].sub.value;
          InterruptGrows(w, t, Cancel(s, Hits(w, s)), CancelHit, Hits(w, s), killed, sid);
        }
      case ExpireOne(t, killed) =>
        var s := w.xfers[t].sub.value;
        InterruptGrows(w, t, Expire(s, Hits(w, s)), ExpireHit, Hits(w, s), killed, sid);
      case SubmitStart(_) => SubmitGrows(w, step, sid);
      case SubmitInsert(_, _) => SubmitGrows(w, step, sid);
      case SubmitUrb(_, _, _) => SubmitGrows(w, step, sid);
      case SubmitReturn(_) => SubmitGrows(w, step, sid);
      case _ => EventGrows(w, step, sid);
    }
  }

  lemma FinishNotNew(w: World, killed: map<Urb, Reply>)
    requires CanAccount(w, killed)
    ensures |FinishStep(w, killed).hist| == |w.hist|
  {
  }

  lemma SubmitNotNew(w: World, step: Step)
    requires Enabled(w, step) && (step.SubmitInsert? || step.SubmitUrb? || step.SubmitReturn?)
    ensures |Apply(w, step).hist| == |w.hist|
  {
  }

  lemma OnlyStartsAreNew(w: World, step: Step)
    requires Enabled(w, step) && !step.SubmitStart?
    ensures |Apply(w, step).hist| == |w.hist|
  {
    if step.Finish? { FinishNotNew(w, step.killed); }
    else if step.SubmitInsert? || step.SubmitUrb? || step.SubmitReturn? { SubmitNotNew(w, step); }
  }

  lemma NewExplains(w: World, step: Step, sid: nat)
    requires Enabled(w, step) && |w.hist| <= sid < |Apply(w, step).hist|
    ensures Explains(Apply(w, step).hist[sid])
  {
    if !step.SubmitStart? { OnlyStartsAreNew(w, step); }
  }

  lemma DrainOutcome(w: World, t: Tid)
    requires CanDrain(w, t) && LiveAgrees(w, t)
    ensures OutcomeOk(DrainStep(w, t))
  {
  }

  lemma InterruptOutcome(w: World, t: Tid, after: Submission, m: Mark, hit: bool, killed: map<Urb, Reply>)
    requires t in w.xfers && after.sid < |w.hist| && OutcomeOk(w) && EventsOk(w)
    requires w.hist[after.sid].home == t && w.xfers[t].sub.Some?
    ensures OutcomeOk(Interrupted(w, t, after, m, hit, killed))
  {
  }

  lemma SubmitOutcome(w: World, step: Step)
    requires Enabled(w, step) && EventsOk(w) && SubjectOk(w, step) && OutcomeOk(w)
    requires step.SubmitStart? || step.SubmitInsert? || step.SubmitUrb? || step.SubmitReturn?
    ensures OutcomeOk(Apply(w, step))
  {
  }

  lemma StepOutcome(w: World, step: Step)
    requires Enabled(w, step) && EventsOk(w) && SubjectOk(w, step) && OutcomeOk(w) && !step.Finish?
    requires Subject(w, step).Some? ==> LiveAgrees(w, Subject(w, step).value)
    ensures OutcomeOk(Apply(w, step))
  {
    match step {
      case CancelCall(t, killed) =>
        if w.xfers[t].sub.Some? {
          var s := w.xfers[t].sub.value;
          InterruptOutcome(w, t, Cancel(s, Hits(w, s)), CancelHit, Hits(w, s), killed);
        }
      case ExpireOne(t, killed) =>
        var s := w.xfers[t].sub.value;
        InterruptOutcome(w, t, Expire(s, Hits(w, s)), ExpireHit, Hits(w, s), killed);
      case SubmitStart(_) => SubmitOutcome(w, step);
      case SubmitInsert(_, _) => SubmitOutcome(w, step);
      case SubmitUrb(_, _, _) => SubmitOutcome(w, step);
      case SubmitReturn(_) => SubmitOutcome(w, step);
      case Drain(t) => DrainOutcome(w, t);
      case _ =>
    }
  }

  lemma StepLive(w: World, step: Step, t: Tid)
    requires StatusInv(w) && Enabled(w, step)
    ensures LiveAgrees(Apply(w, step), t)
  {
    if Subject(w, step).Some? { assert XferOk(w, Subject(w, step).value); }
    assert XferOk(w, t) && LiveAgrees(w, t);
    if Subject(w, step) != Some(t) { OthersSame(w, step, t); }
    else if step.CancelCall? { CancelAgrees(w, t, step.killed); }
    else if step.ExpireOne? { ExpireAgrees(w, t, step.killed); }
    else if step.Finish? { FinishAgrees(w, step.killed); }
    else { SubmitAgrees(w, step, t); }
  }

  lemma StepStatus(w: World, step: Step)
    requires StatusInv(w) && Enabled(w, step)
    ensures StatusInv(Apply(w, step))
  {
    var v := Apply(w, step);
    StepInv(w, step);
    if Subject(w, step).Some? {
      assert XferOk(w, Subject(w, step).value) && LiveAgrees(w, Subject(w, step).value);
    }
    forall t: Tid ensures LiveAgrees(v, t) { StepLive(w, step, t); }
    forall sid: nat | sid < |v.hist| ensures Explains(v.hist[sid]) {
      if sid < |w.hist| { OldExplains(w, step, sid); } else { NewExplains(w, step, sid); }
    }
    if step.Finish? { FinishAgrees(w, step.killed); } else { StepOutcome(w, step); }
  }

  lemma {:induction false} RunStatus(w: World, steps: seq<Step>)
    requires StatusInv(w) && IsRun(w, steps)
    ensures StatusInv(RunFrom(w, steps))
    decreases |steps|
  {
    if steps != [] {
      StepStatus(w, steps[0]);
      RunStatus(Apply(w, steps[0]), steps[1..]);
    }
  }

  /** Status attribution.  Every published outcome carries the bytes of all URBs that came back,
      and its status is `NoDevice` if a disconnect drained it and the verdict of its history
      otherwise: the library's own discards never decide it. */
  lemma StatusAttribution(w: World, steps: seq<Step>, sid: nat, o: Outcome)
    requires Initial(w) && IsRun(w, steps) && sid < |RunFrom(w, steps).hist|
    requires o in RunFrom(w, steps).hist[sid].calls
    ensures
      var marks := RunFrom(w, steps).hist[sid].marks;
      && o.actual == Total(marks)
      && o.status == (if o.drained then NoDevice else Verdict(marks))
      && (!o.drained && o.status == Cancelled ==> CancelHit in marks && ExpireHit !in marks)
  {
    InitialInv(w);
    assert StatusInv(w);
    RunStatus(w, steps);
    var h := RunFrom(w, steps).hist[sid];
    assert Explains(h);
    FirstGenuineIsFirst(h.marks);
  }

  /** So the first failure that the library did not cause itself decides, by what caused it. */
  lemma FirstFailureDecides(w: World, steps: seq<Step>, sid: nat, o: Outcome, p: nat, c: Condition)
    requires Initial(w) && IsRun(w, steps) && sid < |RunFrom(w, steps).hist|
    requires o in RunFrom(w, steps).hist[sid].calls && !o.drained
    requires
      var marks := RunFrom(w, steps).hist[sid].marks;
      && ExpireHit !in marks && CancelHit !in marks && Refused !in marks
      && Genuine(marks, p) && Writes(c, marks[p].reply.status) && forall q: nat :: q < p ==> !Genuine(marks, q)
    ensures o.status == match c
      case Stalled => Stall
      case Babbled => Overflow
      case Removed => NoDevice
      case TooLate => TimedOut
      case _ => Error
  {
    StatusAttribution(w, steps, sid, o);
    FirstGenuineIsFirst(RunFrom(w, steps).hist[sid].marks);
  }

  /** And without one the submission has completed. */
  lemma NoFailureCompletes(w: World, steps: seq<Step>, sid: nat, o: Outcome)
    requires Initial(w) && IsRun(w, steps) && sid < |RunFrom(w, steps).hist|
    requires o in RunFrom(w, steps).hist[sid].calls && !o.drained
    requires
      var marks := RunFrom(w, steps).hist[sid].marks;
      && ExpireHit !in marks && CancelHit !in marks && Refused !in marks && forall p: nat :: !Genuine(marks, p)
    ensures o.status == Completed
  {
    StatusAttribution(w, steps, sid, o);
    FirstGenuineIsFirst(RunFrom(w, steps).hist[sid].marks);
  }
}
