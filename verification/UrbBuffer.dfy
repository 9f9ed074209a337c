/** What the length a submission reports says about the buffer. */
module UrbBuffer {
  import opened Wrappers
  import opened UrbModel
  import opened UrbInvariant
  import opened UrbSafety
  import UrbStatus
  import opened UrbSplit

  // ----- no URB is accounted for twice -----

  predicate MarksOnce(h: History) {
    && (forall k: nat :: k < |h.marks| && h.marks[k].Reaped? ==> h.marks[k].index in h.back)
    && (forall j: nat, k: nat :: j < k < |h.marks| && h.marks[j].Reaped? && h.marks[k].Reaped? ==>
          h.marks[j].index != h.marks[k].index)
  }

  /** One step adds at most one mark, and a URB's only if it was not back yet. */
  predicate OneMark(a: History, b: History) {
    || (b.marks == a.marks && b.back == a.back)
    || (b.marks != [] && b.marks == a.marks + [b.marks[|b.marks| - 1]]
        && var m := b.marks[|b.marks| - 1];
           if m.Reaped? then m.index !in a.back && b.back == a.back + {m.index} else b.back == a.back)
  }

  predicate Advances(w: World, v: World, sid: nat) {
    sid < |w.hist| && sid < |v.hist| && OneMark(w.hist[sid], v.hist[sid])
  }

  predicate SameBack(w: World, v: World, sid: nat) {
    sid < |w.hist| && sid < |v.hist| && v.hist[sid].back == w.hist[sid].back
  }

  lemma StartAdvances(w: World, t: Tid, sid: nat)
    requires t in w.xfers && sid < |w.hist|
    ensures Advances(w, SubmitStartStep(w, t), sid) && SameBack(w, SubmitStartStep(w, t), sid)
  {
  }

  lemma InsertAdvances(w: World, t: Tid, plan: Option<Plan>, sid: nat)
    requires CanInsert(w, t, plan) && sid < |w.hist|
    ensures Advances(w, SubmitInsertStep(w, t, plan), sid) && SameBack(w, SubmitInsertStep(w, t, plan), sid)
  {
  }

  lemma OfferAdvances(w: World, t: Tid, accepted: bool, killed: map<Urb, Reply>, sid: nat)
    requires InSubmit(w, t) && sid < |w.hist|
    ensures Advances(w, SubmitUrbStep(w, t, accepted, killed), sid) && SameBack(w, SubmitUrbStep(w, t, accepted, killed), sid)
  {
    if !accepted && w.xfers[t].phase.next != 0 {
      assert LaterRefused(w, t, killed).hist[sid].back == w.hist[sid].back;
    }
  }

  lemma InterruptAdvances(w: World, t: Tid, after: Submission, m: Mark, hit: bool, killed: map<Urb, Reply>, sid: nat)
    requires t in w.xfers && after.sid < |w.hist| && sid < |w.hist| && !m.Reaped?
    ensures Advances(w, Interrupted(w, t, after, m, hit, killed), sid) && SameBack(w, Interrupted(w, t, after, m, hit, killed), sid)
  {
  }

  lemma FinishAdvances(w: World, killed: map<Urb, Reply>, sid: nat)
    requires CanAccount(w, killed) && EventsOk(w) && sid < |w.hist|
    ensures Advances(w, FinishStep(w, killed), sid)
  {
  }

  lemma EventAdvances(w: World, step: Step, sid: nat)
    requires Enabled(w, step) && EventsOk(w) && UrbStatus.SubjectOk(w, step) && sid < |w.hist|
    requires !step.SubmitStart? && !step.SubmitInsert? && !step.SubmitUrb?
    requires !step.CancelCall? && !step.ExpireOne?
    ensures Advances(w, Apply(w, step), sid) && (!step.Finish? ==> SameBack(w, Apply(w, step), sid))
  {
    if step.Finish? { FinishAdvances(w, step.killed, sid); }
  }

  lemma StepAdvances(w: World, step: Step, sid: nat)
    requires Enabled(w, step) && EventsOk(w) && UrbStatus.SubjectOk(w, step) && sid < |w.hist|
    ensures Advances(w, Apply(w, step), sid) && (!step.Finish? ==> SameBack(w, Apply(w, step), sid))
  {
    match step {
      case CancelCall(t, killed) =>
        if w.xfers[t].sub.Some? {
          var s := w.xfers[t].sub.value;
          InterruptAdvances(w, t, Cancel(s, Hits(w, s)), CancelHit, Hits(w, s), killed, sid);
        }
      case ExpireOne(t, killed) =>
        var s := w.xfers[t].sub.value;
        InterruptAdvances(w, t, Expire(s, Hits(w, s)), ExpireHit, Hits(w, s), killed, sid);
      case SubmitStart(t) => StartAdvances(w, t, sid);
      case SubmitInsert(t, plan) => InsertAdvances(w, t, plan, sid);
      case SubmitUrb(t, accepted, killed) => OfferAdvances(w, t, accepted, killed, sid);
      case _ => EventAdvances(w, step, sid);
    }
  }

  lemma NewIsEmpty(w: World, step: Step, sid: nat)
    requires Enabled(w, step) && |w.hist| <= sid < |Apply(w, step).hist|
    ensures Apply(w, step).hist[sid].marks == []
  {
    if !step.SubmitStart? { UrbStatus.OnlyStartsAreNew(w, step); }
  }

  ghost predicate AllOnce(w: World) {
    forall sid: nat {:trigger w.hist[sid]} :: sid < |w.hist| ==> MarksOnce(w.hist[sid])
  }

  lemma OneMarkOnce(a: History, b: History)
    requires MarksOnce(a) && OneMark(a, b)
    ensures MarksOnce(b)
  {
  }

  lemma StepOnce(w: World, step: Step, sid: nat)
    requires Inv(w) && AllOnce(w) && Enabled(w, step) && sid < |Apply(w, step).hist|
    ensures MarksOnce(Apply(w, step).hist[sid])
  {
    if sid < |w.hist| {
      if UrbStatus.Subject(w, step).Some? { assert XferOk(w, UrbStatus.Subject(w, step).value); }
      StepAdvances(w, step, sid);
      OneMarkOnce(w.hist[sid], Apply(w, step).hist[sid]);
    } else {
      NewIsEmpty(w, step, sid);
    }
  }

  lemma {:induction false} RunOnce(w: World, steps: seq<Step>)
    requires Inv(w) && AllOnce(w) && IsRun(w, steps)
    ensures AllOnce(RunFrom(w, steps))
    decreases |steps|
  {
    if steps != [] {
      var v := Apply(w, steps[0]);
      forall sid: nat | sid < |v.hist| ensures MarksOnce(v.hist[sid]) { StepOnce(w, steps[0], sid); }
      StepInv(w, steps[0]);
      RunOnce(v, steps[1..]);
    }
  }

  // ----- the URBs are those that were planned -----

  /** What `build` decided for submission `sid` in a run. */
  function PlanOf(w: World, steps: seq<Step>, sid: nat): Option<Plan>
    requires IsRun(w, steps)
    decreases |steps|
  {
    if steps == [] then None
    else if Plans(w, steps[0], sid) then steps[0].plan
    else PlanOf(Apply(w, steps[0]), steps[1..], sid)
  }

  /** This step enters the URBs of submission `sid`. */
  predicate Plans(w: World, step: Step, sid: nat) {
    step.SubmitInsert? && step.plan.Some? && step.t in w.xfers && w.xfers[step.t].phase == Starting(sid) && w.xfers[step.t].sub.None?
  }

  predicate MarksFrom(h: History, p: Plan) {
    forall k: nat :: k < |h.marks| && h.marks[k].Reaped? ==>
      h.marks[k].index < |p.lens| && h.marks[k].len == p.lens[h.marks[k].index] && h.marks[k].iso == p.iso
  }

  /** `t` is not about to submit under this number; if it has, then URBs of the plan, all or the first. */
  predicate XferFrom(w: World, t: Tid, sid: nat, p: Plan) {
    t in w.xfers ==>
      && w.xfers[t].phase != Starting(sid)
      && (Owns(w.xfers[t], sid) ==> w.xfers[t].sub.value.lens <= p.lens && w.xfers[t].sub.value.iso == p.iso)
  }

  ghost predicate FromPlan(w: World, sid: nat, p: Plan) {
    && sid < |w.hist| && MarksFrom(w.hist[sid], p)
    && forall t {:trigger XferFrom(w, t, sid, p)} :: XferFrom(w, t, sid, p)
  }

  lemma PlanStarts(w: World, step: Step, sid: nat)
    requires Inv(w) && Enabled(w, step) && Plans(w, step, sid)
    ensures FromPlan(Apply(w, step), sid, step.plan.value)
  {
    assert XferOk(w, step.t);
    forall t ensures XferFrom(Apply(w, step), t, sid, step.plan.value) { assert XferOk(w, t); }
  }

  lemma StartXferFrom(w: World, t': Tid, t: Tid, sid: nat, p: Plan)
    requires t' in w.xfers && sid < |w.hist| && XferFrom(w, t, sid, p)
    ensures XferFrom(SubmitStartStep(w, t'), t, sid, p)
  {
  }

  lemma InsertXferFrom(w: World, t': Tid, plan: Option<Plan>, t: Tid, sid: nat, p: Plan)
    requires CanInsert(w, t', plan) && XferFrom(w, t, sid, p) && XferFrom(w, t', sid, p)
    ensures XferFrom(SubmitInsertStep(w, t', plan), t, sid, p)
  {
  }

  /** One transfer changed, and its submission, if it is left, lost at most its last URBs. */
  lemma ChangedXferFrom(w: World, v: World, t': Tid, x: Xfer, t: Tid, sid: nat, p: Plan)
    requires t' in w.xfers && v.xfers == w.xfers[t' := x] && XferFrom(w, t, sid, p)
    requires x.phase.Starting? ==> x.phase == w.xfers[t'].phase
    requires x.sub.Some? ==>
      && w.xfers[t'].sub.Some? && x.sub.value.sid == w.xfers[t'].sub.value.sid
      && x.sub.value.lens <= w.xfers[t'].sub.value.lens && x.sub.value.iso == w.xfers[t'].sub.value.iso
    ensures XferFrom(v, t, sid, p)
  {
  }

  lemma OfferXferFrom(w: World, t': Tid, accepted: bool, killed: map<Urb, Reply>, t: Tid, sid: nat, p: Plan)
    requires InSubmit(w, t') && XferFrom(w, t, sid, p)
    ensures XferFrom(SubmitUrbStep(w, t', accepted, killed), t, sid, p)
  {
    var v := SubmitUrbStep(w, t', accepted, killed);
    assert v.xfers == w.xfers[t' := v.xfers[t']];
    ChangedXferFrom(w, v, t', v.xfers[t'], t, sid, p);
  }

  lemma FinishXferFrom(w: World, killed: map<Urb, Reply>, t: Tid, sid: nat, p: Plan)
    requires CanAccount(w, killed) && XferFrom(w, t, sid, p)
    ensures XferFrom(FinishStep(w, killed), t, sid, p)
  {
    var v, t' := FinishStep(w, killed), w.ev.t;
    assert v.xfers == w.xfers[t' := v.xfers[t']];
    if w.xfers[t'].sub.Some? { ChangedXferFrom(w, v, t', v.xfers[t'], t, sid, p); }
  }

  lemma InterruptXferFrom(w: World, t': Tid, after: Submission, m: Mark, hit: bool, killed: map<Urb, Reply>, t: Tid, sid: nat, p: Plan)
    requires t' in w.xfers && w.xfers[t'].sub.Some? && after.sid < |w.hist| && XferFrom(w, t, sid, p)
    requires var s := w.xfers[t'].sub.value; after.sid == s.sid && after.lens == s.lens && after.iso == s.iso
    ensures XferFrom(Interrupted(w, t', after, m, hit, killed), t, sid, p)
  {
  }

  lemma EventXfer(w: World, step: Step, t: Tid, sid: nat, p: Plan)
    requires Enabled(w, step) && XferFrom(w, t, sid, p)
    requires !step.SubmitStart? && !step.SubmitInsert? && !step.SubmitUrb?
    requires !step.CancelCall? && !step.ExpireOne? && !step.Finish?
    ensures XferFrom(Apply(w, step), t, sid, p)
  {
  }

  lemma XferKept(w: World, step: Step, t: Tid, sid: nat, p: Plan)
    requires Enabled(w, step) && FromPlan(w, sid, p)
    ensures XferFrom(Apply(w, step), t, sid, p)
  {
    assert XferFrom(w, t, sid, p);
    match step {
      case CancelCall(t', killed) =>
        if w.xfers[t'].sub.Some? {
          var s := w.xfers[t'].sub.value;
          InterruptXferFrom(w, t', Cancel(s, Hits(w, s)), CancelHit, Hits(w, s), killed, t, sid, p);
        }
      case ExpireOne(t', killed) =>
        var s := w.xfers[t'].sub.value;
        InterruptXferFrom(w, t', Expire(s, Hits(w, s)), ExpireHit, Hits(w, s), killed, t, sid, p);
      case SubmitStart(t') => StartXferFrom(w, t', t, sid, p);
      case SubmitInsert(t', plan) =>
        assert XferFrom(w, t', sid, p);
        InsertXferFrom(w, t', plan, t, sid, p);
      case SubmitUrb(t', accepted, killed) => OfferXferFrom(w, t', accepted, killed, t, sid, p);
      case Finish(killed) => FinishXferFrom(w, killed, t, sid, p);
      case _ => EventXfer(w, step, t, sid, p);
    }
  }

  lemma FinishMarks(w: World, killed: map<Urb, Reply>, sid: nat, p: Plan)
    requires CanAccount(w, killed) && sid < |w.hist| && MarksFrom(w.hist[sid], p) && XferFrom(w, w.ev.t, sid, p)
    ensures sid < |FinishStep(w, killed).hist| && MarksFrom(FinishStep(w, killed).hist[sid], p)
  {
  }

  lemma MarksKept(w: World, step: Step, sid: nat, p: Plan)
    requires Inv(w) && Enabled(w, step) && FromPlan(w, sid, p)
    ensures sid < |Apply(w, step).hist| && MarksFrom(Apply(w, step).hist[sid], p)
  {
    if UrbStatus.Subject(w, step).Some? { assert XferOk(w, UrbStatus.Subject(w, step).value); }
    if step.Finish? {
      assert XferFrom(w, w.ev.t, sid, p);
      FinishMarks(w, step.killed, sid, p);
    } else {
      StepAdvances(w, step, sid);
      NoneReaped(w.hist[sid], Apply(w, step).hist[sid], p);
    }
  }

  lemma NoneReaped(a: History, b: History, p: Plan)
    requires OneMark(a, b) && b.back == a.back && MarksFrom(a, p)
    ensures MarksFrom(b, p)
  {
  }

  lemma {:induction false} PlanKept(w: World, steps: seq<Step>, sid: nat, p: Plan)
    requires Inv(w) && IsRun(w, steps) && FromPlan(w, sid, p)
    ensures FromPlan(RunFrom(w, steps), sid, p)
    decreases |steps|
  {
    if steps != [] {
      var v := Apply(w, steps[0]);
      MarksKept(w, steps[0], sid, p);
      forall t ensures XferFrom(v, t, sid, p) { XferKept(w, steps[0], t, sid, p); }
      StepInv(w, steps[0]);
      PlanKept(v, steps[1..], sid, p);
    }
  }

  /** In every run the URBs of a submission are those `build` planned for it, as long as it planned. */
  lemma {:induction false} RunPlanned(w: World, steps: seq<Step>, sid: nat)
    requires Inv(w) && IsRun(w, steps) && PlanOf(w, steps, sid).Some?
    ensures FromPlan(RunFrom(w, steps), sid, PlanOf(w, steps, sid).value)
    decreases |steps|
  {
    StepInv(w, steps[0]);
    if Plans(w, steps[0], sid) {
      PlanStarts(w, steps[0], sid);
      PlanKept(Apply(w, steps[0]), steps[1..], sid, steps[0].plan.value);
    } else {
      RunPlanned(Apply(w, steps[0]), steps[1..], sid);
    }
  }

  // ----- bytes by URB -----

  /** The bytes URB `index` brought back. */
  function BytesOf(marks: seq<Mark>, index: nat): nat {
    if marks == [] then 0
    else
      var m := marks[|marks| - 1];
      if m.Reaped? && m.index == index then UrbStatus.Brought(m.iso, m.reply) else BytesOf(marks[..|marks| - 1], index)
  }

  function Got(marks: seq<Mark>, n: nat): (r: seq<nat>)
    ensures |r| == n && forall i :: 0 <= i < n ==> r[i] == BytesOf(marks, i)
  {
    seq(n, i requires 0 <= i => BytesOf(marks, i))
  }

  lemma {:induction false} SumAll(xs: seq<nat>, i: nat, v: nat)
    requires i < |xs|
    ensures Sum(xs[i := v]) == Sum(xs) - xs[i] + v
  {
    var n := |xs| - 1;
    if i == n {
      assert xs[i := v][..n] == xs[..n];
    } else {
      SumAll(xs[..n], i, v);
      assert xs[i := v][..n] == xs[..n][i := v];
    }
  }

  lemma {:induction false} SumNone(xs: seq<nat>)
    requires forall i :: 0 <= i < |xs| ==> xs[i] == 0
    ensures Sum(xs) == 0
  {
    if xs != [] { SumNone(xs[..|xs| - 1]); }
  }

  lemma {:induction false} NotBack(marks: seq<Mark>, index: nat)
    requires forall k: nat :: k < |marks| && marks[k].Reaped? ==> marks[k].index != index
    ensures BytesOf(marks, index) == 0
  {
    if marks != [] { NotBack(marks[..|marks| - 1], index); }
  }

  /** The marks of a submission cut into `n` URBs. */
  predicate Indexed(marks: seq<Mark>, n: nat) {
    && (forall k: nat :: k < |marks| && marks[k].Reaped? ==> marks[k].index < n)
    && (forall j: nat, k: nat :: j < k < |marks| && marks[j].Reaped? && marks[k].Reaped? ==>
          marks[j].index != marks[k].index)
  }

  /** The length reported is what the URBs brought back, each counted once. */
  lemma {:induction false} TotalIsSum(marks: seq<Mark>, n: nat)
    requires Indexed(marks, n)
    ensures UrbStatus.Total(marks) == Sum(Got(marks, n))
  {
    if marks == [] {
      SumNone(Got(marks, n));
    } else {
      var (init, m) := (marks[..|marks| - 1], marks[|marks| - 1]);
      TotalIsSum(init, n);
      if m.Reaped? {
        NotBack(init, m.index);
        SumAll(Got(init, n), m.index, UrbStatus.Brought(m.iso, m.reply));
        assert Got(marks, n) == Got(init, n)[m.index := UrbStatus.Brought(m.iso, m.reply)];
      } else {
        assert Got(marks, n) == Got(init, n);
      }
    }
  }

  /** The marks are of URBs of these pieces, and none moved more than its piece. */
  predicate OfPieces(marks: seq<Mark>, ps: seq<Piece>) {
    forall k: nat :: k < |marks| && marks[k].Reaped? ==>
      marks[k].index < |ps| && UrbStatus.Brought(marks[k].iso, marks[k].reply) <= ps[marks[k].index].len
  }

  lemma {:induction false} BytesFit(marks: seq<Mark>, ps: seq<Piece>, i: nat)
    requires OfPieces(marks, ps) && i < |ps|
    ensures BytesOf(marks, i) <= ps[i].len
  {
    if marks != [] { BytesFit(marks[..|marks| - 1], ps, i); }
  }

  lemma PieceInside(ps: seq<Piece>, i: nat)
    requires Tiles(ps, End(ps)) && i < |ps|
    ensures ps[i].offset + ps[i].len <= End(ps)
  {
    TilesOrdered(ps, End(ps), i, |ps|);
  }

  lemma GotFits(marks: seq<Mark>, ps: seq<Piece>, size: nat)
    requires OfPieces(marks, ps) && Tiles(ps, End(ps)) && End(ps) <= size
    ensures Fits(ps, Got(marks, |ps|), size)
  {
    forall i | 0 <= i < |ps| ensures Got(marks, |ps|)[i] <= ps[i].len && ps[i].offset + ps[i].len <= size {
      BytesFit(marks, ps, i);
      PieceInside(ps, i);
    }
  }

  /** The lengths `build` plans for a buffer cut into these pieces. */
  function Lens(ps: seq<Piece>): (r: seq<nat>)
    ensures |r| == |ps| && forall i :: 0 <= i < |ps| ==> r[i] == ps[i].len
  {
    seq(|ps|, i requires 0 <= i < |ps| => ps[i].len)
  }

  /** The kernel moves no more bytes than a URB asks for. */
  predicate NoMore(marks: seq<Mark>) {
    forall k: nat :: k < |marks| && marks[k].Reaped? ==> UrbStatus.Brought(marks[k].iso, marks[k].reply) <= marks[k].len
  }

  /** In every run: when a submission that was cut into `ps` completes, however it does, and no data
      followed a short URB, then the first `actual` bytes of the buffer are the bytes received, in
      order.  The kernel is trusted for no more than not to move more than it was asked to. */
  lemma ActualIsPrefix<T>(w: World, steps: seq<Step>, sid: nat, o: Outcome, ps: seq<Piece>, buf: seq<T>)
    requires Initial(w) && IsRun(w, steps) && sid < |RunFrom(w, steps).hist|
    requires o in RunFrom(w, steps).hist[sid].calls && NoMore(RunFrom(w, steps).hist[sid].marks)
    requires PlanOf(w, steps, sid).Some? && PlanOf(w, steps, sid).value.lens == Lens(ps)
    requires Tiles(ps, End(ps)) && End(ps) <= |buf|
    requires ShortEnds(ps, Got(RunFrom(w, steps).hist[sid].marks, |ps|))
    ensures Fits(ps, Got(RunFrom(w, steps).hist[sid].marks, |ps|), |buf|)
    ensures o.actual <= |buf| && Received(ps, buf, Got(RunFrom(w, steps).hist[sid].marks, |ps|)) == buf[..o.actual]
  {
    InitialInv(w);
    RunOnce(w, steps);
    RunPlanned(w, steps, sid);
    UrbStatus.StatusAttribution(w, steps, sid, o);
    var h := RunFrom(w, steps).hist[sid];
    assert MarksOnce(h) && MarksFrom(h, PlanOf(w, steps, sid).value);
    TotalIsSum(h.marks, |ps|);
    GotFits(h.marks, ps, |buf|);
    ReceivedIsPrefix(ps, buf, Got(h.marks, |ps|));
  }
}
