/** The URB life cycle of the Linux backend as a step relation.

    User threads submit and cancel; one event thread reaps, expires and drains; the kernel
    accepts, refuses, finishes or gives up URBs whenever it likes.  A step is one critical
    section or one ioctl, so every interleaving of the program is a sequence of steps. */
module UrbModel {
  import opened Wrappers

  type Tid = nat

  /** One URB: the `index`-th box of submission number `sid`.  Boxes of live submissions have
      distinct addresses, so this names what `ptr() as usize` names. */
  datatype Urb = Urb(sid: nat, index: nat)

  datatype Status = Completed | Error | TimedOut | Cancelled | Stall | NoDevice | Overflow

  /** What the kernel writes back into a URB; `packets` are the isochronous actual lengths. */
  datatype Reply = Reply(status: int, actual: int, packets: seq<nat>)

  const ENOENT := 2
  const ENODEV := 19
  const EPIPE := 32
  const ETIME := 62
  const EOVERFLOW := 75
  const ECONNRESET := 104
  const ESHUTDOWN := 108
  const ETIMEDOUT := 110
  const USIZE_MAX := 0xffff_ffff_ffff_ffff

  /** `urb_status`: nothing for the codes an unlinked URB carries. */
  function UrbStatus(status: int): Option<Status> {
    var e := -status;
    if e == 0 then Some(Completed)
    else if e == ENOENT || e == ECONNRESET then None
    else if e == ENODEV || e == ESHUTDOWN then Some(NoDevice)
    else if e == EPIPE then Some(Stall)
    else if e == EOVERFLOW then Some(Overflow)
    else if e == ETIME || e == ETIMEDOUT then Some(TimedOut)
    else Some(Error)
  }

  function Sum(xs: seq<nat>): nat {
    if xs == [] then 0 else Sum(xs[..|xs| - 1]) + xs[|xs| - 1]
  }

  /** Bytes a finished URB moved. */
  function Moved(iso: bool, r: Reply): nat {
    if iso then Sum(r.packets) else if r.actual < 0 then 0 else r.actual
  }

  /** A short or failed URB. */
  predicate Broke(iso: bool, len: nat, r: Reply) {
    (!iso && r.actual < len) || r.status != 0
  }

  // ----- the submission of one transfer -----

  /** `Submission`; `lens[i]` is `buffer_length` of URB `i`, `armed` says that a deadline is set. */
  datatype Submission = Submission(
    sid: nat, lens: seq<nat>, iso: bool, reaped: nat, actual: nat, status: Option<Status>,
    armed: bool, timedOut: bool, cancelled: bool, discardedFrom: nat)

  /** What `Submission::build` decides. */
  datatype Plan = Plan(lens: seq<nat>, iso: bool, armed: bool)

  function Fresh(sid: nat, p: Plan): Submission {
    Submission(sid, p.lens, p.iso, 0, 0, None, p.armed, false, false, USIZE_MAX)
  }

  predicate CutsTail(s: Submission, index: nat, r: Reply)
    requires index < |s.lens|
  {
    Broke(s.iso, s.lens[index], r) && index + 1 < |s.lens| && s.discardedFrom > index + 1
  }

  /** `finish_urb` up to the discard of the tail. */
  function Account(s: Submission, index: nat, r: Reply): Submission
    requires index < |s.lens|
  {
    var ours := index >= s.discardedFrom || s.cancelled || s.timedOut;
    var failure := UrbStatus(r.status);
    s.(reaped := s.reaped + 1,
       actual := s.actual + Moved(s.iso, r),
       status := if r.status != 0 && !ours && failure.Some? && s.status.None? then failure else s.status,
       discardedFrom := if CutsTail(s, index, r) then index + 1 else s.discardedFrom)
  }

  /** The status `finish_urb` reports once every URB is back. */
  function FinalStatus(s: Submission): Status {
    if s.timedOut then TimedOut else if s.cancelled then Cancelled else s.status.GetOr(Completed)
  }

  /** The submission after the kernel refused URB `i > 0`. */
  function Partial(s: Submission, i: nat): Submission
    requires i <= |s.lens|
  {
    s.(discardedFrom := i, lens := s.lens[..i], status := Some(Error))
  }

  function Cancel(s: Submission, hit: bool): Submission {
    if hit then s.(cancelled := true) else s
  }

  function Expire(s: Submission, hit: bool): Submission {
    s.(timedOut := s.timedOut || hit, armed := false)
  }

  /** URBs `from..` of a submission. */
  function Tail(s: Submission, from: nat): set<Urb> {
    set i: nat | from <= i < |s.lens| :: Urb(s.sid, i)
  }

  // ----- the world -----

  /** Who is inside `Transfer::submit`, hence holds the state lock; from `Submitting` on it
      also holds the `sub` lock.  `next` is the URB about to be handed to the kernel. */
  datatype Phase = Free | Starting(sid: nat) | Submitting(sid: nat, next: nat)

  datatype Xfer = Xfer(inFlight: bool, status: Status, actual: nat, sub: Option<Submission>, phase: Phase)

  /** What a call of `Inner::complete` published. */
  datatype Outcome = Outcome(status: Status, actual: nat, drained: bool)

  /** What happened to a submission, in order. */
  datatype Mark =
    | Reaped(index: nat, iso: bool, len: nat, reply: Reply)
    | CancelHit     // a cancel found one of its URBs still pending in the kernel
    | ExpireHit     // so did an expiry
    | Refused       // the kernel refused one of its URBs after accepting others

  datatype Answer = Running | ReturnedOk | ReturnedErr

  /** The history of one call of `submit`: its transfer, the URB indices handed back, the
      marks, what the call returned and the calls of `Inner::complete` made for it. */
  datatype History = History(home: Tid, back: set<nat>, marks: seq<Mark>, answer: Answer, calls: seq<Outcome>)

  /** The event thread: in its loop with the transfers of a disconnect still to fail, or holding
      a reaped URB, or holding a submission it took and is about to publish. */
  datatype Events =
    | Loop(rest: set<Tid>)
    | Finishing(t: Tid, urb: Urb, reply: Reply)
    | Completing(t: Tid, sid: nat, outcome: Outcome, rest: set<Tid>)

  datatype World = World(
    xfers: map<Tid, Xfer>, pending: map<Urb, Tid>, disconnected: bool,
    active: set<Urb>, done: map<Urb, Reply>, gone: bool,
    ev: Events, hist: seq<History>)

  datatype Step =
    | SubmitStart(t: Tid)
    | SubmitInsert(t: Tid, plan: Option<Plan>)
    | SubmitUrb(t: Tid, accepted: bool, killed: map<Urb, Reply>)
    | SubmitReturn(t: Tid)
    | CancelCall(t: Tid, killed: map<Urb, Reply>)
    | ExpireOne(t: Tid, killed: map<Urb, Reply>)
    | KernelFinish(u: Urb, r: Reply)
    | Unplug(killed: map<Urb, Reply>)
    | GiveUp
    | Reap(u: Urb)
    | Finish(killed: map<Urb, Reply>)
    | Publish
    | Disconnect
    | Drain(t: Tid)

  function SubmitStartStep(w: World, t: Tid): World
    requires t in w.xfers
  {
    var x := w.xfers[t];
    if x.inFlight then w  // Busy
    else
      var h := History(t, {}, [], Running, []);
      if w.disconnected then
        w.(xfers := w.xfers[t := x.(actual := 0)], hist := w.hist + [h.(answer := ReturnedErr)])
      else
        w.(xfers := w.xfers[t := x.(inFlight := true, actual := 0, phase := Starting(|w.hist|))], hist := w.hist + [h])
  }

  function Answered(w: World, sid: nat, a: Answer): World
    requires sid < |w.hist|
  {
    w.(hist := w.hist[sid := w.hist[sid].(answer := a)])
  }

  function Marked(w: World, sid: nat, m: Mark): World
    requires sid < |w.hist|
  {
    w.(hist := w.hist[sid := w.hist[sid].(marks := w.hist[sid].marks + [m])])
  }

  /** DISCARDURB on every URB of `urbs`: those still pending come back with `killed`. */
  function Discarded(w: World, urbs: set<Urb>, killed: map<Urb, Reply>): World {
    w.(active := w.active - urbs, done := w.done + killed)
  }

  predicate Kills(w: World, urbs: set<Urb>, killed: map<Urb, Reply>) {
    killed.Keys == w.active * urbs
  }

  function SubmitInsertStep(w: World, t: Tid, plan: Option<Plan>): World
    requires t in w.xfers && w.xfers[t].phase.Starting? && w.xfers[t].phase.sid < |w.hist|
  {
    var x := w.xfers[t];
    var sid := x.phase.sid;
    if x.sub.Some? || plan.None? then  // Busy, or `build` failed
      Answered(w.(xfers := w.xfers[t := x.(inFlight := false, phase := Free)]), sid, ReturnedErr)
    else
      var s := Fresh(sid, plan.value);
      w.(xfers := w.xfers[t := x.(sub := Some(s), phase := Submitting(sid, 0))],
         pending := w.pending + map u: Urb | u in Tail(s, 0) :: t)
  }

  predicate InSubmit(w: World, t: Tid) {
    && t in w.xfers && w.xfers[t].phase.Submitting? && w.xfers[t].sub.Some?
    && w.xfers[t].phase.sid < |w.hist| && w.xfers[t].phase.next < |w.xfers[t].sub.value.lens|
  }

  /** SUBMITURB took the next URB. */
  function UrbAccepted(w: World, t: Tid): World
    requires InSubmit(w, t)
  {
    var x := w.xfers[t];
    w.(active := w.active + {Urb(x.sub.value.sid, x.phase.next)},
       xfers := w.xfers[t := x.(phase := Submitting(x.phase.sid, x.phase.next + 1))])
  }

  /** Every URB was taken: `submit` lets go of its locks and returns. */
  function Returned(w: World, t: Tid): World
    requires t in w.xfers && w.xfers[t].phase.Submitting? && w.xfers[t].phase.sid < |w.hist|
  {
    var x := w.xfers[t];
    Answered(w.(xfers := w.xfers[t := x.(phase := Free)]), x.phase.sid, ReturnedOk)
  }

  /** SUBMITURB refused the first URB: the submission is undone. */
  function FirstRefused(w: World, t: Tid): World
    requires InSubmit(w, t)
  {
    var x := w.xfers[t];
    var w1 := w.(pending := w.pending - Tail(x.sub.value, 0),
                 xfers := w.xfers[t := x.(sub := None, inFlight := false, phase := Free)]);
    Answered(w1, x.phase.sid, ReturnedErr)
  }

  /** SUBMITURB refused a later URB: those already accepted are discarded and left to drain. */
  function LaterRefused(w: World, t: Tid, killed: map<Urb, Reply>): World
    requires InSubmit(w, t)
  {
    var x := w.xfers[t];
    var s := x.sub.value;
    var p := Partial(s, x.phase.next);
    var w1 := w.(pending := w.pending - Tail(s, x.phase.next),
                 xfers := w.xfers[t := x.(sub := Some(p), phase := Free)]);
    Marked(Answered(Discarded(w1, Tail(p, 0), killed), x.phase.sid, ReturnedOk), x.phase.sid, Refused)
  }

  function SubmitUrbStep(w: World, t: Tid, accepted: bool, killed: map<Urb, Reply>): World
    requires InSubmit(w, t)
  {
    if accepted then UrbAccepted(w, t)
    else if w.xfers[t].phase.next == 0 then FirstRefused(w, t)
    else LaterRefused(w, t, killed)
  }

  /** Every URB of `t` is discarded, `after` replaces its submission, and a hit is noted. */
  function Interrupted(w: World, t: Tid, after: Submission, m: Mark, hit: bool, killed: map<Urb, Reply>): World
    requires t in w.xfers && after.sid < |w.hist|
  {
    var w1 := Discarded(w.(xfers := w.xfers[t := w.xfers[t].(sub := Some(after))]), Tail(after, 0), killed);
    if hit then Marked(w1, after.sid, m) else w1
  }

  /** Whether a discard of all of `s` finds a URB still pending in the kernel. */
  predicate Hits(w: World, s: Submission) {
    w.active * Tail(s, 0) != {}
  }

  function CancelStep(w: World, t: Tid, killed: map<Urb, Reply>): World
    requires t in w.xfers && (w.xfers[t].sub.Some? ==> w.xfers[t].sub.value.sid < |w.hist|)
  {
    if w.xfers[t].sub.None? then w  // NotFound
    else
      var s := w.xfers[t].sub.value;
      Interrupted(w, t, Cancel(s, Hits(w, s)), CancelHit, Hits(w, s), killed)
  }

  predicate Expirable(w: World, t: Tid) {
    t in w.xfers && w.xfers[t].sub.Some? && w.xfers[t].sub.value.armed && !w.xfers[t].sub.value.timedOut
  }

  function ExpireStep(w: World, t: Tid, killed: map<Urb, Reply>): World
    requires Expirable(w, t) && w.xfers[t].sub.value.sid < |w.hist|
  {
    var s := w.xfers[t].sub.value;
    Interrupted(w, t, Expire(s, Hits(w, s)), ExpireHit, Hits(w, s), killed)
  }

  function ReapStep(w: World, u: Urb): World
    requires u in w.done
  {
    var w1 := w.(done := w.done - {u});
    if u in w.pending then w1.(pending := w.pending - {u}, ev := Finishing(w.pending[u], u, w.done[u])) else w1
  }

  predicate CanFinish(w: World) {
    && w.ev.Finishing? && w.ev.t in w.xfers
    && (w.xfers[w.ev.t].sub.Some? ==>
          w.ev.urb.index < |w.xfers[w.ev.t].sub.value.lens| && w.xfers[w.ev.t].sub.value.sid < |w.hist|)
  }

  /** The URBs `finish_urb` discards. */
  function FinishKills(w: World): set<Urb>
    requires CanFinish(w)
  {
    var x := w.xfers[w.ev.t];
    if x.sub.Some? && CutsTail(x.sub.value, w.ev.urb.index, w.ev.reply)
    then Tail(x.sub.value, w.ev.urb.index + 1) else {}
  }

  /** `finish_urb` under the `sub` lock, but for its discards. */
  function AccountStep(w: World): World
    requires CanFinish(w)
  {
    var t := w.ev.t;
    var x := w.xfers[t];
    if x.sub.None? then w.(ev := Loop({}))
    else
      var s := x.sub.value;
      var i := w.ev.urb.index;
      var h := w.hist[s.sid];
      var s1 := Account(s, i, w.ev.reply);
      var h1 := h.(back := h.back + {i}, marks := h.marks + [Reaped(i, s.iso, s.lens[i], w.ev.reply)]);
      var last := s1.reaped == |s1.lens|;
      w.(hist := w.hist[s.sid := h1],
         xfers := w.xfers[t := x.(sub := if last then None else Some(s1))],
         ev := if last then Completing(t, s.sid, Outcome(FinalStatus(s1), s1.actual, false), {}) else Loop({}))
  }

  function FinishStep(w: World, killed: map<Urb, Reply>): World
    requires CanFinish(w)
  {
    Discarded(AccountStep(w), FinishKills(w), killed)
  }

  /** `Inner::complete` under the state lock. */
  function PublishStep(w: World): World
    requires w.ev.Completing? && w.ev.t in w.xfers && w.ev.sid < |w.hist|
  {
    var x := w.xfers[w.ev.t];
    var h := w.hist[w.ev.sid];
    w.(xfers := w.xfers[w.ev.t := x.(inFlight := false, status := w.ev.outcome.status, actual := w.ev.outcome.actual)],
       hist := w.hist[w.ev.sid := h.(calls := h.calls + [w.ev.outcome])],
       ev := Loop(w.ev.rest))
  }

  function DrainStep(w: World, t: Tid): World
    requires w.ev.Loop? && t in w.xfers
  {
    var x := w.xfers[t];
    if x.sub.None? then w.(ev := Loop(w.ev.rest - {t}))
    else
      var s := x.sub.value;
      w.(xfers := w.xfers[t := x.(sub := None)],
         ev := Completing(t, s.sid, Outcome(NoDevice, s.actual, true), w.ev.rest - {t}))
  }

  // ----- when a step can happen -----

  predicate CanInsert(w: World, t: Tid, plan: Option<Plan>) {
    && t in w.xfers && w.xfers[t].phase.Starting? && w.xfers[t].phase.sid < |w.hist|
    && (plan.Some? ==> 0 < |plan.value.lens| < USIZE_MAX)
  }

  /** An unplugged device accepts no URB. */
  predicate CanSubmitUrb(w: World, t: Tid, accepted: bool, killed: map<Urb, Reply>) {
    && InSubmit(w, t) && (accepted ==> !w.gone)
    && Kills(w, Tail(Partial(w.xfers[t].sub.value, w.xfers[t].phase.next), 0), killed)
  }

  predicate CanReturn(w: World, t: Tid) {
    && t in w.xfers && w.xfers[t].phase.Submitting? && w.xfers[t].sub.Some?
    && w.xfers[t].phase.sid < |w.hist| && w.xfers[t].phase.next == |w.xfers[t].sub.value.lens|
  }

  /** The `sub` lock of `t` is free and its live submission, if any, is one that was issued. */
  predicate SubLockFree(w: World, t: Tid) {
    && t in w.xfers && !w.xfers[t].phase.Submitting?
    && (w.xfers[t].sub.Some? ==> w.xfers[t].sub.value.sid < |w.hist|)
  }

  predicate CanCancel(w: World, t: Tid, killed: map<Urb, Reply>) {
    SubLockFree(w, t) && (w.xfers[t].sub.Some? ==> Kills(w, Tail(w.xfers[t].sub.value, 0), killed))
  }

  predicate CanExpire(w: World, t: Tid, killed: map<Urb, Reply>) {
    && w.ev == Loop({}) && Expirable(w, t) && SubLockFree(w, t)
    && Kills(w, Tail(w.xfers[t].sub.value, 0), killed)
  }

  predicate CanAccount(w: World, killed: map<Urb, Reply>) {
    CanFinish(w) && SubLockFree(w, w.ev.t) && Kills(w, FinishKills(w), killed)
  }

  predicate CanPublish(w: World) {
    w.ev.Completing? && w.ev.t in w.xfers && w.ev.sid < |w.hist| && w.xfers[w.ev.t].phase.Free?
  }

  predicate CanDrain(w: World, t: Tid) {
    w.ev.Loop? && t in w.ev.rest && SubLockFree(w, t)
  }

  /** A reap learns that the device is gone once the kernel has given up all it held. */
  predicate Enabled(w: World, step: Step) {
    match step
    case SubmitStart(t) => t in w.xfers && w.xfers[t].phase.Free?
    case SubmitInsert(t, plan) => CanInsert(w, t, plan)
    case SubmitUrb(t, accepted, killed) => CanSubmitUrb(w, t, accepted, killed)
    case SubmitReturn(t) => CanReturn(w, t)
    case CancelCall(t, killed) => CanCancel(w, t, killed)
    case ExpireOne(t, killed) => CanExpire(w, t, killed)
    case KernelFinish(u, r) => u in w.active
    case Unplug(killed) => killed.Keys == w.active
    case GiveUp => w.gone
    case Reap(u) => w.ev == Loop({}) && u in w.done
    case Finish(killed) => CanAccount(w, killed)
    case Publish => CanPublish(w)
    case Disconnect => w.ev == Loop({}) && w.gone && w.done == map[]
    case Drain(t) => CanDrain(w, t)
  }

  function Apply(w: World, step: Step): World
    requires Enabled(w, step)
  {
    match step
    case SubmitStart(t) => SubmitStartStep(w, t)
    case SubmitInsert(t, plan) => SubmitInsertStep(w, t, plan)
    case SubmitUrb(t, accepted, killed) => SubmitUrbStep(w, t, accepted, killed)
    case SubmitReturn(t) => Returned(w, t)
    case CancelCall(t, killed) => CancelStep(w, t, killed)
    case ExpireOne(t, killed) => ExpireStep(w, t, killed)
    case KernelFinish(u, r) => w.(active := w.active - {u}, done := w.done[u := r])
    case Unplug(killed) => w.(gone := true, active := {}, done := w.done + killed)
    case GiveUp => w.(done := map[])
    case Reap(u) => ReapStep(w, u)
    case Finish(killed) => FinishStep(w, killed)
    case Publish => PublishStep(w)
    case Disconnect => w.(disconnected := true, pending := map[], ev := Loop(w.pending.Values))
    case Drain(t) => DrainStep(w, t)
  }

  /** A handle just opened, with its transfers idle. */
  predicate Initial(w: World) {
    && (forall t :: t in w.xfers ==> !w.xfers[t].inFlight && w.xfers[t].sub.None? && w.xfers[t].phase.Free?)
    && w.pending == map[] && !w.disconnected && w.active == {} && w.done == map[] && !w.gone
    && w.ev == Loop({}) && w.hist == []
  }

  /** `steps` is a run from `w`. */
  predicate IsRun(w: World, steps: seq<Step>)
    decreases |steps|
  {
    steps == [] || (Enabled(w, steps[0]) && IsRun(Apply(w, steps[0]), steps[1..]))
  }

  function RunFrom(w: World, steps: seq<Step>): World
    requires IsRun(w, steps)
    decreases |steps|
  {
    if steps == [] then w else RunFrom(Apply(w, steps[0]), steps[1..])
  }
}
