/** What every step of the URB life cycle keeps. */
module UrbInvariant {
  import opened Wrappers
  import opened UrbModel

  /** How many of the live submission's URBs the kernel has been offered and has accepted. */
  function Accepted(x: Xfer): nat {
    if x.phase.Submitting? then x.phase.next else if x.sub.Some? then |x.sub.value.lens| else 0
  }

  predicate Owns(x: Xfer, sid: nat) {
    x.sub.Some? && x.sub.value.sid == sid
  }

  predicate PublishingFor(w: World, t: Tid) {
    w.ev.Completing? && w.ev.t == t
  }

  function Rest(ev: Events): set<Tid> {
    match ev
    case Loop(rest) => rest
    case Completing(_, _, _, rest) => rest
    case Finishing(_, _, _) => {}
  }

  /** A transfer is in flight exactly from the start of an accepted submit to its completion. */
  predicate PhaseOk(w: World, t: Tid)
    requires t in w.xfers
  {
    var x := w.xfers[t];
    match x.phase
    case Free => x.inFlight <==> (x.sub.Some? || PublishingFor(w, t))
    case Starting(sid) =>
      x.inFlight && x.sub.None? && !PublishingFor(w, t)
      && sid < |w.hist| && w.hist[sid] == History(t, {}, [], Running, [])
    case Submitting(sid, next) =>
      x.inFlight && Owns(x, sid) && next <= |x.sub.value.lens| && !PublishingFor(w, t)
      && sid < |w.hist| && w.hist[sid].answer == Running && w.hist[sid].back == {}
  }

  /** A live submission still misses a URB, and its history agrees with its counters. */
  predicate LiveOk(w: World, t: Tid)
    requires t in w.xfers
  {
    w.xfers[t].sub.Some? ==>
      var s := w.xfers[t].sub.value;
      && s.sid < |w.hist|
      && var h := w.hist[s.sid];
      && h.home == t && h.calls == []
      && (w.xfers[t].phase.Free? ==> h.answer == ReturnedOk)
      && (forall j :: j in h.back ==> j < Accepted(w.xfers[t]))
      && |h.back| == s.reaped < |s.lens|
      && |s.lens| < USIZE_MAX
  }

  predicate InKernel(w: World, u: Urb) {
    u in w.active || u in w.done
  }

  predicate InHand(w: World, u: Urb) {
    w.ev.Finishing? && w.ev.urb == u
  }

  /** Conservation: a URB of a live submission is pending, or in the event thread's hands, or
      back, unless a disconnect has drained it. */
  predicate LocatedOk(w: World, t: Tid)
    requires t in w.xfers
  {
    w.xfers[t].sub.Some? ==>
      var s := w.xfers[t].sub.value;
      && s.sid < |w.hist|
      && forall j: nat {:trigger Urb(s.sid, j)} :: j < |s.lens| ==>
        var u := Urb(s.sid, j);
        && (j !in w.hist[s.sid].back && !InHand(w, u) && t !in Rest(w.ev) ==> u in w.pending)
        && (j < Accepted(w.xfers[t]) && u in w.pending && !w.gone ==> InKernel(w, u))
  }

  /** Every pending entry belongs to a live submission and has not come back. */
  predicate PendingOk(w: World, u: Urb)
    requires u in w.pending
  {
    var t := w.pending[u];
    && t in w.xfers && Owns(w.xfers[t], u.sid) && u.index < |w.xfers[t].sub.value.lens|
    && u.sid < |w.hist| && u.index !in w.hist[u.sid].back
    && !InHand(w, u)
    && (w.disconnected ==> w.xfers[t].phase.Submitting? && w.xfers[t].phase.next == 0)
  }

  /** Everything the kernel owns is pending and was accepted. */
  predicate KernelOk(w: World, u: Urb) {
    InKernel(w, u) ==> u in w.pending && w.pending[u] in w.xfers && u.index < Accepted(w.xfers[w.pending[u]])
  }

  predicate EventsOk(w: World) {
    && (forall t {:trigger t in Rest(w.ev)} :: t in Rest(w.ev) ==> t in w.xfers && w.disconnected && !w.xfers[t].phase.Starting?)
    && match w.ev
       case Loop(_) => true
       case Finishing(t, u, r) =>
         && t in w.xfers && Owns(w.xfers[t], u.sid) && u.index < Accepted(w.xfers[t])
         && u.sid < |w.hist| && u.index !in w.hist[u.sid].back
         && u !in w.pending
       case Completing(t, sid, o, _) =>
         && t in w.xfers && w.xfers[t].phase.Free? && w.xfers[t].sub.None?
         && sid < |w.hist| && w.hist[sid].home == t && w.hist[sid].answer == ReturnedOk && w.hist[sid].calls == []
         && (o.drained ==> w.disconnected)
  }

  predicate MachineOk(w: World) {
    && w.active !! w.done.Keys
    && (w.gone ==> w.active == {})
    && (w.disconnected ==> w.gone && w.done == map[])
  }

  /** A submission ends in exactly one way: Err and no completion, or Ok and one completion,
      which is still owed exactly while it is live or in the event thread's hands. */
  predicate HistoryOk(w: World, sid: nat)
    requires sid < |w.hist|
  {
    var h := w.hist[sid];
    && h.home in w.xfers
    && |h.calls| <= 1
    && match h.answer
       case Running =>
         h.calls == [] && !w.xfers[h.home].phase.Free? && w.xfers[h.home].phase.sid == sid
       case ReturnedErr => h.calls == [] && !Owns(w.xfers[h.home], sid)
       case ReturnedOk =>
         h.calls == [] ==> Owns(w.xfers[h.home], sid) || (w.ev.Completing? && w.ev.sid == sid && w.ev.t == h.home)
  }

  predicate XferOk(w: World, t: Tid) {
    t in w.xfers ==> PhaseOk(w, t) && LiveOk(w, t) && LocatedOk(w, t)
  }

  predicate UrbOk(w: World, u: Urb) {
    (u in w.pending ==> PendingOk(w, u)) && KernelOk(w, u)
  }

  ghost predicate Inv(w: World) {
    && (forall t {:trigger XferOk(w, t)} :: XferOk(w, t))
    && (forall u {:trigger UrbOk(w, u)} :: UrbOk(w, u))
    && (forall sid: nat {:trigger HistoryOk(w, sid)} :: sid < |w.hist| ==> HistoryOk(w, sid))
    && EventsOk(w)
    && MachineOk(w)
  }

  lemma InitialInv(w: World)
    requires Initial(w)
    ensures Inv(w)
  {
  }

  lemma StartXfer(w: World, t: Tid, t': Tid)
    requires t in w.xfers && w.xfers[t].phase.Free? && XferOk(w, t) && XferOk(w, t') && EventsOk(w)
    ensures XferOk(SubmitStartStep(w, t), t')
  {
  }

  lemma StartHistory(w: World, t: Tid, sid: nat)
    requires t in w.xfers && w.xfers[t].phase.Free? && XferOk(w, t)
    requires sid < |SubmitStartStep(w, t).hist| && (sid < |w.hist| ==> HistoryOk(w, sid))
    ensures HistoryOk(SubmitStartStep(w, t), sid)
  {
  }

  lemma StartInv(w: World, t: Tid)
    requires Inv(w) && t in w.xfers && w.xfers[t].phase.Free?
    ensures Inv(SubmitStartStep(w, t))
  {
    var v := SubmitStartStep(w, t);
    assert XferOk(w, t);
    forall t' ensures XferOk(v, t') { assert XferOk(w, t'); StartXfer(w, t, t'); }
    forall u ensures UrbOk(v, u) { assert UrbOk(w, u); }
    forall sid: nat | sid < |v.hist| ensures HistoryOk(v, sid) {
      assert sid < |w.hist| ==> HistoryOk(w, sid);
      StartHistory(w, t, sid);
    }
  }

  lemma InsertXfer(w: World, t: Tid, plan: Option<Plan>, t': Tid)
    requires CanInsert(w, t, plan) && XferOk(w, t) && XferOk(w, t') && EventsOk(w)
    ensures XferOk(SubmitInsertStep(w, t, plan), t')
  {
  }

  lemma InsertUrb(w: World, t: Tid, plan: Option<Plan>, u: Urb)
    requires CanInsert(w, t, plan) && XferOk(w, t) && UrbOk(w, u) && EventsOk(w)
    requires w.ev.Finishing? ==> XferOk(w, w.ev.t)
    requires u in w.pending ==> XferOk(w, w.pending[u])
    ensures UrbOk(SubmitInsertStep(w, t, plan), u)
  {
  }

  lemma InsertHistory(w: World, t: Tid, plan: Option<Plan>, sid: nat)
    requires CanInsert(w, t, plan) && sid < |w.hist| && HistoryOk(w, sid) && XferOk(w, t) && EventsOk(w)
    ensures sid < |SubmitInsertStep(w, t, plan).hist| && HistoryOk(SubmitInsertStep(w, t, plan), sid)
  {
  }

  lemma InsertInv(w: World, t: Tid, plan: Option<Plan>)
    requires Inv(w) && CanInsert(w, t, plan)
    ensures Inv(SubmitInsertStep(w, t, plan))
  {
    var v := SubmitInsertStep(w, t, plan);
    assert XferOk(w, t);
    if w.ev.Finishing? { assert XferOk(w, w.ev.t); }
    forall t' ensures XferOk(v, t') { assert XferOk(w, t'); InsertXfer(w, t, plan, t'); }
    forall u ensures UrbOk(v, u) {
      assert UrbOk(w, u);
      if u in w.pending { assert XferOk(w, w.pending[u]); }
      InsertUrb(w, t, plan, u);
    }
    forall sid: nat | sid < |v.hist| ensures HistoryOk(v, sid) { InsertHistory(w, t, plan, sid); }
  }

  // ----- one URB offered to the kernel -----

  lemma AcceptXfer(w: World, t: Tid, t': Tid)
    requires InSubmit(w, t) && !w.gone && XferOk(w, t) && XferOk(w, t') && EventsOk(w)
    ensures XferOk(UrbAccepted(w, t), t')
  {
  }

  lemma AcceptUrb(w: World, t: Tid, u: Urb)
    requires InSubmit(w, t) && !w.gone && XferOk(w, t) && UrbOk(w, u) && EventsOk(w) && MachineOk(w)
    requires w.ev.Finishing? ==> XferOk(w, w.ev.t)
    requires u in w.pending ==> XferOk(w, w.pending[u])
    ensures UrbOk(UrbAccepted(w, t), u)
  {
    assert t !in Rest(w.ev);
    assert Urb(w.xfers[t].sub.value.sid, w.xfers[t].phase.next) in w.pending;
  }

  lemma AcceptHistory(w: World, t: Tid, sid: nat)
    requires InSubmit(w, t) && !w.gone && sid < |w.hist| && HistoryOk(w, sid) && XferOk(w, t) && EventsOk(w)
    ensures sid < |UrbAccepted(w, t).hist| && HistoryOk(UrbAccepted(w, t), sid)
  {
  }

  lemma AcceptInv(w: World, t: Tid)
    requires Inv(w) && InSubmit(w, t) && !w.gone
    ensures Inv(UrbAccepted(w, t))
  {
    var v := UrbAccepted(w, t);
    var next := Urb(w.xfers[t].sub.value.sid, w.xfers[t].phase.next);
    assert XferOk(w, t) && UrbOk(w, next);
    assert next in w.pending ==> XferOk(w, w.pending[next]);
    if w.ev.Finishing? { assert XferOk(w, w.ev.t); }
    forall t' ensures XferOk(v, t') { assert XferOk(w, t'); AcceptXfer(w, t, t'); }
    forall u ensures UrbOk(v, u) {
      assert UrbOk(w, u);
      if u in w.pending { assert XferOk(w, w.pending[u]); }
      AcceptUrb(w, t, u);
    }
    forall sid: nat | sid < |v.hist| ensures HistoryOk(v, sid) { AcceptHistory(w, t, sid); }
  }

  lemma ReturnXfer(w: World, t: Tid, t': Tid)
    requires CanReturn(w, t) && XferOk(w, t) && XferOk(w, t') && EventsOk(w)
    ensures XferOk(Returned(w, t), t')
  {
  }

  lemma ReturnUrb(w: World, t: Tid, u: Urb)
    requires CanReturn(w, t) && XferOk(w, t) && UrbOk(w, u) && EventsOk(w) && MachineOk(w)
    requires u in w.pending ==> XferOk(w, w.pending[u])
    ensures UrbOk(Returned(w, t), u)
  {
  }

  lemma ReturnHistory(w: World, t: Tid, sid: nat)
    requires CanReturn(w, t) && sid < |w.hist| && HistoryOk(w, sid) && XferOk(w, t) && EventsOk(w)
    ensures sid < |Returned(w, t).hist| && HistoryOk(Returned(w, t), sid)
  {
  }

  lemma ReturnInv(w: World, t: Tid)
    requires Inv(w) && CanReturn(w, t)
    ensures Inv(Returned(w, t))
  {
    var v := Returned(w, t);
    assert XferOk(w, t);
    if w.ev.Finishing? { assert XferOk(w, w.ev.t); }
    forall t' ensures XferOk(v, t') { assert XferOk(w, t'); ReturnXfer(w, t, t'); }
    forall u ensures UrbOk(v, u) {
      assert UrbOk(w, u);
      if u in w.pending { assert XferOk(w, w.pending[u]); }
      ReturnUrb(w, t, u);
    }
    forall sid: nat | sid < |v.hist| ensures HistoryOk(v, sid) { ReturnHistory(w, t, sid); }
  }

  lemma RefuseXfer(w: World, t: Tid, t': Tid)
    requires InSubmit(w, t) && w.xfers[t].phase.next == 0 && XferOk(w, t) && XferOk(w, t') && EventsOk(w)
    ensures XferOk(FirstRefused(w, t), t')
  {
  }

  lemma RefuseUrb(w: World, t: Tid, u: Urb)
    requires InSubmit(w, t) && w.xfers[t].phase.next == 0 && XferOk(w, t) && UrbOk(w, u) && EventsOk(w) && MachineOk(w)
    requires u in w.pending ==> XferOk(w, w.pending[u])
    ensures UrbOk(FirstRefused(w, t), u)
  {
  }

  lemma RefuseHistory(w: World, t: Tid, sid: nat)
    requires InSubmit(w, t) && w.xfers[t].phase.next == 0 && sid < |w.hist| && HistoryOk(w, sid) && XferOk(w, t) && EventsOk(w)
    ensures sid < |FirstRefused(w, t).hist| && HistoryOk(FirstRefused(w, t), sid)
  {
  }

  lemma RefuseInv(w: World, t: Tid)
    requires Inv(w) && InSubmit(w, t) && w.xfers[t].phase.next == 0
    ensures Inv(FirstRefused(w, t))
  {
    var v := FirstRefused(w, t);
    assert XferOk(w, t);
    if w.ev.Finishing? { assert XferOk(w, w.ev.t); }
    forall t' ensures XferOk(v, t') { assert XferOk(w, t'); RefuseXfer(w, t, t'); }
    forall u ensures UrbOk(v, u) {
      assert UrbOk(w, u);
      if u in w.pending { assert XferOk(w, w.pending[u]); }
      RefuseUrb(w, t, u);
    }
    forall sid: nat | sid < |v.hist| ensures HistoryOk(v, sid) { RefuseHistory(w, t, sid); }
  }

  predicate CanTruncate(w: World, t: Tid, killed: map<Urb, Reply>) {
    CanSubmitUrb(w, t, false, killed) && w.xfers[t].phase.next != 0
  }

  lemma TruncateXfer(w: World, t: Tid, killed: map<Urb, Reply>, t': Tid)
    requires CanTruncate(w, t, killed) && XferOk(w, t) && XferOk(w, t') && EventsOk(w)
    ensures XferOk(LaterRefused(w, t, killed), t')
  {
  }

  lemma TruncateUrb(w: World, t: Tid, killed: map<Urb, Reply>, u: Urb)
    requires CanTruncate(w, t, killed) && XferOk(w, t) && UrbOk(w, u) && EventsOk(w) && MachineOk(w)
    requires u in w.pending ==> XferOk(w, w.pending[u])
    ensures UrbOk(LaterRefused(w, t, killed), u)
  {
  }

  lemma TruncateHistory(w: World, t: Tid, killed: map<Urb, Reply>, sid: nat)
    requires CanTruncate(w, t, killed) && sid < |w.hist| && HistoryOk(w, sid) && XferOk(w, t) && EventsOk(w)
    ensures sid < |LaterRefused(w, t, killed).hist| && HistoryOk(LaterRefused(w, t, killed), sid)
  {
  }

  lemma TruncateInv(w: World, t: Tid, killed: map<Urb, Reply>)
    requires Inv(w) && CanTruncate(w, t, killed)
    ensures Inv(LaterRefused(w, t, killed))
  {
    var v := LaterRefused(w, t, killed);
    assert XferOk(w, t);
    if w.ev.Finishing? { assert XferOk(w, w.ev.t); }
    forall t' ensures XferOk(v, t') { assert XferOk(w, t'); TruncateXfer(w, t, killed, t'); }
    forall u ensures UrbOk(v, u) {
      assert UrbOk(w, u);
      if u in w.pending { assert XferOk(w, w.pending[u]); }
      TruncateUrb(w, t, killed, u);
    }
    forall sid: nat | sid < |v.hist| ensures HistoryOk(v, sid) { TruncateHistory(w, t, killed, sid); }
  }

  // ----- cancel and expire -----

  predicate SameUrbs(x: Xfer, after: Submission) {
    && x.sub.Some? && x.sub.value.sid == after.sid && x.sub.value.lens == after.lens
    && x.sub.value.reaped == after.reaped
  }

  lemma InterruptXfer(w: World, t: Tid, after: Submission, m: Mark, hit: bool, killed: map<Urb, Reply>, t': Tid)
    requires SubLockFree(w, t) && SameUrbs(w.xfers[t], after) && Kills(w, Tail(after, 0), killed)
    requires XferOk(w, t) && XferOk(w, t') && EventsOk(w)
    ensures XferOk(Interrupted(w, t, after, m, hit, killed), t')
  {
  }

  lemma InterruptUrb(w: World, t: Tid, after: Submission, m: Mark, hit: bool, killed: map<Urb, Reply>, u: Urb)
    requires SubLockFree(w, t) && SameUrbs(w.xfers[t], after) && Kills(w, Tail(after, 0), killed)
    requires XferOk(w, t) && UrbOk(w, u)
    ensures UrbOk(Interrupted(w, t, after, m, hit, killed), u)
  {
  }

  lemma InterruptInv(w: World, t: Tid, after: Submission, m: Mark, hit: bool, killed: map<Urb, Reply>)
    requires Inv(w) && SubLockFree(w, t) && SameUrbs(w.xfers[t], after) && Kills(w, Tail(after, 0), killed)
    ensures Inv(Interrupted(w, t, after, m, hit, killed))
  {
    var v := Interrupted(w, t, after, m, hit, killed);
    assert XferOk(w, t);
    forall t' ensures XferOk(v, t') { assert XferOk(w, t'); InterruptXfer(w, t, after, m, hit, killed, t'); }
    forall u ensures UrbOk(v, u) { assert UrbOk(w, u); InterruptUrb(w, t, after, m, hit, killed, u); }
    forall sid: nat | sid < |v.hist| ensures HistoryOk(v, sid) { assert HistoryOk(w, sid); }
  }

  // ----- the kernel -----

  lemma KernelInv(w: World, active: set<Urb>, done: map<Urb, Reply>)
    requires Inv(w) && active !! done.Keys && active + done.Keys == w.active + w.done.Keys
    requires (w.gone ==> active == {}) && (w.disconnected ==> done == map[])
    ensures Inv(w.(active := active, done := done))
  {
    var v := w.(active := active, done := done);
    forall t ensures XferOk(v, t) { assert XferOk(w, t); }
    forall u ensures UrbOk(v, u) { assert UrbOk(w, u); }
    forall sid: nat | sid < |v.hist| ensures HistoryOk(v, sid) { assert HistoryOk(w, sid); }
  }

  lemma GoneInv(w: World, done: map<Urb, Reply>)
    requires Inv(w) && done.Keys <= w.active + w.done.Keys && (w.disconnected ==> done == map[])
    ensures Inv(w.(gone := true, active := {}, done := done))
  {
    var v := w.(gone := true, active := {}, done := done);
    forall t ensures XferOk(v, t) { assert XferOk(w, t); }
    forall u ensures UrbOk(v, u) { assert UrbOk(w, u); }
    forall sid: nat | sid < |v.hist| ensures HistoryOk(v, sid) { assert HistoryOk(w, sid); }
  }

  // ----- the event thread -----

  lemma ReapInv(w: World, u: Urb)
    requires Inv(w) && w.ev == Loop({}) && u in w.done
    ensures u in w.pending && Inv(ReapStep(w, u))
  {
    var v := ReapStep(w, u);
    assert UrbOk(w, u);
    forall t ensures XferOk(v, t) { assert XferOk(w, t); }
    forall u' ensures UrbOk(v, u') { assert UrbOk(w, u'); }
    forall sid: nat | sid < |v.hist| ensures HistoryOk(v, sid) { assert HistoryOk(w, sid); }
  }

  lemma PublishInv(w: World)
    requires Inv(w) && CanPublish(w)
    ensures Inv(PublishStep(w))
  {
    var v := PublishStep(w);
    assert Rest(v.ev) == Rest(w.ev);
    forall t ensures XferOk(v, t) { assert XferOk(w, t); }
    forall u ensures UrbOk(v, u) { assert UrbOk(w, u); }
    forall sid: nat | sid < |v.hist| ensures HistoryOk(v, sid) { assert HistoryOk(w, sid); }
  }

  lemma DisconnectInv(w: World)
    requires Inv(w) && w.ev == Loop({}) && w.gone && w.done == map[]
    ensures Inv(w.(disconnected := true, pending := map[], ev := Loop(w.pending.Values)))
  {
    var v := w.(disconnected := true, pending := map[], ev := Loop(w.pending.Values));
    forall t | t in w.pending.Values ensures t in w.xfers && !w.xfers[t].phase.Starting? {
      var u :| u in w.pending && w.pending[u] == t;
      assert UrbOk(w, u) && XferOk(w, t);
    }
    forall t ensures XferOk(v, t) {
      assert XferOk(w, t);
      forall u | u in w.pending && t in w.xfers && Owns(w.xfers[t], u.sid) ensures t in w.pending.Values {
        assert UrbOk(w, u) && XferOk(w, w.pending[u]);
      }
    }
    forall u ensures UrbOk(v, u) { assert UrbOk(w, u); }
    forall sid: nat | sid < |v.hist| ensures HistoryOk(v, sid) { assert HistoryOk(w, sid); }
  }

  lemma DrainInv(w: World, t: Tid)
    requires Inv(w) && CanDrain(w, t)
    ensures Inv(DrainStep(w, t))
  {
    var v := DrainStep(w, t);
    assert XferOk(w, t) && Rest(v.ev) == Rest(w.ev) - {t};
    forall t' ensures XferOk(v, t') { assert XferOk(w, t'); }
    forall u ensures UrbOk(v, u) { assert UrbOk(w, u); }
    forall sid: nat | sid < |v.hist| ensures HistoryOk(v, sid) { assert HistoryOk(w, sid); }
  }

  // ----- one URB accounted for -----

  /** A set of `n` indices below `n` holds them all. */
  lemma {:induction false} AllIndices(back: set<nat>, n: nat)
    requires |back| == n && forall j :: j in back ==> j < n
    ensures forall j: nat :: j < n ==> j in back
  {
    if n > 0 {
      if n - 1 in back {
        AllIndices(back - {n - 1}, n - 1);
      } else if back != {} {
        FewIndices(back, n - 1);
      }
    }
  }

  lemma {:induction false} FewIndices(back: set<nat>, n: nat)
    requires forall j :: j in back ==> j < n
    ensures |back| <= n
  {
    if n == 0 {
      assert back == {};
    } else {
      FewIndices(back - {n - 1}, n - 1);
    }
  }

  lemma AccountXfer(w: World, t: Tid)
    requires CanFinish(w) && SubLockFree(w, w.ev.t) && XferOk(w, w.ev.t) && XferOk(w, t) && EventsOk(w)
    ensures XferOk(AccountStep(w), t)
  {
  }

  lemma AccountUrb(w: World, u: Urb)
    requires CanFinish(w) && SubLockFree(w, w.ev.t) && XferOk(w, w.ev.t) && UrbOk(w, u) && EventsOk(w) && MachineOk(w)
    requires u in w.pending ==> XferOk(w, w.pending[u])
    ensures UrbOk(AccountStep(w), u)
  {
    var s := w.xfers[w.ev.t].sub.value;
    if u in w.pending && s.reaped + 1 == |s.lens| {
      AllIndices(w.hist[s.sid].back + {w.ev.urb.index}, |s.lens|);
    }
  }

  lemma AccountHistory(w: World, sid: nat)
    requires CanFinish(w) && SubLockFree(w, w.ev.t) && sid < |w.hist| && HistoryOk(w, sid) && XferOk(w, w.ev.t) && EventsOk(w)
    ensures sid < |AccountStep(w).hist| && HistoryOk(AccountStep(w), sid)
  {
  }

  lemma AccountInv(w: World)
    requires Inv(w) && CanFinish(w) && SubLockFree(w, w.ev.t)
    ensures Inv(AccountStep(w))
  {
    var v := AccountStep(w);
    assert XferOk(w, w.ev.t);
    if w.ev.Finishing? { assert XferOk(w, w.ev.t); }
    forall t ensures XferOk(v, t) { assert XferOk(w, t); AccountXfer(w, t); }
    forall u ensures UrbOk(v, u) {
      assert UrbOk(w, u);
      if u in w.pending { assert XferOk(w, w.pending[u]); }
      AccountUrb(w, u);
    }
    forall sid: nat | sid < |v.hist| ensures HistoryOk(v, sid) { AccountHistory(w, sid); }
  }

  lemma FinishInv(w: World, killed: map<Urb, Reply>)
    requires Inv(w) && CanAccount(w, killed)
    ensures Inv(FinishStep(w, killed))
  {
    AccountInv(w);
    var v := AccountStep(w);
    KernelInv(v, v.active - FinishKills(w), v.done + killed);
  }
}
