/** Everything that happens around the completions of one transfer: waiters in the condition
    variable, polled futures, the callback that may submit again, and a `Repeating` being dropped.

    The backend calls `complete` once per accepted submission, from the event thread; that it does
    is proved of the Linux backend in UrbSafety. */
module Completion {
  import opened Wrappers
  import opened Transfer
  import UrbModel

  /** Where the event thread is inside `complete`. */
  datatype Pc =
    | Quiet
    | Notifying(cb: Option<CallbackId>, wakers: seq<WakerId>)  // published, lock released
    | Waking(cb: Option<CallbackId>, wakers: seq<WakerId>)     // condition variable notified
    | Running(called: CallbackId)                              // inside the callback
    | Deciding(called: CallbackId, again: bool)                // about to take the stop lock
    | Holding(called: CallbackId)                              // about to submit, under the stop lock
    | Restoring(called: CallbackId)

  /** A thread in `wait`, or a task that polls with its own waker. */
  datatype Waiter = Away | Blocked | Runnable | Registered | Woken | Finished(status: Status)

  /** How far the drop of the `Repeating` is. */
  datatype DropPc = Live | Flagged | Asked | Gone

  datatype System = System(
    st: State, kind: Kind, pc: Pc, waiters: map<nat, Waiter>, repeating: bool, stop: bool, drop: DropPc,
    cancelAsked: bool,        // the live submission was asked to be cancelled
    submitsAfterStop: nat, completionsAfterStop: nat)

  datatype Step =
    | Wait(i: nat)            // enter `wait`, or look again after waking up
    | Spurious(i: nat)        // a waiter wakes up for no reason
    | PollTask(i: nat)
    | UserSubmit(accepted: bool)
    | UserCallback(cb: Option<CallbackId>)
    | Complete(status: Status, actual: nat)
    | NotifyAll
    | WakeOne
    | WakesDone
    | Decide(again: bool)
    | TakeStopLock
    | Resubmit(accepted: bool)
    | Restore
    | SetStop
    | AskCancel
    | DropDone(timedOut: bool)

  function AfterWait(s: System, i: nat): System {
    s.(waiters := s.waiters[i := if s.st.inFlight then Blocked else Finished(s.st.status)])
  }

  function AfterPoll(s: System, i: nat): System {
    var (st, r) := Poll(s.st, i);
    s.(st := st, waiters := s.waiters[i := if r.Some? then Finished(r.value) else Registered])
  }

  function Submitted(s: System, accepted: bool): System {
    var (st, r) := Submit(s.st, s.kind, accepted);
    if r.Ok? then
      s.(st := st, cancelAsked := false, submitsAfterStop := s.submitsAfterStop + (if s.stop then 1 else 0))
    else s.(st := st)
  }

  function Completed(s: System, status: Status, actual: nat): System {
    var (st, cb, wakers) := Publish(s.st, status, actual);
    s.(st := st, pc := Notifying(cb, wakers),
       completionsAfterStop := s.completionsAfterStop + (if s.stop then 1 else 0))
  }

  function Notified(waiters: map<nat, Waiter>): map<nat, Waiter> {
    map i | i in waiters :: if waiters[i].Blocked? then Runnable else waiters[i]
  }

  predicate Enabled(s: System, step: Step) {
    match step
    case Wait(i) => i in s.waiters && (s.waiters[i].Away? || s.waiters[i].Runnable?)
    case Spurious(i) => i in s.waiters && s.waiters[i].Blocked?
    case PollTask(i) => i in s.waiters && (s.waiters[i].Away? || s.waiters[i].Woken? || s.waiters[i].Registered?)
    case UserSubmit(accepted) => !s.repeating
    case UserCallback(cb) => !s.repeating && !s.st.inFlight
    case Complete(status, actual) => s.pc.Quiet? && s.st.inFlight
    case NotifyAll => s.pc.Notifying?
    case WakeOne => s.pc.Waking? && s.pc.wakers != []
    case WakesDone => s.pc.Waking? && s.pc.wakers == []
    case Decide(again) => s.pc.Running?
    case TakeStopLock => s.pc.Deciding?
    case Resubmit(accepted) => s.pc.Holding?
    case Restore => s.pc.Restoring?
    case SetStop => s.repeating && s.drop.Live? && !s.pc.Holding?
    case AskCancel => s.drop.Flagged?
    case DropDone(timedOut) => s.drop.Asked? && (timedOut || !s.st.inFlight)
  }

  function Apply(s: System, step: Step): System
    requires Enabled(s, step)
  {
    match step
    case Wait(i) => AfterWait(s, i)
    case Spurious(i) => s.(waiters := s.waiters[i := Runnable])
    case PollTask(i) => AfterPoll(s, i)
    case UserSubmit(accepted) => Submitted(s, accepted)
    case UserCallback(cb) => s.(st := s.st.(callback := cb))
    case Complete(status, actual) => Completed(s, status, actual)
    case NotifyAll => s.(pc := Waking(s.pc.cb, s.pc.wakers), waiters := Notified(s.waiters))
    case WakeOne =>
      var i := s.pc.wakers[0];
      s.(pc := Waking(s.pc.cb, s.pc.wakers[1..]),
         waiters := if i in s.waiters && s.waiters[i].Registered? then s.waiters[i := Woken] else s.waiters)
    case WakesDone => s.(pc := if s.pc.cb.Some? then Running(s.pc.cb.value) else Quiet)
    case Decide(again) => s.(pc := Deciding(s.pc.called, again))
    case TakeStopLock => s.(pc := if s.pc.again && !s.stop then Holding(s.pc.called) else Restoring(s.pc.called))
    case Resubmit(accepted) => Submitted(s, accepted).(pc := Restoring(s.pc.called))
    case Restore => s.(pc := Quiet, st := PutBack(s.st, s.pc.called))
    case SetStop => s.(stop := true, drop := Flagged)
    case AskCancel => s.(drop := Asked, cancelAsked := s.st.inFlight)
    case DropDone(timedOut) => s.(drop := Gone)
  }

  predicate Initial(s: System) {
    && s.pc.Quiet? && s.st.wakers == [] && !s.stop && s.drop.Live? && !s.cancelAsked
    && s.submitsAfterStop == 0 && s.completionsAfterStop == 0
    && (forall i :: i in s.waiters ==> s.waiters[i].Away?)
  }

  predicate IsRun(s: System, steps: seq<Step>)
    decreases |steps|
  {
    steps == [] || (Enabled(s, steps[0]) && IsRun(Apply(s, steps[0]), steps[1..]))
  }

  function RunFrom(s: System, steps: seq<Step>): System
    requires IsRun(s, steps)
    decreases |steps|
  {
    if steps == [] then s else RunFrom(Apply(s, steps[0]), steps[1..])
  }

  // ----- what every step keeps -----

  predicate OwesWake(s: System, i: nat) {
    (s.pc.Notifying? || s.pc.Waking?) && i in s.pc.wakers
  }

  /** A blocked thread will be notified; a pending task's waker is held, or is about to be called. */
  predicate Served(s: System, i: nat)
    requires i in s.waiters
  {
    && (s.waiters[i].Blocked? ==> s.st.inFlight || s.pc.Notifying?)
    && (s.waiters[i].Registered? ==> i in s.st.wakers || OwesWake(s, i))
  }

  /** The stop flag is never set while the callback holds its lock to submit.  Since the flag was
      set nothing was submitted, and what was in flight completes at most once. */
  predicate Stopping(s: System) {
    && (s.stop <==> !s.drop.Live?) && (s.stop ==> s.repeating && !s.pc.Holding?)
    && s.submitsAfterStop == 0 && (!s.stop ==> s.completionsAfterStop == 0)
    && s.completionsAfterStop + (if s.stop && s.st.inFlight then 1 else 0) <= 1
    && ((s.drop.Asked? || s.drop.Gone?) && s.st.inFlight ==> s.cancelAsked)
  }

  predicate Inv(s: System) {
    && (s.st.wakers != [] ==> s.st.inFlight)
    && (forall i :: i in s.waiters ==> Served(s, i))
    && Stopping(s)
  }

  lemma ServedKept(s: System, step: Step, i: nat)
    requires Inv(s) && Enabled(s, step) && i in Apply(s, step).waiters
    ensures Served(Apply(s, step), i)
  {
    if i in s.waiters { assert Served(s, i); }
    if step.WakeOne? {
      var w := s.pc.wakers;
      assert w == [w[0]] + w[1..];
    }
  }

  lemma StoppingKept(s: System, step: Step)
    requires Inv(s) && Enabled(s, step)
    ensures Stopping(Apply(s, step))
  {
  }

  lemma StepInv(s: System, step: Step)
    requires Inv(s) && Enabled(s, step)
    ensures Inv(Apply(s, step))
  {
    StoppingKept(s, step);
    forall i | i in Apply(s, step).waiters ensures Served(Apply(s, step), i) {
      ServedKept(s, step, i);
    }
  }

  lemma {:induction false} RunInv(s: System, steps: seq<Step>)
    requires Inv(s) && IsRun(s, steps)
    ensures Inv(RunFrom(s, steps))
    decreases |steps|
  {
    if steps != [] {
      StepInv(s, steps[0]);
      RunInv(Apply(s, steps[0]), steps[1..]);
    }
  }

  // ----- no lost waiter -----

  /** In every reachable state: wakers are held only while in flight, and once the event thread is
      past waking, whoever still sleeps is waiting for a transfer that is in flight. */
  lemma NoLostWaiter(s: System, steps: seq<Step>, i: nat)
    requires Initial(s) && IsRun(s, steps) && i in RunFrom(s, steps).waiters
    ensures
      var e := RunFrom(s, steps);
      && (e.st.wakers != [] ==> e.st.inFlight)
      && (!e.pc.Notifying? && !e.pc.Waking? && (e.waiters[i].Blocked? || e.waiters[i].Registered?) ==> e.st.inFlight)
      && (!e.st.inFlight && e.waiters[i].Registered? ==> OwesWake(e, i))
  {
    RunInv(s, steps);
    assert Served(RunFrom(s, steps), i);
  }

  /** As long as its waker is owed, a task is registered or the wake has come. */
  lemma OwedStep(s: System, step: Step, i: nat)
    requires Enabled(s, step) && i in s.waiters && s.waiters[i].Registered? && OwesWake(s, i)
    ensures
      var next := Apply(s, step);
      i in next.waiters && (if next.waiters[i].Registered? then OwesWake(next, i)
                            else next.waiters[i].Woken? || next.waiters[i].Finished?)
  {
    if step.WakeOne? {
      var w := s.pc.wakers;
      assert w == [w[0]] + w[1..];
    }
  }

  /** A task whose waker is owed has been woken by the time the event thread has called them all. */
  lemma {:induction false} OwedIsWoken(s: System, steps: seq<Step>, i: nat) returns (k: nat)
    requires IsRun(s, steps) && i in s.waiters && s.waiters[i].Registered? && OwesWake(s, i)
    requires !RunFrom(s, steps).pc.Notifying? && !RunFrom(s, steps).pc.Waking?
    ensures k < |steps| && IsRun(s, steps[..k]) && i in RunFrom(s, steps[..k]).waiters
    ensures var w := RunFrom(s, steps[..k]).waiters[i]; w.Woken? || w.Finished?
    decreases |steps|
  {
    assert steps != [];
    var next := Apply(s, steps[0]);
    var rest := steps[1..];
    OwedStep(s, steps[0], i);
    if next.waiters[i].Registered? {
      var k' := OwedIsWoken(next, rest, i);
      k := k' + 1;
      assert steps[..k][1..] == rest[..k'];
    } else {
      k := 1;
      assert steps[..1][1..] == [];
      assert rest != [];
    }
  }

  /** Every task pending when a completion is published is woken by it. */
  lemma WokenByCompletion(s: System, c: Step, steps: seq<Step>, i: nat) returns (k: nat)
    requires Inv(s) && c.Complete? && Enabled(s, c) && i in s.waiters && s.waiters[i].Registered?
    requires IsRun(Apply(s, c), steps)
    requires !RunFrom(Apply(s, c), steps).pc.Notifying? && !RunFrom(Apply(s, c), steps).pc.Waking?
    ensures k < |steps| && IsRun(Apply(s, c), steps[..k]) && i in RunFrom(Apply(s, c), steps[..k]).waiters
    ensures var w := RunFrom(Apply(s, c), steps[..k]).waiters[i]; w.Woken? || w.Finished?
  {
    assert Served(s, i);
    k := OwedIsWoken(Apply(s, c), steps, i);
  }

  // ----- a clean stop -----

  /** In every reachable state: nothing was submitted since the stop flag was set, at most one
      completion came after it, and once the drop has asked for a cancel, a transfer still in
      flight is one that was asked.  When the drop is over without a time-out it is over for good. */
  lemma CleanStop(s: System, steps: seq<Step>)
    requires Initial(s) && s.repeating && IsRun(s, steps)
    ensures
      var e := RunFrom(s, steps);
      && e.submitsAfterStop == 0 && e.completionsAfterStop <= 1
      && ((e.drop.Asked? || e.drop.Gone?) && e.st.inFlight ==> e.cancelAsked)
      && (e.completionsAfterStop == 1 ==> !e.st.inFlight)
  {
    RunInv(s, steps);
  }

  /** Once stopped and not in flight, a `Repeating` never flies again. */
  lemma {:induction false} StaysDown(s: System, steps: seq<Step>)
    requires Inv(s) && s.stop && !s.st.inFlight && IsRun(s, steps)
    ensures !RunFrom(s, steps).st.inFlight
    decreases |steps|
  {
    if steps != [] {
      StepInv(s, steps[0]);
      StaysDown(Apply(s, steps[0]), steps[1..]);
    }
  }

  // ----- what is reported, and what is asked -----

  /** The status of the last completion of a run. */
  function LastStatus(before: Status, steps: seq<Step>): Status
    decreases |steps|
  {
    if steps == [] then before
    else LastStatus(if steps[0].Complete? then steps[0].status else before, steps[1..])
  }

  lemma StepReports(s: System, step: Step)
    requires Enabled(s, step)
    ensures Apply(s, step).st.status == if step.Complete? then step.status else s.st.status
  {
  }

  lemma {:induction false} RunReports(s: System, steps: seq<Step>)
    requires IsRun(s, steps)
    ensures RunFrom(s, steps).st.status == LastStatus(s.st.status, steps)
    decreases |steps|
  {
    if steps != [] {
      StepReports(s, steps[0]);
      RunReports(Apply(s, steps[0]), steps[1..]);
    }
  }

  /** A `wait` or a poll that ends finds the transfer idle and returns the status of its last completion. */
  lemma EndsWithLast(s: System, steps: seq<Step>, step: Step, i: nat)
    requires IsRun(s, steps) && Enabled(RunFrom(s, steps), step) && (step == Wait(i) || step == PollTask(i))
    requires Apply(RunFrom(s, steps), step).waiters[i].Finished?
    ensures !RunFrom(s, steps).st.inFlight
    ensures Apply(RunFrom(s, steps), step).waiters[i].status == LastStatus(s.st.status, steps)
  {
    RunReports(s, steps);
  }

  /** What the callback last said about going on. */
  function LastAsked(before: bool, steps: seq<Step>): bool
    decreases |steps|
  {
    if steps == [] then before else LastAsked(if steps[0].Decide? then steps[0].again else before, steps[1..])
  }

  predicate Recalls(s: System, last: bool) {
    (s.pc.Deciding? ==> s.pc.again == last) && (s.pc.Holding? ==> last)
  }

  lemma StepAsked(s: System, step: Step, last: bool)
    requires Enabled(s, step) && Recalls(s, last)
    ensures Recalls(Apply(s, step), if step.Decide? then step.again else last)
    ensures step.TakeStopLock? ==> (Apply(s, step).pc.Holding? <==> last && !s.stop)
  {
  }

  lemma {:induction false} RunAsked(s: System, steps: seq<Step>, last: bool)
    requires IsRun(s, steps) && Recalls(s, last)
    ensures Recalls(RunFrom(s, steps), LastAsked(last, steps))
    decreases |steps|
  {
    if steps != [] {
      StepAsked(s, steps[0], last);
      RunAsked(Apply(s, steps[0]), steps[1..], if steps[0].Decide? then steps[0].again else last);
    }
  }

  /** The event thread goes on to submit again exactly if the callback last asked for it and nobody
      asked to stop. */
  lemma AgainExactly(s: System, steps: seq<Step>)
    requires Initial(s) && IsRun(s, steps) && RunFrom(s, steps).pc.Deciding?
    ensures Apply(RunFrom(s, steps), TakeStopLock).pc.Holding? <==> LastAsked(false, steps) && !RunFrom(s, steps).stop
  {
    RunAsked(s, steps, false);
    StepAsked(RunFrom(s, steps), TakeStopLock, LastAsked(false, steps));
  }

  // ----- the callback comes back -----

  /** The callback that the event thread has taken out and will put back. */
  function InHand(pc: Pc): Option<CallbackId> {
    match pc
    case Quiet => None
    case Notifying(cb, _) => cb
    case Waking(cb, _) => cb
    case Running(c) => Some(c)
    case Deciding(c, _) => Some(c)
    case Holding(c) => Some(c)
    case Restoring(c) => Some(c)
  }

  /** What the callback will be when the event thread is next at rest, if nobody sets another. */
  function Settled(s: System): Option<CallbackId> {
    if s.st.callback.Some? then s.st.callback else InHand(s.pc)
  }

  /** Only the user changes the callback; completions keep it. */
  lemma CallbackKept(s: System, step: Step)
    requires Enabled(s, step) && !step.UserCallback?
    ensures Settled(Apply(s, step)) == Settled(s)
  {
  }

  lemma {:induction false} CallbackKeptByRun(s: System, steps: seq<Step>)
    requires IsRun(s, steps) && forall k :: 0 <= k < |steps| ==> !steps[k].UserCallback?
    ensures Settled(RunFrom(s, steps)) == Settled(s)
    decreases |steps|
  {
    if steps != [] {
      CallbackKept(s, steps[0]);
      CallbackKeptByRun(Apply(s, steps[0]), steps[1..]);
    }
  }

  /** Setting a callback always sticks.  Removing it sticks exactly if the event thread has not
      taken it out: `clear_callback` from inside the callback itself is undone. */
  lemma SettingSticks(s: System, cb: Option<CallbackId>, steps: seq<Step>)
    requires Enabled(s, UserCallback(cb)) && IsRun(Apply(s, UserCallback(cb)), steps)
    requires forall k :: 0 <= k < |steps| ==> !steps[k].UserCallback?
    requires RunFrom(Apply(s, UserCallback(cb)), steps).pc.Quiet?
    ensures RunFrom(Apply(s, UserCallback(cb)), steps).st.callback == cb <==> cb.Some? || InHand(s.pc).None?
  {
    CallbackKeptByRun(Apply(s, UserCallback(cb)), steps);
  }

  lemma {:induction false} RunThen(s: System, steps: seq<Step>, step: Step)
    requires IsRun(s, steps) && Enabled(RunFrom(s, steps), step)
    ensures IsRun(s, steps + [step]) && RunFrom(s, steps + [step]) == Apply(RunFrom(s, steps), step)
    decreases |steps|
  {
    var all := steps + [step];
    if steps == [] {
      assert all[1..] == [];
      assert IsRun(Apply(s, step), all[1..]);
    } else {
      RunThen(Apply(s, steps[0]), steps[1..], step);
      assert all[1..] == steps[1..] + [step];
    }
  }

  /** From a new transfer into its callback: set, submitted, completed. */
  lemma IntoCallback(c: CallbackId) returns (s: System, steps: seq<Step>)
    ensures Initial(s) && IsRun(s, steps) && |steps| == 5
    ensures var e := RunFrom(s, steps);
      e.pc == Running(c) && !e.repeating && !e.stop && !e.st.inFlight
  {
    var st := State(false, [], [], UrbModel.Completed, 0, None, []);
    s := System(st, Bulk, Quiet, map[], false, false, Live, false, 0, 0);
    steps := [];
    RunThen(s, steps, UserCallback(Some(c)));
    steps := steps + [UserCallback(Some(c))];
    RunThen(s, steps, UserSubmit(true));
    steps := steps + [UserSubmit(true)];
    RunThen(s, steps, Complete(UrbModel.Completed, 0));
    steps := steps + [Complete(UrbModel.Completed, 0)];
    RunThen(s, steps, NotifyAll);
    steps := steps + [NotifyAll];
    RunThen(s, steps, WakesDone);
    steps := steps + [WakesDone];
  }

  /** A run of a new transfer in which its callback clears itself, sets nothing else, and is
      installed all the same when the event thread is done. */
  lemma ClearUndone(c: CallbackId) returns (s: System, steps: seq<Step>)
    ensures Initial(s) && IsRun(s, steps) && |steps| == 9
    ensures IsRun(s, steps[..5]) && RunFrom(s, steps[..5]).pc == Running(c)
    ensures steps[5] == UserCallback(None) && forall k :: 5 < k < 9 ==> !steps[k].UserCallback?
    ensures RunFrom(s, steps).pc.Quiet? && RunFrom(s, steps).st.callback == Some(c)
  {
    s, steps := IntoCallback(c);
    ghost var before := steps;
    RunThen(s, steps, UserCallback(None));
    steps := steps + [UserCallback(None)];
    RunThen(s, steps, Decide(false));
    steps := steps + [Decide(false)];
    RunThen(s, steps, TakeStopLock);
    steps := steps + [TakeStopLock];
    RunThen(s, steps, Restore);
    steps := steps + [Restore];
    assert steps[..5] == before;
  }

  // ----- `Repeating` as the code has it -----

  class Repeating {
    const transfer: Inner
    var stop: bool

    constructor (transfer: Inner)
      ensures this.transfer == transfer && !stop
    {
      this.transfer, stop := transfer, false;
    }

    /** `start`: install the callback and submit; the transfer must be idle for either. */
    static method Start(transfer: Inner, cb: CallbackId, accepted: bool) returns (r: Result<Repeating, Failure>)
      requires transfer.Valid()
      modifies transfer
      ensures transfer.Valid()
      ensures old(transfer.inFlight) ==> r == Err(Busy) && transfer.View() == old(transfer.View())
      ensures !old(transfer.inFlight) ==>
        transfer.View() == Submit(old(transfer.View()).(callback := Some(cb)), transfer.kind, accepted).0
      ensures r.Ok? <==> !old(transfer.inFlight) && transfer.inFlight
      ensures r.Ok? ==> fresh(r.value) && r.value.transfer == transfer && !r.value.stop
    {
      var installed := transfer.SetCallback(Some(cb));
      if installed.Err? { return Err(installed.error); }
      var sub := transfer.SubmitTo(accepted);
      if sub.Err? { return Err(sub.error); }
      var it := new Repeating(transfer);
      r := Ok(it);
    }

    /** What the callback does after `on_complete` said `again`: the steps TakeStopLock and Resubmit. */
    method AfterCompletion(again: bool, accepted: bool)
      requires transfer.Valid()
      modifies transfer
      ensures transfer.Valid()
      ensures transfer.View() ==
        if again && !stop then Submit(old(transfer.View()), transfer.kind, accepted).0 else old(transfer.View())
    {
      if again && !stop {
        var _ := transfer.SubmitTo(accepted);
      }
    }
  }
}
