/** The state a transfer keeps behind its mutex, and the calls that change it. */
module Transfer {
  import opened Wrappers
  import opened Bytes
  import UrbModel

  type Status = UrbModel.Status
  type WakerId = nat
  type CallbackId = nat

  datatype Kind = Control | Bulk | Interrupt | Isochronous
  datatype Failure = Busy | InvalidParam | Backend

  /** `State`; `packets` are the lengths of the isochronous packets. */
  datatype State = State(
    inFlight: bool, buffer: seq<byte>, packets: seq<nat>, status: Status, actual: nat,
    callback: Option<CallbackId>, wakers: seq<WakerId>)

  const SETUP_SIZE := 8

  /** The check `submit` makes before it hands the buffer to the backend. */
  predicate Submittable(st: State, kind: Kind) {
    && (kind == Control ==> |st.buffer| >= SETUP_SIZE)
    && (kind == Isochronous ==> st.packets != [] && UrbModel.Sum(st.packets) <= |st.buffer|)
  }

  /** A control transfer needs room for its eight setup bytes; an isochronous one needs packets, every
      one of which ends inside the buffer. */
  lemma SubmittableMeans(st: State, kind: Kind)
    ensures kind == Control ==> (Submittable(st, kind) <==> |st.buffer| >= 8)
    ensures kind == Isochronous ==>
      (Submittable(st, kind) <==>
         st.packets != [] && forall i: nat {:trigger st.packets[..i]} :: i <= |st.packets| ==> UrbModel.Sum(st.packets[..i]) <= |st.buffer|)
    ensures kind == Bulk || kind == Interrupt ==> Submittable(st, kind)
  {
    assert st.packets[..|st.packets|] == st.packets;
    forall i: nat | i <= |st.packets| ensures UrbModel.Sum(st.packets[..i]) <= UrbModel.Sum(st.packets) { SumGrows(st.packets, i); }
  }

  lemma {:induction false} SumGrows(xs: seq<nat>, i: nat)
    requires i <= |xs|
    ensures UrbModel.Sum(xs[..i]) <= UrbModel.Sum(xs)
  {
    if i == |xs| {
      assert xs[..i] == xs;
    } else {
      SumGrows(xs[..|xs| - 1], i);
      assert xs[..|xs| - 1][..i] == xs[..i];
    }
  }

  /** `submit`, where `accepted` is the backend's answer. */
  function Submit(st: State, kind: Kind, accepted: bool): (r: (State, Result<(), Failure>))
    ensures r.1.Ok? <==> !st.inFlight && Submittable(st, kind) && accepted
    ensures r.0.inFlight == (st.inFlight || r.1.Ok?)
  {
    if st.inFlight then (st, Err(Busy))
    else if !Submittable(st, kind) then (st, Err(InvalidParam))
    else if accepted then (st.(inFlight := true, actual := 0), Ok(()))
    else (st.(actual := 0), Err(Backend))
  }

  /** The first critical section of `complete`: the callback and the wakers are taken out. */
  function Publish(st: State, status: Status, actual: nat): (State, Option<CallbackId>, seq<WakerId>) {
    (st.(inFlight := false, status := status, actual := actual, callback := None, wakers := []), st.callback, st.wakers)
  }

  /** The life cycle of URBs starts a submission, and refuses one, as this does: the backend's answer
      is there whether the device is still attached. */
  lemma StartAgrees(w: UrbModel.World, t: UrbModel.Tid, st: State, kind: Kind)
    requires t in w.xfers && Submittable(st, kind)
    requires st.inFlight == w.xfers[t].inFlight && st.actual == w.xfers[t].actual
    ensures
      var x, st' := UrbModel.SubmitStartStep(w, t).xfers[t], Submit(st, kind, !w.disconnected).0;
      x.inFlight == st'.inFlight && x.actual == st'.actual
  {
  }

  /** A completion too. */
  lemma PublishAgrees(w: UrbModel.World, st: State)
    requires UrbModel.CanPublish(w) && st.inFlight == w.xfers[w.ev.t].inFlight
    ensures
      var x, st' := UrbModel.PublishStep(w).xfers[w.ev.t], Publish(st, w.ev.outcome.status, w.ev.outcome.actual).0;
      x.inFlight == st'.inFlight && x.status == st'.status && x.actual == st'.actual
  {
  }

  /** The second: the callback goes back unless another one was installed meanwhile. */
  function PutBack(st: State, cb: CallbackId): State {
    if st.callback.None? then st.(callback := Some(cb)) else st
  }

  /** Polling the completion future with the waker of task `w`. */
  function Poll(st: State, w: WakerId): (State, Option<Status>) {
    if !st.inFlight then (st, Some(st.status))
    else if w in st.wakers then (st, None)
    else (st.(wakers := st.wakers + [w]), None)
  }

  /** A setter goes through only while the transfer is not in flight. */
  function Configure(st: State, after: State): (State, Result<(), Failure>) {
    if st.inFlight then (st, Err(Busy)) else (after, Ok(()))
  }

  /** The part of the buffer that `data` shows. */
  function DataRange(st: State, kind: Kind): (r: (nat, nat))
    ensures r.0 <= r.1 <= |st.buffer|
  {
    var start := if kind == Control then SETUP_SIZE else 0;
    var end := if start + st.actual < |st.buffer| then start + st.actual else |st.buffer|;
    (if start < end then start else end, end)
  }

  /** `data` is the `actual` bytes after any setup packet, cut off where the buffer ends. */
  lemma DataIsWhatMoved(st: State, kind: Kind)
    ensures
      var start := if kind == Control then 8 else 0;
      var (lo, hi) := DataRange(st, kind);
      && hi - lo <= st.actual
      && (start + st.actual <= |st.buffer| ==> (lo, hi) == (start, start + st.actual))
      && (lo < hi ==> lo == start && (hi - lo < st.actual ==> hi == |st.buffer|))
  {
  }

  /** `Inner`. */
  class Inner {
    const kind: Kind
    var inFlight: bool
    var buffer: seq<byte>
    var packets: seq<nat>
    var status: Status
    var actual: nat
    var callback: Option<CallbackId>
    var wakers: seq<WakerId>

    ghost function View(): State
      reads this
    {
      State(inFlight, buffer, packets, status, actual, callback, wakers)
    }

    /** Wakers are held only for a transfer that is in flight. */
    ghost predicate Valid()
      reads this
    {
      wakers != [] ==> inFlight
    }

    constructor (kind: Kind, buffer: seq<byte>, packets: seq<nat>)
      ensures Valid() && this.kind == kind
      ensures View() == State(false, buffer, packets, UrbModel.Completed, 0, None, [])
    {
      this.kind, this.buffer, this.packets := kind, buffer, packets;
      inFlight, status, actual, callback, wakers := false, UrbModel.Completed, 0, None, [];
    }

    method SubmitTo(accepted: bool) returns (r: Result<(), Failure>)
      requires Valid()
      modifies this`inFlight, this`actual
      ensures Valid() && (View(), r) == Submit(old(View()), kind, accepted)
    {
      if inFlight {
        return Err(Busy);
      }
      if kind == Control && |buffer| < SETUP_SIZE {
        return Err(InvalidParam);
      }
      if kind == Isochronous {
        var total := 0;
        for i := 0 to |packets|
          invariant total == UrbModel.Sum(packets[..i])
        {
          assert packets[..i + 1][..i] == packets[..i];
          total := total + packets[i];
        }
        assert packets[..|packets|] == packets;
        if packets == [] || total > |buffer| {
          return Err(InvalidParam);
        }
      }
      inFlight := true;
      actual := 0;
      if accepted {
        return Ok(());
      }
      inFlight := false;
      r := Err(Backend);
    }

    /** `complete` up to where it lets go of the lock. */
    method PublishResult(st: Status, n: nat) returns (cb: Option<CallbackId>, woken: seq<WakerId>)
      requires Valid()
      modifies this`inFlight, this`status, this`actual, this`callback, this`wakers
      ensures Valid() && (View(), cb, woken) == Publish(old(View()), st, n)
    {
      inFlight := false;
      status := st;
      actual := n;
      cb, woken := callback, wakers;
      callback, wakers := None, [];
    }

    method PutCallbackBack(cb: CallbackId)
      requires Valid()
      modifies this`callback
      ensures Valid() && View() == PutBack(old(View()), cb)
    {
      if callback.None? {
        callback := Some(cb);
      }
    }

    method PollCompletion(w: WakerId) returns (r: Option<Status>)
      requires Valid()
      modifies this`wakers
      ensures Valid() && (View(), r) == Poll(old(View()), w)
    {
      if !inFlight {
        return Some(status);
      }
      if w !in wakers {
        wakers := wakers + [w];
      }
      r := None;
    }

    method SetCallback(cb: Option<CallbackId>) returns (r: Result<(), Failure>)
      requires Valid()
      modifies this`callback
      ensures Valid() && (View(), r) == Configure(old(View()), old(View()).(callback := cb))
    {
      if inFlight {
        return Err(Busy);
      }
      callback := cb;
      r := Ok(());
    }

    method SetBuffer(b: seq<byte>) returns (r: Result<(), Failure>)
      requires Valid()
      modifies this`buffer
      ensures Valid() && (View(), r) == Configure(old(View()), old(View()).(buffer := b))
    {
      if inFlight {
        return Err(Busy);
      }
      buffer := b;
      r := Ok(());
    }

    method TakeBuffer() returns (r: Result<seq<byte>, Failure>)
      requires Valid()
      modifies this`buffer
      ensures Valid() && View() == Configure(old(View()), old(View()).(buffer := [])).0
      ensures r == if old(inFlight) then Err(Busy) else Ok(old(buffer))
    {
      if inFlight {
        return Err(Busy);
      }
      r := Ok(buffer);
      buffer := [];
    }

    method Data() returns (r: Result<seq<byte>, Failure>)
      requires Valid()
      ensures r == if inFlight then Err(Busy) else
        Ok(buffer[DataRange(View(), kind).0..DataRange(View(), kind).1])
    {
      if inFlight {
        return Err(Busy);
      }
      var start := if kind == Control then SETUP_SIZE else 0;
      var end := if start + actual < |buffer| then start + actual else |buffer|;
      r := Ok(buffer[if start < end then start else end..end]);
    }
  }
}
