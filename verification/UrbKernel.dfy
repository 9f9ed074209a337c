/** What the kernel says about a URB it gives back: the conditions it knows, and how it writes them. */
module UrbKernel {

  datatype Condition = Finished | Unlinked | Removed | Stalled | Babbled | TooLate | Faulty

  /** The code written for a condition is a negated error number (ENOENT 2, ENODEV 19, EPIPE 32, ETIME 62,
      EOVERFLOW 75, ECONNRESET 104, ESHUTDOWN 108, ETIMEDOUT 110 on Linux), or any other for a fault. */
  predicate Writes(c: Condition, code: int) {
    match c
    case Finished => code == 0
    case Unlinked => code == -2 || code == -104
    case Removed => code == -19 || code == -108
    case Stalled => code == -32
    case Babbled => code == -75
    case TooLate => code == -62 || code == -110
    case Faulty => code !in {0, -2, -19, -32, -62, -75, -104, -108, -110}
  }

  /** Every code is that of one condition. */
  function Meant(code: int): (c: Condition)
    ensures Writes(c, code)
    ensures forall d :: Writes(d, code) ==> d == c
  {
    if code == 0 then Finished
    else if code == -2 || code == -104 then Unlinked
    else if code == -19 || code == -108 then Removed
    else if code == -32 then Stalled
    else if code == -75 then Babbled
    else if code == -62 || code == -110 then TooLate
    else Faulty
  }

  /** The bytes in the packets of an isochronous URB. */
  function InPackets(lengths: seq<nat>): nat {
    if lengths == [] then 0 else lengths[0] + InPackets(lengths[1..])
  }

  lemma {:induction false} InPacketsLast(lengths: seq<nat>, n: nat)
    ensures InPackets(lengths + [n]) == InPackets(lengths) + n
  {
    if lengths == [] {
      assert (lengths + [n])[1..] == [];
    } else {
      InPacketsLast(lengths[1..], n);
      assert (lengths + [n])[1..] == lengths[1..] + [n];
    }
  }
}
