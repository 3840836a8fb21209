/** The per-meter history of readings that the plots draw: a list that
    starts as 600 zeros and, on every reading, has the reading appended at
    the end and its first element deleted. */
module SampleBuffer {

  /** Number of readings each history holds. */
  const Capacity: nat := 600

  /** The history before any reading has arrived. */
  function Initial(): (b: seq<real>)
    ensures |b| == Capacity
    ensures forall i :: 0 <= i < |b| ==> b[i] == 0.0
  {
    seq(Capacity, _ => 0.0)
  }

  /** The history after the reading `v`: `append(v)` followed by `del [0]`.
      The newest reading is last, the oldest is dropped, the length is kept;
      an empty list stays empty, since the appended reading is the one deleted. */
  function Receive(b: seq<real>, v: real): (r: seq<real>)
    ensures |r| == |b|
    ensures forall i :: 0 <= i < |b| - 1 ==> r[i] == b[i + 1]
    ensures b != [] ==> r[|b| - 1] == v
    ensures b != [] ==> r == b[1..] + [v]
  {
    (b + [v])[1..]
  }

  /** The history after the readings `vs`, in arrival order. */
  function ReceiveAll(b: seq<real>, vs: seq<real>): (r: seq<real>)
    ensures |r| == |b|
    decreases |vs|
  {
    if vs == [] then b else ReceiveAll(Receive(b, vs[0]), vs[1..])
  }

  /** Whatever the readings, the history is the newest `|b|` entries of the
      old history followed by the readings, in arrival order. */
  lemma {:induction false} ReceiveAllKeepsNewest(b: seq<real>, vs: seq<real>)
    ensures ReceiveAll(b, vs) == (b + vs)[|vs|..]
    decreases |vs|
  {
    if vs != [] {
      var b' := Receive(b, vs[0]);
      ReceiveAllKeepsNewest(b', vs[1..]);
      assert b' + vs[1..] == (b + vs)[1..];
    }
  }

  /** From the start of the program: every history holds exactly 600
      readings; once 600 readings have arrived it holds the last 600 of
      them, and before that the remaining zeros followed by all of them. */
  lemma HistoryFromStart(vs: seq<real>)
    ensures |ReceiveAll(Initial(), vs)| == Capacity
    ensures |vs| >= Capacity ==> ReceiveAll(Initial(), vs) == vs[|vs| - Capacity..]
    ensures |vs| < Capacity ==> ReceiveAll(Initial(), vs) == Initial()[|vs|..] + vs
  {
    ReceiveAllKeepsNewest(Initial(), vs);
    if |vs| >= Capacity {
      assert (Initial() + vs)[|vs|..] == vs[|vs| - Capacity..];
    } else {
      assert (Initial() + vs)[|vs|..] == Initial()[|vs|..] + vs;
    }
  }
}
