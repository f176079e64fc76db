/**
 * The delay line of the attitude stabiliser: a flat ring of 7 slots of three cells each and a
 * cursor that names the first cell of the current slot. Every cycle reads the slot at the
 * cursor, overwrites it with the current reference and moves the cursor on by one slot.
 *
 * This module states the ring's contents as a function of the references written so far
 * (`RingOf`), and proves that the cell read at the cursor holds the reference of exactly
 * seven cycles earlier.
 */
module DelayLine {
  import opened Vectors

  /** `CTRL_NUM_TSTEP`: the depth of the delay, in cycles. */
  const NumTsteps: nat := 7

  /** Number of cells of the flat ring, `3 * CTRL_NUM_TSTEP`. */
  const RingLen: nat := 3 * NumTsteps

  /** `n` zero cells: the ring as initialisation leaves it. */
  function Zeros(n: nat): seq<real>
  {
    seq(n, _ => 0.0)
  }

  /** Overwrites the three cells of the slot starting at `cursor` with `v`. */
  function Push(ring: seq<real>, cursor: nat, v: Vec3): (r: seq<real>)
    requires cursor + 3 <= |ring|
    ensures |r| == |ring|
  {
    ring[cursor := v[0]][cursor + 1 := v[1]][cursor + 2 := v[2]]
  }

  /** A push changes exactly the three cells of its slot, to the pushed vector, and leaves
      every other cell as it was. */
  lemma PushOnlyChangesSlot(ring: seq<real>, cursor: nat, v: Vec3)
    requires cursor + 3 <= |ring|
    ensures forall k :: 0 <= k < |ring| ==>
      Push(ring, cursor, v)[k] == if cursor <= k < cursor + 3 then v[k - cursor] else ring[k]
  {
  }

  /** The cursor update: on by one slot, back to 0 once it reaches the end of the ring. From
      any slot start it lands on a slot start, so a whole slot always fits behind it. */
  function Advance(cursor: int): (r: int)
    ensures 0 <= cursor ==> 0 <= r < RingLen
    ensures 0 <= cursor && cursor % 3 == 0 ==> r % 3 == 0 && r + 3 <= RingLen
  {
    if cursor + 3 >= RingLen then 0 else cursor + 3
  }

  /** The cursor after `n` cycles since initialisation. */
  function Cursor(n: nat): nat
  {
    3 * (n % NumTsteps)
  }

  /** The ring after the first `n` references of `h` were written, in order, into a zeroed
      ring. */
  function RingAfter(h: seq<Vec3>, n: nat): (r: seq<real>)
    requires n <= |h|
    ensures |r| == RingLen
  {
    if n == 0 then Zeros(RingLen)
    else Push(RingAfter(h, n - 1), Cursor(n - 1), h[n - 1])
  }

  /** The ring after all the references `h` were written. */
  function RingOf(h: seq<Vec3>): (r: seq<real>)
    ensures |r| == RingLen
  {
    RingAfter(h, |h|)
  }

  /** What a prefix left in the ring does not depend on what is written after it. */
  lemma {:induction false} RingAfterExtend(h: seq<Vec3>, v: Vec3, n: nat)
    requires n <= |h|
    ensures RingAfter(h + [v], n) == RingAfter(h, n)
    decreases n
  {
    if n > 0 {
      RingAfterExtend(h, v, n - 1);
      assert (h + [v])[n - 1] == h[n - 1];
    }
  }

  /** Writing one more reference pushes it at the cursor. */
  lemma RingOfSnoc(h: seq<Vec3>, v: Vec3)
    ensures RingOf(h + [v]) == Push(RingOf(h), Cursor(|h|), v)
  {
    RingAfterExtend(h, v, |h|);
  }

  /** The reference the next cycle reads: the one written seven cycles ago, or zero while fewer
      than seven references have been written. */
  function DelayedRef(h: seq<Vec3>): Vec3
  {
    if |h| >= NumTsteps then h[|h| - NumTsteps] else Zero3
  }

  /** The cursor is always the start of a slot, and advancing it follows the cycle count. */
  lemma CursorStep(n: nat)
    ensures Cursor(n) % 3 == 0 && 0 <= Cursor(n) <= RingLen - 3
    ensures Advance(Cursor(n)) == Cursor(n + 1)
  {
  }

  /** Going back 1..6 slots from a slot never lands on the slot itself. */
  lemma SlotShiftDiffers(x: nat, k: nat)
    requires 1 <= k < NumTsteps
    ensures (x + NumTsteps - k) % NumTsteps != x % NumTsteps
  {
  }

  /**
   * The ring holds the most recent seven references: after n writes, for m = 1..7, the slot
   * written m cycles ago holds the reference of that cycle, or zero when fewer than m
   * references were written.
   */
  lemma {:induction false} RingHoldsLastSeven(h: seq<Vec3>, n: nat, m: nat, i: nat)
    requires n <= |h| && 1 <= m <= NumTsteps && i < 3
    ensures RingAfter(h, n)[3 * ((n + NumTsteps - m) % NumTsteps) + i]
         == if n >= m then h[n - m][i] else 0.0
    decreases n
  {
    if n > 0 {
      var c := Cursor(n - 1);
      PushOnlyChangesSlot(RingAfter(h, n - 1), c, h[n - 1]);
      if m > 1 {
        assert (n + NumTsteps - m) % NumTsteps == (n - 1 + NumTsteps - (m - 1)) % NumTsteps;
        SlotShiftDiffers(n - 1, m - 1);
        RingHoldsLastSeven(h, n - 1, m - 1, i);
      }
    }
  }

  /** The cell the next cycle reads at the cursor holds the reference of exactly seven cycles
      earlier, and zero during the first seven cycles. */
  lemma DelayIsSeven(h: seq<Vec3>, i: nat)
    requires i < 3
    ensures RingOf(h)[Cursor(|h|) + i] == DelayedRef(h)[i]
  {
    RingHoldsLastSeven(h, |h|, NumTsteps, i);
  }

  /** The whole slot at the cursor is the delayed reference. */
  lemma DelayedSlot(h: seq<Vec3>)
    ensures Cursor(|h|) + 3 <= RingLen
    ensures RingOf(h)[Cursor(|h|)..Cursor(|h|) + 3] == DelayedRef(h)
  {
    var r, c, d := RingOf(h), Cursor(|h|), DelayedRef(h);
    assert r[c] == d[0] by { DelayIsSeven(h, 0); }
    assert r[c + 1] == d[1] by { DelayIsSeven(h, 1); }
    assert r[c + 2] == d[2] by { DelayIsSeven(h, 2); }
    SliceOfThree(r, c, d);
  }

  lemma SliceOfThree(r: seq<real>, c: nat, d: Vec3)
    requires c + 3 <= |r| && r[c] == d[0] && r[c + 1] == d[1] && r[c + 2] == d[2]
    ensures r[c..c + 3] == d
  {
  }

  /** The delay seen from the writer's side: after seven further cycles, whatever was written,
      the cursor is back at the slot of `v` and reading it returns `v`. */
  lemma WrittenValueReturnsSevenCyclesLater(h: seq<Vec3>, v: Vec3, later: seq<Vec3>, i: nat)
    requires |later| == NumTsteps - 1 && i < 3
    ensures RingOf(h + [v] + later)[Cursor(|h|) + i] == v[i]
  {
    var g := h + [v] + later;
    assert |g| == |h| + NumTsteps && g[|g| - NumTsteps] == v;
    assert Cursor(|g|) == Cursor(|h|);
    assert RingOf(g)[Cursor(|g|) + i] == DelayedRef(g)[i] by { DelayIsSeven(g, i); }
  }
}
