/** The animation loop's frame counter: incremented every frame, and at every
    checkpoint frame (a multiple of the check or log interval) set back to
    zero once it has passed 1000, so that it stays small. */
module FrameClock {
  import opened JsNumber
  import opened Geometry

  /** The counter value past which a checkpoint resets it */
  const ResetAbove: nat := 1000

  /** The check and log intervals the entry points use */
  predicate KnownInterval(interval: nat)
  {
    interval == 30 || interval == 60
  }

  /** The counter after one frame */
  function NextCount(interval: nat, counter: nat): nat
    requires interval > 0
  {
    var c := counter + 1;
    if c % interval == 0 && c > ResetAbove then 0 else c
  }

  /** The largest value the counter ever holds for those intervals: 1020 is
      the first multiple of both 30 and 60 beyond 1000. */
  const Bound: nat := 1019

  /** The counter never exceeds 1019. */
  lemma NextCountBounded(interval: nat, counter: nat)
    requires KnownInterval(interval) && counter <= Bound
    ensures NextCount(interval, counter) <= Bound
  {
    if counter + 1 == Bound + 1 {
      assert (Bound + 1) % interval == 0;
    }
  }

  /** A reset only happens at a checkpoint beyond 1000. */
  lemma ResetOnlyAtCheckpoint(interval: nat, counter: nat)
    requires interval > 0
    ensures NextCount(interval, counter) == 0 <==> (counter + 1) % interval == 0 && counter + 1 > ResetAbove
  {
  }

  class FrameCounter {
    const interval: nat
    var frameCounter: nat

    predicate Valid()
      reads this
    {
      KnownInterval(interval) && frameCounter <= Bound
    }

    constructor (interval: nat)
      requires KnownInterval(interval)
      ensures Valid() && this.interval == interval && frameCounter == 0
    {
      this.interval := interval;
      frameCounter := 0;
    }

    /** `frameCounter++` and the checkpoint test of the animation loop;
        `checkpoint` tells whether this frame runs the periodic checks. */
    method Tick() returns (checkpoint: bool)
      requires Valid()
      modifies this
      ensures Valid()
      ensures checkpoint <==> (old(frameCounter) + 1) % interval == 0
      ensures frameCounter == NextCount(interval, old(frameCounter))
    {
      NextCountBounded(interval, frameCounter);
      frameCounter := frameCounter + 1;
      checkpoint := frameCounter % interval == 0;
      if checkpoint {
        if frameCounter > ResetAbove {
          frameCounter := 0;
        }
      }
    }
  }

  /** A camera position as JavaScript numbers */
  datatype NumVec3 = NumVec3(x: Num, y: Num, z: Num)

  /** The checkpoint test for a broken camera */
  predicate InvalidPosition(p: NumVec3)
  {
    p.x.NaN? || p.y.NaN? || p.z.NaN?
  }

  function Embed(p: Vec3): NumVec3
  {
    NumVec3(Fin(p.x), Fin(p.y), Fin(p.z))
  }

  /** The camera position after a frame's checks: a checkpoint puts a camera
      with a NaN coordinate back at its initial position. */
  function CheckedPosition(checkpoint: bool, p: NumVec3, initial: Vec3): (r: NumVec3)
    ensures checkpoint ==> !InvalidPosition(r)
    ensures !InvalidPosition(p) ==> r == p
    ensures checkpoint && InvalidPosition(p) ==> r == Embed(initial)
  {
    if checkpoint && InvalidPosition(p) then Embed(initial) else p
  }
}
