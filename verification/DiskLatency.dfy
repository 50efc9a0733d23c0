/** How long the simulated disk takes: seeking, waiting for the sector to come round, and passing it;
    and when the track buffer already holds it. Times are small enough not to overflow an int. */
module DiskLatency {
  const SECTORS_PER_TRACK := 32
  const NUM_TRACKS := 32
  const SECTORS := SECTORS_PER_TRACK * NUM_TRACKS
  const ROTATION_TIME := 500
  const SEEK_TIME := 500

  function Abs(n: int): nat { if n < 0 then -n else n }

  /** TimeToSeek: the seek, and the wait for the next sector boundary after it. */
  function TimeToSeek(now: nat, lastSector: nat, newSector: nat): (nat, nat) {
    var seek := Abs(newSector / SECTORS_PER_TRACK - lastSector / SECTORS_PER_TRACK) * SEEK_TIME;
    var over := (now + seek) % ROTATION_TIME;
    (seek, if over > 0 then ROTATION_TIME - over else 0)
  }

  function ModuloDiff(to: nat, from: nat): nat {
    (to % SECTORS_PER_TRACK - from % SECTORS_PER_TRACK + SECTORS_PER_TRACK) % SECTORS_PER_TRACK
  }

  /** ModuloDiff is the least number of sectors to wait. */
  lemma WaitsLeast(to: nat, from: nat, d: nat)
    ensures (from + ModuloDiff(to, from)) % SECTORS_PER_TRACK == to % SECTORS_PER_TRACK
    ensures (from + d) % SECTORS_PER_TRACK == to % SECTORS_PER_TRACK ==> ModuloDiff(to, from) <= d
    ensures ModuloDiff(to, from) < SECTORS_PER_TRACK
  {
    var f, t := from % SECTORS_PER_TRACK, to % SECTORS_PER_TRACK;
    var q := from / SECTORS_PER_TRACK;
    assert from == SECTORS_PER_TRACK * q + f;
  }

  /** Does the buffer test of ComputeLatency apply? */
  predicate Buffered(now: nat, lastSector: nat, bufferInit: nat, newSector: nat, writing: bool) {
    var (seek, rotation) := TimeToSeek(now, lastSector, newSector);
    var timeAfter := now + seek + rotation;
    !writing && seek == 0 && timeAfter >= bufferInit
    && (timeAfter - bufferInit) / ROTATION_TIME > ModuloDiff(newSector, bufferInit / ROTATION_TIME)
  }

  function Latency(now: nat, lastSector: nat, bufferInit: nat, newSector: nat, writing: bool): nat {
    var (seek, rotation) := TimeToSeek(now, lastSector, newSector);
    var timeAfter := now + seek + rotation;
    if Buffered(now, lastSector, bufferInit, newSector, writing) then ROTATION_TIME
    else seek + rotation + ModuloDiff(newSector, timeAfter / ROTATION_TIME) * ROTATION_TIME + ROTATION_TIME
  }

  /** After the seek and the wait the head is at a sector boundary. */
  lemma SeekEndsAtBoundary(now: nat, lastSector: nat, newSector: nat)
    ensures var (seek, rotation) := TimeToSeek(now, lastSector, newSector);
            (now + seek + rotation) % ROTATION_TIME == 0 && rotation < ROTATION_TIME
  {
    var (seek, rotation) := TimeToSeek(now, lastSector, newSector);
    var over := (now + seek) % ROTATION_TIME;
    assert now + seek == ROTATION_TIME * ((now + seek) / ROTATION_TIME) + over;
  }

  lemma WholeRotations(a: nat, k: nat)
    requires a % ROTATION_TIME == 0
    ensures (a + k * ROTATION_TIME) % ROTATION_TIME == 0 && (a + k * ROTATION_TIME) / ROTATION_TIME == a / ROTATION_TIME + k
  {
  }

  /** An unbuffered request finishes exactly as its sector has passed the head: in the rotation that
      ends then, the sector under the head is the target, modulo the track. */
  lemma FinishesAsSectorPasses(now: nat, lastSector: nat, bufferInit: nat, newSector: nat, writing: bool)
    requires !Buffered(now, lastSector, bufferInit, newSector, writing)
    ensures var done := now + Latency(now, lastSector, bufferInit, newSector, writing);
            && done % ROTATION_TIME == 0 && done / ROTATION_TIME > 0
            && (done / ROTATION_TIME - 1) % SECTORS_PER_TRACK == newSector % SECTORS_PER_TRACK
  {
    hide ModuloDiff, Buffered, TimeToSeek;
    var (seek, rotation) := TimeToSeek(now, lastSector, newSector);
    var timeAfter := now + seek + rotation;
    SeekEndsAtBoundary(now, lastSector, newSector);
    var wait := ModuloDiff(newSector, timeAfter / ROTATION_TIME);
    WaitsLeast(newSector, timeAfter / ROTATION_TIME, 0);
    WholeRotations(timeAfter, wait + 1);
    assert (wait + 1) * ROTATION_TIME == wait * ROTATION_TIME + ROTATION_TIME;
  }

  /** Seeking costs 500 ticks a track, and a buffered request 500 in all. An unbuffered one ends at the first
      moment at which the sector can have passed the head whole after the seek. */
  lemma LatencyIsLeast(now: nat, lastSector: nat, bufferInit: nat, newSector: nat, writing: bool, done: nat)
    ensures TimeToSeek(now, lastSector, newSector).0 == 500 * Abs(newSector / 32 - lastSector / 32)
    ensures var ticks := Latency(now, lastSector, bufferInit, newSector, writing);
            if Buffered(now, lastSector, bufferInit, newSector, writing) then ticks == 500
            else
              && now + 500 * Abs(newSector / 32 - lastSector / 32) + 500 <= now + ticks
              && (done % 500 == 0 && now + 500 * Abs(newSector / 32 - lastSector / 32) + 500 <= done && (done / 500 - 1) % 32 == newSector % 32 ==>
                    now + ticks <= done)
  {
    hide ModuloDiff, Buffered;
    var (seek, rotation) := TimeToSeek(now, lastSector, newSector);
    var timeAfter := now + seek + rotation;
    SeekEndsAtBoundary(now, lastSector, newSector);
    var from := timeAfter / ROTATION_TIME;
    WaitsLeast(newSector, from, 0);
    if done % 500 == 0 && now + seek + 500 <= done && (done / 500 - 1) % 32 == newSector % 32 {
      var slot := done / 500 - 1;
      BoundaryAfter(now + seek, timeAfter, slot);
      WaitsLeast(newSector, from, slot - from);
      assert done == (slot + 1) * 500 && timeAfter == from * 500;
    }
  }

  /** No sector boundary lies between the end of the seek and the one waited for. */
  lemma BoundaryAfter(seekEnd: nat, boundary: nat, slot: nat)
    requires boundary % 500 == 0 && boundary < seekEnd + 500 && seekEnd <= slot * 500
    ensures boundary / 500 <= slot
  {
  }

  /** Between one rotation and 31 tracks, 31 sectors and a bit. */
  lemma LatencyBounds(now: nat, lastSector: nat, bufferInit: nat, newSector: nat, writing: bool)
    requires lastSector < SECTORS && newSector < SECTORS
    ensures ROTATION_TIME <= Latency(now, lastSector, bufferInit, newSector, writing) <= 31999
  {
    hide ModuloDiff, Buffered;
    var (seek, rotation) := TimeToSeek(now, lastSector, newSector);
    SeekEndsAtBoundary(now, lastSector, newSector);
    WaitsLeast(newSector, (now + seek + rotation) / ROTATION_TIME, 0);
    assert seek <= 31 * SEEK_TIME;
  }

  /** What the buffer test means: a read on the current track whose sector has passed the head, whole,
      since the buffer began to fill. */
  lemma BufferedMeansPassed(now: nat, lastSector: nat, bufferInit: nat, newSector: nat, writing: bool)
    requires bufferInit % ROTATION_TIME == 0 && bufferInit <= now
    ensures var (seek, rotation) := TimeToSeek(now, lastSector, newSector);
            Buffered(now, lastSector, bufferInit, newSector, writing) <==>
              && !writing && newSector / SECTORS_PER_TRACK == lastSector / SECTORS_PER_TRACK
              && exists slot: nat :: bufferInit / ROTATION_TIME <= slot < (now + seek + rotation) / ROTATION_TIME
                   && slot % SECTORS_PER_TRACK == newSector % SECTORS_PER_TRACK
  {
    hide ModuloDiff;
    var (seek, rotation) := TimeToSeek(now, lastSector, newSector);
    var timeAfter := now + seek + rotation;
    SeekEndsAtBoundary(now, lastSector, newSector);
    var from, to := bufferInit / ROTATION_TIME, timeAfter / ROTATION_TIME;
    assert bufferInit == from * ROTATION_TIME && timeAfter == to * ROTATION_TIME;
    assert (timeAfter - bufferInit) / ROTATION_TIME == to - from;
    var wait := ModuloDiff(newSector, from);
    WaitsLeast(newSector, from, 0);
    forall slot: nat | from <= slot && slot % SECTORS_PER_TRACK == newSector % SECTORS_PER_TRACK ensures wait <= slot - from {
      WaitsLeast(newSector, from, slot - from);
    }
    if wait < to - from { assert from <= from + wait < to; }
  }

  class Disk {
    var lastSector: nat
    var bufferInit: nat
    var active: bool

    /** The buffer's start is a sector boundary, and in the past unless a request is under way. */
    ghost predicate Valid(now: nat)
      reads this
    {
      lastSector < SECTORS && bufferInit % ROTATION_TIME == 0 && (!active ==> bufferInit <= now)
    }

    constructor ()
      ensures Valid(0) && !active && lastSector == 0 && bufferInit == 0
    {
      lastSector, bufferInit, active := 0, 0, false;
    }

    /** ComputeLatency, and UpdateLast: ReadRequest and WriteRequest without the data. The interrupt
        comes when the latency is over, and by then the buffer has begun to fill. */
    method Request(now: nat, newSector: nat, writing: bool) returns (ticks: nat)
      requires Valid(now) && !active && newSector < SECTORS
      modifies this
      ensures ticks == Latency(now, old(lastSector), old(bufferInit), newSector, writing)
      ensures active && lastSector == newSector && Valid(now) && bufferInit <= now + ticks
      ensures var (seek, rotation) := TimeToSeek(now, old(lastSector), newSector);
              bufferInit == if newSector / SECTORS_PER_TRACK == old(lastSector) / SECTORS_PER_TRACK then old(bufferInit) else now + seek + rotation
    {
      var (seek, rotation) := TimeToSeek(now, lastSector, newSector);
      SeekEndsAtBoundary(now, lastSector, newSector);
      var timeAfter := now + seek + rotation;
      if !writing && seek == 0 && (timeAfter - bufferInit) / ROTATION_TIME > ModuloDiff(newSector, bufferInit / ROTATION_TIME) {
        ticks := ROTATION_TIME;
      } else {
        ticks := seek + rotation + ModuloDiff(newSector, timeAfter / ROTATION_TIME) * ROTATION_TIME + ROTATION_TIME;
      }
      active := true;
      if seek != 0 { bufferInit := now + seek + rotation; }
      lastSector := newSector;
    }

    /** HandleInterrupt, when the request is done. */
    method Done(ghost now: nat)
      requires active && lastSector < SECTORS && bufferInit % ROTATION_TIME == 0 && bufferInit <= now
      modifies this
      ensures Valid(now) && !active && lastSector == old(lastSector) && bufferInit == old(bufferInit)
    {
      active := false;
    }
  }
}
