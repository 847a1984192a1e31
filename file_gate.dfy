/** `_fileLock`: a `SemaphoreSlim` created with one free slot, waited on at the start of
    `GetInstallFile` and released in its `finally` block when its count is 0. */
module FileGate {

  /** The semaphore's count, plus a ghost tally of the requests that acquired it and have not left. */
  class Gate {
    var count: int
    ghost var holders: nat

    /** The count the guarded release keeps: 0 (held) or 1 (free). */
    ghost predicate Valid()
      reads this
    {
      0 <= count <= 1
    }

    /** Mutual exclusion: the slot is free, or exactly one request holds it. */
    ghost predicate Exclusive()
      reads this
    {
      count + holders == 1
    }

    /** `new SemaphoreSlim(1)`. */
    constructor ()
      ensures Valid() && Exclusive()
      ensures count == 1 && holders == 0
    {
      count := 1;
      holders := 0;
    }

    /** `WaitAsync`: takes the slot when it is free. When it is held the wait ends in a time-out;
        a wait that outlasts the holder is the same as this request's wait running after the holder
        has left. */
    method Wait() returns (acquired: bool)
      requires Valid()
      modifies this
      ensures Valid()
      ensures acquired <==> old(count) == 1
      ensures count == if acquired then 0 else old(count)
      ensures holders == if acquired then old(holders) + 1 else old(holders)
      ensures old(Exclusive()) ==> Exclusive()
    {
      acquired := count == 1;
      if acquired {
        count := 0;
        holders := holders + 1;
      }
    }

    /** `SemaphoreSlim.Release`: the count goes up by one, with no ceiling at the initial count. */
    method Release()
      modifies this`count
      ensures count == old(count) + 1
    {
      count := count + 1;
    }

    /** The `finally` block as written: release whenever the count is 0, whether or not this
        request is the one holding the slot. It keeps the count in {0, 1} (releasing a free slot is
        skipped) and always leaves the slot free; it keeps mutual exclusion except on a request
        that did not acquire while another holds the slot. */
    method Finally(acquired: bool)
      requires Valid()
      requires acquired ==> holders > 0
      modifies this
      ensures Valid() && count == 1
      ensures old(count) == 1 ==> count == old(count)
      ensures holders == if acquired then old(holders) - 1 else old(holders)
      ensures old(Exclusive()) && (acquired || old(count) == 1) ==> Exclusive()
      ensures old(Exclusive()) && !acquired && old(count) == 0 ==> count + holders == 2
    {
      if count == 0 {
        Release();
      }
      if acquired {
        holders := holders - 1;
      }
    }

    /** The release the gate needs: only a request that acquired the slot gives it back. */
    method ReleaseIfAcquired(acquired: bool)
      requires Valid() && Exclusive()
      requires acquired ==> holders > 0
      modifies this
      ensures Valid() && Exclusive()
      ensures count == if acquired then 1 else old(count)
      ensures holders == if acquired then old(holders) - 1 else old(holders)
    {
      if acquired {
        Release();
        holders := holders - 1;
      }
    }
  }

  /** Three requests A, B, C on one gate: A holds the slot, B times out and its `finally` releases
      the slot A still holds, so C gets in beside A. */
  method TimedOutRequestOpensHeldSlot() returns (a: bool, b: bool, c: bool, ghost inside: nat)
    ensures a && !b && c
    ensures inside == 2
  {
    var gate := new Gate();
    a := gate.Wait();
    b := gate.Wait();
    gate.Finally(b);
    c := gate.Wait();
    inside := gate.holders;
  }

  /** The same three requests with the corrected release: B's time-out leaves A's hold alone and C
      times out too. */
  method TimedOutRequestKeepsHeldSlot() returns (a: bool, b: bool, c: bool, ghost inside: nat)
    ensures a && !b && !c
    ensures inside == 1
  {
    var gate := new Gate();
    a := gate.Wait();
    b := gate.Wait();
    gate.ReleaseIfAcquired(b);
    c := gate.Wait();
    inside := gate.holders;
  }
}
