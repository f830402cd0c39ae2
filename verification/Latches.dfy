/** The exit latch of a process: a flag and a semaphore, posted twice on release. */
module Latches {

  class Latch {
    var unlatched: bool
    var count: nat          // the value of the semaphore
    var sleepers: nat       // processes inside sem_wait

    constructor ()
      ensures !unlatched && count == 0 && sleepers == 0
    {
      unlatched, count, sleepers := false, 0, 0;
    }

    /** Nobody sleeps while the semaphore is positive. */
    ghost predicate Valid()
      reads this
    {
      sleepers > 0 ==> count == 0
    }

    /** @return whether the caller goes on at once; otherwise it sleeps until a post. */
    method Wait() returns (passed: bool)
      requires Valid()
      modifies this`count, this`sleepers
      ensures Valid()
      ensures passed <==> old(unlatched) || old(count) > 0
      ensures passed ==> sleepers == old(sleepers) && count == if old(unlatched) then old(count) else old(count) - 1
      ensures !passed ==> sleepers == old(sleepers) + 1 && count == old(count)
    {
      if unlatched {
        return true;
      }
      passed := SemWait();
    }

    method SemWait() returns (passed: bool)
      requires Valid()
      modifies this`count, this`sleepers
      ensures Valid()
      ensures passed <==> old(count) > 0
      ensures passed ==> count == old(count) - 1 && sleepers == old(sleepers)
      ensures !passed ==> sleepers == old(sleepers) + 1 && count == old(count)
    {
      passed := count > 0;
      if passed {
        count := count - 1;
      } else {
        sleepers := sleepers + 1;
      }
    }

    method SemPost()
      requires Valid()
      modifies this`count, this`sleepers
      ensures Valid()
      ensures old(sleepers) > 0 ==> sleepers == old(sleepers) - 1 && count == old(count)
      ensures old(sleepers) == 0 ==> sleepers == 0 && count == old(count) + 1
    {
      if sleepers > 0 {
        sleepers := sleepers - 1;
      } else {
        count := count + 1;
      }
    }

    /** Releases the latch.  Everybody who sleeps wakes up exactly when there were at most
        two of them, and from then on nobody goes to sleep again; the posts that wake nobody
        stay in the semaphore. */
    method Unlatch()
      requires Valid()
      modifies this
      ensures Valid() && unlatched
      ensures sleepers == 0 <==> old(sleepers) <= 2
      ensures sleepers == if old(sleepers) <= 2 then 0 else old(sleepers) - 2
      ensures count == old(count) + (if old(sleepers) <= 2 then 2 - old(sleepers) else 0)
    {
      unlatched := true;
      SemPost();
      SemPost();
    }
  }
}
