/** Blocking a caller until its request completes: the handle's flag, the signal,
    and the timed wait. */
module Waiting {
  import opened OvsTypes

  /** The results of `pthread_cond_timedwait`: 0, ETIMEDOUT, anything else. */
  datatype WakeResult = Woken | TimeUp | WaitError

  /** One return of the timed wait. `cleared` says whether another thread cleared the
      flag before the waiter held the mutex again; a wakeup that is Woken without it
      is spurious. */
  datatype Wake = Wake(cleared: bool, result: WakeResult)

  /** The wakeups after which the wait loop stops. */
  predicate Ends(w: Wake) {
    w.cleared || w.result != Woken
  }

  function StatusOf(r: WakeResult): Status {
    match r
    case Woken => Success
    case TimeUp => TimedOut
    case WaitError => TimedWaitError
  }

  /** What a wait that is entered with the flag as given comes to: the wakeup that ends it
      decides, and without a wait it is a failure. */
  function Waited(blocked: bool, wakeups: seq<Wake>): Status {
    if !blocked || wakeups == [] then Failed
    else if Ends(wakeups[0]) then StatusOf(wakeups[0].result)
    else Waited(true, wakeups[1..])
  }

  lemma {:induction false} WaitedAt(wakeups: seq<Wake>, n: nat)
    requires n < |wakeups| && Ends(wakeups[n]) && forall i :: 0 <= i < n ==> !Ends(wakeups[i])
    ensures Waited(true, wakeups) == StatusOf(wakeups[n].result)
  {
    if n > 0 {
      WaitedAt(wakeups[1..], n - 1);
    }
  }

  class Handle {
    var blocked: bool

    constructor ()
      ensures !blocked
    {
      blocked := false;
    }

    /** `signal_callback_completion`: returns whether a waiter was signalled. */
    method SignalCompletion() returns (signalled: bool)
      modifies this
      ensures !blocked && signalled == old(blocked)
    {
      signalled := blocked;
      if blocked {
        blocked := false;
      }
    }

    /** `wait_for_callback_completion`, over the wakeups that the waiter goes through.
        It stops at the first wakeup that ends the wait, and the status is that
        wakeup's own: success only if another thread cleared the flag, a time-out or
        an error only if the last wakeup was one. Failure is reported exactly when
        the flag was already clear on entry, in particular when the signal came
        before the wait began. */
    method WaitForCompletion(wakeups: seq<Wake>) returns (status: Status, n: nat)
      requires blocked ==> exists i :: 0 <= i < |wakeups| && Ends(wakeups[i])
      modifies this
      ensures !blocked && n <= |wakeups|
      ensures status == Failed <==> !old(blocked)
      ensures old(blocked) ==> n > 0 && Ends(wakeups[n - 1]) && status == StatusOf(wakeups[n - 1].result)
      ensures forall i :: 0 <= i < n - 1 ==> !Ends(wakeups[i])
      ensures status == Success ==> wakeups[n - 1].cleared
      ensures status == Waited(old(blocked), wakeups)
    {
      status := Failed;
      n := 0;
      while blocked
        invariant n <= |wakeups|
        invariant blocked ==> forall i :: 0 <= i < n ==> !Ends(wakeups[i])
        invariant blocked ==> exists i :: n <= i < |wakeups| && Ends(wakeups[i])
        invariant forall i :: 0 <= i < n - 1 ==> !Ends(wakeups[i])
        invariant n == 0 ==> blocked == old(blocked) && status == Failed
        invariant n > 0 ==> old(blocked) && status == StatusOf(wakeups[n - 1].result)
        invariant n > 0 && !blocked ==> Ends(wakeups[n - 1])
        decreases |wakeups| - n
      {
        var w := wakeups[n];
        if w.cleared { blocked := false; }
        if w.result == TimeUp {
          blocked := false;
          status := TimedOut;
        } else if w.result == Woken {
          status := Success;
        } else {
          blocked := false;
          status := TimedWaitError;
        }
        n := n + 1;
      }
      if n > 0 { WaitedAt(wakeups, n - 1); }
    }
  }
}
