/**
 * The SIGINT trap used for cooperative cancellation, and the wrapper that
 * stops an iteration once the trap has fired.
 *
 * The process-wide SIGINT slot that `signal.signal` writes and
 * `signal.getsignal` reads is the field `installed`. The operating system
 * delivering a SIGINT is the method `Deliver`, which callers invoke at the
 * points where a signal may arrive.
 */
module InterruptHandling {

  /** A SIGINT handler: the trap of an `InterruptHandler`, or whatever was installed before it. */
  datatype SignalHandler = Previous(id: nat) | Trap

  class InterruptHandler {
    /** `_interrupted`: the cancellation flag read by `interruptible`. */
    var interrupted: bool
    /** `_released`: the trap has been taken down. */
    var released: bool
    /** `_original_handler`: the SIGINT handler found on entry. */
    var originalHandler: SignalHandler
    /** The handler the process currently has installed for SIGINT. */
    var installed: SignalHandler
    /** The context has been entered, so the three attributes above exist. */
    ghost var entered: bool
    /** How often the original handler has been reinstalled since the last entry. */
    ghost var restores: nat
    /** Every reading of the flag by `interruptible` since the last entry, in order. */
    ghost var checks: seq<bool>

    /** While entered, the trap is installed exactly until the one restoring release. */
    ghost predicate Valid()
      reads this
    {
      entered ==>
        && (!released ==> installed == Trap && restores == 0)
        && (released ==> installed == originalHandler && restores == 1)
    }

    /** `InterruptHandler()`: a handler that has not been entered yet. */
    constructor (current: SignalHandler)
      ensures Valid() && !entered
      ensures installed == current
    {
      installed := current;
      interrupted := false;
      released := false;
      originalHandler := current;
      entered := false;
      restores := 0;
      checks := [];
    }

    /** `__enter__`: clear both flags, remember the current handler, install the trap. */
    method Enter()
      modifies this
      ensures Valid() && entered
      ensures !interrupted && !released
      ensures originalHandler == old(installed)
      ensures installed == Trap
      ensures checks == []
    {
      interrupted := false;
      released := false;
      originalHandler := installed;
      installed := Trap;
      entered := true;
      restores := 0;
      checks := [];
    }

    /** `release`: reinstall the original handler, once; a second call changes nothing. */
    method Release()
      requires Valid() && entered
      modifies this
      ensures Valid() && entered && released
      ensures installed == originalHandler == old(originalHandler)
      ensures interrupted == old(interrupted)
      ensures restores == 1
      ensures old(released) ==> installed == old(installed) && restores == old(restores)
      ensures checks == old(checks)
    {
      if released {
        return;
      }
      installed := originalHandler;
      released := true;
      restores := restores + 1;
    }

    /** The trap itself (`handler` inside `__enter__`): release first, then raise the flag. */
    method Handle()
      requires Valid() && entered && installed == Trap
      modifies this
      ensures Valid() && entered && released && interrupted
      ensures installed == originalHandler == old(originalHandler)
      ensures checks == old(checks)
    {
      Release();
      interrupted := true;
    }

    /**
     * A SIGINT arriving: the trap runs while it is installed. Once it has
     * been released the original handler receives the signal instead.
     */
    method Deliver()
      requires Valid() && entered
      modifies this
      ensures Valid() && entered
      ensures originalHandler == old(originalHandler)
      ensures old(interrupted) ==> interrupted
      ensures released && interrupted == (old(interrupted) || old(installed) == Trap)
      ensures !old(released) ==> interrupted
      ensures old(released) ==> installed == old(installed)
      ensures checks == old(checks)
    {
      if installed == Trap {
        Handle();
      }
    }

    /** A point in the run at which a SIGINT may or may not arrive. */
    method SignalMayArrive()
      requires Valid() && entered
      modifies this
      ensures Valid() && entered
      ensures originalHandler == old(originalHandler)
      ensures old(interrupted) ==> interrupted
      ensures old(released) ==> released && installed == old(installed)
      ensures checks == old(checks)
    {
      if * {
        Deliver();
      }
    }

    /** `forceInterrupt`: raise the flag, unless the trap has been released. */
    method ForceInterrupt()
      requires Valid() && entered
      modifies this
      ensures Valid() && entered
      ensures interrupted == (old(interrupted) || !old(released))
      ensures released == old(released) && installed == old(installed)
      ensures originalHandler == old(originalHandler) && restores == old(restores)
      ensures checks == old(checks)
    {
      if released {
        return;
      }
      interrupted := true;
    }

    /**
     * `if ih.interrupted: break` in `interruptible`, before each item: read
     * the flag, and record the reading.
     */
    method Check() returns (raised: bool)
      requires Valid() && entered
      modifies this
      ensures Valid() && entered
      ensures raised == interrupted == old(interrupted)
      ensures checks == old(checks) + [raised]
      ensures released == old(released) && installed == old(installed)
      ensures originalHandler == old(originalHandler) && restores == old(restores)
    {
      raised := interrupted;
      checks := checks + [raised];
    }

    /** `__exit__`: always release, so the original handler is back on every exit path. */
    method Exit()
      requires Valid() && entered
      modifies this
      ensures Valid() && entered && released
      ensures installed == originalHandler == old(originalHandler)
      ensures interrupted == old(interrupted)
      ensures restores == 1
      ensures checks == old(checks)
    {
      Release();
    }
  }

  /**
   * The number of items `interruptible` yields from a source of `n` items
   * when `observed(i)` is the flag it reads before item `i`: the first
   * index at which the flag is seen raised, or `n`.
   */
  function YieldCount(observed: nat -> bool, n: nat): (k: nat)
    ensures k <= n
    ensures forall i :: 0 <= i < k ==> !observed(i)
    ensures k < n ==> observed(k)
  {
    if n == 0 then 0
    else
      var k := YieldCount(observed, n - 1);
      if k < n - 1 || observed(n - 1) then k else n
  }

  /**
   * `interruptible`: walk the source in order and, before yielding each
   * item, stop without error if the flag is raised.
   */
  method Interruptible<T>(source: seq<T>, observed: nat -> bool) returns (yielded: seq<T>)
    ensures yielded == source[..YieldCount(observed, |source|)]
  {
    yielded := [];
    var i := 0;
    while i < |source|
      invariant i <= |source|
      invariant yielded == source[..i]
      invariant forall k :: 0 <= k < i ==> !observed(k)
    {
      if observed(i) {
        break;
      }
      yielded := yielded + [source[i]];
      i := i + 1;
    }
  }

  /**
   * The readings of the flag by an `interruptible` loop over `n` items
   * that went through `k` of them: down before each of those, then, when
   * it stopped early, the one reading that saw the flag raised.
   */
  function Readings(k: nat, n: nat): (r: seq<bool>)
    requires k <= n
    ensures |r| == if k < n then k + 1 else k
  {
    Downs(k) + if k < n then [true] else []
  }

  /** `k` readings that all saw the flag down. */
  function Downs(k: nat): (r: seq<bool>)
    ensures |r| == k
  {
    if k == 0 then [] else Downs(k - 1) + [false]
  }

  /** None of those readings saw the flag raised. */
  lemma {:induction false} AllDown(k: nat)
    ensures forall i | 0 <= i < k :: !Downs(k)[i]
  {
    if k > 0 {
      AllDown(k - 1);
      assert forall i | 0 <= i < k - 1 :: Downs(k)[i] == Downs(k - 1)[i];
    }
  }

  /** The readings as the flag `interruptible` would see before each item. */
  function Observed(readings: seq<bool>): nat -> bool {
    (i: nat) => i < |readings| && readings[i]
  }

  /**
   * A loop whose readings are `Readings(k, n)` went exactly as far as the
   * generator does: it yields `k` items when it sees those readings.
   */
  lemma ReadingsYield(k: nat, n: nat)
    requires k <= n
    ensures YieldCount(Observed(Readings(k, n)), n) == k
  {
    var r := Readings(k, n);
    AllDown(k);
    assert forall i | 0 <= i < k :: !Observed(r)(i);
    assert k < n ==> Observed(r)(k);
  }

  /** A loop that saw the flag raised stopped early, and one that stopped early saw it raised. */
  lemma ReadingsRaisedIffEarly(k: nat, n: nat)
    requires k <= n
    ensures true in Readings(k, n) <==> k < n
  {
    var r := Readings(k, n);
    AllDown(k);
    if k < n {
      assert r[k];
    } else {
      assert forall j | 0 <= j < |r| :: !r[j];
    }
  }
}
