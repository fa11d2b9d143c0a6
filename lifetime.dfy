/**
 * The lifetime state machine behind mapbox::base::WeakPtr, on values.
 *
 * One WeakPtrSharedData block and the std::shared_ptr control block that
 * owns it are described by a CellState. Each operation of weak.hpp that
 * touches the block is a function from the state before to the state after,
 * and a sequential run of such operations is a sequence of Events. The
 * classes in module Weak are proved against these functions.
 *
 * Threads are not modelled: every operation is one atomic step, and the
 * blocking of the exclusive lock in invalidate() is the condition that no
 * reader holds the shared lock when the factory is destroyed.
 */
module Lifetime {

  datatype Option<+T> = None | Some(value: T)

  /**
   * valid:         the valid_ flag of WeakPtrSharedData
   * sharedHolders: how many holders of the reader side of mutex_ there are
   * strongOwners:  how many StrongRef copies exist: the factory's strong_
   *                and the one kept by every non-empty WeakPtrGuard
   */
  datatype CellState = CellState(valid: bool, sharedHolders: nat, strongOwners: nat)

  /** What a WeakRef sees: the state of the block it refers to, or None when it is empty. */
  type Link = Option<CellState>

  /** weak_ptr::lock() yields a StrongRef exactly when a strong owner is left. */
  predicate CanUpgrade(s: CellState)
  {
    s.strongOwners > 0
  }

  /**
   * The invariant of every state a sequential run reaches: the strong owners
   * are the factory (while the flag is set) plus one per shared holder, and
   * once the flag is cleared nobody holds the shared lock.
   */
  predicate Inv(s: CellState)
  {
    && s.strongOwners == s.sharedHolders + (if s.valid then 1 else 0)
    && (!s.valid ==> s.sharedHolders == 0)
  }

  /** The block std::make_shared creates in the factory's constructor. */
  function Fresh(): (s: CellState)
    ensures Inv(s) && s.valid && s.sharedHolders == 0
    ensures !Expired(Some(s))
  {
    CellState(true, 0, 1)
  }

  // The primitive steps: weak_ptr::lock(), the end of a StrongRef's scope,
  // sharedLock(), sharedUnlock() and invalidate().

  function Upgrade(s: CellState): CellState
    requires CanUpgrade(s)
  {
    s.(strongOwners := s.strongOwners + 1)
  }

  function DropStrong(s: CellState): CellState
    requires s.strongOwners > 0
  {
    s.(strongOwners := s.strongOwners - 1)
  }

  function SharedLock(s: CellState): CellState
  {
    s.(sharedHolders := s.sharedHolders + 1)
  }

  function SharedUnlock(s: CellState): CellState
    requires s.sharedHolders > 0
  {
    s.(sharedHolders := s.sharedHolders - 1)
  }

  /** The exclusive lock is granted only once every reader has left. */
  function Invalidate(s: CellState): CellState
    requires s.sharedHolders == 0
  {
    s.(valid := false)
  }

  /** WeakPtrBase::expired(): an empty or unupgradable reference is expired, otherwise the flag decides. */
  function Expired(w: Link): bool
  {
    match w
    case None => true
    case Some(s) => if CanUpgrade(s) then !s.valid else true
  }

  /** WeakPtrBase::object(): the stored pointer while the object is alive, nothing otherwise. */
  function Deref<P>(w: Link, ptr: P): (r: Option<P>)
    ensures r.Some? <==> !Expired(w)
    ensures r.Some? ==> r.value == ptr
  {
    match w
    case None => None
    case Some(s) => if CanUpgrade(s) && s.valid then Some(ptr) else None
  }

  datatype LockResult = LockResult(granted: bool, after: Link)

  /**
   * WeakPtrBase::lock(): upgrade, take the shared lock, and keep both in a
   * guard if the flag is still set; if it is not, give both back.
   */
  function Lock(w: Link): (r: LockResult)
    ensures r.granted <==> !Expired(w)
    ensures r.granted ==> r.after == Some(w.value.(sharedHolders := w.value.sharedHolders + 1,
                                                   strongOwners := w.value.strongOwners + 1))
    ensures !r.granted ==> r.after == w
  {
    match w
    case None => LockResult(false, None)
    case Some(s) =>
      if !CanUpgrade(s) then LockResult(false, w)
      else
        var held := SharedLock(Upgrade(s));
        if held.valid then LockResult(true, Some(held))
        else LockResult(false, Some(DropStrong(SharedUnlock(held))))
  }

  /** ~WeakPtrGuard on a non-empty guard: release the shared lock, then the StrongRef. */
  function ReleaseGuard(s: CellState): (t: CellState)
    requires s.sharedHolders > 0 && s.strongOwners > 0
    ensures t.valid == s.valid && t.sharedHolders == s.sharedHolders - 1
    ensures t.strongOwners == s.strongOwners - 1
    ensures Inv(s) ==> Inv(t)
  {
    DropStrong(SharedUnlock(s))
  }

  /** ~WeakPtrFactory: invalidate() under the exclusive lock, then the factory's strong_ goes. */
  function DestroyFactory(s: CellState): (t: CellState)
    requires s.sharedHolders == 0 && s.strongOwners > 0
    ensures !t.valid && Expired(Some(t))
    ensures Inv(s) ==> Inv(t) && !CanUpgrade(t)
  {
    DropStrong(Invalidate(s))
  }

  /**
   * One call of the callable that makeWeakMethod returns, on a wrapped
   * object whose state is the number of times the method ran: lock, call
   * the method if object() is non-null, release the guard at end of scope.
   */
  function WeakCall(w: Link, hits: nat): (r: (Link, nat))
    ensures r.0 == w
    ensures r.1 == if Expired(w) then hits else hits + 1
  {
    var locked := Lock(w);
    var hits' := if Deref(locked.after, ()).Some? then hits + 1 else hits;
    var after := if locked.granted then Some(ReleaseGuard(locked.after.value)) else locked.after;
    (after, hits')
  }

  /** The operations of a sequential program that act on one block. */
  datatype Event =
    | LockCall        // WeakPtrBase::lock(); a granted guard is kept until its GuardRelease
    | GuardRelease    // ~WeakPtrGuard on a non-empty guard
    | FactoryDestroy  // ~WeakPtrFactory

  /**
   * The state after one event, or None when the event cannot happen there:
   * no guard to release, a factory already destroyed, or an exclusive lock
   * that would wait for readers forever.
   */
  function Step(s: CellState, e: Event): Option<CellState>
  {
    match e
    case LockCall => Lock(Some(s)).after
    case GuardRelease =>
      if s.sharedHolders > 0 && s.strongOwners > 0 then Some(ReleaseGuard(s)) else None
    case FactoryDestroy =>
      if s.valid && s.sharedHolders == 0 && s.strongOwners > 0 then Some(DestroyFactory(s)) else None
  }

  /** The final state of a run, None if some event of it cannot happen. */
  function Run(s: CellState, es: seq<Event>): Option<CellState>
    decreases |es|
  {
    if es == [] then Some(s)
    else
      match Step(s, es[0])
      case None => None
      case Some(t) => Run(t, es[1..])
  }

  /** How many steps of a run turn the flag from set to cleared. */
  function Flips(s: CellState, es: seq<Event>): nat
    decreases |es|
  {
    if es == [] then 0
    else
      match Step(s, es[0])
      case None => 0
      case Some(t) => (if s.valid && !t.valid then 1 else 0) + Flips(t, es[1..])
  }

  /** How many lock() calls of a run hand out a non-empty guard. */
  function Granted(s: CellState, es: seq<Event>): nat
    decreases |es|
  {
    if es == [] then 0
    else
      match Step(s, es[0])
      case None => 0
      case Some(t) => (if es[0] == LockCall && Lock(Some(s)).granted then 1 else 0) + Granted(t, es[1..])
  }

  /** How many non-empty guards a run destroys. */
  function Released(s: CellState, es: seq<Event>): nat
    decreases |es|
  {
    if es == [] then 0
    else
      match Step(s, es[0])
      case None => 0
      case Some(t) => (if es[0] == GuardRelease then 1 else 0) + Released(t, es[1..])
  }

  /** Every event keeps the invariant, so every state a run reaches satisfies it. */
  lemma {:induction false} RunKeepsInv(s: CellState, es: seq<Event>)
    requires Inv(s) && Run(s, es).Some?
    ensures Inv(Run(s, es).value)
    decreases |es|
  {
    if es != [] {
      var t := Step(s, es[0]).value;
      RunKeepsInv(t, es[1..]);
    }
  }

  /** Once cleared, the flag stays cleared, every handle is expired and every lock() is refused. */
  lemma {:induction false} InvalidIsPermanent(s: CellState, es: seq<Event>)
    requires !s.valid && Run(s, es).Some?
    ensures !Run(s, es).value.valid
    ensures Expired(Some(Run(s, es).value)) && !Lock(Some(Run(s, es).value)).granted
    decreases |es|
  {
    if es != [] {
      var t := Step(s, es[0]).value;
      InvalidIsPermanent(t, es[1..]);
    }
  }

  /** The flag is cleared at most once in any run, and never if it starts cleared. */
  lemma {:induction false} ExpiresAtMostOnce(s: CellState, es: seq<Event>)
    ensures Flips(s, es) <= if s.valid then 1 else 0
    decreases |es|
  {
    if es != [] {
      match Step(s, es[0])
      case None =>
      case Some(t) => ExpiresAtMostOnce(t, es[1..]);
    }
  }

  /** A run that destroys the factory of a live block clears the flag exactly once, for good. */
  lemma {:induction false} DestroyExpiresExactlyOnce(s: CellState, es: seq<Event>)
    requires s.valid && Run(s, es).Some? && FactoryDestroy in es
    ensures Flips(s, es) == 1 && !Run(s, es).value.valid
    decreases |es|
  {
    var t := Step(s, es[0]).value;
    if es[0] == FactoryDestroy {
      ExpiresAtMostOnce(t, es[1..]);
      InvalidIsPermanent(t, es[1..]);
    } else {
      assert FactoryDestroy in es[1..];
      DestroyExpiresExactlyOnce(t, es[1..]);
    }
  }

  /** lock() on an invalidated block, however often, hands out nothing and leaves no trace. */
  lemma {:induction false} LocksAfterExpiry(s: CellState, es: seq<Event>)
    requires !s.valid
    requires forall i :: 0 <= i < |es| ==> es[i] == LockCall
    ensures Run(s, es) == Some(s) && Flips(s, es) == 0
    decreases |es|
  {
    if es != [] {
      LocksAfterExpiry(s, es[1..]);
    }
  }

  /** While the block is live every lock() is granted and keeps one shared lock and one StrongRef. */
  lemma {:induction false} LocksWhileLive(s: CellState, es: seq<Event>)
    requires s.valid && CanUpgrade(s)
    requires forall i :: 0 <= i < |es| ==> es[i] == LockCall
    ensures Run(s, es) == Some(s.(sharedHolders := s.sharedHolders + |es|,
                                  strongOwners := s.strongOwners + |es|))
    decreases |es|
  {
    if es != [] {
      var t := s.(sharedHolders := s.sharedHolders + 1, strongOwners := s.strongOwners + 1);
      assert Step(s, es[0]) == Some(t);
      LocksWhileLive(t, es[1..]);
    }
  }

  /**
   * The shared holders are exactly the guards still alive: those held at the
   * start plus those granted during the run, less those destroyed.
   */
  lemma {:induction false} HoldersAreOutstandingGuards(s: CellState, es: seq<Event>)
    requires Run(s, es).Some?
    ensures Run(s, es).value.sharedHolders + Released(s, es) == s.sharedHolders + Granted(s, es)
    decreases |es|
  {
    if es != [] {
      var t := Step(s, es[0]).value;
      HoldersAreOutstandingGuards(t, es[1..]);
    }
  }

  /**
   * The factory's destructor can follow a run only once every guard held at
   * its start or granted during it has been destroyed.
   */
  lemma {:induction false} DestroyWaitsForGuards(s: CellState, es: seq<Event>)
    requires Run(s, es).Some? && Step(Run(s, es).value, FactoryDestroy).Some?
    ensures Released(s, es) == s.sharedHolders + Granted(s, es)
  {
    HoldersAreOutstandingGuards(s, es);
  }
}
