/**
 * The classes of mapbox/weak/include/mapbox/weak.hpp, with the state they
 * change in place. Every method that changes a WeakPtrSharedData block is
 * proved against the matching function of module Lifetime.
 *
 * WeakPtrBase<Object> and WeakPtr<Object> are one class, WeakPtr, over one
 * wrapped type, Subject: the conversions between WeakPtr<U> and WeakPtr<T>
 * only cast the raw pointer, which is the identity here.
 */
module Weak {
  import opened Lifetime

  /**
   * The object a factory is embedded in. hits stands for whatever state the
   * member function behind a weak-method adapter changes.
   */
  class Subject {
    var hits: nat

    constructor ()
      ensures hits == 0
    {
      hits := 0;
    }

    /** The member function a weak-method adapter invokes, as an abstract effect. */
    method Hit()
      modifies this
      ensures hits == old(hits) + 1
    {
      hits := hits + 1;
    }
  }

  /**
   * WeakPtrSharedData together with the control block of the shared_ptr
   * that owns it: the flag, the reader side of mutex_, and the number of
   * StrongRef copies in existence. The ghost field guards names the live
   * non-empty guards over the block.
   */
  class SharedData {
    var valid: bool
    var sharedHolders: nat
    var strongOwners: nat
    ghost var guards: set<Guard>

    function State(): CellState
      reads this
    {
      CellState(valid, sharedHolders, strongOwners)
    }

    ghost predicate Inv()
      reads this
    {
      Lifetime.Inv(State())
    }

    /** Every shared hold belongs to exactly one live guard. */
    ghost predicate Accounted()
      reads this
    {
      |guards| == sharedHolders
    }

    /** std::make_shared in the factory's constructor: flag set, mutex free, one owner. */
    constructor ()
      ensures State() == Fresh() && guards == {}
    {
      valid, sharedHolders, strongOwners := true, 0, 1;
      guards := {};
    }

    /** weak_ptr::lock(): a new StrongRef, if any owner is left. */
    method Upgrade() returns (ok: bool)
      modifies this
      ensures ok == CanUpgrade(old(State()))
      ensures State() == if ok then Lifetime.Upgrade(old(State())) else old(State())
      ensures guards == old(guards)
    {
      ok := strongOwners > 0;
      if ok {
        strongOwners := strongOwners + 1;
      }
    }

    /** A StrongRef goes out of scope. */
    method DropStrong()
      requires strongOwners > 0
      modifies this
      ensures State() == Lifetime.DropStrong(old(State()))
      ensures guards == old(guards)
    {
      strongOwners := strongOwners - 1;
    }

    method SharedLock()
      modifies this
      ensures State() == Lifetime.SharedLock(old(State()))
      ensures guards == old(guards)
    {
      sharedHolders := sharedHolders + 1;
    }

    method SharedUnlock()
      requires sharedHolders > 0
      modifies this
      ensures State() == Lifetime.SharedUnlock(old(State()))
      ensures guards == old(guards)
    {
      sharedHolders := sharedHolders - 1;
    }

    /** The exclusive lock is taken only when no reader is left; the flag is cleared under it. */
    method Invalidate()
      requires sharedHolders == 0
      modifies this
      ensures State() == Lifetime.Invalidate(old(State()))
      ensures guards == old(guards)
    {
      valid := false;
    }
  }

  /** WeakPtrGuard: empty, or holding a StrongRef and one shared lock on a live block. */
  class Guard {
    var strong: SharedData?

    ghost predicate Valid()
      reads this, strong
    {
      strong != null ==>
        strong.valid && this in strong.guards && strong.Accounted() && strong.strongOwners > 0
    }

    /**
     * Only built by WeakPtr.Lock, never over a cleared flag. A non-empty
     * guard takes over the StrongRef and the one shared hold that lock()
     * took for it and that no other guard owns.
     */
    constructor (strong: SharedData?)
      requires strong != null ==>
        strong.valid && strong.strongOwners > 0 && strong.sharedHolders == |strong.guards| + 1
      modifies strong
      ensures this.strong == strong && Valid()
      ensures strong != null ==> strong.State() == old(strong.State())
      ensures strong != null ==> strong.guards == old(strong.guards) + {this}
    {
      this.strong := strong;
      new;
      if strong != null {
        strong.guards := strong.guards + {this};
      }
    }

    /** The move constructor: the source guard gives up its StrongRef and its shared hold. */
    constructor Move(other: Guard)
      requires other.Valid()
      modifies other, other.strong
      ensures strong == old(other.strong) && Valid()
      ensures other.strong == null
      ensures strong != null ==> strong.State() == old(other.strong.State())
      ensures strong != null ==> strong.guards == old(other.strong.guards) - {other} + {this}
    {
      strong := other.strong;
      new;
      if strong != null {
        assert other in strong.guards && this !in strong.guards;
        strong.guards := strong.guards - {other} + {this};
      }
      other.strong := null;
    }

    /** The destructor: a non-empty guard releases its shared lock and its StrongRef, an empty one does nothing. */
    method Release()
      requires Valid()
      modifies this, strong
      ensures strong == null
      ensures old(strong) != null ==> old(strong).State() == ReleaseGuard(old(strong.State()))
      ensures old(strong) != null ==> old(strong).guards == old(strong.guards) - {this}
      ensures old(strong) != null ==> old(strong).Accounted()
      ensures old(strong) != null && old(strong.Inv()) ==> old(strong).Inv()
    {
      if strong != null {
        strong.SharedUnlock();
        strong.DropStrong();
        strong.guards := strong.guards - {this};
        strong := null;
      }
    }
  }

  /** WeakPtrBase / WeakPtr: a WeakRef to the block and the raw object pointer. */
  class WeakPtr {
    var weak: SharedData?
    var ptr: Subject?

    ghost predicate Valid()
      reads this, weak
    {
      weak != null ==> ptr != null && weak.Accounted()
    }

    /** What the WeakRef sees. */
    function View(): Link
      reads this, weak
    {
      if weak == null then None else Some(weak.State())
    }

    /** The default constructor: no block, no pointer. */
    constructor Empty()
      ensures weak == null && ptr == null
      ensures Valid() && Expired()
    {
      weak, ptr := null, null;
    }

    /** The constructor the factory uses; the pointer must not be null. */
    constructor (weak: SharedData?, ptr: Subject?)
      requires ptr != null
      ensures this.weak == weak && this.ptr == ptr
    {
      this.weak, this.ptr := weak, ptr;
    }

    /** The copy constructor: both handles refer to the same block and object. */
    constructor Copy(other: WeakPtr)
      ensures weak == other.weak && ptr == other.ptr
      ensures Expired() == other.Expired() && Object() == other.Object()
    {
      weak, ptr := other.weak, other.ptr;
    }

    /**
     * The move constructor and the converting move constructor: the WeakRef
     * moves and leaves the source empty; the raw pointer is copied.
     */
    constructor Move(other: WeakPtr)
      modifies other
      ensures weak == old(other.weak) && ptr == old(other.ptr)
      ensures Expired() == old(other.Expired())
      ensures other.weak == null && other.ptr == old(other.ptr)
      ensures other.Expired() && other.Object() == null
    {
      weak, ptr := other.weak, other.ptr;
      new;
      other.weak := null;
    }

    /** Move assignment: as the move constructor; moving a handle onto itself leaves it as it was. */
    method MoveAssign(other: WeakPtr)
      modifies this, other
      ensures weak == old(other.weak) && ptr == old(other.ptr)
      ensures other != this ==> other.weak == null && other.ptr == old(other.ptr)
      ensures other != this ==> other.Expired()
    {
      weak, ptr := other.weak, other.ptr;
      if other != this {
        other.weak := null;
      }
    }

    /** Copy assignment. */
    method CopyAssign(other: WeakPtr)
      modifies this
      ensures weak == old(other.weak) && ptr == old(other.ptr)
      ensures other.weak == old(other.weak) && other.ptr == old(other.ptr)
    {
      weak, ptr := other.weak, other.ptr;
    }

    /** expired(): the WeakRef cannot be upgraded, or the flag is cleared. */
    function Expired(): (e: bool)
      reads this, weak
      ensures e == Lifetime.Expired(View())
      ensures weak == null ==> e
    {
      if weak == null then true
      else if weak.strongOwners > 0 then !weak.valid
      else true
    }

    /** operator bool. */
    function IsAlive(): (b: bool)
      reads this, weak
      ensures b == !Expired()
      ensures Valid() ==> (b <==> Object() != null)
    {
      !Expired()
    }

    /** object(): the pointer while the object is alive, null otherwise. */
    function Object(): (r: Subject?)
      reads this, weak
      ensures r != null ==> r == ptr && !Expired()
      ensures Valid() ==> (r != null <==> !Expired())
    {
      if weak != null && weak.strongOwners > 0 && weak.valid then ptr else null
    }

    /** operator->: only on a handle whose object is alive. */
    function Arrow(): (r: Subject)
      reads this, weak
      requires Object() != null
      ensures r == ptr && !Expired()
    {
      Object()
    }

    /**
     * lock(): a guard over the block exactly when the handle is not expired;
     * when it is expired nothing changes, even if the upgrade succeeded.
     */
    method Lock() returns (g: Guard)
      requires Valid()
      modifies weak
      ensures fresh(g) && g.Valid() && Valid()
      ensures weak != null ==> weak.guards == if g.strong != null then old(weak.guards) + {g} else old(weak.guards)
      ensures weak != null && old(weak.Inv()) ==> weak.Inv()
      ensures (g.strong != null) == !old(Expired())
      ensures g.strong != null ==> g.strong == weak
      ensures View() == Lifetime.Lock(old(View())).after
    {
      if weak != null {
        var upgraded := weak.Upgrade();
        if upgraded {
          weak.SharedLock();
          if weak.valid {
            g := new Guard(weak);
            return;
          }
          weak.SharedUnlock();
          weak.DropStrong();
        }
      }
      g := new Guard(null);
    }
  }

  /** WeakPtrFactory: the owning StrongRef and the wrapped object. */
  class WeakPtrFactory {
    const strong: SharedData
    const obj: Subject?

    /** The factory's invariant: its block is in a state a sequential run reaches. */
    ghost predicate Valid()
      reads this, strong
    {
      strong.Inv() && strong.Accounted()
    }

    constructor (obj: Subject?)
      ensures fresh(strong) && strong.State() == Fresh() && this.obj == obj
      ensures Valid()
    {
      strong := new SharedData();
      this.obj := obj;
    }

    /** makeWeakPtr(): a handle over this factory's block and object, expired only once the factory is gone. */
    method MakeWeakPtr() returns (h: WeakPtr)
      requires Valid() && strong.valid && obj != null
      ensures fresh(h) && h.weak == strong && h.ptr == obj && h.Valid()
      ensures !h.Expired()
    {
      h := new WeakPtr(strong, obj);
    }

    /** makeWeakMethod(): an adapter that owns a fresh handle to this factory's object. */
    method MakeWeakMethod() returns (m: WeakMethod)
      requires Valid() && strong.valid && obj != null
      ensures fresh(m) && fresh(m.weakPtr)
      ensures m.weakPtr.weak == strong && m.weakPtr.ptr == obj && m.weakPtr.Valid()
    {
      var h := MakeWeakPtr();
      m := new WeakMethod(h);
    }

    /**
     * The destructor. It runs once, on a live block, and its exclusive lock
     * is granted only when no guard holds the shared lock, so no live guard
     * refers to the block.
     */
    method Destroy()
      requires Valid() && strong.valid
      requires strong.sharedHolders == 0
      modifies strong
      ensures strong.State() == DestroyFactory(old(strong.State()))
      ensures Valid() && !strong.valid && !CanUpgrade(strong.State())
      ensures strong.guards == {}
    {
      strong.Invalidate();
      strong.DropStrong();
    }
  }

  /** The callable makeWeakMethod returns: it captures a handle. */
  class WeakMethod {
    const weakPtr: WeakPtr

    constructor (weakPtr: WeakPtr)
      ensures this.weakPtr == weakPtr
    {
      this.weakPtr := weakPtr;
    }

    /**
     * One call: the method runs exactly once if the object is alive and not
     * at all otherwise; the guard is gone again afterwards.
     */
    method Call()
      requires weakPtr.Valid()
      modifies weakPtr.weak, weakPtr.ptr
      ensures weakPtr.Valid()
      ensures weakPtr.View() == old(weakPtr.View())
      ensures weakPtr.weak != null ==> weakPtr.weak.guards == old(weakPtr.weak.guards)
      ensures weakPtr.ptr != null ==>
        (weakPtr.View(), weakPtr.ptr.hits) == WeakCall(old(weakPtr.View()), old(weakPtr.ptr.hits))
    {
      var guard := weakPtr.Lock();
      var target := weakPtr.Object();
      if target != null {
        target.Hit();
      }
      guard.Release();
    }
  }
}
