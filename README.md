# Weak pointers with a destruction barrier (mapbox::base::WeakPtr)

This project models `mapbox/weak/include/mapbox/weak.hpp` in Dafny. The header has three parts:

- `WeakPtrFactory` is embedded in an object. It hands out weak pointers to that object. Its destructor invalidates them.
- `WeakPtr` is a non-owning handle. It holds a `std::weak_ptr` to a shared block (`WeakPtrSharedData`) and the raw object pointer.
- `WeakPtrGuard` comes from `WeakPtr::lock()`. While it lives, it keeps a `std::shared_ptr` to the block and the reader side of the block's `std::shared_timed_mutex`. So the factory's destructor, which clears the flag under the exclusive lock, cannot finish while a guard is alive.

The model has two layers:

- `lifetime.dfy` (module `Lifetime`) describes the shared block as a value, `CellState`. It has the `valid` flag, the number of shared-lock holders, and the number of strong owners. Strong owners are the factory's `strong_` plus one per non-empty guard. Every operation is a function on that value, and a sequential program is a run of `Event`s. The lemmas here cover whole runs: the invariant, the single LIVE to INVALID transition, and repeated `lock()` calls.
- `weak.dfy` (module `Weak`) keeps the header's classes. They change their state in place: `SharedData`, `Guard`, `WeakPtr`, `WeakPtrFactory`, and `WeakMethod` (the callable `makeWeakMethod` returns). Each method that changes a block states the new state as the matching `Lifetime` function of the old state. The side-effect-free queries `expired()`, `operator bool`, `object()` and `operator->` are functions.

Threads are not modelled. Each operation is one atomic step. Waiting for the exclusive lock becomes a precondition: `sharedHolders == 0` when the factory is destroyed.

`WeakPtr.Lock` and the function `Lifetime.Lock` do not assume the run invariant `Lifetime.Inv`. So they also cover a path that only concurrency can reach: the upgrade succeeds, but the flag is already cleared. On that path the shared lock and the strong reference are given back, and the block ends up as it was.

## Model

| member | source | states |
|---|---|---|
| `Lifetime.Fresh` | mapbox/weak/include/mapbox/weak.hpp:35 | a new block is valid, has no shared holders, satisfies the run invariant, and a handle to it is not expired |
| `Lifetime.Deref` | mapbox/weak/include/mapbox/weak.hpp:156-163 | `object()` yields the stored pointer exactly when the handle is not expired, and nothing otherwise |
| `Lifetime.Lock` | mapbox/weak/include/mapbox/weak.hpp:105-114 | `lock()` grants a guard exactly when the handle is not expired; a grant adds one shared holder and one strong owner; a refusal leaves the block exactly as it was, including when the upgrade succeeded on a cleared flag |
| `Lifetime.ReleaseGuard` | mapbox/weak/include/mapbox/weak.hpp:59-63 | destroying a non-empty guard drops exactly one shared hold and one strong owner, leaves the flag alone and keeps the run invariant |
| `Lifetime.DestroyFactory` | mapbox/weak/include/mapbox/weak.hpp:290 | after the factory's destructor the flag is cleared and every handle is expired; from an invariant state, no strong owner is left to upgrade to |
| `Lifetime.WeakCall` | mapbox/weak/include/mapbox/weak.hpp:329-336 | one call of a weak-method adapter runs the method once if the object is alive and not at all if it is expired; the block is the same before and after |
| `Lifetime.RunKeepsInv` | mapbox/weak/include/mapbox/weak.hpp:59-290 | every sequential run of lock, guard release and factory destruction keeps the invariant: strong owners are the live factory plus one per shared holder, and a cleared flag has no holders |
| `Lifetime.InvalidIsPermanent` | mapbox/weak/include/mapbox/weak.hpp:26-35 | once the flag is cleared, no run sets it again; every handle stays expired and every `lock()` is refused |
| `Lifetime.ExpiresAtMostOnce` | mapbox/weak/include/mapbox/weak.hpp:286-290 | a run clears the flag at most once, and not at all if it starts cleared |
| `Lifetime.DestroyExpiresExactlyOnce` | mapbox/weak/include/mapbox/weak.hpp:290 | a run from a live block that destroys the factory clears the flag exactly once and ends with it cleared |
| `Lifetime.LocksAfterExpiry` | mapbox/weak/include/mapbox/weak.hpp:105-114 | any number of `lock()` calls on a cleared block, even an upgradable one, leave it unchanged and never flip the flag |
| `Lifetime.LocksWhileLive` | mapbox/weak/include/mapbox/weak.hpp:105-114 | while the block is live and upgradable, every one of n `lock()` calls is granted, adding n shared holders and n strong owners |
| `Lifetime.HoldersAreOutstandingGuards` | mapbox/weak/include/mapbox/weak.hpp:50-114 | over any run, the shared holders at the end are the guards held at the start plus those `lock()` granted, less those destroyed: every shared hold belongs to a live guard |
| `Lifetime.DestroyWaitsForGuards` | mapbox/weak/include/mapbox/weak.hpp:26-29 | the factory's destructor can follow a run only once every guard held at its start or granted during it has been destroyed, so the object is not deleted while a guard is present |
| `Weak.Subject.Hit` | mapbox/weak/include/mapbox/weak.hpp:333 | the member function the adapter invokes, as one increment of the object's call counter |
| `Weak.SharedData.constructor` | mapbox/weak/include/mapbox/weak.hpp:20-35 | a new block is `Lifetime.Fresh`: valid, unlocked, one owner |
| `Weak.SharedData.Upgrade` | mapbox/weak/include/mapbox/weak.hpp:106 | `weak_ptr::lock()` succeeds exactly when a strong owner is left, and then adds one |
| `Weak.SharedData.DropStrong` | mapbox/weak/include/mapbox/weak.hpp:111-112 | a `StrongRef` leaving scope removes one strong owner and nothing else |
| `Weak.SharedData.SharedLock` | mapbox/weak/include/mapbox/weak.hpp:22 | `sharedLock()` adds one shared holder and nothing else |
| `Weak.SharedData.SharedUnlock` | mapbox/weak/include/mapbox/weak.hpp:24 | `sharedUnlock()` removes one shared holder, of which there must be one, and nothing else |
| `Weak.SharedData.Invalidate` | mapbox/weak/include/mapbox/weak.hpp:26-29 | `invalidate()` can run only when no shared holder is left, and it clears the flag and nothing else |
| `Weak.Guard.constructor` | mapbox/weak/include/mapbox/weak.hpp:66-68 | a guard is built either empty or over a block whose flag is set, taking over the one shared hold no other guard owns; it is then well formed and registered among the block's live guards |
| `Weak.Guard.Move` | mapbox/weak/include/mapbox/weak.hpp:58 | the move constructor takes over the source's strong reference and shared hold and leaves the source empty; the block's state is unchanged |
| `Weak.Guard.Release` | mapbox/weak/include/mapbox/weak.hpp:59-63 | the destructor of a non-empty guard performs `Lifetime.ReleaseGuard` on its block, leaves the block's live guards less itself and keeps the block's invariants; an empty guard changes nothing; either way the guard is empty afterwards |
| `Weak.WeakPtr.Empty` | mapbox/weak/include/mapbox/weak.hpp:165 | a default-constructed handle has no block and no pointer and is expired |
| `Weak.WeakPtr.constructor` | mapbox/weak/include/mapbox/weak.hpp:171 | the factory's constructor takes a weak reference and a pointer that must not be null |
| `Weak.WeakPtr.Copy` | mapbox/weak/include/mapbox/weak.hpp:167 | a copy refers to the same block and pointer, so it reports the same `expired()` and `object()` |
| `Weak.WeakPtr.Move` | mapbox/weak/include/mapbox/weak.hpp:166-170 | the move and converting move constructors give the destination the source's block and pointer and the source's expiry; the source's weak reference becomes empty, so the source reports expired and `object()` is null; the source's raw pointer is copied, not cleared |
| `Weak.WeakPtr.MoveAssign` | mapbox/weak/include/mapbox/weak.hpp:172 | move assignment gives the target the source's block and pointer and empties a distinct source, which then reports expired |
| `Weak.WeakPtr.CopyAssign` | mapbox/weak/include/mapbox/weak.hpp:173 | copy assignment gives the target the source's block and pointer and leaves the source as it was |
| `Weak.WeakPtr.Expired` | mapbox/weak/include/mapbox/weak.hpp:128-133 | `expired()` agrees with `Lifetime.Expired` on what the weak reference sees; an empty handle is expired |
| `Weak.WeakPtr.IsAlive` | mapbox/weak/include/mapbox/weak.hpp:143 | `operator bool` is the negation of `expired()`, and holds exactly when `object()` is non-null |
| `Weak.WeakPtr.Object` | mapbox/weak/include/mapbox/weak.hpp:156-163 | `object()` is non-null exactly when the handle is not expired, and then it is the stored pointer |
| `Weak.WeakPtr.Arrow` | mapbox/weak/include/mapbox/weak.hpp:253-257 | `operator->` may be used only when `object()` is non-null, and then it yields the stored pointer of a live handle |
| `Weak.WeakPtr.Lock` | mapbox/weak/include/mapbox/weak.hpp:105-114 | `lock()` returns a fresh, well-formed guard that is non-empty exactly when the handle was not expired, over the handle's own block, and registered as one of its live guards; the block moves as `Lifetime.Lock` says and keeps its invariants |
| `Weak.WeakPtrFactory.constructor` | mapbox/weak/include/mapbox/weak.hpp:284 | a factory owns a fresh block in state `Lifetime.Fresh` and stores the object pointer |
| `Weak.WeakPtrFactory.MakeWeakPtr` | mapbox/weak/include/mapbox/weak.hpp:299 | `makeWeakPtr()` on a live factory returns a fresh handle over the factory's block and object (which must not be null), and the handle is not expired |
| `Weak.WeakPtrFactory.MakeWeakMethod` | mapbox/weak/include/mapbox/weak.hpp:329-336 | `makeWeakMethod()` on a live factory returns an adapter that owns a fresh handle over the factory's block and object |
| `Weak.WeakPtrFactory.Destroy` | mapbox/weak/include/mapbox/weak.hpp:290 | the destructor runs once, only when no guard holds the shared lock; it performs `Lifetime.DestroyFactory`, so the flag is cleared for good, no strong owner remains and no live guard refers to the block |
| `Weak.WeakMethod.constructor` | mapbox/weak/include/mapbox/weak.hpp:330 | the adapter captures the handle it is given |
| `Weak.WeakMethod.Call` | mapbox/weak/include/mapbox/weak.hpp:331-334 | one call changes the block and the object's counter exactly as `Lifetime.WeakCall` says: the method runs once when alive and never when expired, and the shared-holder count and the set of live guards end where they started |

## Left out

- Threads, `std::shared_timed_mutex` blocking, fairness and writer starvation are not modelled. Each operation is atomic. The blocking of `invalidate()` is the precondition `sharedHolders == 0` on `Weak.SharedData.Invalidate` and `Weak.WeakPtrFactory.Destroy`.
- The memory ordering of `std::atomic<bool> valid_` is not modelled. The flag is a plain field. So the documented race in which an `expired() == false` answer goes stale on another thread does not appear.
- The internals of `std::shared_ptr` and `std::weak_ptr` are not modelled. They are a strong-owner count on the block and a nullable reference. Control blocks, weak counts and deallocation are left out.
- Member-function pointers, argument forwarding and the adapter's parameters are not modelled. The method is an abstract effect, `Weak.Subject.Hit`.
- Templates are not modelled. `WeakPtrBase<Object>` and `WeakPtr<Object>` are one class over one object type. The converting move's `static_cast` is the identity, so it is the same member as the plain move (`Weak.WeakPtr.Move`).
- `WeakPtrSharedData::valid()` (line 31) is a plain read of the field `valid`, so it has no member of its own.
- The conventions the header asks of its callers are not checked: one guard per scope, the factory as the last member, and no factory destruction while the same thread holds a guard.
- Weak.WeakPtrFactory.Destroy requires a live block, because a C++ destructor runs only once.
- The classes track which guards are alive in a ghost field, `SharedData.guards`. Their invariants keep one shared hold per live guard. So a guard cannot be built without a shared hold of its own, which the C++ code enforces by making the constructor private.
- Weak.Guard.Release empties the guard. This stands for the end of the C++ object, so a released guard cannot release again.
- Run-level lemmas are stated for one block in `Lifetime`. They are not restated over the heap of the `Weak` classes. The heap methods are tied to them through their `Lifetime` postconditions.

## Notes on the source

- The factory's constructor accepts any pointer (line 284). Only the handle's constructor asserts it is non-null (line 171). So the model lets a factory hold a null object and requires non-null in `Weak.WeakPtrFactory.MakeWeakPtr` and `Weak.WeakPtrFactory.MakeWeakMethod`.
- A defaulted move of `WeakPtrBase` moves the `weak_ptr` but copies the raw `ptr_`. So a moved-from handle is expired while it still holds its old pointer. The model keeps that pointer.
- Self move-assignment of a `std::weak_ptr` keeps the value. The standard defines it as `weak_ptr(std::move(r)).swap(*this)`. So `Weak.WeakPtr.MoveAssign` empties the source only when the source is a different handle.
