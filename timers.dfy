/**
 * The `setTimeout` timers a screen has scheduled and the one handle it keeps in a ref
 * (`pollTimeoutRef`). A timer stays pending until it fires or the handle it was stored under is
 * cleared; clearing the handle cancels only the timer the handle names.
 */
module Timers {
  import opened Wrappers

  /** A callback `task` scheduled to run after `delay` milliseconds. */
  datatype Scheduled<T> = Scheduled(task: T, delay: int)

  /**
   * The timers still pending once `clearTimeout` is called on the handle `ref`: the timer it names
   * is gone, every other one stays; without a handle nothing changes.
   */
  function Cancelled<T>(pending: map<nat, Scheduled<T>>, ref: Option<nat>): (r: map<nat, Scheduled<T>>)
    ensures ref.Some? ==> ref.value !in r
    ensures forall id :: id in r <==> id in pending && ref != Some(id)
    ensures forall id :: id in r ==> r[id] == pending[id]
  {
    if ref.Some? then pending - {ref.value} else pending
  }

  class Timeouts<T> {
    var pending: map<nat, Scheduled<T>>
    var ref: Option<nat>
    var next: nat

    ghost predicate Valid()
      reads this
    {
      forall id :: id in pending ==> id < next
    }

    constructor ()
      ensures Valid()
      ensures pending == map[] && ref == None
    {
      pending := map[];
      ref := None;
      next := 0;
    }

    /** `ref.current = setTimeout(task, delay)`: a fresh timer, now the one the ref names. */
    method SetTimeout(task: T, delay: int)
      requires Valid()
      modifies this
      ensures Valid()
      ensures old(next) !in old(pending)
      ensures pending == old(pending)[old(next) := Scheduled(task, delay)]
      ensures ref == Some(old(next))
    {
      pending := pending[next := Scheduled(task, delay)];
      ref := Some(next);
      next := next + 1;
    }

    /** `if (ref.current) clearTimeout(ref.current)`: the ref keeps its value. */
    method Clear()
      requires Valid()
      modifies this`pending
      ensures Valid()
      ensures pending == if old(ref).Some? then old(pending) - {old(ref).value} else old(pending)
    {
      if ref.Some? {
        pending := pending - {ref.value};
      }
    }

    /** `ref.current = null`. */
    method Release()
      modifies this`ref
      ensures ref == None
    {
      ref := None;
    }

    /** The timer `id` fires: it is no longer pending, and its task is what runs. */
    method Fire(id: nat) returns (task: T)
      requires Valid() && id in pending
      modifies this`pending
      ensures Valid()
      ensures task == old(pending)[id].task
      ensures pending == old(pending) - {id}
    {
      task := pending[id].task;
      pending := pending - {id};
    }
  }
}
