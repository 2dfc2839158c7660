/** The semaphore itself (concurrency-limiter.ts), as the object the tasks share. */
module ConcurrencyLimiters {
  import opened Wrappers
  import opened SubagentSlots

  /** A JavaScript number: finite, or NaN or an infinity. */
  datatype Number = Finite(value: real) | NotFinite

  class ConcurrencyLimiter {
    const limit: nat
    var active: nat
    var queue: seq<TaskId>

    ghost function View(): Limiter
      reads this
    {
      Limiter(limit, active, queue)
    }

    constructor (limit: Number)
      ensures View() == Limiter(this.limit, 0, []) && LimiterInv(View())
      ensures limit.Finite? && limit.value >= 1.0 ==> this.limit as real <= limit.value < this.limit as real + 1.0
      ensures !(limit.Finite? && limit.value >= 1.0) ==> this.limit == 1
    {
      this.limit := if limit.Finite? && limit.value >= 1.0 then limit.value.Floor else 1;
      active, queue := 0, [];
    }

    /** Takes a slot at once, or queues; the answer says which. */
    method Acquire(t: TaskId) returns (granted: bool)
      requires LimiterInv(View())
      modifies this
      ensures View() == SubagentSlots.Acquire(old(View()), t) && LimiterInv(View())
      ensures granted <==> active == old(active) + 1
    {
      if active < limit {
        active := active + 1;
        return true;
      }
      queue := queue + [t];
      granted := false;
    }

    /** Frees the slot; the head of the queue, if any, gets it in the same stretch. */
    method Release() returns (next: Option<TaskId>)
      requires LimiterInv(View()) && active > 0
      modifies this
      ensures View() == SubagentSlots.Release(old(View())) && LimiterInv(View())
      ensures next == if old(queue) == [] then None else Some(old(queue)[0])
    {
      active := active - 1;
      if queue == [] { return None; }
      next := Some(queue[0]);
      queue := queue[1..];
      active := active + 1;
    }
  }
}
