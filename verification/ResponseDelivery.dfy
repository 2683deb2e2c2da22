/** The delivery of one response, and the executor it keeps in storage it manages by hand. */
module ResponseDeliveryModel {
  import opened Wrappers

  type Executor = nat

  /** A piece of raw storage: nothing constructed in it, an executor, or one that was moved from. */
  datatype Slot = Raw | Live(executor: Executor) | Empty

  class Storage {
    var slot: Slot

    constructor ()
      ensures slot.Raw?
    {
      slot := Raw;
    }

    /** Placement new: the storage must hold nothing. */
    method Construct(executor: Executor)
      requires slot.Raw?
      modifies this
      ensures slot == Live(executor)
    {
      slot := Live(executor);
    }

    /** Moves the executor out and leaves an empty one behind. */
    method MoveOut() returns (executor: Executor)
      requires slot.Live?
      modifies this
      ensures slot.Empty? && old(slot) == Live(executor)
    {
      executor := slot.executor;
      slot := Empty;
    }

    /** The destructor call: the storage must hold a constructed object, moved from or not. */
    method Destroy()
      requires !slot.Raw?
      modifies this
      ensures slot.Raw?
    {
      slot := Raw;
    }
  }

  /** What operator() did with the callback. */
  datatype Outcome = Abandoned | Posted(executor: Executor) | RanInline | QueuedForCallbackThreads

  class ResponseDelivery {
    const storage: Storage
    const epoch: nat
    var hasExecutor: bool
    var hasCallback: bool    // on_response_ has been neither moved to another delivery nor used

    /** The flag says whether the storage holds a live executor; nothing is ever left half destroyed. */
    ghost predicate Valid()
      reads this, storage
    {
      (hasExecutor <==> storage.slot.Live?) && (!hasExecutor <==> storage.slot.Raw?)
    }

    /** The executor the delivery owns. */
    ghost function Owned(): Option<Executor>
      reads this, storage
    {
      if storage.slot.Live? then Some(storage.slot.executor) else None
    }

    constructor (executor: Option<Executor>, epoch: nat)
      ensures Valid() && fresh(storage) && hasCallback && this.epoch == epoch && Owned() == executor
    {
      this.epoch := epoch;
      this.hasExecutor := executor.Some?;
      this.hasCallback := true;
      storage := new Storage();
      new;
      if hasExecutor {
        storage.Construct(executor.value);
      }
    }

    /** The move constructor: executor and callback change hands, and the source keeps neither. */
    constructor Move(other: ResponseDelivery)
      requires other.Valid()
      modifies other, other.storage
      ensures Valid() && other.Valid() && fresh(storage) && epoch == other.epoch
      ensures Owned() == old(other.Owned()) && other.Owned() == None
      ensures hasCallback == old(other.hasCallback) && !other.hasCallback
    {
      epoch := other.epoch;
      hasExecutor := other.hasExecutor;
      hasCallback := other.hasCallback;
      storage := new Storage();
      new;
      other.hasExecutor := false;
      other.hasCallback := false;
      if hasExecutor {
        var executor := other.storage.MoveOut();
        storage.Construct(executor);
        other.storage.Destroy();
      }
    }

    /** operator(): posts the callback, runs it, or hands it to the callback threads; a request of an earlier
        epoch keeps its executor, which is leaked on purpose, and its callback is never used. */
    method Deliver(currentEpoch: nat, inlineCallbacks: bool) returns (outcome: Outcome)
      requires Valid() && hasCallback
      modifies this, storage
      ensures Valid()
      ensures outcome.Abandoned? <==> epoch != currentEpoch
      ensures outcome.Abandoned? ==> hasCallback && Owned() == old(Owned())
      ensures !outcome.Abandoned? ==>
                && !hasCallback && Owned() == None
                && outcome == (match old(Owned())
                               case Some(executor) => Posted(executor)
                               case None => if inlineCallbacks then RanInline else QueuedForCallbackThreads)
    {
      if epoch != currentEpoch {
        return Abandoned;
      }
      hasCallback := false;
      if hasExecutor {
        outcome := Posted(storage.slot.executor);
        storage.Destroy();
        hasExecutor := false;
      } else if inlineCallbacks {
        outcome := RanInline;
      } else {
        outcome := QueuedForCallbackThreads;
      }
    }
  }

  /** However often a delivery is moved before it is invoked, its outcome is that of the one first made: the
      executor reaches the post, or stays where it is if the request was abandoned. */
  method MoveAndDeliver(executor: Option<Executor>, epoch: nat, moves: nat, currentEpoch: nat, inlineCallbacks: bool)
    returns (outcome: Outcome)
    ensures
      outcome ==
        if epoch != currentEpoch then Abandoned
        else if executor.Some? then Posted(executor.value)
        else if inlineCallbacks then RanInline
        else QueuedForCallbackThreads
  {
    var delivery := new ResponseDelivery(executor, epoch);
    for i := 0 to moves
      invariant delivery.Valid() && fresh(delivery) && fresh(delivery.storage)
      invariant delivery.hasCallback && delivery.epoch == epoch && delivery.Owned() == executor
    {
      delivery := new ResponseDelivery.Move(delivery);
    }
    outcome := delivery.Deliver(currentEpoch, inlineCallbacks);
  }
}
