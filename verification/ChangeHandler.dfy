/**
 The functions of a change handler as they run when nothing interferes between their locks
 (winipcfg/interface_change_handler.go and its two copies): package variables updated in place,
 proved against the table operations that the protocol interleaves.
 */
module ChangeHandler {
  import opened Wrappers
  import opened CallbackTable

  class Handler {
    var callbacks: set<nat>
    var handle: nat
    var waits: map<nat, int>

    ghost function State(): Table
      reads this
    {
      Table(callbacks, handle, waits)
    }

    function Waiting(cb: nat): int
      reads this`waits
    {
      Table({}, 0, waits).Waiting(cb)
    }

    /** A live subscription whenever there is somebody to notify. */
    ghost predicate Valid()
      reads this
    {
      callbacks != {} ==> handle != 0
    }

    constructor ()
      ensures Valid() && State() == EmptyTable()
    {
      callbacks, handle, waits := {}, 0, map[];
    }

    /** answer is what the OS would say to a subscription: a handle, or no. */
    method Register(s: nat, answer: Option<nat>) returns (ok: bool)
      requires Valid() && s !in callbacks
      requires answer != Some(0)
      modifies this
      ensures Valid()
      ensures ok <==> old(handle) != 0 || answer.Some?
      ensures callbacks == if ok then old(callbacks) + {s} else old(callbacks)
      ensures handle == if old(handle) == 0 && answer.Some? then answer.value else old(handle)
      ensures waits == old(waits)
      // These are the steps that the protocol takes.
      ensures State() == if !ok then old(State())
                         else old(State()).Insert(s).SetHandle(if old(handle) != 0 then old(handle) else answer.value)
    {
      callbacks := callbacks + {s};
      if handle == 0 {
        if answer.None? {
          callbacks := callbacks - {s};
          handle := 0;
          return false;
        }
        handle := answer.value;
      }
      return true;
    }

    /** The wait group of cb: returns once its goroutines have called Done. */
    method AwaitCallbacks(cb: nat)
      modifies this`waits
      ensures Waiting(cb) == 0
      ensures forall x | x != cb :: Waiting(x) == old(Waiting(x))
    {
      waits := waits[cb := 0];
    }

    /** cancelled is what the OS would say to cancelling the subscription. */
    method Unregister(cb: nat, cancelled: bool) returns (ok: bool)
      requires Valid()
      modifies this
      ensures Valid()
      ensures callbacks == old(callbacks) - {cb} && Waiting(cb) == 0
      ensures forall x | x != cb :: Waiting(x) == old(Waiting(x))
      // The subscription goes with the last callback, unless the OS refuses, which is the only error.
      ensures !ok <==> callbacks == {} && old(handle) != 0 && !cancelled
      ensures handle == if callbacks == {} && ok then 0 else old(handle)
    {
      callbacks := callbacks - {cb};
      var removeIt := callbacks == {} && handle != 0;
      AwaitCallbacks(cb);
      if removeIt {
        if !cancelled {
          return false;
        }
        handle := 0;
      }
      return true;
    }

    /** One notification: every registered callback, in whatever order the map yields them, gets one
        more goroutine to wait for; no other callback does. */
    method Changed() returns (spawned: seq<nat>)
      modifies this`waits
      ensures multiset(spawned) == multiset(callbacks)
      ensures forall x :: Waiting(x) == old(Waiting(x)) + if x in callbacks then 1 else 0
    {
      spawned := [];
      var todo := callbacks;
      while todo != {}
        invariant todo <= callbacks
        invariant multiset(spawned) == multiset(callbacks - todo)
        invariant forall x :: Waiting(x) == old(Waiting(x)) + if x in callbacks - todo then 1 else 0
        decreases todo
      {
        var cb :| cb in todo;
        waits := waits[cb := Waiting(cb) + 1];
        spawned := spawned + [cb];
        assert callbacks - (todo - {cb}) == callbacks - todo + {cb};
        todo := todo - {cb};
      }
      assert callbacks - {} == callbacks;
    }
  }
}
