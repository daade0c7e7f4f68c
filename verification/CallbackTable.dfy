/**
 The package-level state of a change handler and the bodies of its three functions, each run with
 the mutexes of the source held (winipcfg/interface_change_handler.go and its two copies).
 */
module CallbackTable {

  /** The callback map, the subscription handle (0 for none) and the wait-group counters. */
  datatype Table = Table(callbacks: set<nat>, handle: nat, waits: map<nat, int>) {
    function Waiting(cb: nat): int {
      if cb in waits then waits[cb] else 0
    }

    function Insert(cb: nat): Table {
      this.(callbacks := callbacks + {cb})
    }

    function Delete(cb: nat): Table {
      this.(callbacks := callbacks - {cb})
    }

    function SetHandle(h: nat): Table {
      this.(handle := h)
    }

    function ClearHandle(): Table {
      this.(handle := 0)
    }

    function Add(cb: nat): Table {
      this.(waits := waits[cb := Waiting(cb) + 1])
    }

    function Done(cb: nat): Table {
      this.(waits := waits[cb := Waiting(cb) - 1])
    }

    /** No callback is left but the subscription is still there. */
    predicate Unused() {
      callbacks == {} && handle != 0
    }
  }

  function EmptyTable(): Table {
    Table({}, 0, map[])
  }
}
