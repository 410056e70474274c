/**
 The shared state of an H2 pool: counters kept under one mutex, two `Notify` permits and
 the `came_up` version.

 A `Notify` is a one-slot permit: `notify_one` fills it, `notified().await` empties it.
 A `watch` channel is a version number; a receiver remembers the version it last saw.
 */
module PoolLiveness {
  import opened Common

  datatype PoolEvent = Established | Lost(cause: string)

  datatype Pool = Pool(
    size: nat,
    live: nat,
    everUp: bool,
    parked: nat,
    cameUp: nat,
    wentDown: bool,
    allParked: bool,
    events: seq<PoolEvent>)

  function NewPool(size: nat): Pool {
    Pool(size, 0, false, 0, 0, false, false, [])
  }

  function AfterUp(p: Pool): Pool {
    var p := p.(live := p.live + 1, everUp := true);
    if p.live == 1 then p.(cameUp := p.cameUp + 1, events := p.events + [Established]) else p
  }

  function AfterDown(p: Pool, cause: string, stopped: bool): Pool {
    var p := p.(live := if p.live == 0 then 0 else p.live - 1);
    if p.live != 0 then p
    else p.(wentDown := true, events := if stopped then p.events else p.events + [Lost(cause)])
  }

  /** Whether `park` takes a member in; it refuses while a sibling is up. */
  predicate Parkable(p: Pool) {
    p.live == 0
  }

  function AfterPark(p: Pool): Pool {
    if !Parkable(p) then p
    else
      var p := p.(parked := p.parked + 1);
      if p.parked >= p.size then p.(allParked := true) else p
  }

  function AfterUnpark(p: Pool): Pool {
    p.(parked := if p.parked == 0 then 0 else p.parked - 1)
  }

  /** The mutex-protected object itself; each method is one critical section. */
  class PoolLiveness {
    const size: nat
    var live: nat
    var everUp: bool
    var parked: nat
    var cameUp: nat
    var wentDown: bool
    var allParked: bool
    var events: seq<PoolEvent>

    function View(): Pool
      reads this
    {
      Pool(size, live, everUp, parked, cameUp, wentDown, allParked, events)
    }

    constructor (size: nat)
      ensures View() == NewPool(size)
    {
      this.size := size;
      live, everUp, parked, cameUp := 0, false, 0, 0;
      wentDown, allParked, events := false, false, [];
    }

    method Up()
      modifies this
      ensures View() == AfterUp(old(View()))
    {
      live := live + 1;
      everUp := true;
      if live == 1 {
        cameUp := cameUp + 1;
        events := events + [Established];
      }
    }

    method Down(cause: string, stopped: bool)
      modifies this
      ensures View() == AfterDown(old(View()), cause, stopped)
    {
      live := if live == 0 then 0 else live - 1;
      if live == 0 {
        if !stopped {
          events := events + [Lost(cause)];
        }
        wentDown := true;
      }
    }

    /** `Some(v)` is a receiver subscribed at version `v`. */
    method Park() returns (receiver: Option<nat>)
      modifies this
      ensures View() == AfterPark(old(View()))
      ensures receiver == if Parkable(old(View())) then Some(cameUp) else None
    {
      if live > 0 {
        return None;
      }
      parked := parked + 1;
      if parked >= size {
        allParked := true;
      }
      receiver := Some(cameUp);
    }

    method Unpark()
      modifies this
      ensures View() == AfterUnpark(old(View()))
    {
      parked := if parked == 0 then 0 else parked - 1;
    }

    /** Polling `wait_down`: resolves, and empties the permit, exactly when it is filled. */
    method PollWentDown() returns (ready: bool)
      modifies this
      ensures ready == old(wentDown) && View() == old(View()).(wentDown := false)
    {
      ready := wentDown;
      wentDown := false;
    }

    method PollAllParked() returns (ready: bool)
      modifies this
      ensures ready == old(allParked) && View() == old(View()).(allParked := false)
    {
      ready := allParked;
      allParked := false;
    }
  }
}
