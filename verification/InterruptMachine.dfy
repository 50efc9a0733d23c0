/** The interrupt simulator as the program it is: counters and an event queue that its methods change
    step by step. The queue's own operations are those of LinkedList.List. */
module InterruptMachine {
  import opened LinkedList
  import opened Interrupts

  class Interrupt {
    /** The handlers' code, which is not part of this model. */
    const handlers: Handlers
    var pending: Items<Event>
    var totalTicks: int
    var idleTicks: int
    var systemTicks: int
    var userTicks: int
    var status: Mode
    var interruptsOn: bool
    var inHandler: bool
    var yieldOnReturn: bool
    /** The handlers called so far, which stand for the state of the devices. */
    var fired: seq<Event>

    ghost predicate Valid()
    {
      ForLater(handlers)
    }

    ghost function State(): Sim
      reads this
    {
      Sim(totalTicks, idleTicks, systemTicks, userTicks, status, yieldOnReturn, pending, fired)
    }

    constructor (handlers: Handlers)
      requires ForLater(handlers)
      ensures Valid()
      ensures State() == Sim(0, 0, 0, 0, SystemMode, false, [], []) && !interruptsOn && !inHandler
    {
      this.handlers := handlers;
      pending := [];
      totalTicks, idleTicks, systemTicks, userTicks := 0, 0, 0, 0;
      status, interruptsOn, inHandler, yieldOnReturn := SystemMode, false, false, false;
      fired := [];
    }

    /** Interrupt::Schedule. */
    method Schedule(l: Later)
      requires Valid() && l.fromNow > 0
      modifies this`pending
      ensures Valid()
      ensures State() == old(State()).(pending := Scheduled(old(State()).pending, totalTicks, l))
    {
      var when := totalTicks + l.fromNow;
      pending := Inserted(pending, Event(when, l.kind, l.tag), when);
    }

    /** Call the handler of an event: it schedules what it schedules, and may ask for a yield. */
    method Call(e: Event)
      requires Valid()
      modifies this`inHandler, this`status, this`yieldOnReturn, this`fired, this`pending
      ensures Valid() && inHandler == false
      ensures var r := handlers(totalTicks, e, old(fired));
              State() == old(State()).(pending := ScheduledAll(old(State()).pending, totalTicks, r.later),
                                       yieldOnReturn := old(yieldOnReturn) || r.yieldOnReturn, fired := old(fired) + [e])
    {
      var was := status;
      inHandler := true;
      status := SystemMode;
      var r := handlers(totalTicks, e, fired);
      var i := 0;
      ghost var q := pending;
      while i < |r.later|
        invariant 0 <= i <= |r.later|
        invariant State() == old(State()).(mode := SystemMode, pending := pending)
        invariant ScheduledAll(pending, totalTicks, r.later[i..]) == ScheduledAll(q, totalTicks, r.later)
      {
        assert r.later[i..][0] == r.later[i] && r.later[i..][1..] == r.later[i + 1..];
        Schedule(r.later[i]);
        i := i + 1;
      }
      assert r.later[i..] == [] && pending == ScheduledAll(q, totalTicks, r.later);
      if r.yieldOnReturn { yieldOnReturn := true; }
      fired := fired + [e];
      status := was;
      inHandler := false;
    }

    /** Interrupt::CheckIfDue. */
    method Check(advanceClock: bool) returns (called: bool)
      requires Valid() && !interruptsOn
      modifies this
      ensures Valid() && !interruptsOn
      ensures (State(), called) == CheckIfDue(old(State()), handlers, advanceClock)
    {
      if pending == [] { return false; }
      var (e, when) := pending[0];
      pending := pending[1..];
      if advanceClock {
        if when > totalTicks {
          idleTicks := idleTicks + (when - totalTicks);
          totalTicks := when;
        }
      } else if when > totalTicks {
        pending := Inserted(pending, e, when);
        return false;
      }
      if status == IdleMode && e.kind == TimerInt {
        if pending == [] {
          pending := Inserted(pending, e, when);
          return false;
        }
      }
      Call(e);
      return true;
    }

    /** The loop that calls every handler that is due. */
    method CallDue()
      requires Valid() && !interruptsOn
      modifies this
      ensures Valid() && !interruptsOn
      ensures State() == RunDue(old(State()), handlers)
    {
      hide CheckIfDue, Due;
      var called := true;
      while called
        invariant Valid() && !interruptsOn
        invariant if called then RunDue(State(), handlers) == RunDue(old(State()), handlers) else State() == RunDue(old(State()), handlers)
        decreases called, Due(pending, totalTicks)
      {
        ghost var was := State();
        called := Check(false);
        if called { DueDecreases(was, handlers); } else { NoneCalled(was, handlers); }
      }
    }

    /** Interrupt::OneTick, up to the yield that a handler may have asked for. */
    method Tick() returns (switches: bool)
      requires Valid() && interruptsOn
      modifies this
      ensures Valid() && interruptsOn && (State(), switches) == OneTick(old(State()), handlers)
    {
      if status == SystemMode {
        totalTicks := totalTicks + SYSTEM_TICK;
        systemTicks := systemTicks + SYSTEM_TICK;
      } else {
        totalTicks := totalTicks + USER_TICK;
        userTicks := userTicks + USER_TICK;
      }
      interruptsOn := false;
      CallDue();
      interruptsOn := true;
      switches := yieldOnReturn;
      if yieldOnReturn { yieldOnReturn := false; }
    }

    /** Interrupt::SetLevel: turning interrupts on advances the clock. */
    method SetLevel(on: bool) returns (old': bool, switches: bool)
      requires Valid() && (on ==> !inHandler)
      modifies this
      ensures Valid() && interruptsOn == on && old' == old(interruptsOn)
      ensures (State(), switches) == if on && !old' then OneTick(old(State()), handlers) else (old(State()), false)
    {
      old', switches := interruptsOn, false;
      interruptsOn := on;
      if on && !old' { switches := Tick(); }
    }

    /** Interrupt::Idle; false when the machine halts. */
    method Wait() returns (woken: bool)
      requires Valid() && !interruptsOn
      modifies this
      ensures match Idle(old(State()), handlers) case None => !woken case Some(t) => woken && State() == t
    {
      hide CheckIfDue, RunDue;
      status := IdleMode;
      woken := Check(true);
      if woken {
        CallDue();
        yieldOnReturn := false;
        status := SystemMode;
      }
    }
  }

  lemma NoneCalled(s: Sim, h: Handlers)
    requires ForLater(h) && !CheckIfDue(s, h, false).1
    ensures RunDue(s, h) == CheckIfDue(s, h, false).0
  {
  }
}
