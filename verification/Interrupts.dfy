/** The interrupt simulator: a clock, an event queue kept in order of time, and handlers that may
    schedule more events, but only for later. */
module Interrupts {
  import opened Options
  import opened LinkedList

  const USER_TICK := 1
  const SYSTEM_TICK := 10

  datatype Kind = TimerInt | DiskInt | ConsoleWriteInt | ConsoleReadInt | NetworkSendInt | NetworkRecvInt

  datatype Event = Event(when: int, kind: Kind, tag: int)

  /** What a handler asks for: events `fromNow` ticks later, and a context switch on return. */
  datatype Later = Later(fromNow: int, kind: Kind, tag: int)

  datatype Reaction = Reaction(later: seq<Later>, yieldOnReturn: bool)

  /** What the handler of an event does when it is called at a time, after the handlers called before it:
      these stand for the state of the devices. */
  type Handlers = (int, Event, seq<Event>) -> Reaction

  datatype Mode = IdleMode | SystemMode | UserMode

  /** `fired` is the history of the handlers called. */
  datatype Sim = Sim(now: int, idle: int, system: int, user: int, mode: Mode, yieldOnReturn: bool,
                     pending: Items<Event>, fired: seq<Event>)

  /** Schedule's ASSERT: handlers only schedule for later. */
  ghost predicate ForLater(h: Handlers) {
    forall now, e, past, i :: 0 <= i < |h(now, e, past).later| ==> h(now, e, past).later[i].fromNow > 0
  }

  /** Schedule. */
  function Scheduled(q: Items<Event>, now: int, l: Later): Items<Event> {
    Inserted(q, Event(now + l.fromNow, l.kind, l.tag), now + l.fromNow)
  }

  function ScheduledAll(q: Items<Event>, now: int, later: seq<Later>): Items<Event>
    decreases |later|
  {
    if later == [] then q else ScheduledAll(Scheduled(q, now, later[0]), now, later[1..])
  }

  /** CheckIfDue. */
  function CheckIfDue(s: Sim, h: Handlers, advanceClock: bool): (Sim, bool) {
    if s.pending == [] then (s, false)
    else
      var (e, when) := s.pending[0];
      var rest := s.pending[1..];
      if !advanceClock && when > s.now then (s.(pending := Inserted(rest, e, when)), false)
      else
        var t := if when > s.now then s.(now := when, idle := s.idle + (when - s.now)) else s;
        if s.mode == IdleMode && e.kind == TimerInt && rest == [] then (t.(pending := Inserted(rest, e, when)), false)
        else
          var r := h(t.now, e, t.fired);
          (t.(pending := ScheduledAll(rest, t.now, r.later), yieldOnReturn := t.yieldOnReturn || r.yieldOnReturn, fired := t.fired + [e]), true)
  }

  /** How many events are due. */
  function Due(q: Items<Event>, now: int): nat {
    if q == [] then 0 else (if q[0].1 <= now then 1 else 0) + Due(q[1..], now)
  }

  lemma {:induction false} DueInserted(q: Items<Event>, e: Event, when: int, now: int)
    ensures Due(Inserted(q, e, when), now) == Due(q, now) + if when <= now then 1 else 0
  {
    if q == [] {
      assert [(e, when)][1..] == [];
    } else if when < q[0].1 {
      assert ([(e, when)] + q)[1..] == q;
    } else {
      DueInserted(q[1..], e, when, now);
      assert ([q[0]] + Inserted(q[1..], e, when))[1..] == Inserted(q[1..], e, when);
    }
  }

  lemma {:induction false} DueScheduled(q: Items<Event>, now: int, later: seq<Later>)
    requires forall i :: 0 <= i < |later| ==> later[i].fromNow > 0
    ensures Due(ScheduledAll(q, now, later), now) == Due(q, now)
    decreases |later|
  {
    if later != [] {
      var e := Event(now + later[0].fromNow, later[0].kind, later[0].tag);
      DueInserted(q, e, now + later[0].fromNow, now);
      DueScheduled(Scheduled(q, now, later[0]), now, later[1..]);
    }
  }

  /** A handler that is called takes its event out of those due, and puts none in. */
  lemma DueDecreases(s: Sim, h: Handlers)
    requires ForLater(h) && CheckIfDue(s, h, false).1
    ensures var t := CheckIfDue(s, h, false).0; t.now == s.now && Due(t.pending, t.now) == Due(s.pending, s.now) - 1
  {
    var (e, when) := s.pending[0];
    DueScheduled(s.pending[1..], s.now, h(s.now, e, s.fired).later);
  }

  /** while (CheckIfDue(FALSE)). */
  ghost function RunDue(s: Sim, h: Handlers): Sim
    requires ForLater(h)
    decreases Due(s.pending, s.now)
  {
    var (t, fired) := CheckIfDue(s, h, false);
    if fired then
      DueDecreases(s, h);
      RunDue(t, h)
    else t
  }

  /** OneTick, up to the yield: the state, and whether it yields. */
  ghost function OneTick(s: Sim, h: Handlers): (Sim, bool)
    requires ForLater(h)
  {
    var t := if s.mode == SystemMode then s.(now := s.now + SYSTEM_TICK, system := s.system + SYSTEM_TICK)
             else s.(now := s.now + USER_TICK, user := s.user + USER_TICK);
    var r := RunDue(t, h);
    (r.(yieldOnReturn := false), r.yieldOnReturn)
  }

  /** Idle; None when there is nothing to wait for and the machine halts. */
  ghost function Idle(s: Sim, h: Handlers): Option<Sim>
    requires ForLater(h)
  {
    var (t, fired) := CheckIfDue(s.(mode := IdleMode), h, true);
    if fired then Some(RunDue(t, h).(yieldOnReturn := false, mode := SystemMode)) else None
  }

  // ---- what is always true ----

  /** The queue is in order and its keys are the events' times; the times in which the three modes
      were spent add up; handlers were called in order of time, and none is overdue behind them. */
  ghost predicate Good(s: Sim) {
    && Sorted(s.pending) && (forall i :: 0 <= i < |s.pending| ==> s.pending[i].1 == s.pending[i].0.when)
    && s.now == s.idle + s.system + s.user
    && InTime(s.fired, s.now) && Behind(s.fired, s.pending)
  }

  ghost predicate InTime(fired: seq<Event>, now: int) {
    && (forall i, j :: 0 <= i < j < |fired| ==> fired[i].when <= fired[j].when)
    && (forall i :: 0 <= i < |fired| ==> fired[i].when <= now)
  }

  ghost predicate Behind(fired: seq<Event>, q: Items<Event>) {
    forall i, k :: 0 <= i < |fired| && 0 <= k < |q| ==> fired[i].when <= q[k].1
  }

  ghost predicate Keyed(q: Items<Event>) {
    Sorted(q) && forall i :: 0 <= i < |q| ==> q[i].1 == q[i].0.when
  }

  lemma SplicedKeyed(q: Items<Event>, i: nat, e: Event, fired: seq<Event>)
    requires i <= |q| && Behind(fired, q) && (forall k :: 0 <= k < |q| ==> q[k].1 == q[k].0.when)
    requires forall k :: 0 <= k < |fired| ==> fired[k].when <= e.when
    ensures var r := q[..i] + [(e, e.when)] + q[i..]; Behind(fired, r) && forall k :: 0 <= k < |r| ==> r[k].1 == r[k].0.when
  {
    var r := q[..i] + [(e, e.when)] + q[i..];
    assert forall k :: 0 <= k < |r| ==> r[k] == if k < i then q[k] else if k == i then (e, e.when) else q[k - 1];
  }

  lemma InsertKeyed(q: Items<Event>, e: Event, fired: seq<Event>)
    requires Keyed(q) && Behind(fired, q) && forall i :: 0 <= i < |fired| ==> fired[i].when <= e.when
    ensures Keyed(Inserted(q, e, e.when)) && Behind(fired, Inserted(q, e, e.when))
  {
    hide Sorted, Behind, Inserted;
    InsertedSorted(q, e, e.when);
    InsertedAt(q, e, e.when);
    SplicedKeyed(q, Place(q, e.when), e, fired);
  }

  /** Any thread may schedule, too: only for later. */
  lemma ScheduleKeeps(s: Sim, l: Later)
    requires Good(s) && l.fromNow > 0
    ensures Good(s.(pending := Scheduled(s.pending, s.now, l)))
  {
    InsertKeyed(s.pending, Event(s.now + l.fromNow, l.kind, l.tag), s.fired);
  }

  lemma {:induction false} ScheduleAllKeeps(q: Items<Event>, now: int, later: seq<Later>, fired: seq<Event>)
    requires Keyed(q) && Behind(fired, q) && InTime(fired, now) && forall i :: 0 <= i < |later| ==> later[i].fromNow > 0
    ensures Keyed(ScheduledAll(q, now, later)) && Behind(fired, ScheduledAll(q, now, later))
    decreases |later|
  {
    hide Inserted, Keyed, Behind;
    if later != [] {
      InsertKeyed(q, Event(now + later[0].fromNow, later[0].kind, later[0].tag), fired);
      ScheduleAllKeeps(Scheduled(q, now, later[0]), now, later[1..], fired);
    }
  }

  /** Putting the front event back puts it in front again, or after others due at the same time. */
  lemma PutBackKeeps(q: Items<Event>, fired: seq<Event>)
    requires q != [] && Keyed(q) && Behind(fired, q)
    ensures Keyed(Inserted(q[1..], q[0].0, q[0].1)) && Behind(fired, Inserted(q[1..], q[0].0, q[0].1))
    ensures forall k :: 0 <= k < |Inserted(q[1..], q[0].0, q[0].1)| ==> Inserted(q[1..], q[0].0, q[0].1)[k].1 >= q[0].1
  {
    hide Inserted;
    var e := q[0].0;
    assert Keyed(q[1..]) && Behind(fired, q[1..]) && Behind([e], q[1..]);
    InsertKeyed(q[1..], e, fired);
    InsertKeyed(q[1..], e, [e]);
    assert [e][0] == e;
  }

  lemma FireKeeps(s: Sim, h: Handlers, now: int)
    requires ForLater(h) && s.pending != [] && Keyed(s.pending) && Behind(s.fired, s.pending) && InTime(s.fired, s.now)
    requires s.now <= now && s.pending[0].1 <= now
    ensures var e := s.pending[0].0;
            var q := ScheduledAll(s.pending[1..], now, h(now, e, s.fired).later);
            Keyed(q) && Behind(s.fired + [e], q) && InTime(s.fired + [e], now)
  {
    var e := s.pending[0].0;
    assert s.pending[0].1 == e.when;
    ScheduleAllKeeps(s.pending[1..], now, h(now, e, s.fired).later, s.fired + [e]);
  }

  /** Every check keeps the simulator's invariant, and the clock never goes back. */
  lemma CheckKeeps(s: Sim, h: Handlers, advanceClock: bool)
    requires Good(s) && ForLater(h)
    ensures Good(CheckIfDue(s, h, advanceClock).0)
    ensures CheckIfDue(s, h, advanceClock).0.now >= s.now && (!advanceClock ==> CheckIfDue(s, h, advanceClock).0.now == s.now)
    ensures s.fired <= CheckIfDue(s, h, advanceClock).0.fired && CheckIfDue(s, h, advanceClock).0.mode == s.mode
    ensures var t := CheckIfDue(s, h, advanceClock).0; t.system == s.system && t.user == s.user && (!advanceClock ==> t.idle == s.idle)
  {
    hide Inserted, ScheduledAll, Sorted;
    if s.pending != [] {
      PutBackKeeps(s.pending, s.fired);
      var (e, when) := s.pending[0];
      if advanceClock || when <= s.now { FireKeeps(s, h, if when > s.now then when else s.now); }
    }
  }

  lemma {:induction false} NothingDue(q: Items<Event>, now: int)
    requires forall k :: 0 <= k < |q| ==> q[k].1 > now
    ensures Due(q, now) == 0
  {
    if q != [] { NothingDue(q[1..], now); }
  }

  /** When a check calls no handler, nothing is due, but for a lone timer while the machine idles. */
  lemma StopsWhenNothingDue(s: Sim, h: Handlers)
    requires Good(s) && !CheckIfDue(s, h, false).1
    ensures var t := CheckIfDue(s, h, false).0;
            (forall k :: 0 <= k < |t.pending| ==> t.pending[k].1 > t.now)
            || (s.mode == IdleMode && |t.pending| == 1 && t.pending[0].0.kind == TimerInt)
  {
    if s.pending != [] { PutBackKeeps(s.pending, s.fired); }
  }

  lemma {:induction false} RunDueKeeps(s: Sim, h: Handlers)
    requires Good(s) && ForLater(h)
    ensures var t := RunDue(s, h);
            && Good(t) && s.fired <= t.fired
            && t.now == s.now && t.mode == s.mode && t.idle == s.idle && t.system == s.system && t.user == s.user
            && ((forall k :: 0 <= k < |t.pending| ==> t.pending[k].1 > t.now)
                || (s.mode == IdleMode && |t.pending| == 1 && t.pending[0].0.kind == TimerInt))
    decreases Due(s.pending, s.now)
  {
    hide Good, CheckIfDue, Due;
    CheckKeeps(s, h, false);
    var (t, fired) := CheckIfDue(s, h, false);
    if fired {
      DueDecreases(s, h);
      RunDueKeeps(t, h);
    } else {
      StopsWhenNothingDue(s, h);
    }
  }

  /** OneTick terminates (RunDue's measure is the number of events due) with nothing left due; the
      clock and the time of the mode advance by the tick of the mode, and the handlers were called in
      order of time. */
  lemma TickLeavesNothingDue(s: Sim, h: Handlers)
    requires Good(s) && ForLater(h) && s.mode != IdleMode
    ensures var t := OneTick(s, h).0;
            && Good(t) && s.fired <= t.fired && t.mode == s.mode && !t.yieldOnReturn && t.idle == s.idle
            && t.system == s.system + (if s.mode == SystemMode then 10 else 0)
            && t.user == s.user + (if s.mode == SystemMode then 0 else 1)
            && forall k :: 0 <= k < |t.pending| ==> t.pending[k].0.when > t.now
  {
    hide RunDue, Sorted;
    var u := if s.mode == SystemMode then s.(now := s.now + SYSTEM_TICK, system := s.system + SYSTEM_TICK)
             else s.(now := s.now + USER_TICK, user := s.user + USER_TICK);
    RunDueKeeps(u, h);
  }

  /** Idling jumps to the next event, if that is not due yet, and counts the jump as idle time; it calls that
      event's handler and all that are then due, leaves nothing due but perhaps the timer alone, and goes on
      in system mode; it halts exactly when nothing, or only the timer, is pending. */
  lemma IdleAdvances(s: Sim, h: Handlers)
    requires Good(s) && ForLater(h)
    ensures Idle(s, h).None? <==> s.pending == [] || (|s.pending| == 1 && s.pending[0].0.kind == TimerInt)
    ensures Idle(s, h).Some? ==>
              var t := Idle(s, h).value;
              && Good(t) && s.fired < t.fired && t.mode == SystemMode && !t.yieldOnReturn
              && t.fired[|s.fired|] == s.pending[0].0
              && t.now == (if s.pending[0].0.when > s.now then s.pending[0].0.when else s.now)
              && t.idle - s.idle == t.now - s.now && t.system == s.system && t.user == s.user
              && ((forall k :: 0 <= k < |t.pending| ==> t.pending[k].0.when > t.now)
                  || (|t.pending| == 1 && t.pending[0].0.kind == TimerInt))
  {
    hide RunDue, Sorted, Inserted, ScheduledAll;
    var idle := s.(mode := IdleMode);
    CheckKeeps(idle, h, true);
    var (t, fired) := CheckIfDue(idle, h, true);
    if fired { RunDueKeeps(t, h); }
  }

  // ---- every run ----

  /** What the kernel and the machine do with the simulator; `Enter` is a change between user and
      system mode. */
  datatype Act = Advance | Sleep | Plan(l: Later) | Enter(mode: Mode)

  predicate Allowed(s: Sim, a: Act) {
    match a
    case Advance => s.mode != IdleMode
    case Sleep => true
    case Plan(l) => l.fromNow > 0
    case Enter(m) => m != IdleMode
  }

  /** None once the machine has halted. */
  ghost function Done(s: Sim, h: Handlers, a: Act): Option<Sim>
    requires ForLater(h) && Allowed(s, a)
  {
    match a
    case Advance => Some(OneTick(s, h).0)
    case Sleep => Idle(s, h)
    case Plan(l) => Some(s.(pending := Scheduled(s.pending, s.now, l)))
    case Enter(m) => Some(s.(mode := m))
  }

  ghost predicate Ends(s: Sim, h: Handlers, acts: seq<Act>, t: Sim)
    requires ForLater(h)
    decreases |acts|
  {
    if acts == [] then t == s
    else Allowed(s, acts[0]) && Done(s, h, acts[0]).Some? && Ends(Done(s, h, acts[0]).value, h, acts[1..], t)
  }

  lemma ActKeeps(s: Sim, h: Handlers, a: Act)
    requires Good(s) && ForLater(h) && Allowed(s, a) && Done(s, h, a).Some?
    ensures var t := Done(s, h, a).value; Good(t) && s.now <= t.now && s.fired <= t.fired
  {
    hide RunDue, OneTick, Idle, Sorted;
    match a
    case Advance => TickLeavesNothingDue(s, h);
    case Sleep => IdleAdvances(s, h);
    case Plan(l) => ScheduleKeeps(s, l);
    case Enter(_) =>
  }

  /** Over every run: the clock never goes back and is always the sum of the three times, handlers are
      called in order of time and never before their event is due, and what is pending is not behind
      what was called. */
  lemma {:induction false} ClockNeverGoesBack(s: Sim, h: Handlers, acts: seq<Act>, t: Sim)
    requires Good(s) && ForLater(h) && Ends(s, h, acts, t)
    ensures Good(t) && s.now <= t.now && t.now == t.idle + t.system + t.user && s.fired <= t.fired
    ensures forall i, j :: 0 <= i < j < |t.fired| ==> t.fired[i].when <= t.fired[j].when <= t.now
    decreases |acts|
  {
    hide Done, Sorted;
    if acts != [] {
      ActKeeps(s, h, acts[0]);
      ClockNeverGoesBack(Done(s, h, acts[0]).value, h, acts[1..], t);
    }
  }
}
