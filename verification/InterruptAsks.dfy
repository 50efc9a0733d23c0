/** What becomes of everything that is scheduled: it is pending, due when it was asked for, until its handler
    is called. */
module InterruptAsks {
  import opened LinkedList
  import opened Interrupts

  /** The events of a queue, each as often as it is there. */
  function Bag(q: Items<Event>): multiset<Event> {
    if q == [] then multiset{} else multiset{q[0].0} + Bag(q[1..])
  }

  /** What is asked for at a time, as the events that are then to come. */
  function Wanted(now: int, later: seq<Later>): multiset<Event> {
    if later == [] then multiset{}
    else multiset{Event(now + later[0].fromNow, later[0].kind, later[0].tag)} + Wanted(now, later[1..])
  }

  /** What the handlers of fired[i..] asked for, called one after the other at this time. */
  function AskedBy(h: Handlers, now: int, fired: seq<Event>, i: nat): multiset<Event>
    decreases |fired| - i
  {
    if i >= |fired| then multiset{} else Wanted(now, h(now, fired[i], fired[..i]).later) + AskedBy(h, now, fired, i + 1)
  }

  lemma {:induction false} BagInserted(q: Items<Event>, e: Event, when: int)
    ensures Bag(Inserted(q, e, when)) == Bag(q) + multiset{e}
  {
    if q == [] {
      assert [(e, when)][1..] == [];
    } else if when < q[0].1 {
      assert ([(e, when)] + q)[1..] == q;
    } else {
      BagInserted(q[1..], e, when);
      assert ([q[0]] + Inserted(q[1..], e, when))[1..] == Inserted(q[1..], e, when);
    }
  }

  lemma {:induction false} BagScheduled(q: Items<Event>, now: int, later: seq<Later>)
    ensures Bag(ScheduledAll(q, now, later)) == Bag(q) + Wanted(now, later)
    decreases |later|
  {
    hide Inserted;
    if later != [] {
      var e := Event(now + later[0].fromNow, later[0].kind, later[0].tag);
      BagInserted(q, e, now + later[0].fromNow);
      BagScheduled(Scheduled(q, now, later[0]), now, later[1..]);
    }
  }

  /** One check: its event is called, at the time it then is, and what its handler wants is pending. */
  ghost predicate Calls(s: Sim, h: Handlers, t: Sim) {
    && s.pending != [] && t.fired == s.fired + [s.pending[0].0]
    && Bag(t.pending) + multiset{s.pending[0].0} == Bag(s.pending) + Wanted(t.now, h(t.now, s.pending[0].0, s.fired).later)
    && t.yieldOnReturn == (s.yieldOnReturn || h(t.now, s.pending[0].0, s.fired).yieldOnReturn)
  }

  lemma CallBag(q: Items<Event>, now: int, later: seq<Later>)
    requires q != []
    ensures Bag(ScheduledAll(q[1..], now, later)) + multiset{q[0].0} == Bag(q) + Wanted(now, later)
  {
    BagScheduled(q[1..], now, later);
    Shuffle(Bag(q[1..]), Wanted(now, later), multiset{q[0].0});
  }

  lemma Shuffle(a: multiset<Event>, b: multiset<Event>, c: multiset<Event>)
    ensures a + b + c == c + a + b
  {
  }

  lemma PutBackBag(q: Items<Event>)
    requires q != []
    ensures Bag(Inserted(q[1..], q[0].0, q[0].1)) == Bag(q)
  {
    BagInserted(q[1..], q[0].0, q[0].1);
  }

  lemma CheckAsks(s: Sim, h: Handlers, advanceClock: bool)
    ensures var (t, called) := CheckIfDue(s, h, advanceClock);
            if called then Calls(s, h, t)
            else t.fired == s.fired && Bag(t.pending) == Bag(s.pending) && t.yieldOnReturn == s.yieldOnReturn
  {
    hide Inserted, ScheduledAll, Bag, Wanted;
    if s.pending != [] {
      PutBackBag(s.pending);
      var (t, called) := CheckIfDue(s, h, advanceClock);
      if called { CallBag(s.pending, t.now, h(t.now, s.pending[0].0, s.fired).later); }
    }
  }

  /** From s on, at time now, the calls of t account for everything pending. */
  ghost predicate Accounts(s: Sim, h: Handlers, now: int, t: Sim) {
    && s.fired <= t.fired
    && Bag(t.pending) + multiset(t.fired[|s.fired|..]) == Bag(s.pending) + AskedBy(h, now, t.fired, |s.fired|)
    && (t.yieldOnReturn <==> s.yieldOnReturn || exists i :: |s.fired| <= i < |t.fired| && h(now, t.fired[i], t.fired[..i]).yieldOnReturn)
  }

  /** Two stretches of calls, one after the other. */
  lemma Link(before: multiset<Event>, wanted: multiset<Event>, middle: multiset<Event>, called: multiset<Event>,
             after: multiset<Event>, calls: multiset<Event>, asked: multiset<Event>)
    requires middle + called == before + wanted && after + calls == middle + asked
    ensures after + (called + calls) == before + (wanted + asked)
  {
    forall x ensures (after + (called + calls))[x] == (before + (wanted + asked))[x] {
      assert (middle + called)[x] == (before + wanted)[x] && (after + calls)[x] == (middle + asked)[x];
    }
  }

  /** One call, and then others. */
  lemma ThenAccounts(s: Sim, h: Handlers, now: int, u: Sim, t: Sim)
    requires Calls(s, h, u) && u.now == now && Accounts(u, h, now, t)
    ensures Accounts(s, h, now, t)
  {
    hide Bag, Wanted;
    var e := s.pending[0].0;
    FirstCall(s, u, e, t);
    AskedFirst(h, now, u.fired, t.fired, |s.fired|);
    Link(Bag(s.pending), Wanted(now, h(now, e, s.fired).later), Bag(u.pending), multiset{e},
         Bag(t.pending), multiset(t.fired[|s.fired| + 1..]), AskedBy(h, now, t.fired, |s.fired| + 1));
    YieldsFrom(s, h, now, u, e, t);
  }

  lemma FirstCall(s: Sim, u: Sim, e: Event, t: Sim)
    requires u.fired == s.fired + [e] && u.fired <= t.fired
    ensures multiset(t.fired[|s.fired|..]) == multiset{e} + multiset(t.fired[|s.fired| + 1..])
    ensures s.fired <= t.fired
  {
    assert t.fired[|s.fired|] == u.fired[|s.fired|] == e;
    assert t.fired[|s.fired|..] == [e] + t.fired[|s.fired| + 1..];
    assert s.fired == u.fired[..|s.fired|] == t.fired[..|s.fired|];
  }

  lemma AskedFirst(h: Handlers, now: int, called: seq<Event>, fired: seq<Event>, n: nat)
    requires |called| == n + 1 && called <= fired
    ensures AskedBy(h, now, fired, n) == Wanted(now, h(now, called[n], called[..n]).later) + AskedBy(h, now, fired, n + 1)
  {
    assert fired[n] == called[n] && fired[..n] == called[..n];
  }

  lemma YieldsFrom(s: Sim, h: Handlers, now: int, u: Sim, e: Event, t: Sim)
    requires u.fired == s.fired + [e] && u.fired <= t.fired
    requires u.yieldOnReturn == (s.yieldOnReturn || h(now, e, s.fired).yieldOnReturn)
    requires t.yieldOnReturn <==> u.yieldOnReturn || exists i :: |u.fired| <= i < |t.fired| && h(now, t.fired[i], t.fired[..i]).yieldOnReturn
    ensures t.yieldOnReturn <==> s.yieldOnReturn || exists i :: |s.fired| <= i < |t.fired| && h(now, t.fired[i], t.fired[..i]).yieldOnReturn
  {
    var n := |s.fired|;
    assert t.fired[n] == u.fired[n] == e && t.fired[..n] == u.fired[..n] == s.fired;
  }

  lemma NoCalls(s: Sim, h: Handlers, now: int, t: Sim)
    requires t.fired == s.fired && Bag(t.pending) == Bag(s.pending) && t.yieldOnReturn == s.yieldOnReturn
    ensures Accounts(s, h, now, t)
  {
    assert t.fired[|s.fired|..] == [];
  }

  lemma {:induction false} RunDueAsks(s: Sim, h: Handlers)
    requires ForLater(h)
    ensures RunDue(s, h).now == s.now && Accounts(s, h, s.now, RunDue(s, h))
    decreases Due(s.pending, s.now)
  {
    hide CheckIfDue, Due, Accounts, Calls;
    CheckAsks(s, h, false);
    CheckTime(s, h);
    var (t, called) := CheckIfDue(s, h, false);
    if called {
      DueDecreases(s, h);
      RunDueAsks(t, h);
      ThenAccounts(s, h, s.now, t, RunDue(t, h));
    } else {
      NoCalls(s, h, s.now, t);
    }
  }

  lemma CheckTime(s: Sim, h: Handlers)
    ensures CheckIfDue(s, h, false).0.now == s.now
  {
  }

  // ---- every run ----

  /** What is asked for in one action: by whoever plans, or by the handlers that it calls, all at the time the
      clock shows after it. */
  ghost function Asked(s: Sim, h: Handlers, a: Act): multiset<Event>
    requires ForLater(h) && Allowed(s, a) && Done(s, h, a).Some?
  {
    var t := Done(s, h, a).value;
    if a.Plan? then Wanted(s.now, [a.l]) else AskedBy(h, t.now, t.fired, |s.fired|)
  }

  ghost function AllAsked(s: Sim, h: Handlers, acts: seq<Act>, t: Sim): multiset<Event>
    requires ForLater(h) && Ends(s, h, acts, t)
    decreases |acts|
  {
    if acts == [] then multiset{} else Asked(s, h, acts[0]) + AllAsked(Done(s, h, acts[0]).value, h, acts[1..], t)
  }

  lemma AdvanceAsks(s: Sim, h: Handlers)
    requires ForLater(h)
    ensures var (t, switches) := OneTick(s, h);
            Accounts(s, h, t.now, t.(yieldOnReturn := switches))
  {
    hide RunDue, Accounts;
    var u := if s.mode == SystemMode then s.(now := s.now + SYSTEM_TICK, system := s.system + SYSTEM_TICK)
             else s.(now := s.now + USER_TICK, user := s.user + USER_TICK);
    RunDueAsks(u, h);
    SameStart(s, u, h, u.now, RunDue(u, h));
    assert OneTick(s, h).0.(yieldOnReturn := OneTick(s, h).1) == RunDue(u, h);
  }

  lemma SameStart(s: Sim, u: Sim, h: Handlers, now: int, t: Sim)
    requires s.fired == u.fired && s.pending == u.pending && s.yieldOnReturn == u.yieldOnReturn && Accounts(u, h, now, t)
    ensures Accounts(s, h, now, t)
  {
  }

  lemma SleepAsks(s: Sim, h: Handlers)
    requires ForLater(h) && Idle(s, h).Some?
    ensures var t := Idle(s, h).value;
            && s.fired <= t.fired
            && Bag(t.pending) + multiset(t.fired[|s.fired|..]) == Bag(s.pending) + AskedBy(h, t.now, t.fired, |s.fired|)
  {
    hide RunDue, Accounts, CheckIfDue, Calls;
    var idle := s.(mode := IdleMode);
    var u := CheckIfDue(idle, h, true).0;
    CheckAsks(idle, h, true);
    RunDueAsks(u, h);
    SameCall(s, idle, h, u);
    ThenAccounts(s, h, u.now, u, RunDue(u, h));
    AccountsMeans(s, h, u.now, RunDue(u, h));
  }

  lemma SameCall(s: Sim, u: Sim, h: Handlers, t: Sim)
    requires s.fired == u.fired && s.pending == u.pending && s.yieldOnReturn == u.yieldOnReturn && Calls(u, h, t)
    ensures Calls(s, h, t)
  {
  }

  lemma AccountsMeans(s: Sim, h: Handlers, now: int, t: Sim)
    requires Accounts(s, h, now, t)
    ensures s.fired <= t.fired && Bag(t.pending) + multiset(t.fired[|s.fired|..]) == Bag(s.pending) + AskedBy(h, now, t.fired, |s.fired|)
  {
  }

  /** One action: what is pending and what is called is what was pending and what is asked for. */
  lemma ActAsks(s: Sim, h: Handlers, a: Act)
    requires ForLater(h) && Allowed(s, a) && Done(s, h, a).Some?
    ensures var t := Done(s, h, a).value;
            s.fired <= t.fired && Bag(t.pending) + multiset(t.fired[|s.fired|..]) == Bag(s.pending) + Asked(s, h, a)
  {
    hide OneTick, Idle, Inserted;
    match a
    case Advance =>
      AdvanceAsks(s, h);
      var (t, switches) := OneTick(s, h);
      AccountsMeans(s, h, t.now, t.(yieldOnReturn := switches));
    case Sleep => SleepAsks(s, h);
    case Plan(l) => BagScheduled(s.pending, s.now, [l]); PlanOne(s, l);
    case Enter(_) => assert s.fired[|s.fired|..] == [];
  }

  lemma PlanOne(s: Sim, l: Later)
    ensures ScheduledAll(s.pending, s.now, [l]) == Scheduled(s.pending, s.now, l) && s.fired[|s.fired|..] == []
  {
    assert [l][1..] == [];
    assert ScheduledAll(Scheduled(s.pending, s.now, l), s.now, []) == Scheduled(s.pending, s.now, l);
  }

  /** Over every run the handlers called and the events still pending are, each as often, the events that were
      pending at the start and those asked for since, due the asked number of ticks after the asking. */
  lemma {:induction false} EverythingAskedHappens(s: Sim, h: Handlers, acts: seq<Act>, t: Sim)
    requires ForLater(h) && Ends(s, h, acts, t)
    ensures s.fired <= t.fired
    ensures Bag(t.pending) + multiset(t.fired[|s.fired|..]) == Bag(s.pending) + AllAsked(s, h, acts, t)
    decreases |acts|
  {
    hide Done, Asked, Bag;
    if acts == [] {
      assert t.fired[|s.fired|..] == [];
    } else {
      var u := Done(s, h, acts[0]).value;
      ActAsks(s, h, acts[0]);
      EverythingAskedHappens(u, h, acts[1..], t);
      assert t.fired[|s.fired|..] == u.fired[|s.fired|..] + t.fired[|u.fired|..];
      Link(Bag(s.pending), Asked(s, h, acts[0]), Bag(u.pending), multiset(u.fired[|s.fired|..]),
           Bag(t.pending), multiset(t.fired[|u.fired|..]), AllAsked(u, h, acts[1..], t));
    }
  }

  /** A tick yields exactly when a handler that it called, or one called before, asked for it. */
  lemma YieldsWhenAsked(s: Sim, h: Handlers)
    requires ForLater(h)
    ensures var (t, switches) := OneTick(s, h);
            && s.fired <= t.fired
            && (switches <==> s.yieldOnReturn || exists i :: |s.fired| <= i < |t.fired| && h(t.now, t.fired[i], t.fired[..i]).yieldOnReturn)
  {
    hide OneTick;
    AdvanceAsks(s, h);
  }
}
