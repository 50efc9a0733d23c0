/** The two theorems about whole runs of the pager. */
module PagingTheorems {
  import opened Options
  import opened Bits
  import opened Paging
  import opened FlatMemory
  import opened Misses
  import opened Accesses
  import opened AddressSpaces
  import opened PagedRuns
  import opened EvictionQueue

  /** Every action makes sense in the state it finds, until the machine halts. */
  predicate SensibleRun(s: Pager, acts: seq<Action>)
    decreases |acts|
  {
    acts == []
    || (Shape(s) && Sensible(s, acts[0]) && (Next(s, acts[0]).Some? ==> SensibleRun(Next(s, acts[0]).value, acts[1..])))
  }

  /** No free frame, no free page of the swap file, and a page that must be saved to make room. */
  predicate MemoryExhausted(s: Pager, vpn: int, policy: Policy)
    requires Shape(s)
  {
    && FindFrame(s.ipt, s.current, vpn, 0) == -1 && FirstClear(s.used, 0) == -1 && FirstClear(s.slots, 0) == -1
    && Victim(s, policy).Some? && 0 <= Victim(s, policy).value < FRAMES && Dirty(s, Victim(s, policy).value)
  }

  /** One action against the flat memory: a read that completes returns what is there, byte by byte; an access is an
      address error exactly when it is not aligned; after a fault the same access succeeds; only exhausted memory stops the machine. */
  ghost predicate FaithfulStep(s: Pager, flat: Flat, a: Action)
    requires Shape(s) && Sensible(s, a) && SameShape(s, flat)
  {
    && (a.Read? && Tried(s, a).Done? ==>
          && a.va % PAGE_SIZE + a.size <= PAGE_SIZE && HasPage(s, s.current, a.va / PAGE_SIZE)
          && Reads(flat[s.current][a.va / PAGE_SIZE], a.va % PAGE_SIZE, a.size, ReadMem(s, a.va, a.size).2))
    && (a.Read? || a.Write? ==> (Tried(s, a).AddressError? <==> a.va % a.size != 0))
    && ((a.Read? || a.Write?) && Next(s, a).Some? && !Tried(s, a).AddressError? ==>
          Shape(Next(s, a).value) && Tried(Next(s, a).value, a).Done?)
    && (Next(s, a).None? ==> (a.Read? || a.Write?) && MemoryExhausted(s, a.va / PAGE_SIZE, a.policy))
  }

  ghost predicate Faithful(s: Pager, flat: Flat, acts: seq<Action>)
    decreases |acts|
  {
    acts == []
    || (Shape(s) && Sensible(s, acts[0]) && SameShape(s, flat) && FaithfulStep(s, flat, acts[0])
        && (Next(s, acts[0]).Some? ==> Faithful(Next(s, acts[0]).value, NextFlat(s, flat, acts[0]), acts[1..])))
  }

  lemma ThenDone(s: Pager, va: nat, size: int, writing: bool)
    requires Shape(s) && size in {1, 2, 4} && FirstMatch(s.tlb, va / PAGE_SIZE, 0) != -1 && va % size == 0
    ensures Translate(s, va, size, writing).1.Done?
  {
  }

  lemma StillMapped(s: Pager, va: nat, size: int, writing: bool)
    requires Shape(s) && size in {1, 2, 4} && Translate(s, va, size, writing).1.Done?
    ensures var t := Translate(s, va, size, writing).0;
            va % size == 0 && FirstMatch(t.tlb, va / PAGE_SIZE, 0) != -1
  {
    var t := Translate(s, va, size, writing).0;
    var j := FirstMatch(s.tlb, va / PAGE_SIZE, 0);
    assert t.tlb[j].valid && t.tlb[j].vpn == va / PAGE_SIZE;
  }

  lemma RetrySucceeds(s: Pager, flat: Flat, a: Action)
    requires Ok(s, flat) && Shape(s) && Sensible(s, a) && (a.Read? || a.Write?) && Next(s, a).Some? && !Tried(s, a).AddressError?
    ensures Shape(Next(s, a).value) && Tried(Next(s, a).value, a).Done?
  {
    hide Ok, HandleTLBMiss, Touchable, Translate;
    StepKeeps2(s, flat, a);
    var t := Next(s, a).value;
    if Tried(s, a).PageFault? {
      AccessFault(s, flat, a);
      FaultAligned(s, a.va, a.size, a.Write?);
    } else {
      NoBusError(s, a.va, a.size, a.Write?);
      StillMapped(s, a.va, a.size, a.Write?);
    }
    ThenDone(t, a.va, a.size, a.Write?);
  }

  lemma FaultAligned(s: Pager, va: nat, size: int, writing: bool)
    requires size in {1, 2, 4} && Translate(s, va, size, writing).1.PageFault?
    ensures va % size == 0
  {
  }

  lemma ErrorIff(s: Pager, va: nat, size: int, writing: bool)
    requires size in {1, 2, 4}
    ensures Translate(s, va, size, writing).1.AddressError? <==> va % size != 0
  {
  }

  lemma StepKeeps2(s: Pager, flat: Flat, a: Action)
    requires Ok(s, flat) && Shape(s) && Sensible(s, a) && Next(s, a).Some?
    ensures SameShape(s, flat) && Ok(Next(s, a).value, NextFlat(s, flat, a)) && Shape(Next(s, a).value)
  {
    hide Ok, Next, NextFlat, Sensible;
    OkShape(s, flat);
    StepKeeps(s, flat, a);
    OkShape(Next(s, a).value, NextFlat(s, flat, a));
  }

  lemma StopsOnlyExhausted(s: Pager, flat: Flat, a: Action)
    requires Ok(s, flat) && QueueOk(s) && Shape(s) && Sensible(s, a) && Next(s, a).None?
    ensures (a.Read? || a.Write?) && MemoryExhausted(s, a.va / PAGE_SIZE, a.policy)
  {
    hide Ok, HandleTLBMiss, Touchable, QueueOk;
    FaultAligned(s, a.va, a.size, a.Write?);
    FailsOnlyWhenSwapFull(s, flat, a.va / PAGE_SIZE, a.policy, a.junk);
  }

  lemma StepFaithful(s: Pager, flat: Flat, a: Action)
    requires Ok(s, flat) && QueueOk(s) && Shape(s) && SameShape(s, flat) && Sensible(s, a)
    ensures FaithfulStep(s, flat, a)
  {
    hide Ok, QueueOk, Next, Touchable, MemoryExhausted, Reads;
    if a.Read? && Tried(s, a).Done? { ReadsFlat(s, flat, a); }
    if a.Read? || a.Write? { ErrorIff(s, a.va, a.size, a.Write?); }
    if Next(s, a).None? {
      StopsOnlyExhausted(s, flat, a);
    } else if a.Read? || a.Write? {
      if !Tried(s, a).AddressError? { RetrySucceeds(s, flat, a); }
    }
  }

  lemma ReadsFlat(s: Pager, flat: Flat, a: Action)
    requires Ok(s, flat) && Shape(s) && SameShape(s, flat) && a.Read? && a.size in {1, 2, 4} && Tried(s, a).Done?
    ensures a.va % PAGE_SIZE + a.size <= PAGE_SIZE && HasPage(s, s.current, a.va / PAGE_SIZE)
    ensures Reads(flat[s.current][a.va / PAGE_SIZE], a.va % PAGE_SIZE, a.size, ReadMem(s, a.va, a.size).2)
  {
    hide Ok, Reads;
    ReadSees(s, flat, a.va, a.size);
  }

  lemma {:induction false} RunFaithful(s: Pager, flat: Flat, acts: seq<Action>)
    requires Ok(s, flat) && QueueOk(s) && SensibleRun(s, acts)
    ensures Faithful(s, flat, acts)
    decreases |acts|
  {
    hide Ok, QueueOk, Next, NextFlat, Sensible, FaithfulStep;
    if acts != [] {
      OkShape(s, flat);
      StepFaithful(s, flat, acts[0]);
      if Next(s, acts[0]).Some? {
        StepKeeps2(s, flat, acts[0]);
        StepKeepsQueue(s, flat, acts[0]);
        RunFaithful(Next(s, acts[0]).value, NextFlat(s, flat, acts[0]), acts[1..]);
      }
    }
  }

  /** Refinement to flat memory: from boot, over every interleaving of reads, writes, faults,
      evictions, context switches, forks and exits, under either replacement policy and with the
      destructor as it is written, every read that completes returns the last bytes written there,
      or the executable's if never written; every fault is cured by one run of the handler; and the
      machine stops only when memory and swap are both exhausted. */
  lemma PagingIsFlatMemory(s: Pager, acts: seq<Action>)
    requires Boot(s) && SensibleRun(s, acts)
    ensures Faithful(s, map[], acts)
  {
    hide SensibleRun, Faithful, Ok;
    BootOk(s);
    BootQueue(s);
    RunFaithful(s, map[], acts);
  }

  /** The state a run ends in, unless the machine halts first. */
  function Reached(s: Pager, acts: seq<Action>): Option<Pager>
    requires SensibleRun(s, acts)
    decreases |acts|
  {
    if acts == [] then Some(s)
    else if Next(s, acts[0]).None? then None
    else Reached(Next(s, acts[0]).value, acts[1..])
  }

  lemma {:induction false} ReachedOk(s: Pager, flat: Flat, acts: seq<Action>) returns (end: Flat)
    requires Ok(s, flat) && SensibleRun(s, acts) && Reached(s, acts).Some?
    ensures Ok(Reached(s, acts).value, end)
    decreases |acts|
  {
    hide Ok, Next, NextFlat, Sensible;
    if acts == [] {
      end := flat;
    } else {
      StepKeeps2(s, flat, acts[0]);
      end := ReachedOk(Next(s, acts[0]).value, NextFlat(s, flat, acts[0]), acts[1..]);
    }
  }

  /** Paging structure, in every state a run reaches: a frame's bit is set exactly when its entry is
      valid; valid entries are for different pages; valid TLB entries are distinct and belong to the
      current space and a valid frame; a swap bit is set exactly when one loaded page lies there; and
      a page that has been to swap is dirty in its frame. */
  lemma StructureHolds(s: Pager, acts: seq<Action>)
    requires Boot(s) && SensibleRun(s, acts) && Reached(s, acts).Some?
    ensures var t := Reached(s, acts).value;
            && Shape(t)
            && (forall p :: 0 <= p < FRAMES ==> t.used[p] == t.ipt[p].valid)
            && (forall p, q :: 0 <= p < q < FRAMES && t.ipt[p].valid && t.ipt[q].valid ==>
                  t.ipt[p].space != t.ipt[q].space || t.ipt[p].vpn != t.ipt[q].vpn)
            && TLBOk(t)
            && (forall i :: 0 <= i < SWAP_PAGES ==> (t.slots[i] <==> exists p, v :: InSlot(t, p, v, i)))
            && (forall i, p, v, q, w :: InSlot(t, p, v, i) && InSlot(t, q, w, i) ==> p == q && v == w)
            && (forall p, v :: HasPage(t, p, v) && PageOf(t, p, v).valid && PageOf(t, p, v).location.MAIN? && PageOf(t, p, v).dirty ==>
                  0 <= PageOf(t, p, v).ppn < FRAMES && t.ipt[PageOf(t, p, v).ppn].dirty)
  {
    hide SensibleRun, Reached, Agrees, Untouched;
    BootOk(s);
    var flat := ReachedOk(s, map[], acts);
    var t := Reached(s, acts).value;
    forall p, v | HasPage(t, p, v) ensures Fits(t, p, v, PageOf(t, p, v), flat[p][v]) {}
  }

  lemma BootQueue(s: Pager)
    requires Boot(s)
    ensures QueueOk(s) && Exact(s.fifo, s.used)
  {
    CountAllClear(s.used);
  }

  // ---- the order of eviction ----

  /** When each frame was last loaded, kept beside the run. */
  datatype Clock = Clock(now: int, times: seq<int>)

  function Tick(s: Pager, a: Action, c: Clock): Clock
    requires Shape(s) && Sensible(s, a) && |c.times| == FRAMES
  {
    if (a.Read? || a.Write?) && Tried(s, a).PageFault? then
      match Loaded(s, a.va / PAGE_SIZE, a.policy)
      case Some(p) => if 0 <= p < FRAMES then Clock(c.now + 1, c.times[p := c.now]) else c
      case None => c
    else c
  }

  ghost predicate Oldest(s: Pager, c: Clock) {
    |c.times| == FRAMES && Exact(s.fifo, s.used) && InLoadOrder(s.fifo, c.times, c.now)
  }

  predicate AsIntended(a: Action) { a.Remove? ==> a.how.Intended? }

  lemma MissOldest(s: Pager, flat: Flat, a: Action, c: Clock)
    requires Ok(s, flat) && Oldest(s, c) && Shape(s) && Sensible(s, a) && (a.Read? || a.Write?) && Tried(s, a).PageFault? && Next(s, a).Some?
    ensures Oldest(Next(s, a).value, Tick(s, a, c))
  {
    hide Ok, HandleTLBMiss, Touchable, Exact, InLoadOrder, Translate;
    FaultAligned(s, a.va, a.size, a.Write?);
    MissQueue(s, flat, a.va / PAGE_SIZE, a.policy, a.junk);
    match Loaded(s, a.va / PAGE_SIZE, a.policy)
    case None =>
    case Some(p) =>
      if s.used[p] {
        assert s.used[p := true] == s.used;
        RotateExact(s.fifo, s.used, p);
        RemoveOrdered(s.fifo, p, c.times, c.now);
        PushOrdered(RemoveFirst(s.fifo, p), p, c.times, c.now);
      } else {
        PushExact(s.fifo, s.used, p);
        NotQueued(s.fifo, s.used, p);
        PushOrdered(s.fifo, p, c.times, c.now);
      }
  }

  lemma NotQueued(q: seq<int>, used: seq<bool>, p: int)
    requires Exact(q, used) && 0 <= p < |used| && !used[p]
    ensures p !in q
  {
  }

  lemma FreeOldest(q: seq<int>, used: seq<bool>, p: int, c: Clock)
    requires Exact(q, used) && 0 <= p < |used| && used[p] && InLoadOrder(q, c.times, c.now)
    ensures Exact(RemoveFirst(q, p), used[p := false]) && InLoadOrder(RemoveFirst(q, p), c.times, c.now)
  {
    RemoveExact(q, p);
    RemoveOrdered(q, p, c.times, c.now);
  }

  lemma {:induction false} ExitOldest(s: Pager, flat: Flat, vpns: seq<int>, c: Clock)
    requires Core(s, flat, -1) && Oldest(s, c) && forall k :: 0 <= k < |vpns| ==> HasPage(s, s.current, vpns[k])
    ensures Oldest(ExitLoop(s, vpns), c)
    decreases |vpns|
  {
    hide Core, Release, Forget, Exact, InLoadOrder;
    if vpns != [] {
      CoreShape(s, flat, -1);
      var e := PageOf(s, s.current, vpns[0]);
      var fifo := RemoveFirst(s.fifo, e.ppn);
      var freed := Release(s, s.current, vpns[0], fifo);
      ReleaseQueue(s, flat, s.current, vpns[0], fifo);
      if e.valid && e.location.MAIN? { FreeOldest(s.fifo, s.used, e.ppn, c); }
      ReleaseKeeps(s, flat, s.current, vpns[0], fifo);
      ReleasedInvalid(s, flat, s.current, vpns[0], fifo);
      SamePages(s, freed);
      ForgetKeeps(freed, flat, s.current, vpns[0]);
      SamePages(freed, Forget(freed, s.current, vpns[0]));
      ExitOldest(Forget(freed, s.current, vpns[0]), flat, vpns[1..], c);
    }
  }

  lemma {:induction false} DestroyOldest(s: Pager, flat: Flat, space: int, vpn: nat, n: nat, c: Clock)
    requires Core(s, flat, -1) && Oldest(s, c) && space in s.spaces && n == |s.spaces[space].pages| && vpn <= n
    ensures Oldest(DestroyLoop(s, space, vpn, n, Intended), c)
    decreases n - vpn
  {
    hide Core, Release, Exact, InLoadOrder;
    if vpn < n {
      CoreShape(s, flat, -1);
      var e := PageOf(s, space, vpn);
      var fifo := RemoveFirst(s.fifo, e.ppn);
      ReleaseQueue(s, flat, space, vpn, fifo);
      if e.valid && e.location.MAIN? { FreeOldest(s.fifo, s.used, e.ppn, c); }
      ReleaseKeeps(s, flat, space, vpn, fifo);
      DestroyOldest(Release(s, space, vpn, fifo), flat, space, vpn + 1, n, c);
    }
  }

  lemma StepOldest(s: Pager, flat: Flat, a: Action, c: Clock)
    requires Ok(s, flat) && Oldest(s, c) && Shape(s) && Sensible(s, a) && Next(s, a).Some? && AsIntended(a)
    ensures Oldest(Next(s, a).value, Tick(s, a, c))
  {
    hide HandleTLBMiss, Touchable, ReadMem, WriteMem, DestroyLoop, ExitLoop, Core, TLBOk, Exact, InLoadOrder, Loaded;
    match a
    case Read(_, _, _, _) => AccessOldest(s, flat, a, c);
    case Write(_, _, _, _, _) => AccessOldest(s, flat, a, c);
    case Switch(to) => FlushQueue(s);
    case Create(_, _, _, _) =>
    case Fork(_) =>
    case Exit(vpns) => ExitOldest(s, flat, vpns, c); FlushQueue(ExitLoop(s, vpns));
    case Remove(space, how) =>
      DestroyOldest(s, flat, space, 0, |s.spaces[space].pages|, c);
      FlushQueue(DestroyLoop(s, space, 0, |s.spaces[space].pages|, how));
  }

  lemma AccessOldest(s: Pager, flat: Flat, a: Action, c: Clock)
    requires Ok(s, flat) && Oldest(s, c) && Shape(s) && Sensible(s, a) && (a.Read? || a.Write?) && Next(s, a).Some?
    ensures Oldest(Next(s, a).value, Tick(s, a, c))
  {
    hide Ok, HandleTLBMiss, Touchable, Exact, InLoadOrder, Loaded;
    if Tried(s, a).PageFault? { MissOldest(s, flat, a, c); }
  }

  /** At every point of the run the queue is exactly the frames in use, oldest load first. */
  ghost predicate AlwaysOldest(s: Pager, c: Clock, acts: seq<Action>)
    decreases |acts|
  {
    && Oldest(s, c)
    && (acts == []
        || (Shape(s) && Sensible(s, acts[0])
            && (Next(s, acts[0]).Some? ==> AlwaysOldest(Next(s, acts[0]).value, Tick(s, acts[0], c), acts[1..]))))
  }

  lemma OldestSize(s: Pager, c: Clock)
    requires Oldest(s, c)
    ensures |c.times| == FRAMES
  {
  }

  lemma {:induction false} RunOldest(s: Pager, flat: Flat, c: Clock, acts: seq<Action>)
    requires Ok(s, flat) && Oldest(s, c) && SensibleRun(s, acts) && forall k :: 0 <= k < |acts| ==> AsIntended(acts[k])
    ensures AlwaysOldest(s, c, acts)
    decreases |acts|
  {
    hide Ok, Next, NextFlat, Sensible, Oldest, Tick;
    if acts != [] {
      OkShape(s, flat);
      OldestSize(s, c);
      if Next(s, acts[0]).Some? {
        StepKeeps2(s, flat, acts[0]);
        StepOldest(s, flat, acts[0], c);
        RunOldest(Next(s, acts[0]).value, NextFlat(s, flat, acts[0]), Tick(s, acts[0], c), acts[1..]);
      }
    }
  }

  /** FIFO eviction, with the index that the destructor means: in every run from boot the queue is a
      duplicate-free list of exactly the frames in use, in the order in which they were loaded. */
  lemma QueueIsLoadOrder(s: Pager, times: seq<int>, acts: seq<Action>)
    requires Boot(s) && SensibleRun(s, acts) && |times| == FRAMES && forall k :: 0 <= k < |acts| ==> AsIntended(acts[k])
    ensures AlwaysOldest(s, Clock(0, times), acts)
  {
    hide SensibleRun, AlwaysOldest, Ok;
    BootOk(s);
    BootQueue(s);
    RunOldest(s, map[], Clock(0, times), acts);
  }

  /** So the FIFO victim is the page that has been resident longest. */
  lemma VictimIsOldest(s: Pager, c: Clock, p: int)
    requires Shape(s) && Oldest(s, c) && FirstClear(s.used, 0) == -1 && 0 <= p < FRAMES
    ensures Victim(s, Fifo).Some? && s.used[Victim(s, Fifo).value]
    ensures c.times[Victim(s, Fifo).value] <= c.times[p]
  {
    assert s.used[p];
    assert p in s.fifo;
    var i :| 0 <= i < |s.fifo| && s.fifo[i] == p;
  }
}
