/** FIFOList: never too short to evict from; and, when address spaces are taken down as intended, a
    duplicate-free list of exactly the frames in use, oldest load first. */
module EvictionQueue {
  import opened Options
  import opened Bits
  import opened Paging
  import opened FlatMemory
  import opened Misses
  import opened AddressSpaces
  import opened PagedRuns
  import opened Seqs

  /** Exactly the frames in use, each once. */
  ghost predicate Exact(q: seq<int>, used: seq<bool>) {
    Distinct(q) && forall p :: p in q <==> 0 <= p < |used| && used[p]
  }

  /** In order of the times at which the frames were loaded, all before now. */
  ghost predicate InLoadOrder(q: seq<int>, times: seq<int>, now: int) {
    && (forall i :: 0 <= i < |q| ==> 0 <= q[i] < |times| && times[q[i]] < now)
    && (forall i, j :: 0 <= i < j < |q| ==> times[q[i]] < times[q[j]])
  }

  lemma {:induction false} RemoveShortens(q: seq<int>, x: int)
    ensures |RemoveFirst(q, x)| == |q| - (if x in q then 1 else 0)
    ensures forall k :: 0 <= k < |RemoveFirst(q, x)| ==> RemoveFirst(q, x)[k] in q
  {
    if q != [] && q[0] != x { RemoveShortens(q[1..], x); }
  }

  lemma {:induction false} RemoveExact(q: seq<int>, x: int)
    requires Distinct(q)
    ensures Distinct(RemoveFirst(q, x))
    ensures forall y :: y in RemoveFirst(q, x) <==> y in q && y != x
  {
    if q != [] {
      assert forall i :: 0 < i < |q| ==> q[i] == q[1..][i - 1];
      if q[0] != x {
        RemoveExact(q[1..], x);
        var r := RemoveFirst(q[1..], x);
        assert q[0] !in r;
        assert forall i :: 0 < i < |r| + 1 ==> ([q[0]] + r)[i] == r[i - 1];
      }
    }
  }

  lemma TailOrdered(q: seq<int>, times: seq<int>, now: int)
    requires InLoadOrder(q, times, now) && q != []
    ensures InLoadOrder(q[1..], times, now)
    ensures 0 <= q[0] < |times| && times[q[0]] < now
    ensures forall y :: y in q[1..] ==> 0 <= y < |times| && times[q[0]] < times[y]
  {
    assert forall i :: 0 <= i < |q| - 1 ==> q[1..][i] == q[i + 1];
  }

  lemma ConsOrdered(x: int, r: seq<int>, times: seq<int>, now: int)
    requires InLoadOrder(r, times, now) && 0 <= x < |times| && times[x] < now
    requires forall y :: y in r ==> 0 <= y < |times| && times[x] < times[y]
    ensures InLoadOrder([x] + r, times, now)
  {
    var q := [x] + r;
    assert forall i :: 0 < i < |q| ==> q[i] == r[i - 1] && q[i] in r;
  }

  lemma {:induction false} RemoveOrdered(q: seq<int>, x: int, times: seq<int>, now: int)
    requires InLoadOrder(q, times, now)
    ensures InLoadOrder(RemoveFirst(q, x), times, now)
  {
    hide InLoadOrder;
    if q == [] {
    } else {
      TailOrdered(q, times, now);
      if q[0] != x {
        RemoveOrdered(q[1..], x, times, now);
        RemoveShortens(q[1..], x);
        ConsOrdered(q[0], RemoveFirst(q[1..], x), times, now);
      }
    }
  }

  lemma PushOrdered(q: seq<int>, x: int, times: seq<int>, now: int)
    requires InLoadOrder(q, times, now) && x !in q && 0 <= x < |times|
    ensures InLoadOrder(q + [x], times[x := now], now + 1)
  {
  }

  lemma PushExact(q: seq<int>, used: seq<bool>, x: int)
    requires Exact(q, used) && 0 <= x < |used| && !used[x]
    ensures Exact(q + [x], used[x := true])
  {
  }

  lemma RotateExact(q: seq<int>, used: seq<bool>, x: int)
    requires Exact(q, used) && 0 <= x < |used| && used[x]
    ensures Exact(RemoveFirst(q, x) + [x], used) && x !in RemoveFirst(q, x)
  {
    RemoveExact(q, x);
  }

  // ---- what a fault does to the queue ----

  /** Which frame a fault loads, if it loads one. */
  function Loaded(s: Pager, vpn: int, policy: Policy): Option<int>
    requires Shape(s)
  {
    if FindFrame(s.ipt, s.current, vpn, 0) != -1 then None
    else if FirstClear(s.used, 0) != -1 then Some(FirstClear(s.used, 0))
    else Victim(s, policy)
  }

  lemma MissQueue(s: Pager, flat: Flat, vpn: int, policy: Policy, junk: Page)
    requires Ok(s, flat) && Touchable(s, vpn) && HandleTLBMiss(s, vpn, policy, junk).Some?
    ensures var t := HandleTLBMiss(s, vpn, policy, junk).value;
            match Loaded(s, vpn, policy)
            case None => t.fifo == s.fifo && t.used == s.used
            case Some(p) =>
              && 0 <= p < FRAMES && t.fifo == (if s.used[p] then RemoveFirst(s.fifo, p) else s.fifo) + [p]
              && t.used == s.used[p := true]
  {
    hide Ok, Populate, TakeFrame, Load, Touchable, FindFrame, Save, Unmap;
    OkShape(s, flat);
    if FindFrame(s.ipt, s.current, vpn, 0) != -1 {
      PopulateQueue(s, FindFrame(s.ipt, s.current, vpn, 0));
    } else {
      TakeQueue(s, flat, policy);
      var (u, p) := TakeFrame(s, policy).value;
      TakenShape(s, flat, policy);
      LoadQueue(u, vpn, p, junk);
      PopulateQueue(Load(u, vpn, p, junk), p);
    }
  }

  lemma PopulateQueue(s: Pager, ppn: int)
    requires Shape(s) && 0 <= ppn < FRAMES
    ensures Populate(s, ppn).fifo == s.fifo && Populate(s, ppn).used == s.used
  {
  }

  lemma LoadQueue(s: Pager, vpn: int, ppn: int, junk: Page)
    requires Shape(s) && 0 <= ppn < FRAMES && CanLoad(s, vpn)
    ensures Load(s, vpn, ppn, junk).fifo == s.fifo + [ppn] && Load(s, vpn, ppn, junk).used == s.used
  {
  }

  lemma TakeQueue(s: Pager, flat: Flat, policy: Policy)
    requires Ok(s, flat) && Shape(s) && TakeFrame(s, policy).Some?
    ensures var (t, p) := TakeFrame(s, policy).value;
            && 0 <= p < FRAMES && t.fifo == (if s.used[p] then RemoveFirst(s.fifo, p) else s.fifo)
            && t.used == s.used[p := true]
            && (FirstClear(s.used, 0) == -1 ==> Victim(s, policy) == Some(p))
            && (FirstClear(s.used, 0) != -1 ==> p == FirstClear(s.used, 0))
  {
    hide Ok;
    var (t, p) := TakeFrame(s, policy).value;
    assert FirstClear(s.used, 0) == -1 ==> s.used[p := true] == s.used;
  }

  // ---- never too short ----

  lemma LongAfterMiss(s: Pager, flat: Flat, vpn: int, policy: Policy, junk: Page)
    requires Ok(s, flat) && QueueOk(s) && Touchable(s, vpn) && HandleTLBMiss(s, vpn, policy, junk).Some?
    ensures QueueOk(HandleTLBMiss(s, vpn, policy, junk).value)
  {
    hide Ok, HandleTLBMiss, Touchable;
    OkShape(s, flat);
    MissQueue(s, flat, vpn, policy, junk);
    match Loaded(s, vpn, policy)
    case None =>
    case Some(p) =>
      RemoveShortens(s.fifo, p);
      CountClearSet(s.used, p, true);
  }

  /** However the destructor searches, it erases at most one entry. */
  lemma {:induction false} EraseShortens(q: seq<int>, pages: seq<PageEntry>, beyond: int -> int, ii: nat)
    requires ii <= |q|
    ensures |EraseByIndex(q, pages, beyond, ii)| >= |q| - 1
    ensures forall k :: 0 <= k < |EraseByIndex(q, pages, beyond, ii)| ==> EraseByIndex(q, pages, beyond, ii)[k] in q
    decreases |q| - ii
  {
    if ii < |q| && q[ii] != (if ii < |pages| then pages[ii].ppn else beyond(ii)) { EraseShortens(q, pages, beyond, ii + 1); }
  }

  lemma ErasedShortens(s: Pager, space: int, ppn: int, how: Eraser)
    requires space in s.spaces
    ensures |Erased(s, space, ppn, how)| >= |s.fifo| - 1
    ensures forall k :: 0 <= k < |Erased(s, space, ppn, how)| ==> Erased(s, space, ppn, how)[k] in s.fifo
  {
    match how
    case Intended => RemoveShortens(s.fifo, ppn);
    case AsWritten(beyond) => EraseShortens(s.fifo, s.spaces[space].pages, beyond, 0);
  }

  lemma ReleaseQueue(s: Pager, flat: Flat, space: int, vpn: int, fifo: seq<int>)
    requires Core(s, flat, -1) && HasPage(s, space, vpn)
    ensures var e := PageOf(s, space, vpn);
            var t := Release(s, space, vpn, fifo);
            if e.valid && e.location.MAIN? then
              0 <= e.ppn < FRAMES && s.used[e.ppn] && t.fifo == fifo && t.used == s.used[e.ppn := false]
            else t.fifo == s.fifo && t.used == s.used
  {
    hide Agrees, Untouched, SlotsOk;
    assert Fits(s, space, vpn, PageOf(s, space, vpn), flat[space][vpn]);
  }

  lemma LongAfterRelease(s: Pager, flat: Flat, space: int, vpn: int, fifo: seq<int>)
    requires Core(s, flat, -1) && HasPage(s, space, vpn) && QueueOk(s)
    requires |fifo| >= |s.fifo| - 1 && forall k :: 0 <= k < |fifo| ==> fifo[k] in s.fifo
    ensures QueueOk(Release(s, space, vpn, fifo))
  {
    hide Core, Release;
    ReleaseQueue(s, flat, space, vpn, fifo);
    CoreShape(s, flat, -1);
    var e := PageOf(s, space, vpn);
    if e.valid && e.location.MAIN? { CountClearSet(s.used, e.ppn, false); }
  }

  lemma {:induction false} LongAfterExit(s: Pager, flat: Flat, vpns: seq<int>)
    requires Core(s, flat, -1) && QueueOk(s) && forall k :: 0 <= k < |vpns| ==> HasPage(s, s.current, vpns[k])
    ensures QueueOk(ExitLoop(s, vpns))
    decreases |vpns|
  {
    hide Core, Release, Forget, QueueOk;
    if vpns != [] {
      CoreShape(s, flat, -1);
      var ppn := PageOf(s, s.current, vpns[0]).ppn;
      var freed := Release(s, s.current, vpns[0], RemoveFirst(s.fifo, ppn));
      RemoveShortens(s.fifo, ppn);
      LongAfterRelease(s, flat, s.current, vpns[0], RemoveFirst(s.fifo, ppn));
      ReleaseKeeps(s, flat, s.current, vpns[0], RemoveFirst(s.fifo, ppn));
      ReleasedInvalid(s, flat, s.current, vpns[0], RemoveFirst(s.fifo, ppn));
      SamePages(s, freed);
      ForgetKeeps(freed, flat, s.current, vpns[0]);
      SameQueue(freed, Forget(freed, s.current, vpns[0]));
      SamePages(freed, Forget(freed, s.current, vpns[0]));
      LongAfterExit(Forget(freed, s.current, vpns[0]), flat, vpns[1..]);
    }
  }

  lemma SameQueue(s: Pager, t: Pager)
    requires t.fifo == s.fifo && t.used == s.used
    ensures QueueOk(s) == QueueOk(t)
  {
  }

  lemma {:induction false} LongAfterDestroy(s: Pager, flat: Flat, space: int, vpn: nat, n: nat, how: Eraser)
    requires Core(s, flat, -1) && QueueOk(s) && space in s.spaces && n == |s.spaces[space].pages| && vpn <= n
    ensures QueueOk(DestroyLoop(s, space, vpn, n, how))
    decreases n - vpn
  {
    hide Core, Release, Erased, QueueOk;
    if vpn < n {
      CoreShape(s, flat, -1);
      var fifo := Erased(s, space, PageOf(s, space, vpn).ppn, how);
      ErasedShortens(s, space, PageOf(s, space, vpn).ppn, how);
      LongAfterRelease(s, flat, space, vpn, fifo);
      ReleaseKeeps(s, flat, space, vpn, fifo);
      LongAfterDestroy(Release(s, space, vpn, fifo), flat, space, vpn + 1, n, how);
    }
  }

  lemma FlushQueue(s: Pager)
    requires Shape(s)
    ensures Flush(s).fifo == s.fifo && Flush(s).used == s.used
  {
  }

  lemma AccessQueue(s: Pager, flat: Flat, a: Action)
    requires Ok(s, flat) && Shape(s) && Sensible(s, a) && (a.Read? || a.Write?) && Next(s, a).Some? && QueueOk(s)
    ensures QueueOk(Next(s, a).value)
  {
    hide Ok, HandleTLBMiss, Touchable, QueueOk;
    if Tried(s, a).PageFault? {
      LongAfterMiss(s, flat, a.va / PAGE_SIZE, a.policy, a.junk);
    } else {
      SameQueue(s, Next(s, a).value);
    }
  }

  /** Whatever happens, the queue stays long enough to evict from. */
  lemma StepKeepsQueue(s: Pager, flat: Flat, a: Action)
    requires Ok(s, flat) && Shape(s) && Sensible(s, a) && Next(s, a).Some? && QueueOk(s)
    ensures QueueOk(Next(s, a).value)
  {
    hide HandleTLBMiss, Touchable, QueueOk, ReadMem, WriteMem, DestroyLoop, ExitLoop, Core, TLBOk;
    match a
    case Read(_, _, _, _) => AccessQueue(s, flat, a);
    case Write(_, _, _, _, _) => AccessQueue(s, flat, a);
    case Switch(to) => FlushQueue(s); SameQueue(s, Next(s, a).value);
    case Create(id, exec, own, start) => SameQueue(s, Next(s, a).value);
    case Fork(offsets) => SameQueue(s, Next(s, a).value);
    case Exit(vpns) =>
      LongAfterExit(s, flat, vpns);
      FlushQueue(ExitLoop(s, vpns));
      SameQueue(ExitLoop(s, vpns), Next(s, a).value);
    case Remove(space, how) =>
      var n := |s.spaces[space].pages|;
      LongAfterDestroy(s, flat, space, 0, n, how);
      FlushQueue(DestroyLoop(s, space, 0, n, how));
      SameQueue(DestroyLoop(s, space, 0, n, how), Next(s, a).value);
  }
}
