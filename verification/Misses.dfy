/** The TLB miss as a whole, and the user's reads and writes, keep the flat memory. */
module Misses {
  import opened Options
  import opened Bits
  import opened Paging
  import opened FlatMemory
  import opened Faults

  lemma LoadableHere(s: Pager, flat: Flat, vpn: int, hole: int)
    requires Core(s, flat, hole) && Touchable(s, vpn) && FindFrame(s.ipt, s.current, vpn, 0) == -1
    ensures Loadable(s, vpn) && CanLoad(s, vpn)
  {
    hide Agrees, Untouched;
    assert Fits(s, s.current, vpn, PageOf(s, s.current, vpn), flat[s.current][vpn]);
  }

  /** Taking a frame: it is empty, and every page that could be touched still can. */
  ghost predicate FrameTaken(s: Pager, flat: Flat, t: Pager, ppn: int) {
    && 0 <= ppn < FRAMES && Core(t, flat, ppn) && TLBOk(t) && t.used[ppn] && t.current == s.current
    && (forall v :: Touchable(s, v) ==> Touchable(t, v))
    && (forall v :: FindFrame(s.ipt, s.current, v, 0) == -1 ==> FindFrame(t.ipt, s.current, v, 0) == -1)
  }

  lemma FewerFrames(a: seq<Frame>, b: seq<Frame>, space: int, v: int)
    requires |a| == |b| && FindFrame(a, space, v, 0) == -1
    requires forall p :: 0 <= p < |a| && b[p].valid ==> a[p].valid && b[p].space == a[p].space && b[p].vpn == a[p].vpn
    ensures FindFrame(b, space, v, 0) == -1
  {
  }

  lemma FreeFrame(s: Pager, flat: Flat)
    requires Ok(s, flat) && FirstClear(s.used, 0) != -1
    ensures var p := FirstClear(s.used, 0); FrameTaken(s, flat, s.(used := s.used[p := true]), p)
  {
    hide Agrees, Untouched, SlotsOk, Fits;
    var p := FirstClear(s.used, 0);
    var t := s.(used := s.used[p := true]);
    FitsAll(s, t, flat);
    SlotsSame(s, t);
  }

  lemma EvictFrame(s: Pager, flat: Flat, ppn: int, t: Pager)
    requires Ok(s, flat) && FirstClear(s.used, 0) == -1 && 0 <= ppn < FRAMES && s.ipt[ppn].valid
    requires HasPage(Unmap(s, ppn), Unmap(s, ppn).ipt[ppn].space, Unmap(s, ppn).ipt[ppn].vpn)
    requires Save(Unmap(s, ppn), ppn) == Some(t)
    ensures FrameTaken(s, flat, t, ppn)
  {
    hide Agrees, Untouched, SlotsOk, AllFit, Save, Unmap;
    UnmapKeeps(s, flat, ppn);
    var u := Unmap(s, ppn);
    SaveKeeps(u, flat, ppn, t);
    EvictStillTouchable(s, u, t);
    BreakIsEnough(s, ppn);
    forall v | FindFrame(s.ipt, s.current, v, 0) == -1 ensures FindFrame(t.ipt, s.current, v, 0) == -1 {
      forall p | 0 <= p < FRAMES && t.ipt[p].valid
        ensures s.ipt[p].valid && t.ipt[p].space == s.ipt[p].space && t.ipt[p].vpn == s.ipt[p].vpn
      {
        assert p != ppn ==> t.ipt[p] == s.ipt[p];
      }
      FewerFrames(s.ipt, t.ipt, s.current, v);
    }
  }

  lemma EvictStillTouchable(s: Pager, u: Pager, t: Pager)
    requires u.spaces == s.spaces && u.current == s.current && forall v :: Touchable(u, v) ==> Touchable(t, v)
    ensures forall v :: Touchable(s, v) ==> Touchable(t, v)
  {
    assert forall v :: Touchable(s, v) ==> Touchable(u, v);
  }

  lemma OkShape(s: Pager, flat: Flat)
    requires Ok(s, flat)
    ensures Shape(s) && SameShape(s, flat)
  {
  }

  lemma TakeFrameKeeps(s: Pager, flat: Flat, policy: Policy)
    requires Ok(s, flat) && TakeFrame(s, policy).Some?
    ensures var (t, ppn) := TakeFrame(s, policy).value; FrameTaken(s, flat, t, ppn)
  {
    hide Ok, Save, Unmap, FrameTaken;
    OkShape(s, flat);
    if FirstClear(s.used, 0) != -1 {
      FreeFrame(s, flat);
    } else {
      var ppn := Victim(s, policy).value;
      EvictFrame(s, flat, ppn, TakeFrame(s, policy).value.0);
    }
  }

  lemma TakenShape(s: Pager, flat: Flat, policy: Policy)
    requires Ok(s, flat) && Shape(s) && TakeFrame(s, policy).Some?
    ensures Shape(TakeFrame(s, policy).value.0)
  {
    hide Ok, TakeFrame, AllFit, FramesOk, SlotsOk, TLBOk, Touchable, FindFrame;
    TakeFrameKeeps(s, flat, policy);
  }

  /** After a fault the page is in the TLB. */
  ghost predicate Served(s: Pager, t: Pager, flat: Flat, vpn: int) {
    Ok(t, flat) && t.current == s.current && FirstMatch(t.tlb, vpn, 0) != -1
  }

  lemma PopulateServes(s: Pager, flat: Flat, ppn: int, vpn: int)
    requires Ok(s, flat) && 0 <= ppn < FRAMES && s.ipt[ppn].valid && s.ipt[ppn].space == s.current && s.ipt[ppn].vpn == vpn
    requires forall j :: 0 <= j < TLB_SIZE && s.tlb[j].valid ==> s.tlb[j].ppn != ppn
    ensures Served(s, Populate(s, ppn), flat, vpn)
  {
    hide Ok, Populate;
    OkShape(s, flat);
    PopulateKeeps(s, flat, ppn);
    OkShape(Populate(s, ppn), flat);
    var t := Populate(s, ppn);
    assert t.tlb[s.turn].valid && t.tlb[s.turn].vpn == vpn;
  }

  lemma IPTMissServes(s: Pager, flat: Flat, vpn: int, policy: Policy, junk: Page)
    requires Ok(s, flat) && Touchable(s, vpn) && FindFrame(s.ipt, s.current, vpn, 0) == -1
    requires HandleIPTMiss(s, vpn, policy, junk).Some?
    ensures var (t, q) := HandleIPTMiss(s, vpn, policy, junk).value;
            0 <= q < FRAMES && Shape(t) && Served(s, Populate(t, q), flat, vpn)
  {
    hide Ok, Populate, TakeFrame, Load, Core, TLBOk, Touchable, FindFrame;
    OkShape(s, flat);
    TakenShape(s, flat, policy);
    TakeFrameKeeps(s, flat, policy);
    var (u, q) := TakeFrame(s, policy).value;
    LoadableHere(u, flat, vpn, q);
    LoadKeeps(u, flat, vpn, q, junk);
    OkShape(Load(u, vpn, q, junk), flat);
    PopulateServes(Load(u, vpn, q, junk), flat, q, vpn);
  }

  /** A TLB miss keeps the flat memory, and afterwards the TLB maps the page. */
  lemma MissServes(s: Pager, flat: Flat, vpn: int, policy: Policy, junk: Page)
    requires Ok(s, flat) && Touchable(s, vpn) && FirstMatch(s.tlb, vpn, 0) == -1
    requires HandleTLBMiss(s, vpn, policy, junk).Some?
    ensures Served(s, HandleTLBMiss(s, vpn, policy, junk).value, flat, vpn)
  {
    hide Populate, TakeFrame, Load, Core, AllFit, Touchable;
    OkShape(s, flat);
    var ppn := FindFrame(s.ipt, s.current, vpn, 0);
    if ppn != -1 {
      PopulateServes(s, flat, ppn, vpn);
    } else {
      IPTMissServes(s, flat, vpn, policy, junk);
    }
  }

  // ---- the machine never stops without cause ----

  /** The eviction queue holds frames, at least as many as are in use. */
  ghost predicate QueueOk(s: Pager) {
    && (forall k :: 0 <= k < |s.fifo| ==> 0 <= s.fifo[k] < FRAMES)
    && |s.fifo| + CountClear(s.used) >= |s.used|
  }

  predicate InRange(policy: Policy) { policy.Random? ==> 0 <= policy.ppn < FRAMES }

  /** The ASSERTs of handleMemoryFull and handleTLBMiss hold: a fault fails only when memory is full,
      the victim is dirty and the swap file has no free page. */
  lemma FailsOnlyWhenSwapFull(s: Pager, flat: Flat, vpn: int, policy: Policy, junk: Page)
    requires Ok(s, flat) && QueueOk(s) && InRange(policy) && Touchable(s, vpn)
    ensures HandleTLBMiss(s, vpn, policy, junk).None? <==>
              && FindFrame(s.ipt, s.current, vpn, 0) == -1
              && FirstClear(s.used, 0) == -1 && FirstClear(s.slots, 0) == -1
              && Victim(s, policy).Some? && 0 <= Victim(s, policy).value < FRAMES && Dirty(s, Victim(s, policy).value)
  {
    hide Populate, Load, AllFit, Touchable, SlotsOk, Agrees, Untouched;
    FindMeansCount(s.used);
    if FindFrame(s.ipt, s.current, vpn, 0) == -1 {
      if FirstClear(s.used, 0) == -1 {
        var ppn := Victim(s, policy).value;
        assert s.used[ppn];
        UnmapKeeps(s, flat, ppn);
        BreakIsEnough(s, ppn);
        var u := Unmap(s, ppn);
        SlotsOfUnmap(s, ppn);
        if Save(u, ppn).Some? { TakenLoads(s, flat, vpn, policy); }
      } else {
        TakenLoads(s, flat, vpn, policy);
      }
    }
  }

  lemma SlotsOfUnmap(s: Pager, ppn: int)
    requires Shape(s) && 0 <= ppn < FRAMES
    ensures Unmap(s, ppn).slots == s.slots
  {
  }

  lemma TakenLoads(s: Pager, flat: Flat, vpn: int, policy: Policy)
    requires Ok(s, flat) && Touchable(s, vpn) && FindFrame(s.ipt, s.current, vpn, 0) == -1 && TakeFrame(s, policy).Some?
    ensures var (t, ppn) := TakeFrame(s, policy).value;
            0 <= ppn < FRAMES && Shape(t) && CanLoad(t, vpn)
            && forall junk :: Shape(Load(t, vpn, ppn, junk))
  {
    hide TakeFrame, Load, Core, TLBOk, Touchable, FindFrame, Ok;
    OkShape(s, flat);
    TakenShape(s, flat, policy);
    TakeFrameKeeps(s, flat, policy);
    var (t, ppn) := TakeFrame(s, policy).value;
    LoadableHere(t, flat, vpn, ppn);
    forall junk ensures Shape(Load(t, vpn, ppn, junk)) { LoadedRest(t, vpn, ppn, junk); }
  }
}
