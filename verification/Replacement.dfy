/** What a fault replaces: the TLB entry whose turn it is, and, when no frame is free, the victim's page, which
    goes to the swap file exactly when it is dirty. */
module Replacement {
  import opened Options
  import opened Bits
  import opened Paging
  import opened FlatMemory
  import opened Faults
  import opened Misses
  import opened EvictionQueue

  /** Entries stay as they are, but for one that maps the frame that is taken. */
  ghost predicate OthersStay(s: Pager, t: Pager, ppn: Option<int>)
    requires Shape(s) && Shape(t)
  {
    forall j :: 0 <= j < TLB_SIZE && t.tlb[j] != s.tlb[j] ==>
      t.tlb[j] == s.tlb[j].(valid := false) && s.tlb[j].valid && ppn == Some(s.tlb[j].ppn)
  }

  lemma UnmapStays(s: Pager, ppn: int)
    requires Shape(s) && 0 <= ppn < FRAMES
    ensures var u := Unmap(s, ppn);
            && Shape(u) && OthersStay(s, u, Some(ppn)) && u.turn == s.turn && u.used == s.used && u.current == s.current
            && u.slots == s.slots && u.mem == s.mem && u.spaces == s.spaces && u.swap == s.swap
            && u.ipt[ppn].(dirty := false) == s.ipt[ppn].(dirty := false)
  {
  }

  lemma TakeStays(s: Pager, flat: Flat, policy: Policy)
    requires Ok(s, flat) && Shape(s) && TakeFrame(s, policy).Some?
    ensures var (t, p) := TakeFrame(s, policy).value;
            && Shape(t) && t.turn == s.turn && t.current == s.current
            && OthersStay(s, t, Some(p)) && 0 <= p < FRAMES
            && p == (if FirstClear(s.used, 0) != -1 then FirstClear(s.used, 0) else Victim(s, policy).value)
  {
    hide Ok, Unmap, Save;
    TakeQueue(s, flat, policy);
    var (t, p) := TakeFrame(s, policy).value;
    if FirstClear(s.used, 0) == -1 {
      UnmapStays(s, p);
      OkFrames(s, flat, p);
      SavedRest(Unmap(s, p), p, t);
    }
  }

  lemma OkFrames(s: Pager, flat: Flat, p: int)
    requires Ok(s, flat) && 0 <= p < FRAMES
    ensures s.used[p] == s.ipt[p].valid
    ensures s.ipt[p].valid ==> s.ipt[p].ppn == p && HasPage(s, s.ipt[p].space, s.ipt[p].vpn)
  {
  }

  lemma PopulateTurn(s: Pager, ppn: int)
    requires Shape(s) && 0 <= ppn < FRAMES
    ensures var t := Populate(s, ppn);
            && t.turn == (s.turn + 1) % TLB_SIZE && |t.tlb| == TLB_SIZE
            && t.tlb[s.turn] == TLBEntry(s.ipt[ppn].vpn, s.ipt[ppn].ppn, s.ipt[ppn].valid, t.ipt[ppn].dirty)
            && forall j :: 0 <= j < TLB_SIZE && j != s.turn ==> t.tlb[j] == s.tlb[j]
  {
  }

  /** A fault puts the page into the TLB entry whose turn it is and passes the turn to the next of the four, so
      that an entry stays until three others have been replaced; any other entry stays as it is, but for one
      that maps the frame that is taken from its page. */
  lemma EntriesTakeTurns(s: Pager, flat: Flat, vpn: int, policy: Policy, junk: Page)
    requires Ok(s, flat) && Touchable(s, vpn) && HandleTLBMiss(s, vpn, policy, junk).Some?
    ensures Shape(s)
    ensures var t := HandleTLBMiss(s, vpn, policy, junk).value;
            && t.turn == (s.turn + 1) % 4 && |t.tlb| == TLB_SIZE
            && t.tlb[s.turn].valid && t.tlb[s.turn].vpn == vpn
            && forall j :: 0 <= j < TLB_SIZE && j != s.turn ==>
                 t.tlb[j] == s.tlb[j]
                 || (t.tlb[j] == s.tlb[j].(valid := false) && s.tlb[j].valid && Loaded(s, vpn, policy) == Some(s.tlb[j].ppn))
  {
    hide Ok, Populate, TakeFrame, Load, Touchable, FindFrame;
    OkShape(s, flat);
    var found := FindFrame(s.ipt, s.current, vpn, 0);
    if found != -1 {
      PopulateTurn(s, found);
    } else {
      TakeStays(s, flat, policy);
      TakeQueue(s, flat, policy);
      var (u, p) := TakeFrame(s, policy).value;
      LoadTurn(u, vpn, p, junk);
      PopulateTurn(Load(u, vpn, p, junk), p);
    }
  }

  lemma LoadTurn(s: Pager, vpn: int, ppn: int, junk: Page)
    requires Shape(s) && 0 <= ppn < FRAMES && CanLoad(s, vpn)
    ensures var t := Load(s, vpn, ppn, junk);
            && Shape(t) && t.tlb == s.tlb && t.turn == s.turn && t.ipt[ppn].vpn == vpn && t.ipt[ppn].valid
  {
  }

  /** The page that the fault puts out of its frame, and the frame. */
  predicate Evicts(s: Pager, vpn: int, policy: Policy, p: int)
    requires Shape(s)
  {
    Loaded(s, vpn, policy) == Some(p) && 0 <= p < FRAMES && s.used[p]
  }

  /** A page is put out only when no frame is free; it goes, as it is, to the first free page of the swap file if
      it is dirty, and is left to be read from the executable again if it is not. */
  lemma EvictedGoesTo(s: Pager, flat: Flat, vpn: int, policy: Policy, junk: Page, p: int)
    requires Ok(s, flat) && Touchable(s, vpn) && Shape(s) && HandleTLBMiss(s, vpn, policy, junk).Some? && Evicts(s, vpn, policy, p)
    ensures forall f :: 0 <= f < FRAMES ==> s.used[f]
    ensures var t := HandleTLBMiss(s, vpn, policy, junk).value;
            var f := s.ipt[p];
            && HasPage(s, f.space, f.vpn) && HasPage(t, f.space, f.vpn)
            && (if Dirty(s, p) then
                  var slot := FirstClear(s.slots, 0);
                  && PageOf(t, f.space, f.vpn).location == SWAP && 0 <= slot < SWAP_PAGES && !s.slots[slot]
                  && PageOf(t, f.space, f.vpn).byteOffset == slot * PAGE_SIZE && |t.swap| == SWAP_PAGES && t.swap[slot] == s.mem[p]
                else PageOf(t, f.space, f.vpn) == PageOf(s, f.space, f.vpn).(location := EXEC) && t.swap == s.swap)
  {
    hide Ok, Populate, Load, Touchable, FindFrame, TakeFrame, FrameTaken, Dirty;
    TakeQueue(s, flat, policy);
    var u := TakeFrame(s, policy).value.0;
    OkFrames(s, flat, p);
    PutOut(s, flat, policy, p);
    TakenKeeps(s, flat, policy);
    LoadableAfter(s, flat, u, p, vpn);
    LoadedPages(u, vpn, p, junk);
    LoadedRest(u, vpn, p, junk);
    PopulatePages(Load(u, vpn, p, junk), p);
  }

  /** The same, before the frame is loaded. */
  lemma PutOut(s: Pager, flat: Flat, policy: Policy, p: int)
    requires Ok(s, flat) && Shape(s) && FirstClear(s.used, 0) == -1 && TakeFrame(s, policy).Some? && TakeFrame(s, policy).value.1 == p
    ensures var t := TakeFrame(s, policy).value.0;
            && 0 <= p < FRAMES
            && var f := s.ipt[p];
            && f.valid && HasPage(s, f.space, f.vpn) && HasPage(t, f.space, f.vpn)
            && (if Dirty(s, p) then
                  var slot := FirstClear(s.slots, 0);
                  && PageOf(t, f.space, f.vpn).location == SWAP && 0 <= slot < SWAP_PAGES && !s.slots[slot]
                  && PageOf(t, f.space, f.vpn).byteOffset == slot * PAGE_SIZE && t.swap == s.swap[slot := s.mem[p]]
                else PageOf(t, f.space, f.vpn) == PageOf(s, f.space, f.vpn).(location := EXEC) && t.swap == s.swap)
  {
    hide Ok, Unmap, Save;
    TakeQueue(s, flat, policy);
    var u := TakeFrame(s, policy).value.0;
    OkFrames(s, flat, p);
    var m := Unmap(s, p);
    UnmapStays(s, p);
    OkTLB(s, flat);
    BreakIsEnough(s, p);
    SavedPages(m, p, u);
    SavedRest(m, p, u);
  }

  lemma OkTLB(s: Pager, flat: Flat)
    requires Ok(s, flat)
    ensures Shape(s) && TLBOk(s)
  {
  }

  lemma TakenKeeps(s: Pager, flat: Flat, policy: Policy)
    requires Ok(s, flat) && Shape(s) && TakeFrame(s, policy).Some?
    ensures FrameTaken(s, flat, TakeFrame(s, policy).value.0, TakeFrame(s, policy).value.1)
  {
    hide Ok, TakeFrame, FrameTaken;
    TakeFrameKeeps(s, flat, policy);
  }

  lemma LoadableAfter(s: Pager, flat: Flat, u: Pager, p: int, vpn: int)
    requires Shape(s) && FrameTaken(s, flat, u, p) && Touchable(s, vpn) && FindFrame(s.ipt, s.current, vpn, 0) == -1
    ensures Shape(u) && Loadable(u, vpn) && CanLoad(u, vpn) && u.current == s.current
    ensures 0 <= p < FRAMES && (s.ipt[p].valid ==> s.ipt[p].space != s.current || s.ipt[p].vpn != vpn)
  {
    hide Core, TLBOk, Touchable;
    LoadableHere(u, flat, vpn, p);
    CoreIsShape(u, flat, p);
  }

  lemma CoreIsShape(s: Pager, flat: Flat, hole: int)
    requires Core(s, flat, hole)
    ensures Shape(s)
  {
  }

  lemma PopulatePages(s: Pager, ppn: int)
    requires Shape(s) && 0 <= ppn < FRAMES
    ensures Populate(s, ppn).spaces == s.spaces && Populate(s, ppn).swap == s.swap
  {
  }
}
