/** The fault handlers keep the flat memory: eviction, loading and the TLB miss as a whole. */
module Faults {
  import opened Options
  import opened Bits
  import opened Bytes
  import opened Paging
  import opened FlatMemory

  // ---- eviction ----

  /** Taking a page out of its frame, into swap or back to the executable. */
  lemma EvictedFits(s: Pager, flat: Flat, ppn: int, t: Pager)
    requires Ok(s, flat) && 0 <= ppn < FRAMES && s.ipt[ppn].valid && Dirty(s, ppn) == s.ipt[ppn].dirty
    requires Save(s, ppn) == Some(t)
    ensures Shape(t) && SameShape(t, flat)
    ensures var f := s.ipt[ppn]; HasPage(t, f.space, f.vpn) && Fits(t, f.space, f.vpn, PageOf(t, f.space, f.vpn), flat[f.space][f.vpn])
  {
    hide SetPage, SlotsOk, Agrees, Untouched;
    var f := s.ipt[ppn];
    var e := PageOf(s, f.space, f.vpn);
    assert Fits(s, f.space, f.vpn, e, flat[f.space][f.vpn]);
    SavedPages(s, ppn, t);
    SavedRest(s, ppn, t);
  }

  /** The entry that Save writes. */
  function SavedEntry(s: Pager, ppn: int): PageEntry
    requires Shape(s) && 0 <= ppn < FRAMES && HasPage(s, s.ipt[ppn].space, s.ipt[ppn].vpn)
  {
    var e := PageOf(s, s.ipt[ppn].space, s.ipt[ppn].vpn);
    if s.ipt[ppn].dirty && s.ipt[ppn].valid then e.(location := SWAP, byteOffset := FirstClear(s.slots, 0) * PAGE_SIZE, dirty := true)
    else e.(location := EXEC)
  }

  lemma SavedPages(s: Pager, ppn: int, t: Pager)
    requires Shape(s) && 0 <= ppn < FRAMES && HasPage(s, s.ipt[ppn].space, s.ipt[ppn].vpn) && Save(s, ppn) == Some(t)
    ensures var f := s.ipt[ppn];
            && SameSpaces(s, t) && (forall q, w :: HasPage(t, q, w) <==> HasPage(s, q, w))
            && (forall q, w :: HasPage(s, q, w) ==> PageOf(t, q, w) == if q == f.space && w == f.vpn then SavedEntry(s, ppn) else PageOf(s, q, w))
  {
    hide SetPage;
    var f := s.ipt[ppn];
    var out := s.(ipt := s.ipt[ppn := f.(valid := false)], fifo := RemoveFirst(s.fifo, ppn));
    SetPageGet(out, f.space, f.vpn, SavedEntry(s, ppn));
    var u := SetPage(out, f.space, f.vpn, SavedEntry(s, ppn));
    assert t.spaces == u.spaces;
    assert forall q, w :: HasPage(s, q, w) ==> PageOf(t, q, w) == PageOf(u, q, w) && PageOf(out, q, w) == PageOf(s, q, w);
  }

  /** The other pages do not notice. */
  lemma OthersFit(s: Pager, flat: Flat, ppn: int, t: Pager, p: int, v: int)
    requires Ok(s, flat) && 0 <= ppn < FRAMES && s.ipt[ppn].valid && Save(s, ppn) == Some(t)
    requires HasPage(s, p, v) && (p != s.ipt[ppn].space || v != s.ipt[ppn].vpn)
    ensures Shape(t) && HasPage(t, p, v) && PageOf(t, p, v) == PageOf(s, p, v)
    ensures Fits(t, p, v, PageOf(t, p, v), flat[p][v])
  {
    hide SetPage, SlotsOk, Agrees, Untouched;
    SavedPages(s, ppn, t);
    SavedRest(s, ppn, t);
    var e := PageOf(s, p, v);
    assert Fits(s, p, v, e, flat[p][v]);
    assert Undisturbed(s, t, p, e);
    FitsStays(s, t, p, v, e, flat[p][v]);
  }

  lemma SavedSlots(s: Pager, flat: Flat, ppn: int, t: Pager)
    requires Ok(s, flat) && 0 <= ppn < FRAMES && s.ipt[ppn].valid && Save(s, ppn) == Some(t)
    ensures Shape(t) && SlotsOk(t)
  {
    hide SetPage, Agrees, Untouched, Save, AllFit;
    SavedPages(s, ppn, t);
    var f := s.ipt[ppn];
    var slot := FirstClear(s.slots, 0);
    SavedRest(s, ppn, t);
    assert forall i, p, v :: (p != f.space || v != f.vpn) ==> InSlot(t, p, v, i) == InSlot(s, p, v, i);
    assert forall i :: InSlot(t, f.space, f.vpn, i) <==> f.dirty && i == slot;
    assert forall i :: !InSlot(s, f.space, f.vpn, i);
    assert f.dirty ==> forall p, v :: !InSlot(s, p, v, slot) by { SlotIsFree(s, flat, slot); }
    forall i | 0 <= i < SWAP_PAGES && t.slots[i] ensures exists p, v :: InSlot(t, p, v, i) {
      if f.dirty && i == slot {
        assert InSlot(t, f.space, f.vpn, i);
      } else {
        var p, v :| InSlot(s, p, v, i);
        assert InSlot(t, p, v, i);
      }
    }
  }

  lemma SlotIsFree(s: Pager, flat: Flat, slot: int)
    requires Core(s, flat, -1) && (slot == -1 || (0 <= slot < SWAP_PAGES && !s.slots[slot]))
    ensures forall p, v :: !InSlot(s, p, v, slot)
  {
    hide Agrees, Untouched;
    forall p, v ensures !InSlot(s, p, v, slot) {
      if HasPage(s, p, v) { assert Fits(s, p, v, PageOf(s, p, v), flat[p][v]); }
    }
  }

  lemma SavedRest(s: Pager, ppn: int, t: Pager)
    requires Shape(s) && 0 <= ppn < FRAMES && HasPage(s, s.ipt[ppn].space, s.ipt[ppn].vpn) && Save(s, ppn) == Some(t) && s.ipt[ppn].valid
    ensures Shape(t) && t.tlb == s.tlb && t.turn == s.turn && t.used == s.used && t.mem == s.mem && t.current == s.current
    ensures t.ipt == s.ipt[ppn := s.ipt[ppn].(valid := false)] && t.fifo == RemoveFirst(s.fifo, ppn)
    ensures s.ipt[ppn].dirty ==> FirstClear(s.slots, 0) != -1
    ensures s.ipt[ppn].dirty ==> t.swap == s.swap[FirstClear(s.slots, 0) := s.mem[ppn]]
    ensures !s.ipt[ppn].dirty ==> t.swap == s.swap
    ensures t.slots == if s.ipt[ppn].dirty then s.slots[FirstClear(s.slots, 0) := true] else s.slots
  {
  }

  lemma SaveKeeps(s: Pager, flat: Flat, ppn: int, t: Pager)
    requires Ok(s, flat) && 0 <= ppn < FRAMES && s.ipt[ppn].valid && Dirty(s, ppn) == s.ipt[ppn].dirty
    requires forall j :: 0 <= j < TLB_SIZE && s.tlb[j].valid ==> s.tlb[j].ppn != ppn
    requires Save(s, ppn) == Some(t)
    ensures Core(t, flat, ppn) && TLBOk(t)
    ensures t.current == s.current && t.used == s.used && t.fifo == RemoveFirst(s.fifo, ppn)
    ensures t.ipt == s.ipt[ppn := s.ipt[ppn].(valid := false)]
    ensures forall v :: Touchable(s, v) ==> Touchable(t, v)
  {
    hide SetPage, Agrees, Untouched, Save, Fits, SlotsOk;
    SavedPages(s, ppn, t);
    SavedRest(s, ppn, t);
    SavedSlots(s, flat, ppn, t);
    EvictedFits(s, flat, ppn, t);
    forall p, v | HasPage(t, p, v) ensures Fits(t, p, v, PageOf(t, p, v), flat[p][v]) {
      if p != s.ipt[ppn].space || v != s.ipt[ppn].vpn { OthersFit(s, flat, ppn, t, p, v); }
    }
  }

  // ---- loading ----

  lemma ReadExecAgrees(exec: seq<Byte>, own: nat, start: nat, vpn: nat, offset: int, buffer: Page, junk: Page)
    requires vpn < own ==> offset == start + vpn * PAGE_SIZE
    ensures Agrees(ReadExec(exec, offset, buffer, junk), Untouched(exec, own, start, vpn))
  {
  }

  lemma NowhereAgrees(exec: seq<Byte>, own: nat, start: nat, vpn: nat, buffer: Page)
    requires vpn >= own
    ensures Agrees(buffer, Untouched(exec, own, start, vpn))
  {
  }

  /** handleIPTmiss with the frame in hand needs this of the page. */
  ghost predicate Loadable(s: Pager, vpn: int)
    requires Shape(s)
  {
    && Touchable(s, vpn)
    && (var e := PageOf(s, s.current, vpn); (e.location.SWAP? ==> 0 <= Slot(e) < SWAP_PAGES) && (e.valid ==> !e.location.MAIN?))
  }

  lemma LoadedPages(s: Pager, vpn: int, ppn: int, junk: Page)
    requires Shape(s) && 0 <= ppn < FRAMES && Loadable(s, vpn)
    ensures var t := Load(s, vpn, ppn, junk);
            && SameSpaces(s, t) && (forall q, w :: HasPage(t, q, w) <==> HasPage(s, q, w))
            && (forall q, w :: HasPage(s, q, w) ==> PageOf(t, q, w) == if q == s.current && w == vpn
                  then PageOf(s, q, w).(ppn := ppn, valid := true, location := MAIN) else PageOf(s, q, w))
  {
    hide SetPage;
    var e := PageOf(s, s.current, vpn).(ppn := ppn, valid := true, location := MAIN);
    SetPageGet(s, s.current, vpn, e);
    var u := SetPage(s, s.current, vpn, e);
    assert Load(s, vpn, ppn, junk).spaces == u.spaces;
    assert forall q, w :: HasPage(s, q, w) ==> PageOf(Load(s, vpn, ppn, junk), q, w) == PageOf(u, q, w);
  }

  lemma LoadedRest(s: Pager, vpn: int, ppn: int, junk: Page)
    requires Shape(s) && 0 <= ppn < FRAMES && Loadable(s, vpn)
    ensures var t := Load(s, vpn, ppn, junk);
            var e := PageOf(s, s.current, vpn);
            && Shape(t) && t.tlb == s.tlb && t.turn == s.turn && t.used == s.used && t.current == s.current && t.swap == s.swap
            && t.ipt == s.ipt[ppn := Frame(s.current, vpn, ppn, true, e.dirty)] && t.fifo == s.fifo + [ppn]
            && t.slots == (if e.location.SWAP? then s.slots[Slot(e) := false] else s.slots)
            && (forall p :: 0 <= p < FRAMES && p != ppn ==> t.mem[p] == s.mem[p])
            && (e.location.SWAP? ==> t.mem[ppn] == s.swap[Slot(e)])
            && (e.location.EXEC? ==> t.mem[ppn] == ReadExec(s.spaces[s.current].exec, e.byteOffset, s.mem[ppn], junk))
  {
  }

  /** The page that is loaded has the content the flat memory wants, wherever it came from. A page
      from swap is dirty from the start: its copy in swap has just been given up. */
  lemma LoadedFits(s: Pager, flat: Flat, vpn: int, ppn: int, junk: Page)
    requires Core(s, flat, ppn) && 0 <= ppn < FRAMES && Loadable(s, vpn)
    ensures var t := Load(s, vpn, ppn, junk);
            Shape(t) && HasPage(t, s.current, vpn) && Fits(t, s.current, vpn, PageOf(t, s.current, vpn), flat[s.current][vpn])
  {
    hide SetPage, Agrees, Untouched, SlotsOk, ReadExec, Load;
    LoadedPages(s, vpn, ppn, junk);
    LoadedRest(s, vpn, ppn, junk);
    var space := s.spaces[s.current];
    var e := PageOf(s, s.current, vpn);
    assert Fits(s, s.current, vpn, e, flat[s.current][vpn]);
    if e.location.EXEC? {
      ReadExecAgrees(space.exec, space.own, space.start, vpn, e.byteOffset, s.mem[ppn], junk);
    } else if e.location.VOID? {
      NowhereAgrees(space.exec, space.own, space.start, vpn, Load(s, vpn, ppn, junk).mem[ppn]);
    }
  }

  lemma LoadOthersFit(s: Pager, flat: Flat, vpn: int, ppn: int, junk: Page, p: int, v: int)
    requires Core(s, flat, ppn) && 0 <= ppn < FRAMES && Loadable(s, vpn)
    requires HasPage(s, p, v) && (p != s.current || v != vpn)
    ensures var t := Load(s, vpn, ppn, junk);
            Shape(t) && HasPage(t, p, v) && PageOf(t, p, v) == PageOf(s, p, v) && Fits(t, p, v, PageOf(t, p, v), flat[p][v])
  {
    hide SetPage, Agrees, Untouched, ReadExec, Load;
    LoadedPages(s, vpn, ppn, junk);
    LoadedRest(s, vpn, ppn, junk);
    var t := Load(s, vpn, ppn, junk);
    var e := PageOf(s, p, v);
    assert Fits(s, p, v, e, flat[p][v]);
    var mine := PageOf(s, s.current, vpn);
    assert Fits(s, s.current, vpn, mine, flat[s.current][vpn]);
    assert InSlot(s, p, v, Slot(e)) && mine.location.SWAP? && Slot(mine) == Slot(e) ==> InSlot(s, s.current, vpn, Slot(e));
    assert Undisturbed(s, t, p, e);
    FitsStays(s, t, p, v, e, flat[p][v]);
  }

  lemma LoadedSlots(s: Pager, flat: Flat, vpn: int, ppn: int, junk: Page)
    requires Core(s, flat, ppn) && 0 <= ppn < FRAMES && Loadable(s, vpn)
    ensures var t := Load(s, vpn, ppn, junk); Shape(t) && SlotsOk(t)
  {
    hide SetPage, Agrees, Untouched, ReadExec, Load, AllFit, Fits;
    LoadedPages(s, vpn, ppn, junk);
    LoadedRest(s, vpn, ppn, junk);
    var t := Load(s, vpn, ppn, junk);
    var e := PageOf(s, s.current, vpn);
    assert forall i, p, v :: (p != s.current || v != vpn) ==> InSlot(t, p, v, i) == InSlot(s, p, v, i);
    assert forall i :: !InSlot(t, s.current, vpn, i);
    assert forall i :: InSlot(s, s.current, vpn, i) ==> e.location.SWAP? && i == Slot(e);
    forall i | 0 <= i < SWAP_PAGES && t.slots[i] ensures exists p, v :: InSlot(t, p, v, i) {
      var p, v :| InSlot(s, p, v, i);
      assert InSlot(t, p, v, i);
    }
  }

  lemma LoadKeeps(s: Pager, flat: Flat, vpn: int, ppn: int, junk: Page)
    requires Core(s, flat, ppn) && TLBOk(s) && 0 <= ppn < FRAMES && Loadable(s, vpn) && s.used[ppn]
    ensures var t := Load(s, vpn, ppn, junk);
            && Ok(t, flat) && t.current == s.current && t.used == s.used && t.fifo == s.fifo + [ppn]
            && t.ipt[ppn].valid && t.ipt[ppn].space == s.current && t.ipt[ppn].vpn == vpn
            && (forall j :: 0 <= j < TLB_SIZE && t.tlb[j].valid ==> t.tlb[j].ppn != ppn)
  {
    hide SetPage, Agrees, Untouched, ReadExec, Load, Fits, SlotsOk;
    LoadedPages(s, vpn, ppn, junk);
    LoadedRest(s, vpn, ppn, junk);
    LoadedSlots(s, flat, vpn, ppn, junk);
    LoadedFits(s, flat, vpn, ppn, junk);
    var t := Load(s, vpn, ppn, junk);
    forall p, v | HasPage(t, p, v) ensures Fits(t, p, v, PageOf(t, p, v), flat[p][v]) {
      if p != s.current || v != vpn { LoadOthersFit(s, flat, vpn, ppn, junk, p, v); }
    }
    LoadedFrames(s, flat, vpn, ppn, junk);
  }

  lemma LoadedFrames(s: Pager, flat: Flat, vpn: int, ppn: int, junk: Page)
    requires Core(s, flat, ppn) && 0 <= ppn < FRAMES && Loadable(s, vpn) && s.used[ppn]
    ensures var t := Load(s, vpn, ppn, junk); Shape(t) && FramesOk(t, -1)
  {
    hide SetPage, Agrees, Untouched, ReadExec, Load, AllFit, SlotsOk;
    LoadedPages(s, vpn, ppn, junk);
    LoadedRest(s, vpn, ppn, junk);
  }
}
