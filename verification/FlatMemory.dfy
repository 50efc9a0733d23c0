/** The simple memory that paging must look like: for every page of every address space, the bytes
    a program must read there, where they are determined; and the invariant that ties the pager's
    state to it. */
module FlatMemory {
  import opened Options
  import opened Bytes
  import opened Paging

  type Spec = p: seq<Option<Byte>> | |p| == PAGE_SIZE witness seq(PAGE_SIZE, i => None)

  /** For each address space, its pages: None is a byte that nothing determines yet. */
  type Flat = map<int, seq<Spec>>

  /** A page nobody has written: the executable's bytes; nothing past its end, nothing on the stack. */
  function Untouched(exec: seq<Byte>, own: nat, start: nat, vpn: nat): (r: Spec) {
    seq(PAGE_SIZE, k requires 0 <= k < PAGE_SIZE =>
      if vpn < own && start + vpn * PAGE_SIZE + k < |exec| then Some(exec[start + vpn * PAGE_SIZE + k]) else None)
  }

  ghost predicate Agrees(page: Page, spec: Spec) {
    forall k :: 0 <= k < PAGE_SIZE && spec[k].Some? ==> page[k] == spec[k].value
  }

  /** The dirty bit a frame would have if the TLB were flushed now. */
  predicate Dirty(s: Pager, ppn: int)
    requires Shape(s) && 0 <= ppn < FRAMES
  {
    s.ipt[ppn].dirty || DirtyInTLB(s.tlb, ppn)
  }

  /** The entry still says where the page lies in the executable. */
  predicate Home(space: Space, vpn: int, e: PageEntry) {
    vpn < space.own ==> e.byteOffset == space.start + vpn * PAGE_SIZE
  }

  ghost predicate Pristine(space: Space, vpn: nat, e: PageEntry, spec: Spec) {
    spec == Untouched(space.exec, space.own, space.start, vpn) && Home(space, vpn, e) && !e.dirty
  }

  /** A loaded page is in a frame that knows it, and the frame is dirty unless the page is as the
      executable has it. A page in swap has a slot, and is marked dirty for good. An entry that an
      exiting thread gave up (not valid, but MAIN or SWAP) says nothing. */
  ghost predicate Fits(s: Pager, space: int, vpn: nat, e: PageEntry, spec: Spec)
    requires Shape(s) && space in s.spaces
  {
    match e.location
    case MAIN => e.valid ==>
      && 0 <= e.ppn < FRAMES && s.ipt[e.ppn].valid && s.ipt[e.ppn].space == space && s.ipt[e.ppn].vpn == vpn
      && Agrees(s.mem[e.ppn], spec)
      && (e.dirty ==> s.ipt[e.ppn].dirty)
      && (Dirty(s, e.ppn) || Pristine(s.spaces[space], vpn, e, spec))
    case SWAP => e.valid ==>
      && 0 <= Slot(e) < SWAP_PAGES && e.byteOffset == Slot(e) * PAGE_SIZE && s.slots[Slot(e)] && e.dirty
      && Agrees(s.swap[Slot(e)], spec)
    case EXEC => Pristine(s.spaces[space], vpn, e, spec)
    case VOID => Pristine(s.spaces[space], vpn, e, spec) && vpn >= s.spaces[space].own && !e.valid
  }

  ghost predicate SameShape(s: Pager, flat: Flat) {
    && flat.Keys == s.spaces.Keys
    && forall p :: p in s.spaces ==> |flat[p]| == |s.spaces[p].pages| && s.spaces[p].own <= |flat[p]|
  }

  ghost predicate AllFit(s: Pager, flat: Flat)
    requires Shape(s) && SameShape(s, flat)
  {
    forall p, v :: HasPage(s, p, v) ==> Fits(s, p, v, PageOf(s, p, v), flat[p][v])
  }

  /** A frame's bit is set exactly when its entry is valid, and then its page is loaded there. The
      frame `hole`, if any, is being filled: it is empty, whatever its bit. */
  ghost predicate FramesOk(s: Pager, hole: int)
    requires Shape(s)
  {
    && (forall p :: 0 <= p < FRAMES ==>
          if p == hole then !s.ipt[p].valid else s.used[p] == s.ipt[p].valid)
    && (forall p :: 0 <= p < FRAMES && s.ipt[p].valid ==>
          && s.ipt[p].ppn == p && HasPage(s, s.ipt[p].space, s.ipt[p].vpn)
          && PageOf(s, s.ipt[p].space, s.ipt[p].vpn).valid
          && PageOf(s, s.ipt[p].space, s.ipt[p].vpn).location.MAIN?
          && PageOf(s, s.ipt[p].space, s.ipt[p].vpn).ppn == p)
  }

  predicate InSlot(s: Pager, p: int, v: int, i: int) {
    HasPage(s, p, v) && PageOf(s, p, v).valid && PageOf(s, p, v).location.SWAP? && Slot(PageOf(s, p, v)) == i
  }

  /** A swap bit is set exactly when one loaded page lies there, and only one. */
  ghost predicate SlotsOk(s: Pager)
    requires Shape(s)
  {
    && (forall i :: 0 <= i < SWAP_PAGES && s.slots[i] ==> exists p, v :: InSlot(s, p, v, i))
    && (forall i, p, v, q, w :: InSlot(s, p, v, i) && InSlot(s, q, w, i) ==> p == q && v == w)
  }

  /** Valid TLB entries map distinct resident pages of the current space. */
  ghost predicate TLBOk(s: Pager)
    requires Shape(s)
  {
    && (forall j :: 0 <= j < TLB_SIZE && s.tlb[j].valid ==>
          (s.ipt[s.tlb[j].ppn].valid && s.ipt[s.tlb[j].ppn].space == s.current && s.ipt[s.tlb[j].ppn].vpn == s.tlb[j].vpn))
    && (forall j, k :: 0 <= j < k < TLB_SIZE && s.tlb[j].valid && s.tlb[k].valid ==> s.tlb[j].ppn != s.tlb[k].ppn)
  }

  ghost predicate Core(s: Pager, flat: Flat, hole: int) {
    Shape(s) && SameShape(s, flat) && AllFit(s, flat) && FramesOk(s, hole) && SlotsOk(s)
  }

  ghost predicate Ok(s: Pager, flat: Flat) {
    Core(s, flat, -1) && TLBOk(s)
  }

  /** A page a program may touch: not one that an exiting thread gave up. */
  predicate Touchable(s: Pager, vpn: int) {
    && HasPage(s, s.current, vpn)
    && (var e := PageOf(s, s.current, vpn); e.valid || e.location.EXEC? || e.location.VOID?)
  }

  // ---- pages one at a time ----

  /** The same address spaces, apart from what their entries say. */
  ghost predicate SameSpaces(s: Pager, t: Pager) {
    && t.spaces.Keys == s.spaces.Keys
    && forall q :: q in s.spaces ==>
         (t.spaces[q].(pages := []) == s.spaces[q].(pages := []) && |t.spaces[q].pages| == |s.spaces[q].pages|)
  }

  lemma SetPageGet(s: Pager, p: int, v: int, e: PageEntry)
    requires HasPage(s, p, v)
    ensures var t := SetPage(s, p, v, e);
            && t == s.(spaces := t.spaces)
            && SameSpaces(s, t) && (forall q, w :: HasPage(t, q, w) <==> HasPage(s, q, w))
            && (forall q, w :: HasPage(s, q, w) ==> PageOf(t, q, w) == if q == p && w == v then e else PageOf(s, q, w))
  {
  }

  /** What matters to a page is unchanged. */
  ghost predicate Undisturbed(s: Pager, t: Pager, p: int, e: PageEntry)
    requires Shape(s) && Shape(t) && p in s.spaces && p in t.spaces
  {
    && t.spaces[p].exec == s.spaces[p].exec && t.spaces[p].own == s.spaces[p].own && t.spaces[p].start == s.spaces[p].start
    && (e.valid && e.location.MAIN? && 0 <= e.ppn < FRAMES ==>
          && t.ipt[e.ppn].(dirty := false) == s.ipt[e.ppn].(dirty := false) && t.mem[e.ppn] == s.mem[e.ppn]
          && (s.ipt[e.ppn].dirty ==> t.ipt[e.ppn].dirty) && (Dirty(s, e.ppn) ==> Dirty(t, e.ppn)))
    && (e.valid && e.location.SWAP? && 0 <= Slot(e) < SWAP_PAGES ==>
          t.slots[Slot(e)] == s.slots[Slot(e)] && t.swap[Slot(e)] == s.swap[Slot(e)])
  }

  lemma FitsStays(s: Pager, t: Pager, p: int, v: nat, e: PageEntry, spec: Spec)
    requires Shape(s) && Shape(t) && p in s.spaces && p in t.spaces
    requires Fits(s, p, v, e, spec) && Undisturbed(s, t, p, e)
    ensures Fits(t, p, v, e, spec)
  {
    hide Agrees, Dirty, Untouched;
  }

  // ---- the TLB ----

  /** With distinct frames in the TLB the first match is the only one: the break in
      handleMemoryFull misses nothing. */
  lemma BreakIsEnough(s: Pager, ppn: int)
    requires Shape(s) && TLBOk(s) && 0 <= ppn < FRAMES
    ensures forall j :: 0 <= j < TLB_SIZE && Unmap(s, ppn).tlb[j].valid ==> Unmap(s, ppn).tlb[j].ppn != ppn
    ensures Unmap(s, ppn).ipt[ppn].dirty == Dirty(s, ppn)
    ensures forall p :: 0 <= p < FRAMES && p != ppn ==> Unmap(s, ppn).ipt[p] == s.ipt[p] && Dirty(Unmap(s, ppn), p) == Dirty(s, p)
  {
    var t := Unmap(s, ppn);
    var i := FirstMapping(s.tlb, ppn, 0);
    if i != -1 {
      assert t.tlb[i] == s.tlb[i].(valid := false);
      assert forall j :: 0 <= j < TLB_SIZE && j != i ==> t.tlb[j] == s.tlb[j];
    }
    forall p | 0 <= p < FRAMES && p != ppn ensures DirtyInTLB(t.tlb, p) == DirtyInTLB(s.tlb, p) {
      if DirtyInTLB(s.tlb, p) {
        var j :| 0 <= j < |s.tlb| && s.tlb[j].valid && s.tlb[j].dirty && s.tlb[j].ppn == p;
        assert t.tlb[j] == s.tlb[j];
      }
    }
  }

  lemma UnmapKeeps(s: Pager, flat: Flat, ppn: int)
    requires Ok(s, flat) && 0 <= ppn < FRAMES
    ensures var t := Unmap(s, ppn);
            && Ok(t, flat) && Dirty(t, ppn) == t.ipt[ppn].dirty
            && t.mem == s.mem && t.spaces == s.spaces && t.current == s.current && t.fifo == s.fifo && t.used == s.used
            && t.ipt[ppn].(dirty := false) == s.ipt[ppn].(dirty := false)
            && (forall j :: 0 <= j < TLB_SIZE ==> (t.tlb[j].valid ==> s.tlb[j] == t.tlb[j] && t.tlb[j].ppn != ppn))
  {
    hide AllFit, SlotsOk, Fits;
    var t := Unmap(s, ppn);
    BreakIsEnough(s, ppn);
    assert forall j :: 0 <= j < TLB_SIZE ==> (t.tlb[j].valid ==> s.tlb[j] == t.tlb[j]);
    FitsAll(s, t, flat);
    SlotsSame(s, t);
  }

  /** The page table is the same, and so is all that matters to its pages. */
  lemma FitsAll(s: Pager, t: Pager, flat: Flat)
    requires Shape(s) && Shape(t) && SameShape(s, flat) && SameShape(t, flat) && AllFit(s, flat)
    requires t.spaces == s.spaces && t.mem == s.mem && t.slots == s.slots && t.swap == s.swap
    requires forall p :: 0 <= p < FRAMES ==>
               && t.ipt[p].(dirty := false) == s.ipt[p].(dirty := false)
               && (s.ipt[p].dirty ==> t.ipt[p].dirty) && (Dirty(s, p) ==> Dirty(t, p))
    ensures AllFit(t, flat)
  {
    hide Fits, Dirty;
    forall p, v | HasPage(t, p, v) ensures Fits(t, p, v, PageOf(t, p, v), flat[p][v]) {
      assert Fits(s, p, v, PageOf(s, p, v), flat[p][v]);
      FitsStays(s, t, p, v, PageOf(s, p, v), flat[p][v]);
    }
  }

  lemma SlotsSame(s: Pager, t: Pager)
    requires Shape(s) && Shape(t) && SlotsOk(s) && t.spaces == s.spaces && t.slots == s.slots
    ensures SlotsOk(t)
  {
    assert forall p, v, i :: InSlot(t, p, v, i) == InSlot(s, p, v, i);
    forall i | 0 <= i < SWAP_PAGES && t.slots[i] ensures exists p, v :: InSlot(t, p, v, i) {
      var p, v :| InSlot(s, p, v, i);
      assert InSlot(t, p, v, i);
    }
  }

  lemma PropagateKeeps(s: Pager, flat: Flat, j: int)
    requires Ok(s, flat) && 0 <= j < TLB_SIZE
    ensures var t := Propagate(s, j);
            && Ok(t, flat) && (s.tlb[j].valid && s.tlb[j].dirty ==> t.ipt[s.tlb[j].ppn].dirty)
            && t.tlb == s.tlb && t.current == s.current && t.spaces == s.spaces && t.fifo == s.fifo && t.mem == s.mem
            && forall p :: 0 <= p < FRAMES ==> t.ipt[p].(dirty := false) == s.ipt[p].(dirty := false)
  {
    hide AllFit, SlotsOk, Fits;
    FitsAll(s, Propagate(s, j), flat);
    SlotsSame(s, Propagate(s, j));
  }

  /** A resident page of the current space that the TLB does not hold is put into the TLB. */
  lemma PopulateKeeps(s: Pager, flat: Flat, ppn: int)
    requires Ok(s, flat) && 0 <= ppn < FRAMES && s.ipt[ppn].valid && s.ipt[ppn].space == s.current
    requires forall j :: 0 <= j < TLB_SIZE && s.tlb[j].valid ==> s.tlb[j].ppn != ppn
    ensures var t := Populate(s, ppn);
            && Ok(t, flat) && t.current == s.current && t.spaces == s.spaces && t.fifo == s.fifo && t.mem == s.mem
            && t.tlb[s.turn].valid && t.tlb[s.turn].vpn == s.ipt[ppn].vpn && t.tlb[s.turn].ppn == ppn
  {
    hide AllFit, SlotsOk, Fits;
    PropagateKeeps(s, flat, s.turn);
    var u := Propagate(s, s.turn);
    var t := Populate(s, ppn);
    forall p | 0 <= p < FRAMES && Dirty(u, p) ensures Dirty(t, p) {
      if !u.ipt[p].dirty {
        var j :| 0 <= j < |u.tlb| && u.tlb[j].valid && u.tlb[j].dirty && u.tlb[j].ppn == p;
        assert t.tlb[j] == u.tlb[j];
      }
    }
    FitsAll(u, t, flat);
    SlotsSame(u, t);
  }

  /** SaveState loses no dirty bit. It needs nothing of the TLB. */
  lemma FlushKeeps(s: Pager, flat: Flat)
    requires Core(s, flat, -1)
    ensures Ok(Flush(s), flat)
    ensures var t := Flush(s);
            t.spaces == s.spaces && t.current == s.current && t.fifo == s.fifo && t.used == s.used
            && forall p :: 0 <= p < FRAMES ==> t.ipt[p].(dirty := false) == s.ipt[p].(dirty := false)
  {
    hide AllFit, SlotsOk, Fits;
    FitsAll(s, Flush(s), flat);
    SlotsSame(s, Flush(s));
  }
}
