/** The pager as the program it is: arrays that the handlers search and change in place. Every method
    is proved to do what the functions of Paging say. */
module PagerMachine {
  import opened Bits
  import opened Bytes
  import opened Paging

  class Machine {
    const tlb: array<TLBEntry>
    var turn: int
    const ipt: array<Frame>
    const used: BitMap // pageTableBitMap
    const mem: array<Page>
    var fifo: seq<int>
    const slots: BitMap // swapBitMap
    const swap: array<Page>
    var spaces: map<int, Space>
    var current: int

    ghost predicate Valid()
      reads this, tlb
    {
      && tlb.Length == TLB_SIZE && ipt.Length == FRAMES && mem.Length == FRAMES && swap.Length == SWAP_PAGES && mem != swap
      && used.Valid() && used.numBits == FRAMES && slots.Valid() && slots.numBits == SWAP_PAGES && used.words != slots.words
      && 0 <= turn < TLB_SIZE
      && forall j :: 0 <= j < TLB_SIZE && tlb[j].valid ==> 0 <= tlb[j].ppn < FRAMES
    }

    ghost function State(): Pager
      requires used.Valid() && slots.Valid()
      reads this, tlb, ipt, used.words, mem, slots.words, swap
    {
      Pager(tlb[..], turn, ipt[..], used.Contents(), mem[..], fifo, slots.Contents(), swap[..], spaces, current)
    }

    /** At boot. The bitmaps' memory and the pages hold anything. */
    constructor (junk: Page, usedWords: array<bv32>, slotWords: array<bv32>)
      requires usedWords.Length == (FRAMES + 31) / 32 && slotWords.Length == (SWAP_PAGES + 31) / 32 && usedWords != slotWords
      modifies usedWords, slotWords
      ensures Valid() && fresh(tlb) && fresh(ipt) && fresh(mem) && fresh(swap) && used.words == usedWords && slots.words == slotWords
      ensures State().spaces == map[] && State().fifo == [] && turn == 0
      ensures forall p :: 0 <= p < FRAMES ==> !ipt[p].valid && !State().used[p]
      ensures forall i :: 0 <= i < SWAP_PAGES ==> !State().slots[i]
      ensures forall j :: 0 <= j < TLB_SIZE ==> !tlb[j].valid
    {
      tlb := new TLBEntry[TLB_SIZE](_ => TLBEntry(-1, -1, false, false));
      ipt := new Frame[FRAMES](_ => Frame(-1, -1, -1, false, false));
      mem := new Page[FRAMES](_ => junk);
      swap := new Page[SWAP_PAGES](_ => junk);
      used := new BitMap(FRAMES, usedWords);
      slots := new BitMap(SWAP_PAGES, slotWords);
      turn, fifo, spaces, current := 0, [], map[], -1;
    }

    // ---- TLB ----

    /** propogateCurTLBDirty. */
    method PropagateDirty(j: int)
      requires Valid() && 0 <= j < TLB_SIZE
      modifies ipt
      ensures Valid() && State() == Propagate(old(State()), j)
    {
      hide Unpacked;
      if tlb[j].valid && tlb[j].dirty {
        ipt[tlb[j].ppn] := ipt[tlb[j].ppn].(dirty := true);
      }
    }

    /** populateTLBFromIPTEntry. */
    method PopulateTLB(ppn: int)
      requires Valid() && 0 <= ppn < FRAMES && (ipt[ppn].valid ==> 0 <= ipt[ppn].ppn < FRAMES)
      modifies this`turn, tlb, ipt
      ensures Valid() && State() == Populate(old(State()), ppn)
    {
      hide Unpacked;
      PropagateDirty(turn);
      var f := ipt[ppn];
      tlb[turn] := TLBEntry(f.vpn, f.ppn, f.valid, f.dirty);
      turn := (turn + 1) % TLB_SIZE;
    }

    /** AddrSpace::SaveState. */
    method SaveState()
      requires Valid()
      modifies tlb, ipt
      ensures Valid() && State() == Flush(old(State()))
    {
      hide Unpacked;
      ghost var was := tlb[..];
      for j := 0 to TLB_SIZE
        invariant Valid()
        invariant forall k :: 0 <= k < TLB_SIZE ==> tlb[k] == if k < j then was[k].(valid := false) else was[k]
        invariant forall p :: 0 <= p < FRAMES ==> ipt[p] == old(ipt[p]).(dirty := old(ipt[p]).dirty || DirtyInTLB(was[..j], p))
      {
        ghost var before := ipt[..];
        if tlb[j].valid && tlb[j].dirty {
          ipt[tlb[j].ppn] := ipt[tlb[j].ppn].(dirty := true);
        }
        tlb[j] := tlb[j].(valid := false);
        forall p | 0 <= p < FRAMES
          ensures DirtyInTLB(was[..j + 1], p) == (DirtyInTLB(was[..j], p) || (was[j].valid && was[j].dirty && was[j].ppn == p))
        {
          DirtyUpTo(was, j, p);
        }
      }
      assert was[..TLB_SIZE] == was;
      assert ipt[..] == Flush(old(State())).ipt;
      assert tlb[..] == Flush(old(State())).tlb;
    }

    // ---- eviction ----

    /** removePageFromFIFOQ. */
    method RemoveFromQueue(ppn: int)
      modifies this`fifo
      ensures fifo == RemoveFirst(old(fifo), ppn)
    {
      hide Unpacked;
      var i := 0;
      while i < |fifo|
        invariant 0 <= i <= |fifo| && fifo == old(fifo)
        invariant RemoveFirst(fifo, ppn) == fifo[..i] + RemoveFirst(fifo[i..], ppn)
      {
        if fifo[i] == ppn {
          assert fifo[i..][1..] == fifo[i + 1..];
          fifo := fifo[..i] + fifo[i + 1..];
          return;
        }
        assert fifo[i..][1..] == fifo[i + 1..];
        assert fifo[..i] + ([fifo[i]] + RemoveFirst(fifo[i + 1..], ppn)) == fifo[..i + 1] + RemoveFirst(fifo[i + 1..], ppn);
        i := i + 1;
      }
    }

    /** The TLB loop of handleMemoryFull. */
    method UnmapFrame(ppn: int)
      requires Valid() && 0 <= ppn < FRAMES
      modifies tlb, ipt
      ensures Valid() && State() == Unmap(old(State()), ppn)
    {
      hide Unpacked;
      var j := 0;
      while j < TLB_SIZE
        invariant 0 <= j <= TLB_SIZE && Valid() && State() == old(State())
        invariant FirstMapping(tlb[..], ppn, 0) == FirstMapping(tlb[..], ppn, j)
      {
        if tlb[j].valid && tlb[j].ppn == ppn {
          if tlb[j].dirty { ipt[ppn] := ipt[ppn].(dirty := true); }
          tlb[j] := tlb[j].(valid := false);
          return;
        }
        j := j + 1;
      }
    }

    method PutPage(space: int, vpn: int, e: PageEntry)
      requires Valid() && HasPage(State(), space, vpn)
      modifies this`spaces
      ensures Valid() && State() == SetPage(old(State()), space, vpn, e)
    {
      hide Unpacked;
      var s := spaces[space];
      spaces := spaces[space := s.(pages := s.pages[vpn := e])];
    }

    /** handleMemoryFull after the TLB loop. */
    method SaveFrame(ppn: int) returns (ok: bool)
      requires Valid() && 0 <= ppn < FRAMES && HasPage(State(), ipt[ppn].space, ipt[ppn].vpn)
      modifies this`spaces, this`fifo, ipt, slots.words, swap
      ensures Valid()
      ensures match Save(old(State()), ppn) case None => !ok case Some(t) => ok && State() == t
    {
      hide Unpacked;
      var f := ipt[ppn];
      var e := spaces[f.space].pages[f.vpn];
      if f.dirty && f.valid {
        var slot := slots.Find();
        if slot == -1 { return false; }
        swap[slot] := mem[ppn];
        PutPage(f.space, f.vpn, e.(location := SWAP, byteOffset := slot * PAGE_SIZE, dirty := true));
      } else {
        PutPage(f.space, f.vpn, e.(location := EXEC));
      }
      ipt[ppn] := f.(valid := false);
      RemoveFromQueue(ppn);
      return true;
    }

    /** BitMap::Find on pageTableBitMap, or else handleMemoryFull. */
    method FindOrEvict(policy: Policy) returns (ok: bool, ppn: int)
      requires Valid()
      modifies this`spaces, this`fifo, used.words, tlb, ipt, slots.words, swap
      ensures Valid()
      ensures match TakeFrame(old(State()), policy) case None => !ok case Some(r) => ok && ppn == r.1 && State() == r.0
    {
      hide Unpacked, Save, Unmap;
      ppn := used.Find();
      if ppn != -1 { return true, ppn; }
      match policy {
        case Fifo =>
          if |fifo| == 0 { return false, -1; }
          ppn := fifo[0];
        case Random(r) => ppn := r;
      }
      if !(0 <= ppn < FRAMES) || !ipt[ppn].valid { return false, -1; }
      UnmapFrame(ppn);
      if ipt[ppn].space !in spaces || !(0 <= ipt[ppn].vpn < |spaces[ipt[ppn].space].pages|) { return false, -1; }
      ok := SaveFrame(ppn);
    }

    // ---- loading ----

    /** OpenFile::ReadAt of one page. */
    static method ReadPage(exec: seq<Byte>, offset: int, buffer: Page, junk: Page) returns (page: Page)
      ensures page == ReadExec(exec, offset, buffer, junk)
    {
      if offset < 0 { return junk; }
      var bytes: seq<Byte> := buffer;
      var k := 0;
      while k < PAGE_SIZE && offset + k < |exec|
        invariant 0 <= k <= PAGE_SIZE && |bytes| == PAGE_SIZE && (k > 0 ==> offset + k <= |exec|)
        invariant forall i :: 0 <= i < PAGE_SIZE ==> bytes[i] == if i < k then exec[offset + i] else buffer[i]
      {
        bytes := bytes[k := exec[offset + k]];
        k := k + 1;
      }
      page := bytes;
      assert page == ReadExec(exec, offset, buffer, junk);
    }

    /** handleIPTmiss once the frame is found. */
    method LoadPage(vpn: int, ppn: int, junk: Page)
      requires Valid() && 0 <= ppn < FRAMES && CanLoad(State(), vpn)
      modifies this`spaces, this`fifo, ipt, slots.words, mem
      ensures Valid() && State() == Load(old(State()), vpn, ppn, junk)
    {
      hide Unpacked;
      var e := spaces[current].pages[vpn];
      if e.location.EXEC? {
        mem[ppn] := ReadPage(spaces[current].exec, e.byteOffset, mem[ppn], junk);
      } else if e.location.SWAP? {
        var slot := e.byteOffset / PAGE_SIZE;
        slots.Clear(slot);
        mem[ppn] := swap[slot];
      }
      PutPage(current, vpn, e.(ppn := ppn, valid := true, location := MAIN));
      ipt[ppn] := Frame(current, vpn, ppn, true, e.dirty);
      fifo := fifo + [ppn];
    }

    /** handleIPTmiss. */
    method IPTMiss(vpn: int, policy: Policy, junk: Page) returns (ok: bool, ppn: int)
      requires Valid()
      modifies this`spaces, this`fifo, used.words, tlb, ipt, slots.words, swap, mem
      ensures Valid()
      ensures match HandleIPTMiss(old(State()), vpn, policy, junk) case None => !ok case Some(r) => ok && ppn == r.1 && State() == r.0
    {
      hide Unpacked, TakeFrame, Load;
      ok, ppn := FindOrEvict(policy);
      if !ok { return; }
      if !(0 <= ppn < FRAMES) || current !in spaces || !(0 <= vpn < |spaces[current].pages|) { return false, -1; }
      var e := spaces[current].pages[vpn];
      if e.location.SWAP? && !(0 <= e.byteOffset / PAGE_SIZE < SWAP_PAGES) { return false, -1; }
      LoadPage(vpn, ppn, junk);
    }

    /** handleTLBMiss. */
    method TLBMiss(vpn: int, policy: Policy, junk: Page) returns (ok: bool)
      requires Valid() && FramesSelf()
      modifies this`spaces, this`fifo, this`turn, used.words, tlb, ipt, slots.words, swap, mem
      ensures Valid()
      ensures match HandleTLBMiss(old(State()), vpn, policy, junk) case None => !ok case Some(t) => ok && State() == t
    {
      hide Unpacked, TakeFrame, Load, HandleIPTMiss, Populate;
      var ppn := 0;
      while ppn < FRAMES && !(ipt[ppn].valid && ipt[ppn].space == current && ipt[ppn].vpn == vpn)
        invariant 0 <= ppn <= FRAMES
        invariant FindFrame(ipt[..], current, vpn, 0) == FindFrame(ipt[..], current, vpn, ppn)
      {
        ppn := ppn + 1;
      }
      ok := true;
      if ppn == FRAMES {
        ghost var was := State();
        ok, ppn := IPTMiss(vpn, policy, junk);
        if !ok { return; }
        MissLoads(was, vpn, policy, junk);
      }
      PopulateTLB(ppn);
    }

    /** Every valid entry of the inverted page table says its own number. */
    ghost predicate FramesSelf()
      reads this, ipt
    {
      ipt.Length == FRAMES && forall p :: 0 <= p < FRAMES && ipt[p].valid ==> ipt[p].ppn == p
    }

    // ---- user accesses ----

    /** Machine::Translate. */
    method TranslateHere(va: nat, size: int, writing: bool) returns (outcome: Outcome)
      requires Valid() && size in {1, 2, 4}
      modifies tlb
      ensures Valid() && (State(), outcome) == Translate(old(State()), va, size, writing)
    {
      hide Unpacked;
      if va % size != 0 { return AddressError; }
      var vpn := va / PAGE_SIZE;
      var j := 0;
      while j < TLB_SIZE && !(tlb[j].valid && tlb[j].vpn == vpn)
        invariant 0 <= j <= TLB_SIZE && FirstMatch(tlb[..], vpn, 0) == FirstMatch(tlb[..], vpn, j)
      {
        j := j + 1;
      }
      if j == TLB_SIZE { return PageFault; }
      if !(0 <= tlb[j].ppn < FRAMES) { return BusError; }
      if writing { tlb[j] := tlb[j].(dirty := true); }
      assert !writing ==> tlb[..][j := tlb[j].(dirty := tlb[j].dirty || writing)] == tlb[..];
      return Done(tlb[j].ppn * PAGE_SIZE + va % PAGE_SIZE);
    }

    /** Machine::ReadMem. */
    method Read(va: nat, size: int) returns (outcome: Outcome, value: int)
      requires Valid() && size in {1, 2, 4}
      modifies tlb
      ensures Valid() && (State(), outcome, value) == ReadMem(old(State()), va, size)
    {
      hide Unpacked;
      value := 0;
      outcome := TranslateHere(va, size, false);
      if outcome.Done? {
        InsidePage(va, size);
        value := Assemble(BytesAt(mem[..], outcome.pa, size));
      }
    }

    /** Machine::WriteMem. */
    method Write(va: nat, size: int, value: int) returns (outcome: Outcome)
      requires Valid() && size in {1, 2, 4}
      modifies tlb, mem
      ensures Valid() && (State(), outcome) == WriteMem(old(State()), va, size, value)
    {
      hide Unpacked;
      outcome := TranslateHere(va, size, true);
      if outcome.Done? {
        InsidePage(va, size);
        var ppn := outcome.pa / PAGE_SIZE;
        mem[ppn] := Patch(mem[ppn], outcome.pa % PAGE_SIZE, BytesOf(value, size));
      }
    }

    // ---- address spaces ----

    /** The page-table loop of the AddrSpace constructor. */
    method CreateSpace(id: int, exec: seq<Byte>, own: nat, start: nat)
      requires Valid()
      modifies this`spaces
      ensures Valid() && State() == old(State()).(spaces := old(spaces)[id := NewSpace(exec, own, start)])
    {
      hide Unpacked;
      var pages := [];
      var n := own + STACK_PAGES;
      for i := 0 to n
        invariant |pages| == i && forall k :: 0 <= k < i ==> pages[k] == NewPage(own, start, k)
      {
        if i < own {
          pages := pages + [PageEntry(-1, false, false, EXEC, start + i * PAGE_SIZE)];
        } else {
          pages := pages + [PageEntry(-1, false, false, VOID, -1)];
        }
      }
      assert pages == NewSpace(exec, own, start).pages;
      spaces := spaces[id := Space(pages, exec, own, start)];
    }

    /** AddrSpace::Fork: copy the old table, then append eight stack pages. */
    method Fork(offsets: seq<int>)
      requires Valid() && current in spaces && |offsets| == STACK_PAGES
      modifies this`spaces
      ensures Valid() && State() == old(State()).(spaces := old(spaces)[current := Grow(old(spaces)[current], offsets)])
    {
      hide Unpacked;
      var space := spaces[current];
      var pages := [];
      for i := 0 to |space.pages|
        invariant pages == space.pages[..i]
      {
        pages := pages + [space.pages[i]];
      }
      for i := 0 to STACK_PAGES
        invariant |pages| == |space.pages| + i && pages[..|space.pages|] == space.pages
        invariant forall k :: 0 <= k < i ==> pages[|space.pages| + k] == PageEntry(-1, false, false, VOID, offsets[k])
      {
        pages := pages + [PageEntry(-1, false, false, VOID, offsets[i])];
      }
      assert pages == Grow(space, offsets).pages;
      spaces := spaces[current := space.(pages := pages)];
    }

    /** What ~AddrSpace and Exit do to one page, with the queue already searched. */
    method FreePage(space: int, vpn: int, queue: seq<int>)
      requires Valid() && HasPage(State(), space, vpn)
      modifies this`spaces, this`fifo, used.words, ipt, slots.words
      ensures Valid() && State() == Release(old(State()), space, vpn, queue)
    {
      hide Unpacked;
      var e := spaces[space].pages[vpn];
      if e.valid {
        if e.location.MAIN? && 0 <= e.ppn < FRAMES {
          used.Clear(e.ppn);
          fifo := queue;
          ipt[e.ppn] := ipt[e.ppn].(valid := false);
        } else if e.location.SWAP? && 0 <= e.byteOffset / PAGE_SIZE < SWAP_PAGES {
          slots.Clear(e.byteOffset / PAGE_SIZE);
        }
        PutPage(space, vpn, e.(valid := false));
      }
    }

    /** AddrSpace::Exit for a thread whose stack is these pages. */
    method ExitThread(vpns: seq<int>)
      requires Valid()
      modifies this`spaces, this`fifo, used.words, ipt, slots.words, tlb
      ensures Valid() && State() == Flush(ExitLoop(old(State()), vpns))
    {
      hide Unpacked, Release, Flush;
      var i := 0;
      while i < |vpns|
        invariant 0 <= i <= |vpns| && Valid()
        invariant ExitLoop(State(), vpns[i..]) == ExitLoop(old(State()), vpns)
      {
        assert vpns[i..][0] == vpns[i] && vpns[i..][1..] == vpns[i + 1..];
        var vpn := vpns[i];
        if current !in spaces || !(0 <= vpn < |spaces[current].pages|) { break; }
        ghost var was := State();
        var ppn := spaces[current].pages[vpn].ppn;
        var queue := Removed(fifo, ppn);
        FreePage(current, vpn, queue);
        if current !in spaces || !(0 <= vpn < |spaces[current].pages|) { break; }
        PutPage(current, vpn, spaces[current].pages[vpn].(ppn := -1));
        i := i + 1;
      }
      SaveState();
    }

    /** The search of FIFOList in Exit. */
    static method Removed(queue: seq<int>, ppn: int) returns (rest: seq<int>)
      ensures rest == RemoveFirst(queue, ppn)
    {
      var i := 0;
      while i < |queue|
        invariant 0 <= i <= |queue| && RemoveFirst(queue, ppn) == queue[..i] + RemoveFirst(queue[i..], ppn)
      {
        assert queue[i..][1..] == queue[i + 1..];
        if queue[i] == ppn { return queue[..i] + queue[i + 1..]; }
        assert queue[..i] + ([queue[i]] + RemoveFirst(queue[i + 1..], ppn)) == queue[..i + 1] + RemoveFirst(queue[i + 1..], ppn);
        i := i + 1;
      }
      return queue;
    }

    /** The search of FIFOList in ~AddrSpace, with its index. */
    static method ErasedAsWritten(queue: seq<int>, pages: seq<PageEntry>, beyond: int -> int) returns (rest: seq<int>)
      ensures rest == EraseByIndex(queue, pages, beyond, 0)
    {
      var ii := 0;
      while ii < |queue|
        invariant 0 <= ii <= |queue| && EraseByIndex(queue, pages, beyond, 0) == EraseByIndex(queue, pages, beyond, ii)
      {
        var compared := if ii < |pages| then pages[ii].ppn else beyond(ii);
        if queue[ii] == compared { return queue[..ii] + queue[ii + 1..]; }
        ii := ii + 1;
      }
      return queue;
    }

    /** ~AddrSpace. */
    method RemoveSpace(space: int, beyond: int -> int)
      requires Valid() && space in spaces
      modifies this`spaces, this`fifo, used.words, ipt, slots.words, tlb
      ensures Valid() && State() == Destroy(old(State()), space, AsWritten(beyond))
    {
      hide Unpacked, Release, Flush;
      var n := |spaces[space].pages|;
      var i := 0;
      while i < n && space in spaces && i < |spaces[space].pages|
        invariant 0 <= i <= n && Valid()
        invariant DestroyLoop(State(), space, i, n, AsWritten(beyond)) == DestroyLoop(old(State()), space, 0, n, AsWritten(beyond))
      {
        var queue := ErasedAsWritten(fifo, spaces[space].pages, beyond);
        FreePage(space, i, queue);
        i := i + 1;
      }
      SaveState();
      spaces := spaces - {space};
    }

    /** A context switch: the old thread's SaveState, then the new thread's space. */
    method SwitchTo(space: int)
      requires Valid()
      modifies this`current, tlb, ipt
      ensures Valid() && State() == Flush(old(State())).(current := space)
    {
      hide Unpacked;
      SaveState();
      current := space;
    }
  }

  lemma DirtyUpTo(tlb: seq<TLBEntry>, j: nat, p: int)
    requires j < |tlb|
    ensures DirtyInTLB(tlb[..j + 1], p) == (DirtyInTLB(tlb[..j], p) || (tlb[j].valid && tlb[j].dirty && tlb[j].ppn == p))
  {
    if DirtyInTLB(tlb[..j], p) {
      var k :| 0 <= k < j && tlb[..j][k].valid && tlb[..j][k].dirty && tlb[..j][k].ppn == p;
      assert tlb[..j + 1][k] == tlb[..j][k];
    }
    if tlb[j].valid && tlb[j].dirty && tlb[j].ppn == p { assert tlb[..j + 1][j] == tlb[j]; }
    if DirtyInTLB(tlb[..j + 1], p) {
      var k :| 0 <= k < j + 1 && tlb[..j + 1][k].valid && tlb[..j + 1][k].dirty && tlb[..j + 1][k].ppn == p;
      if k < j { assert tlb[..j][k] == tlb[..j + 1][k]; }
    }
  }

  lemma MissLoads(s: Pager, vpn: int, policy: Policy, junk: Page)
    requires Shape(s) && HandleIPTMiss(s, vpn, policy, junk).Some?
    ensures var (t, q) := HandleIPTMiss(s, vpn, policy, junk).value;
            0 <= q < FRAMES && |t.ipt| == FRAMES && t.ipt[q].ppn == q
  {
  }
}
