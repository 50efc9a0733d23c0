/** Demand paging as functions from state to state: the TLB, the inverted page table, the frames,
    the swap file and the address spaces, and what each fault handler and each address-space
    operation does to them. Handlers run with interrupts off, so each is one step. */
module Paging {
  import opened Options
  import opened Bits
  import opened Bytes

  const PAGE_SIZE := 128
  const FRAMES := 32      // NumPhysPages
  const TLB_SIZE := 4
  const SWAP_PAGES := 512 // NumSwapPages
  const STACK_PAGES := 8  // UserStackSize / PageSize

  type Page = p: seq<Byte> | |p| == PAGE_SIZE witness seq(PAGE_SIZE, i => 0)

  datatype Location = EXEC | SWAP | MAIN | VOID

  /** `valid` means: has been loaded at some time, and has not been given up by an exiting thread. */
  datatype PageEntry = PageEntry(ppn: int, valid: bool, dirty: bool, location: Location, byteOffset: int)

  datatype TLBEntry = TLBEntry(vpn: int, ppn: int, valid: bool, dirty: bool)

  /** An entry of the inverted page table; `space` is its PID. */
  datatype Frame = Frame(space: int, vpn: int, ppn: int, valid: bool, dirty: bool)

  /** The first `own` pages are code and data and start in the executable at `start`; the rest is
      stack. */
  datatype Space = Space(pages: seq<PageEntry>, exec: seq<Byte>, own: nat, start: nat)

  datatype Pager = Pager(
    tlb: seq<TLBEntry>, turn: int,                               // machine->tlb, currentTLB
    ipt: seq<Frame>, used: seq<bool>, mem: seq<Page>,            // IPT, pageTableBitMap, mainMemory
    fifo: seq<int>,                                              // FIFOList
    slots: seq<bool>, swap: seq<Page>,                           // swapBitMap, swapFile
    spaces: map<int, Space>, current: int)

  /** The fixed sizes, and that the TLB points into memory. */
  predicate Shape(s: Pager) {
    && |s.tlb| == TLB_SIZE && 0 <= s.turn < TLB_SIZE
    && |s.ipt| == FRAMES && |s.used| == FRAMES && |s.mem| == FRAMES
    && |s.slots| == SWAP_PAGES && |s.swap| == SWAP_PAGES
    && forall j :: 0 <= j < TLB_SIZE && s.tlb[j].valid ==> 0 <= s.tlb[j].ppn < FRAMES
  }

  predicate HasPage(s: Pager, space: int, vpn: int) {
    space in s.spaces && 0 <= vpn < |s.spaces[space].pages|
  }

  function PageOf(s: Pager, space: int, vpn: int): PageEntry
    requires HasPage(s, space, vpn)
  {
    s.spaces[space].pages[vpn]
  }

  function SetPage(s: Pager, space: int, vpn: int, e: PageEntry): Pager
    requires HasPage(s, space, vpn)
  {
    s.(spaces := s.spaces[space := s.spaces[space].(pages := s.spaces[space].pages[vpn := e])])
  }

  function RemoveFirst(q: seq<int>, x: int): seq<int> {
    if q == [] then [] else if q[0] == x then q[1..] else [q[0]] + RemoveFirst(q[1..], x)
  }

  // ---- the TLB ----

  function FirstMatch(tlb: seq<TLBEntry>, vpn: int, i: nat): (r: int)
    requires i <= |tlb|
    ensures r == -1 || (i <= r < |tlb| && tlb[r].valid && tlb[r].vpn == vpn)
    ensures r == -1 ==> forall j :: i <= j < |tlb| && tlb[j].valid ==> tlb[j].vpn != vpn
    decreases |tlb| - i
  {
    if i == |tlb| then -1 else if tlb[i].valid && tlb[i].vpn == vpn then i else FirstMatch(tlb, vpn, i + 1)
  }

  function FirstMapping(tlb: seq<TLBEntry>, ppn: int, i: nat): (r: int)
    requires i <= |tlb|
    ensures r == -1 || (i <= r < |tlb| && tlb[r].valid && tlb[r].ppn == ppn)
    ensures r == -1 ==> forall j :: i <= j < |tlb| && tlb[j].valid ==> tlb[j].ppn != ppn
    decreases |tlb| - i
  {
    if i == |tlb| then -1 else if tlb[i].valid && tlb[i].ppn == ppn then i else FirstMapping(tlb, ppn, i + 1)
  }

  predicate DirtyInTLB(tlb: seq<TLBEntry>, ppn: int) {
    exists j :: 0 <= j < |tlb| && tlb[j].valid && tlb[j].dirty && tlb[j].ppn == ppn
  }

  /** propogateCurTLBDirty. */
  function Propagate(s: Pager, j: int): Pager
    requires Shape(s) && 0 <= j < TLB_SIZE
  {
    var t := s.tlb[j];
    if t.valid && t.dirty then s.(ipt := s.ipt[t.ppn := s.ipt[t.ppn].(dirty := true)]) else s
  }

  /** populateTLBFromIPTEntry. */
  function Populate(s: Pager, ppn: int): Pager
    requires Shape(s) && 0 <= ppn < FRAMES
  {
    var p := Propagate(s, s.turn);
    var f := p.ipt[ppn];
    p.(tlb := p.tlb[s.turn := TLBEntry(f.vpn, f.ppn, f.valid, f.dirty)], turn := (s.turn + 1) % TLB_SIZE)
  }

  /** SaveState: every dirty bit reaches the inverted page table, and the TLB is emptied. */
  function Flush(s: Pager): Pager
    requires Shape(s)
  {
    s.(ipt := seq(FRAMES, p requires 0 <= p < FRAMES => s.ipt[p].(dirty := s.ipt[p].dirty || DirtyInTLB(s.tlb, p))),
       tlb := seq(TLB_SIZE, j requires 0 <= j < TLB_SIZE => s.tlb[j].(valid := false)))
  }

  // ---- eviction ----

  datatype Policy = Fifo | Random(ppn: int)

  /** The frame to evict; None where the source has undefined behaviour or a failing ASSERT. */
  function Victim(s: Pager, policy: Policy): Option<int> {
    match policy
    case Fifo => if s.fifo == [] then None else Some(s.fifo[0])
    case Random(ppn) => Some(ppn)
  }

  /** The loop over the TLB in handleMemoryFull, which stops at the first match. */
  function Unmap(s: Pager, ppn: int): Pager
    requires Shape(s) && 0 <= ppn < FRAMES
  {
    var j := FirstMapping(s.tlb, ppn, 0);
    if j == -1 then s
    else s.(ipt := if s.tlb[j].dirty then s.ipt[ppn := s.ipt[ppn].(dirty := true)] else s.ipt,
            tlb := s.tlb[j := s.tlb[j].(valid := false)])
  }

  /** handleMemoryFull after the TLB loop; None when the swap file is full and the machine halts. */
  function Save(s: Pager, ppn: int): Option<Pager>
    requires Shape(s) && 0 <= ppn < FRAMES && HasPage(s, s.ipt[ppn].space, s.ipt[ppn].vpn)
  {
    var f := s.ipt[ppn];
    var e := PageOf(s, f.space, f.vpn);
    var out := s.(ipt := s.ipt[ppn := f.(valid := false)], fifo := RemoveFirst(s.fifo, ppn));
    if f.dirty && f.valid then
      var slot := FirstClear(s.slots, 0);
      if slot == -1 then None
      else Some(SetPage(out, f.space, f.vpn, e.(location := SWAP, byteOffset := slot * PAGE_SIZE, dirty := true))
                  .(slots := s.slots[slot := true], swap := s.swap[slot := s.mem[ppn]]))
    else Some(SetPage(out, f.space, f.vpn, e.(location := EXEC)))
  }

  // ---- loading ----

  /** ReadAt of one page: bytes past the end of the file leave the buffer alone. A negative offset
      (a clean stack page that was evicted) reads unspecified bytes. */
  function ReadExec(exec: seq<Byte>, offset: int, buffer: Page, junk: Page): (r: Page) {
    if offset < 0 then junk
    else seq(PAGE_SIZE, k requires 0 <= k < PAGE_SIZE => if offset + k < |exec| then exec[offset + k] else buffer[k])
  }

  function Slot(e: PageEntry): int { e.byteOffset / PAGE_SIZE }

  /** handleIPTmiss once a frame is found. */
  function Load(s: Pager, vpn: int, ppn: int, junk: Page): Pager
    requires Shape(s) && 0 <= ppn < FRAMES && HasPage(s, s.current, vpn)
    requires PageOf(s, s.current, vpn).location.SWAP? ==> 0 <= Slot(PageOf(s, s.current, vpn)) < SWAP_PAGES
  {
    var space := s.spaces[s.current];
    var e := PageOf(s, s.current, vpn);
    var content := if e.location.EXEC? then ReadExec(space.exec, e.byteOffset, s.mem[ppn], junk)
                   else if e.location.SWAP? then s.swap[Slot(e)]
                   else s.mem[ppn];
    SetPage(s, s.current, vpn, e.(ppn := ppn, valid := true, location := MAIN))
      .(mem := s.mem[ppn := content],
        slots := if e.location.SWAP? then s.slots[Slot(e) := false] else s.slots,
        ipt := s.ipt[ppn := Frame(s.current, vpn, ppn, true, e.dirty)],
        fifo := s.fifo + [ppn])
  }

  function FindFrame(ipt: seq<Frame>, space: int, vpn: int, i: nat): (r: int)
    requires i <= |ipt|
    ensures r == -1 || (i <= r < |ipt| && ipt[r].valid && ipt[r].space == space && ipt[r].vpn == vpn)
    ensures r == -1 ==> forall j :: i <= j < |ipt| && ipt[j].valid ==> ipt[j].space != space || ipt[j].vpn != vpn
    decreases |ipt| - i
  {
    if i == |ipt| then -1
    else if ipt[i].valid && ipt[i].space == space && ipt[i].vpn == vpn then i
    else FindFrame(ipt, space, vpn, i + 1)
  }

  predicate CanLoad(s: Pager, vpn: int) {
    && HasPage(s, s.current, vpn)
    && (PageOf(s, s.current, vpn).location.SWAP? ==> 0 <= Slot(PageOf(s, s.current, vpn)) < SWAP_PAGES)
  }

  /** A free frame, or one whose page is evicted. None where the source stops the machine or has
      no meaning. */
  function TakeFrame(s: Pager, policy: Policy): Option<(Pager, int)>
    requires Shape(s)
  {
    var free := FirstClear(s.used, 0);
    if free != -1 then Some((s.(used := s.used[free := true]), free))
    else
      match Victim(s, policy)
      case None => None
      case Some(ppn) =>
        if !(0 <= ppn < FRAMES) || !s.ipt[ppn].valid then None
        else
          var u := Unmap(s, ppn);
          if !HasPage(u, u.ipt[ppn].space, u.ipt[ppn].vpn) then None
          else
            match Save(u, ppn)
            case None => None
            case Some(t) => Some((t, ppn))
  }

  function HandleIPTMiss(s: Pager, vpn: int, policy: Policy, junk: Page): Option<(Pager, int)>
    requires Shape(s)
  {
    match TakeFrame(s, policy)
    case None => None
    case Some((t, ppn)) =>
      if 0 <= ppn < FRAMES && Shape(t) && CanLoad(t, vpn) then Some((Load(t, vpn, ppn, junk), ppn)) else None
  }

  function HandleTLBMiss(s: Pager, vpn: int, policy: Policy, junk: Page): Option<Pager>
    requires Shape(s)
  {
    var ppn := FindFrame(s.ipt, s.current, vpn, 0);
    if ppn != -1 then Some(Populate(s, ppn))
    else
      match HandleIPTMiss(s, vpn, policy, junk)
      case None => None
      case Some((t, q)) => if 0 <= q < FRAMES && Shape(t) then Some(Populate(t, q)) else None
  }

  // ---- the user's view ----

  datatype Outcome = Done(pa: int) | AddressError | PageFault | BusError

  /** Machine::Translate with a TLB. */
  function Translate(s: Pager, va: nat, size: int, writing: bool): (Pager, Outcome)
    requires size in {1, 2, 4}
  {
    var j := FirstMatch(s.tlb, va / PAGE_SIZE, 0);
    if va % size != 0 then (s, AddressError)
    else if j == -1 then (s, PageFault)
    else if !(0 <= s.tlb[j].ppn < FRAMES) then (s, BusError)
    else (s.(tlb := s.tlb[j := s.tlb[j].(dirty := s.tlb[j].dirty || writing)]), Done(s.tlb[j].ppn * PAGE_SIZE + va % PAGE_SIZE))
  }

  /** Bytes of one page of main memory. */
  function BytesAt(mem: seq<Page>, pa: nat, size: nat): seq<Byte>
    requires pa / PAGE_SIZE < |mem| && pa % PAGE_SIZE + size <= PAGE_SIZE
  {
    mem[pa / PAGE_SIZE][pa % PAGE_SIZE..pa % PAGE_SIZE + size]
  }

  function Patch(page: Page, offset: nat, bytes: seq<Byte>): Page
    requires offset + |bytes| <= PAGE_SIZE
  {
    page[..offset] + bytes + page[offset + |bytes|..]
  }

  /** An aligned access stays inside its page. */
  lemma InsidePage(va: nat, size: int)
    requires size in {1, 2, 4} && va % size == 0
    ensures va % PAGE_SIZE + size <= PAGE_SIZE
  {
    var q, o := va / PAGE_SIZE, va % PAGE_SIZE;
    if size == 2 {
      assert va == 2 * (64 * q) + o;
      assert o % 2 == 0;
    } else if size == 4 {
      assert va == 4 * (32 * q) + o;
      assert o % 4 == 0;
    }
  }

  /** Machine::ReadMem: the value when the translation succeeds. */
  function ReadMem(s: Pager, va: nat, size: int): (Pager, Outcome, int)
    requires size in {1, 2, 4} && Shape(s)
  {
    var (t, outcome) := Translate(s, va, size, false);
    if !outcome.Done? then (t, outcome, 0)
    else
      InsidePage(va, size);
      (t, outcome, Assemble(BytesAt(t.mem, outcome.pa, size)))
  }

  /** Machine::WriteMem. */
  function WriteMem(s: Pager, va: nat, size: int, value: int): (Pager, Outcome)
    requires size in {1, 2, 4} && Shape(s)
  {
    var (t, outcome) := Translate(s, va, size, true);
    if !outcome.Done? then (t, outcome)
    else
      InsidePage(va, size);
      var ppn := outcome.pa / PAGE_SIZE;
      (t.(mem := t.mem[ppn := Patch(t.mem[ppn], outcome.pa % PAGE_SIZE, BytesOf(value, size))]), outcome)
  }

  // ---- address spaces ----

  /** A page as the AddrSpace constructor sets it up. */
  function NewPage(own: nat, start: nat, vpn: nat): PageEntry {
    if vpn < own then PageEntry(-1, false, false, EXEC, start + vpn * PAGE_SIZE)
    else PageEntry(-1, false, false, VOID, -1)
  }

  function NewSpace(exec: seq<Byte>, own: nat, start: nat): Space {
    Space(seq(own + STACK_PAGES, i requires 0 <= i < own + STACK_PAGES => NewPage(own, start, i)), exec, own, start)
  }

  /** AddrSpace::Fork: eight more stack pages, whose byteOffset is not initialised. */
  function Grow(space: Space, offsets: seq<int>): Space
    requires |offsets| == STACK_PAGES
  {
    space.(pages := space.pages + seq(STACK_PAGES, i requires 0 <= i < STACK_PAGES => PageEntry(-1, false, false, VOID, offsets[i])))
  }

  /** What ~AddrSpace and Exit do to one page; `fifo` is what is left of FIFOList. BitMap::Clear
      asserts the ranges. */
  function Release(s: Pager, space: int, vpn: int, fifo: seq<int>): (t: Pager)
    requires Shape(s) && HasPage(s, space, vpn)
    ensures Shape(t)
  {
    var e := PageOf(s, space, vpn);
    if !e.valid then s
    else
      var t := SetPage(s, space, vpn, e.(valid := false));
      if e.location.MAIN? && 0 <= e.ppn < FRAMES then
        t.(used := s.used[e.ppn := false], ipt := s.ipt[e.ppn := s.ipt[e.ppn].(valid := false)], fifo := fifo)
      else if e.location.SWAP? && 0 <= Slot(e) < SWAP_PAGES then t.(slots := s.slots[Slot(e) := false])
      else t
  }

  /** ~AddrSpace compares FIFOList[ii] with the physicalPage of the page numbered ii, not of the page
      being freed; `beyond` is what it reads past the end of the page table. */
  function EraseByIndex(fifo: seq<int>, pages: seq<PageEntry>, beyond: int -> int, ii: nat): seq<int>
    requires ii <= |fifo|
    decreases |fifo| - ii
  {
    if ii == |fifo| then fifo
    else if fifo[ii] == (if ii < |pages| then pages[ii].ppn else beyond(ii)) then fifo[..ii] + fifo[ii + 1..]
    else EraseByIndex(fifo, pages, beyond, ii + 1)
  }

  datatype Eraser = Intended | AsWritten(beyond: int -> int)

  /** What freeing a page in frame ppn leaves of FIFOList. */
  function Erased(s: Pager, space: int, ppn: int, how: Eraser): seq<int>
    requires space in s.spaces
  {
    match how
    case Intended => RemoveFirst(s.fifo, ppn)
    case AsWritten(beyond) => EraseByIndex(s.fifo, s.spaces[space].pages, beyond, 0)
  }

  /** Exit marks the frame number of a page it has given up. */
  function Forget(s: Pager, space: int, vpn: int): (t: Pager)
    requires HasPage(s, space, vpn)
    ensures Shape(s) ==> Shape(t)
  {
    SetPage(s, space, vpn, PageOf(s, space, vpn).(ppn := -1))
  }

  /** AddrSpace::Exit's loop over the thread's stack pages. */
  function ExitLoop(s: Pager, vpns: seq<int>): (t: Pager)
    requires Shape(s)
    ensures Shape(t)
    decreases |vpns|
  {
    if vpns == [] || !HasPage(s, s.current, vpns[0]) then s
    else
      var freed := Release(s, s.current, vpns[0], RemoveFirst(s.fifo, PageOf(s, s.current, vpns[0]).ppn));
      if !HasPage(freed, s.current, vpns[0]) then freed else ExitLoop(Forget(freed, s.current, vpns[0]), vpns[1..])
  }

  /** ~AddrSpace's loop over the pages from vpn up to n. */
  function DestroyLoop(s: Pager, space: int, vpn: nat, n: nat, how: Eraser): (t: Pager)
    requires Shape(s)
    ensures Shape(t)
    decreases n - vpn
  {
    if vpn >= n || !HasPage(s, space, vpn) then s
    else DestroyLoop(Release(s, space, vpn, Erased(s, space, PageOf(s, space, vpn).ppn, how)), space, vpn + 1, n, how)
  }

  function Destroy(s: Pager, space: int, how: Eraser): (t: Pager)
    requires Shape(s) && space in s.spaces
  {
    var freed := DestroyLoop(s, space, 0, |s.spaces[space].pages|, how);
    var flushed := Flush(freed);
    flushed.(spaces := flushed.spaces - {space})
  }
}
