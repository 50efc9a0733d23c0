/** Reads see the flat memory and writes change it, a word at a time. */
module Accesses {
  import opened Options
  import opened Bytes
  import opened Paging
  import opened FlatMemory

  function PatchSpec(spec: Spec, offset: nat, bytes: seq<Byte>): (r: Spec)
    requires offset + |bytes| <= PAGE_SIZE
  {
    seq(PAGE_SIZE, k requires 0 <= k < PAGE_SIZE => if offset <= k < offset + |bytes| then Some(bytes[k - offset]) else spec[k])
  }

  /** The flat memory after a write. */
  function Written(flat: Flat, space: int, va: nat, bytes: seq<Byte>): Flat
    requires space in flat && va / PAGE_SIZE < |flat[space]| && va % PAGE_SIZE + |bytes| <= PAGE_SIZE
  {
    var page: Spec := PatchSpec(flat[space][va / PAGE_SIZE], va % PAGE_SIZE, bytes);
    var pages: seq<Spec> := flat[space][va / PAGE_SIZE := page];
    flat[space := pages]
  }

  /** The value is made of bytes as the machine makes it, and every one of them that the flat memory fixes
      is what is there. */
  predicate Reads(spec: Spec, offset: nat, size: int, value: int)
    requires size in {1, 2, 4} && offset + size <= PAGE_SIZE
  {
    && value == Assemble(BytesOf(value, size))
    && forall k :: 0 <= k < size && spec[offset + k].Some? ==> BytesOf(value, size)[k] == spec[offset + k].value
  }

  /** A valid TLB entry leads to the frame that holds the page. */
  lemma Mapped(s: Pager, flat: Flat, j: int)
    requires Ok(s, flat) && 0 <= j < TLB_SIZE && s.tlb[j].valid
    ensures var ppn := s.tlb[j].ppn;
            && HasPage(s, s.current, s.tlb[j].vpn) && Agrees(s.mem[ppn], flat[s.current][s.tlb[j].vpn])
            && PageOf(s, s.current, s.tlb[j].vpn).ppn == ppn
            && PageOf(s, s.current, s.tlb[j].vpn).valid && PageOf(s, s.current, s.tlb[j].vpn).location.MAIN?
            && s.ipt[ppn].valid && s.ipt[ppn].space == s.current && s.ipt[ppn].vpn == s.tlb[j].vpn
  {
    hide Agrees, SlotsOk;
    var e := PageOf(s, s.current, s.tlb[j].vpn);
    assert Fits(s, s.current, s.tlb[j].vpn, e, flat[s.current][s.tlb[j].vpn]);
  }

  lemma ReadUnchanged(s: Pager, va: nat, size: int)
    requires size in {1, 2, 4}
    ensures Translate(s, va, size, false).0 == s
  {
    var j := FirstMatch(s.tlb, va / PAGE_SIZE, 0);
    if j != -1 { assert s.tlb[j := s.tlb[j]] == s.tlb; }
  }

  lemma PlaceInPage(ppn: nat, o: nat)
    requires o < PAGE_SIZE
    ensures (ppn * PAGE_SIZE + o) / PAGE_SIZE == ppn && (ppn * PAGE_SIZE + o) % PAGE_SIZE == o
  {
  }

  /** A successful read changes nothing, and every byte the flat memory fixes has its value there. */
  lemma ReadSees(s: Pager, flat: Flat, va: nat, size: int)
    requires Ok(s, flat) && size in {1, 2, 4} && ReadMem(s, va, size).1.Done?
    ensures va % PAGE_SIZE + size <= PAGE_SIZE && HasPage(s, s.current, va / PAGE_SIZE)
    ensures var (t, outcome, value) := ReadMem(s, va, size);
            var spec := flat[s.current][va / PAGE_SIZE];
            t == s && Reads(spec, va % PAGE_SIZE, size, value)
  {
    hide AllFit, SlotsOk, FramesOk, TLBOk, Fits, Assemble, BytesOf, Agrees;
    InsidePage(va, size);
    ReadUnchanged(s, va, size);
    var j := FirstMatch(s.tlb, va / PAGE_SIZE, 0);
    Mapped(s, flat, j);
    var ppn := s.tlb[j].ppn;
    var o := va % PAGE_SIZE;
    PlaceInPage(ppn, o);
    var spec := flat[s.current][va / PAGE_SIZE];
    var b := BytesAt(s.mem, ppn * PAGE_SIZE + o, size);
    BytesOfWhatWasRead(b);
    BytesFixed(s.mem[ppn], spec, o, b);
  }

  lemma BytesFixed(page: Page, spec: Spec, o: nat, b: seq<Byte>)
    requires Agrees(page, spec) && o + |b| <= PAGE_SIZE && b == page[o..o + |b|]
    ensures forall k :: 0 <= k < |b| && spec[o + k].Some? ==> b[k] == spec[o + k].value
  {
  }

  lemma PatchAgrees(page: Page, spec: Spec, offset: nat, bytes: seq<Byte>)
    requires Agrees(page, spec) && offset + |bytes| <= PAGE_SIZE
    ensures Agrees(Patch(page, offset, bytes), PatchSpec(spec, offset, bytes))
  {
  }

  /** The state a successful write leaves: one TLB entry dirty, one frame patched. */
  lemma WriteMeans(s: Pager, va: nat, size: int, value: int)
    requires size in {1, 2, 4} && Shape(s) && WriteMem(s, va, size, value).1.Done?
    ensures va % PAGE_SIZE + size <= PAGE_SIZE
    ensures var j := FirstMatch(s.tlb, va / PAGE_SIZE, 0);
            && 0 <= j < TLB_SIZE && s.tlb[j].valid && s.tlb[j].vpn == va / PAGE_SIZE && 0 <= s.tlb[j].ppn < FRAMES
            && WriteMem(s, va, size, value).0 == s.(tlb := s.tlb[j := s.tlb[j].(dirty := true)],
                 mem := s.mem[s.tlb[j].ppn := Patch(s.mem[s.tlb[j].ppn], va % PAGE_SIZE, BytesOf(value, size))])
  {
    InsidePage(va, size);
    var j := FirstMatch(s.tlb, va / PAGE_SIZE, 0);
    PlaceInPage(s.tlb[j].ppn, va % PAGE_SIZE);
  }

  lemma DirtyAfter(s: Pager, t: Pager, j: int, mem: seq<Page>)
    requires Shape(s) && 0 <= j < TLB_SIZE && s.tlb[j].valid && |mem| == FRAMES
    requires t == s.(tlb := s.tlb[j := s.tlb[j].(dirty := true)], mem := mem)
    ensures Shape(t) && Dirty(t, s.tlb[j].ppn) && forall p :: 0 <= p < FRAMES && Dirty(s, p) ==> Dirty(t, p)
  {
    assert t.tlb[j].dirty && t.tlb[j].ppn == s.tlb[j].ppn;
    forall p | 0 <= p < FRAMES && DirtyInTLB(s.tlb, p) ensures DirtyInTLB(t.tlb, p) {
      var k :| 0 <= k < |s.tlb| && s.tlb[k].valid && s.tlb[k].dirty && s.tlb[k].ppn == p;
      assert t.tlb[k].valid && t.tlb[k].dirty && t.tlb[k].ppn == p;
    }
  }

  /** Writing into one frame: its page follows the flat memory, the others do not notice. */
  lemma PatchFits(s: Pager, flat: Flat, j: int, offset: nat, bytes: seq<Byte>, t: Pager, p: int, v: int)
    requires Ok(s, flat) && 0 <= j < TLB_SIZE && s.tlb[j].valid && offset + |bytes| <= PAGE_SIZE
    requires t == s.(tlb := s.tlb[j := s.tlb[j].(dirty := true)], mem := s.mem[s.tlb[j].ppn := Patch(s.mem[s.tlb[j].ppn], offset, bytes)])
    requires HasPage(s, p, v)
    ensures Shape(t)
    ensures Fits(t, p, v, PageOf(t, p, v),
                 if p == s.current && v == s.tlb[j].vpn then PatchSpec(flat[p][v], offset, bytes) else flat[p][v])
  {
    hide Agrees, Untouched, SlotsOk, Dirty;
    Mapped(s, flat, j);
    DirtyAfter(s, t, j, t.mem);
    var e := PageOf(s, p, v);
    assert Fits(s, p, v, e, flat[p][v]);
    if p == s.current && v == s.tlb[j].vpn {
      PatchAgrees(s.mem[s.tlb[j].ppn], flat[p][v], offset, bytes);
    } else {
      FitsStays(s, t, p, v, e, flat[p][v]);
    }
  }

  /** A successful write is the flat write. */
  lemma WriteKeeps(s: Pager, flat: Flat, va: nat, size: int, value: int)
    requires Ok(s, flat) && size in {1, 2, 4} && WriteMem(s, va, size, value).1.Done?
    ensures va % PAGE_SIZE + size <= PAGE_SIZE && HasPage(s, s.current, va / PAGE_SIZE)
    ensures Ok(WriteMem(s, va, size, value).0, Written(flat, s.current, va, BytesOf(value, size)))
  {
    hide Fits, SlotsOk, PatchSpec, Patch, BytesOf, WriteMem, AllFit;
    WriteMeans(s, va, size, value);
    var j := FirstMatch(s.tlb, va / PAGE_SIZE, 0);
    var t := WriteMem(s, va, size, value).0;
    Mapped(s, flat, j);
    WrittenFits(s, flat, va, size, value);
    SlotsSame(s, t);
    assert forall k :: 0 <= k < TLB_SIZE ==> t.tlb[k].(dirty := false) == s.tlb[k].(dirty := false);
  }

  lemma WrittenFits(s: Pager, flat: Flat, va: nat, size: int, value: int)
    requires Ok(s, flat) && size in {1, 2, 4} && WriteMem(s, va, size, value).1.Done?
    ensures va % PAGE_SIZE + size <= PAGE_SIZE && HasPage(s, s.current, va / PAGE_SIZE)
    ensures var t := WriteMem(s, va, size, value).0;
            var next := Written(flat, s.current, va, BytesOf(value, size));
            Shape(t) && SameShape(t, next) && AllFit(t, next)
  {
    hide Fits, SlotsOk, PatchSpec, Patch, BytesOf, WriteMem, FramesOk, TLBOk;
    WriteMeans(s, va, size, value);
    var j := FirstMatch(s.tlb, va / PAGE_SIZE, 0);
    var t := WriteMem(s, va, size, value).0;
    Mapped(s, flat, j);
    var next := Written(flat, s.current, va, BytesOf(value, size));
    DirtyAfter(s, t, j, t.mem);
    forall p, v | HasPage(t, p, v) ensures Fits(t, p, v, PageOf(t, p, v), next[p][v]) {
      assert HasPage(s, p, v);
      PatchFits(s, flat, j, va % PAGE_SIZE, BytesOf(value, size), t, p, v);
    }
  }
}
