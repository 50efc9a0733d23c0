/** Setting up, growing and giving up address spaces keep the flat memory of all the others. */
module AddressSpaces {
  import opened Bytes
  import opened Paging
  import opened FlatMemory

  // ---- giving up pages ----

  lemma ReleasedPages(s: Pager, flat: Flat, space: int, vpn: int, fifo: seq<int>)
    requires Core(s, flat, -1) && HasPage(s, space, vpn)
    ensures var e := PageOf(s, space, vpn);
            e.valid ==> (e.location.MAIN? ==> 0 <= e.ppn < FRAMES) && (e.location.SWAP? ==> 0 <= Slot(e) < SWAP_PAGES)
    ensures var t := Release(s, space, vpn, fifo);
            && SameSpaces(s, t) && (forall q, w :: HasPage(t, q, w) <==> HasPage(s, q, w))
            && (forall q, w :: HasPage(s, q, w) ==>
                  PageOf(t, q, w) == if q == space && w == vpn then PageOf(s, q, w).(valid := false) else PageOf(s, q, w))
  {
    hide SetPage, Agrees, Untouched, SlotsOk;
    var e := PageOf(s, space, vpn);
    assert Fits(s, space, vpn, e, flat[space][vpn]);
    SetPageGet(s, space, vpn, e.(valid := false));
    var u := SetPage(s, space, vpn, e.(valid := false));
    assert e.valid ==> Release(s, space, vpn, fifo).spaces == u.spaces;
    assert forall q, w :: HasPage(s, q, w) && e.valid ==> PageOf(Release(s, space, vpn, fifo), q, w) == PageOf(u, q, w);
  }

  lemma ReleasedRest(s: Pager, flat: Flat, space: int, vpn: int, fifo: seq<int>)
    requires Core(s, flat, -1) && HasPage(s, space, vpn)
    requires var e := PageOf(s, space, vpn);
             e.valid ==> (e.location.MAIN? ==> 0 <= e.ppn < FRAMES) && (e.location.SWAP? ==> 0 <= Slot(e) < SWAP_PAGES)
    ensures var e := PageOf(s, space, vpn);
            var t := Release(s, space, vpn, fifo);
            && Shape(t) && t.tlb == s.tlb && t.turn == s.turn && t.mem == s.mem && t.swap == s.swap && t.current == s.current
            && t.used == (if e.valid && e.location.MAIN? then s.used[e.ppn := false] else s.used)
            && t.ipt == (if e.valid && e.location.MAIN? then s.ipt[e.ppn := s.ipt[e.ppn].(valid := false)] else s.ipt)
            && t.slots == (if e.valid && e.location.SWAP? then s.slots[Slot(e) := false] else s.slots)
            && t.fifo == (if e.valid && e.location.MAIN? then fifo else s.fifo)
  {
  }

  lemma ReleasedFits(s: Pager, flat: Flat, space: int, vpn: int, fifo: seq<int>, p: int, v: int)
    requires Core(s, flat, -1) && HasPage(s, space, vpn) && HasPage(s, p, v)
    requires var e := PageOf(s, space, vpn);
             e.valid ==> (e.location.MAIN? ==> 0 <= e.ppn < FRAMES) && (e.location.SWAP? ==> 0 <= Slot(e) < SWAP_PAGES)
    ensures var t := Release(s, space, vpn, fifo);
            Shape(t) && HasPage(t, p, v) && Fits(t, p, v, PageOf(t, p, v), flat[p][v])
  {
    hide SetPage, Agrees, Untouched, Release;
    ReleasedPages(s, flat, space, vpn, fifo);
    ReleasedRest(s, flat, space, vpn, fifo);
    var t := Release(s, space, vpn, fifo);
    var mine := PageOf(s, space, vpn);
    var e := PageOf(s, p, v);
    assert Fits(s, p, v, e, flat[p][v]);
    assert Fits(s, space, vpn, mine, flat[space][vpn]);
    if p != space || v != vpn {
      assert InSlot(s, p, v, Slot(e)) && mine.valid && mine.location.SWAP? && Slot(mine) == Slot(e) ==> InSlot(s, space, vpn, Slot(e));
      FitsStays(s, t, p, v, e, flat[p][v]);
    }
  }

  lemma ReleasedSlots(s: Pager, flat: Flat, space: int, vpn: int, fifo: seq<int>)
    requires Core(s, flat, -1) && HasPage(s, space, vpn)
    requires var e := PageOf(s, space, vpn);
             e.valid ==> (e.location.MAIN? ==> 0 <= e.ppn < FRAMES) && (e.location.SWAP? ==> 0 <= Slot(e) < SWAP_PAGES)
    ensures var t := Release(s, space, vpn, fifo); Shape(t) && SlotsOk(t)
  {
    hide SetPage, Agrees, Untouched, Release, AllFit, Fits;
    ReleasedPages(s, flat, space, vpn, fifo);
    ReleasedRest(s, flat, space, vpn, fifo);
    var t := Release(s, space, vpn, fifo);
    var e := PageOf(s, space, vpn);
    assert forall i, p, v :: (p != space || v != vpn) ==> InSlot(t, p, v, i) == InSlot(s, p, v, i);
    assert forall i :: !InSlot(t, space, vpn, i);
    assert forall i :: InSlot(s, space, vpn, i) <==> e.valid && e.location.SWAP? && i == Slot(e);
    forall i | 0 <= i < SWAP_PAGES && t.slots[i] ensures exists p, v :: InSlot(t, p, v, i) {
      var p, v :| InSlot(s, p, v, i);
      assert InSlot(t, p, v, i);
    }
  }

  lemma ReleasedFrames(s: Pager, flat: Flat, space: int, vpn: int, fifo: seq<int>)
    requires Core(s, flat, -1) && HasPage(s, space, vpn)
    requires var e := PageOf(s, space, vpn);
             e.valid ==> (e.location.MAIN? ==> 0 <= e.ppn < FRAMES) && (e.location.SWAP? ==> 0 <= Slot(e) < SWAP_PAGES)
    ensures var t := Release(s, space, vpn, fifo); Shape(t) && FramesOk(t, -1)
  {
    hide SetPage, Agrees, Untouched, Release, SlotsOk;
    ReleasedPages(s, flat, space, vpn, fifo);
    ReleasedRest(s, flat, space, vpn, fifo);
    assert Fits(s, space, vpn, PageOf(s, space, vpn), flat[space][vpn]);
  }

  /** Freeing a page's frame or swap slot; the TLB may still point to the frame. */
  lemma ReleaseKeeps(s: Pager, flat: Flat, space: int, vpn: int, fifo: seq<int>)
    requires Core(s, flat, -1) && HasPage(s, space, vpn)
    ensures var e := PageOf(s, space, vpn);
            e.valid ==> (e.location.MAIN? ==> 0 <= e.ppn < FRAMES) && (e.location.SWAP? ==> 0 <= Slot(e) < SWAP_PAGES)
    ensures var t := Release(s, space, vpn, fifo);
            && Core(t, flat, -1) && SameSpaces(s, t) && t.current == s.current
            && (forall q, w :: HasPage(s, q, w) ==>
                  PageOf(t, q, w) == if q == space && w == vpn then PageOf(s, q, w).(valid := false) else PageOf(s, q, w))
  {
    hide SetPage, Agrees, Untouched, Release, SlotsOk, FramesOk, Fits;
    ReleasedPages(s, flat, space, vpn, fifo);
    ReleasedRest(s, flat, space, vpn, fifo);
    ReleasedSlots(s, flat, space, vpn, fifo);
    ReleasedFrames(s, flat, space, vpn, fifo);
    forall p, v | HasPage(Release(s, space, vpn, fifo), p, v)
      ensures Fits(Release(s, space, vpn, fifo), p, v, PageOf(Release(s, space, vpn, fifo), p, v), flat[p][v])
    {
      ReleasedFits(s, flat, space, vpn, fifo, p, v);
    }
  }

  lemma ForgetKeeps(s: Pager, flat: Flat, space: int, vpn: int)
    requires Core(s, flat, -1) && HasPage(s, space, vpn) && !PageOf(s, space, vpn).valid
    ensures var t := Forget(s, space, vpn);
            Core(t, flat, -1) && SameSpaces(s, t) && t.current == s.current && t.used == s.used && t.fifo == s.fifo && t.ipt == s.ipt
  {
    hide SetPage, Agrees, Untouched;
    SetPageGet(s, space, vpn, PageOf(s, space, vpn).(ppn := -1));
    var t := Forget(s, space, vpn);
    forall p, v | HasPage(t, p, v) ensures Fits(t, p, v, PageOf(t, p, v), flat[p][v]) {
      assert Fits(s, p, v, PageOf(s, p, v), flat[p][v]);
    }
    ForgetSlots(s, t, space, vpn);
  }

  lemma ForgetSlots(s: Pager, t: Pager, space: int, vpn: int)
    requires Shape(s) && Shape(t) && SlotsOk(s) && t.slots == s.slots && HasPage(s, space, vpn) && !PageOf(s, space, vpn).valid
    requires forall q, w :: HasPage(t, q, w) <==> HasPage(s, q, w)
    requires forall q, w :: HasPage(s, q, w) ==> PageOf(t, q, w) == if q == space && w == vpn then PageOf(s, q, w).(ppn := -1) else PageOf(s, q, w)
    ensures SlotsOk(t)
  {
    assert forall i, p, v :: InSlot(t, p, v, i) == InSlot(s, p, v, i);
    forall i | 0 <= i < SWAP_PAGES && t.slots[i] ensures exists p, v :: InSlot(t, p, v, i) {
      var p, v :| InSlot(s, p, v, i);
      assert InSlot(t, p, v, i);
    }
  }

  // ---- threads and address spaces as a whole ----

  lemma {:induction false} ExitLoopKeeps(s: Pager, flat: Flat, vpns: seq<int>)
    requires Core(s, flat, -1) && forall k :: 0 <= k < |vpns| ==> HasPage(s, s.current, vpns[k])
    ensures Core(ExitLoop(s, vpns), flat, -1) && ExitLoop(s, vpns).current == s.current
    decreases |vpns|
  {
    hide Core, Release, Forget;
    if vpns != [] {
      CoreShape(s, flat, -1);
      var fifo := RemoveFirst(s.fifo, PageOf(s, s.current, vpns[0]).ppn);
      var freed := Release(s, s.current, vpns[0], fifo);
      ReleaseKeeps(s, flat, s.current, vpns[0], fifo);
      ReleasedInvalid(s, flat, s.current, vpns[0], fifo);
      SamePages(s, freed);
      ForgetKeeps(freed, flat, s.current, vpns[0]);
      SamePages(freed, Forget(freed, s.current, vpns[0]));
      ExitLoopKeeps(Forget(freed, s.current, vpns[0]), flat, vpns[1..]);
    }
  }

  lemma CoreShape(s: Pager, flat: Flat, hole: int)
    requires Core(s, flat, hole)
    ensures Shape(s) && SameShape(s, flat)
  {
  }

  lemma SamePages(s: Pager, t: Pager)
    requires SameSpaces(s, t)
    ensures forall p, v :: HasPage(t, p, v) <==> HasPage(s, p, v)
  {
  }

  lemma ReleasedInvalid(s: Pager, flat: Flat, space: int, vpn: int, fifo: seq<int>)
    requires Core(s, flat, -1) && HasPage(s, space, vpn)
    ensures var t := Release(s, space, vpn, fifo); HasPage(t, space, vpn) && !PageOf(t, space, vpn).valid
  {
    hide Core, Release;
    ReleasedPages(s, flat, space, vpn, fifo);
  }

  lemma {:induction false} DestroyLoopKeeps(s: Pager, flat: Flat, space: int, vpn: nat, n: nat, how: Eraser)
    requires Core(s, flat, -1) && space in s.spaces && n == |s.spaces[space].pages| && vpn <= n
    requires forall v :: 0 <= v < vpn ==> !PageOf(s, space, v).valid
    ensures var t := DestroyLoop(s, space, vpn, n, how);
            && Core(t, flat, -1) && t.current == s.current && SameSpaces(s, t)
            && forall v :: 0 <= v < n ==> HasPage(t, space, v) && !PageOf(t, space, v).valid
    decreases n - vpn
  {
    hide Core, Release, Erased;
    if vpn < n {
      CoreShape(s, flat, -1);
      var fifo := Erased(s, space, PageOf(s, space, vpn).ppn, how);
      var t := Release(s, space, vpn, fifo);
      ReleaseKeeps(s, flat, space, vpn, fifo);
      ReleasedPages(s, flat, space, vpn, fifo);
      DestroyLoopKeeps(t, flat, space, vpn + 1, n, how);
    }
  }

  /** A space none of whose pages is loaded can go. */
  lemma DropSpace(s: Pager, flat: Flat, space: int)
    requires Ok(s, flat) && space in s.spaces && forall v :: 0 <= v < |s.spaces[space].pages| ==> !PageOf(s, space, v).valid
    ensures Ok(s.(spaces := s.spaces - {space}), flat - {space})
  {
    hide Agrees, Untouched;
    var t := s.(spaces := s.spaces - {space});
    var rest := flat - {space};
    assert forall p, v :: HasPage(t, p, v) <==> HasPage(s, p, v) && p != space;
    assert forall p, v :: HasPage(t, p, v) ==> PageOf(t, p, v) == PageOf(s, p, v);
    forall p, v | HasPage(t, p, v) ensures Fits(t, p, v, PageOf(t, p, v), rest[p][v]) {
      assert Fits(s, p, v, PageOf(s, p, v), flat[p][v]);
    }
    assert forall p, v, i :: InSlot(t, p, v, i) == InSlot(s, p, v, i);
    forall i | 0 <= i < SWAP_PAGES && t.slots[i] ensures exists p, v :: InSlot(t, p, v, i) {
      var p, v :| InSlot(s, p, v, i);
      assert InSlot(t, p, v, i);
    }
  }

  lemma DestroyKeeps(s: Pager, flat: Flat, space: int, how: Eraser)
    requires Ok(s, flat) && space in s.spaces
    ensures Ok(Destroy(s, space, how), flat - {space})
  {
    hide Core, TLBOk, DestroyLoop;
    var n := |s.spaces[space].pages|;
    CoreShape(s, flat, -1);
    DestroyLoopKeeps(s, flat, space, 0, n, how);
    var t := DestroyLoop(s, space, 0, n, how);
    FlushKeeps(t, flat);
    assert forall v :: 0 <= v < n ==> PageOf(Flush(t), space, v) == PageOf(t, space, v) && HasPage(t, space, v);
    DropSpace(Flush(t), flat, space);
  }

  lemma ExitKeeps(s: Pager, flat: Flat, vpns: seq<int>)
    requires Ok(s, flat) && forall k :: 0 <= k < |vpns| ==> HasPage(s, s.current, vpns[k])
    ensures Shape(s) && Ok(Flush(ExitLoop(s, vpns)), flat)
  {
    hide Core, TLBOk, ExitLoop;
    CoreShape(s, flat, -1);
    ExitLoopKeeps(s, flat, vpns);
    FlushKeeps(ExitLoop(s, vpns), flat);
  }

  /** The flat pages of a new address space, and of a stack. */
  function NewPages(exec: seq<Byte>, own: nat, start: nat): (r: seq<Spec>)
    ensures |r| == own + STACK_PAGES
  {
    seq<Spec>(own + STACK_PAGES, v requires 0 <= v < own + STACK_PAGES => Untouched(exec, own, start, v))
  }

  function StackPages(space: Space): (r: seq<Spec>)
    ensures |r| == STACK_PAGES
  {
    seq<Spec>(STACK_PAGES, v requires 0 <= v < STACK_PAGES => Untouched(space.exec, space.own, space.start, |space.pages| + v))
  }

  /** Changing or adding one space whose old pages stay as they are. */
  lemma AddPages(s: Pager, flat: Flat, id: int, space: Space, pages: seq<Spec>)
    requires Ok(s, flat) && |pages| == |space.pages| && space.own <= |pages|
    requires id in s.spaces ==>
               && space.(pages := []) == s.spaces[id].(pages := []) && s.spaces[id].pages <= space.pages && flat[id] <= pages
    requires forall v :: (if id in s.spaces then |s.spaces[id].pages| else 0) <= v < |pages| ==>
               FreshFits(space, v, space.pages[v], pages[v])
    ensures Ok(s.(spaces := s.spaces[id := space]), flat[id := pages])
  {
    hide Agrees, Untouched;
    var t := s.(spaces := s.spaces[id := space]);
    var next := flat[id := pages];
    forall p, v | HasPage(t, p, v) ensures Fits(t, p, v, PageOf(t, p, v), next[p][v]) {
      if HasPage(s, p, v) {
        assert Fits(s, p, v, PageOf(s, p, v), flat[p][v]);
        assert PageOf(t, p, v) == PageOf(s, p, v);
      } else {
        assert FreshFits(space, v, space.pages[v], pages[v]);
      }
    }
    assert forall p, v :: HasPage(s, p, v) ==> HasPage(t, p, v) && PageOf(t, p, v) == PageOf(s, p, v);
    AddedSlots(s, t, id, space);
  }

  /** A page as it starts: not loaded, and as the executable has it. */
  ghost predicate FreshFits(space: Space, v: nat, e: PageEntry, spec: Spec) {
    && !e.valid && Pristine(space, v, e, spec) && (e.location.EXEC? || (e.location.VOID? && v >= space.own))
  }

  lemma AddedSlots(s: Pager, t: Pager, id: int, space: Space)
    requires Shape(s) && SlotsOk(s) && t == s.(spaces := s.spaces[id := space])
    requires forall p, v :: HasPage(s, p, v) ==> HasPage(t, p, v) && PageOf(t, p, v) == PageOf(s, p, v)
    requires forall p, v :: HasPage(t, p, v) && !HasPage(s, p, v) ==> !PageOf(t, p, v).valid
    ensures SlotsOk(t)
  {
    assert forall p, v, i :: InSlot(t, p, v, i) == InSlot(s, p, v, i);
    forall i | 0 <= i < SWAP_PAGES && t.slots[i] ensures exists p, v :: InSlot(t, p, v, i) {
      var p, v :| InSlot(s, p, v, i);
      assert InSlot(t, p, v, i);
    }
  }

  lemma CreateKeeps(s: Pager, flat: Flat, id: int, exec: seq<Byte>, own: nat, start: nat)
    requires Ok(s, flat) && id !in s.spaces
    ensures Ok(s.(spaces := s.spaces[id := NewSpace(exec, own, start)]), flat[id := NewPages(exec, own, start)])
  {
    hide Ok, Untouched;
    AddPages(s, flat, id, NewSpace(exec, own, start), NewPages(exec, own, start));
  }

  lemma ForkKeeps(s: Pager, flat: Flat, id: int, offsets: seq<int>)
    requires Ok(s, flat) && id in s.spaces && |offsets| == STACK_PAGES
    ensures id in flat && Ok(s.(spaces := s.spaces[id := Grow(s.spaces[id], offsets)]), flat[id := flat[id] + StackPages(s.spaces[id])])
  {
    hide Core, TLBOk, Untouched;
    CoreShape(s, flat, -1);
    AddPages(s, flat, id, Grow(s.spaces[id], offsets), flat[id] + StackPages(s.spaces[id]));
  }
}
