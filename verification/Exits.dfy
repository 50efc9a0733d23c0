/** What an exiting thread gives back: the frames and the swap pages of its stack, and their places in the
    queue, and nothing else. */
module Exits {
  import opened Paging
  import opened FlatMemory
  import opened AddressSpaces
  import opened PagedRuns
  import opened EvictionQueue
  import opened PagingTheorems

  /** Frame f holds one of these pages of the space. */
  predicate HoldsOneOf(s: Pager, f: int, space: int, vpns: seq<int>) {
    0 <= f < |s.ipt| && s.ipt[f].valid && s.ipt[f].space == space && s.ipt[f].vpn in vpns
  }

  /** One of these pages of the space lies in swap slot i. */
  predicate SlotOfOne(s: Pager, i: int, space: int, vpns: seq<int>) {
    exists v :: v in vpns && InSlot(s, space, v, i)
  }

  /** Every page of vpns is given up, and every other is as it was. */
  ghost predicate PagesGiven(s: Pager, t: Pager, space: int, vpns: seq<int>) {
    && (forall p, v :: HasPage(t, p, v) <==> HasPage(s, p, v))
    && (forall p, v :: HasPage(s, p, v) ==>
          if p == space && v in vpns then PageOf(t, p, v) == PageOf(s, p, v).(valid := false, ppn := -1)
          else PageOf(t, p, v) == PageOf(s, p, v))
  }

  /** The frames and swap pages they lay in are free, and every other is as it was. */
  ghost predicate RoomGiven(s: Pager, t: Pager, space: int, vpns: seq<int>)
    requires Shape(s) && Shape(t)
  {
    && (forall f :: 0 <= f < FRAMES ==>
          if HoldsOneOf(s, f, space, vpns) then !t.used[f] && !t.ipt[f].valid
          else t.used[f] == s.used[f] && t.ipt[f].valid == s.ipt[f].valid && t.ipt[f].(dirty := false) == s.ipt[f].(dirty := false))
    && (forall i :: 0 <= i < SWAP_PAGES ==> t.slots[i] == (s.slots[i] && !SlotOfOne(s, i, space, vpns)))
    && t.mem == s.mem && t.swap == s.swap
  }

  function GiveOne(s: Pager, v: int): Pager
    requires Shape(s) && HasPage(s, s.current, v)
  {
    var freed := Release(s, s.current, v, RemoveFirst(s.fifo, PageOf(s, s.current, v).ppn));
    if HasPage(freed, s.current, v) then Forget(freed, s.current, v) else freed
  }

  lemma GiveOnePages(s: Pager, flat: Flat, v: int)
    requires Core(s, flat, -1) && HasPage(s, s.current, v)
    ensures PagesGiven(s, GiveOne(s, v), s.current, [v])
  {
    hide Core, Release, SetPage;
    CoreShape(s, flat, -1);
    var fifo := RemoveFirst(s.fifo, PageOf(s, s.current, v).ppn);
    var freed := Release(s, s.current, v, fifo);
    ReleasedPages(s, flat, s.current, v, fifo);
    SetPageGet(freed, s.current, v, PageOf(freed, s.current, v).(ppn := -1));
  }

  lemma GiveOneRest(s: Pager, flat: Flat, v: int)
    requires Core(s, flat, -1) && HasPage(s, s.current, v)
    ensures var e := PageOf(s, s.current, v);
            var t := GiveOne(s, v);
            && (e.valid && e.location.MAIN? ==> 0 <= e.ppn < FRAMES && HoldsOneOf(s, e.ppn, s.current, [v]))
            && (e.valid && e.location.SWAP? ==> 0 <= Slot(e) < SWAP_PAGES && s.slots[Slot(e)])
            && Core(t, flat, -1) && t.current == s.current && t.mem == s.mem && t.swap == s.swap
            && t.used == (if e.valid && e.location.MAIN? then s.used[e.ppn := false] else s.used)
            && t.ipt == (if e.valid && e.location.MAIN? then s.ipt[e.ppn := s.ipt[e.ppn].(valid := false)] else s.ipt)
            && t.slots == (if e.valid && e.location.SWAP? then s.slots[Slot(e) := false] else s.slots)
            && t.fifo == (if e.valid && e.location.MAIN? then RemoveFirst(s.fifo, e.ppn) else s.fifo)
  {
    hide Agrees, Untouched, SlotsOk, Release, SetPage, FramesOk;
    var e := PageOf(s, s.current, v);
    assert Fits(s, s.current, v, e, flat[s.current][v]);
    var fifo := RemoveFirst(s.fifo, e.ppn);
    ReleasedPages(s, flat, s.current, v, fifo);
    ReleasedRest(s, flat, s.current, v, fifo);
    ReleaseKeeps(s, flat, s.current, v, fifo);
    var freed := Release(s, s.current, v, fifo);
    ForgetKeeps(freed, flat, s.current, v);
    ForgetRest(freed, s.current, v);
  }

  lemma ForgetRest(s: Pager, space: int, v: int)
    requires HasPage(s, space, v)
    ensures Forget(s, space, v).(spaces := s.spaces) == s
  {
  }

  lemma GiveOneRoom(s: Pager, flat: Flat, v: int)
    requires Core(s, flat, -1) && HasPage(s, s.current, v)
    ensures Shape(s) && Shape(GiveOne(s, v)) && RoomGiven(s, GiveOne(s, v), s.current, [v])
  {
    hide GiveOne, Agrees, Untouched, AllFit;
    GiveOneRest(s, flat, v);
    var e := PageOf(s, s.current, v);
    forall i | 0 <= i < SWAP_PAGES ensures SlotOfOne(s, i, s.current, [v]) <==> e.valid && e.location.SWAP? && Slot(e) == i {
      assert v in [v];
      if e.valid && e.location.SWAP? && Slot(e) == i { assert InSlot(s, s.current, v, i); }
    }
    forall f | HoldsOneOf(s, f, s.current, [v]) ensures e.valid && e.location.MAIN? && e.ppn == f {}
  }

  lemma PagesCompose(s: Pager, u: Pager, t: Pager, space: int, vpns: seq<int>)
    requires vpns != [] && PagesGiven(s, u, space, vpns[..1]) && PagesGiven(u, t, space, vpns[1..])
    ensures PagesGiven(s, t, space, vpns)
  {
    assert forall v :: v in vpns <==> v in vpns[..1] || v in vpns[1..];
  }

  lemma FramesCompose(s: Pager, u: Pager, t: Pager, space: int, vpns: seq<int>, f: int)
    requires Shape(s) && Shape(u) && Shape(t) && vpns != [] && 0 <= f < FRAMES
    requires RoomGiven(s, u, space, vpns[..1]) && RoomGiven(u, t, space, vpns[1..])
    requires u.used[f] == u.ipt[f].valid
    ensures HoldsOneOf(s, f, space, vpns) <==> HoldsOneOf(s, f, space, vpns[..1]) || HoldsOneOf(u, f, space, vpns[1..])
  {
    assert forall v :: v in vpns <==> v in vpns[..1] || v in vpns[1..];
  }

  lemma SlotsCompose(s: Pager, u: Pager, space: int, vpns: seq<int>, i: int)
    requires vpns != [] && PagesGiven(s, u, space, vpns[..1])
    ensures SlotOfOne(s, i, space, vpns) <==> SlotOfOne(s, i, space, vpns[..1]) || SlotOfOne(u, i, space, vpns[1..])
  {
    assert forall v :: v in vpns <==> v in vpns[..1] || v in vpns[1..];
    assert forall v :: InSlot(u, space, v, i) <==> InSlot(s, space, v, i) && v !in vpns[..1];
    if SlotOfOne(s, i, space, vpns) {
      var v :| v in vpns && InSlot(s, space, v, i);
      if v !in vpns[..1] { assert v in vpns[1..] && InSlot(u, space, v, i); }
    }
    if SlotOfOne(u, i, space, vpns[1..]) {
      var v :| v in vpns[1..] && InSlot(u, space, v, i);
      assert v in vpns && InSlot(s, space, v, i);
    }
  }

  lemma RoomCompose(s: Pager, u: Pager, t: Pager, space: int, vpns: seq<int>)
    requires Shape(s) && Shape(u) && Shape(t) && vpns != [] && FramesOk(u, -1) && PagesGiven(s, u, space, vpns[..1])
    requires RoomGiven(s, u, space, vpns[..1]) && RoomGiven(u, t, space, vpns[1..])
    ensures RoomGiven(s, t, space, vpns)
  {
    hide HoldsOneOf, SlotOfOne, PagesGiven;
    forall f | 0 <= f < FRAMES
      ensures HoldsOneOf(s, f, space, vpns) <==> HoldsOneOf(s, f, space, vpns[..1]) || HoldsOneOf(u, f, space, vpns[1..])
    {
      FramesCompose(s, u, t, space, vpns, f);
    }
    forall i | 0 <= i < SWAP_PAGES
      ensures SlotOfOne(s, i, space, vpns) <==> SlotOfOne(s, i, space, vpns[..1]) || SlotOfOne(u, i, space, vpns[1..])
    {
      SlotsCompose(s, u, space, vpns, i);
    }
    forall f | 0 <= f < FRAMES && HoldsOneOf(s, f, space, vpns) ensures !t.used[f] && !t.ipt[f].valid {
      if HoldsOneOf(s, f, space, vpns[..1]) { NotHeld(u, f, space, vpns[1..]); }
    }
  }

  lemma NotHeld(u: Pager, f: int, space: int, vpns: seq<int>)
    requires 0 <= f < |u.ipt| && !u.ipt[f].valid
    ensures !HoldsOneOf(u, f, space, vpns)
  {
  }

  lemma NothingGiven(s: Pager, space: int)
    requires Shape(s)
    ensures PagesGiven(s, s, space, []) && RoomGiven(s, s, space, [])
  {
  }

  lemma {:induction false} LoopGivesBack(s: Pager, flat: Flat, vpns: seq<int>)
    requires Core(s, flat, -1) && forall k :: 0 <= k < |vpns| ==> HasPage(s, s.current, vpns[k])
    ensures Shape(s) && PagesGiven(s, ExitLoop(s, vpns), s.current, vpns) && RoomGiven(s, ExitLoop(s, vpns), s.current, vpns)
    ensures Exact(s.fifo, s.used) ==> Exact(ExitLoop(s, vpns).fifo, ExitLoop(s, vpns).used)
    decreases |vpns|
  {
    hide Core, Release, Forget, PagesGiven, RoomGiven, Exact;
    CoreShape(s, flat, -1);
    if vpns == [] {
      NothingGiven(s, s.current);
    } else {
      var u := GiveOne(s, vpns[0]);
      GiveOnePages(s, flat, vpns[0]);
      GiveOneRoom(s, flat, vpns[0]);
      GiveOneRest(s, flat, vpns[0]);
      GiveOneExact(s, flat, vpns[0]);
      CoreFrames(u, flat);
      StillThere(s, u, s.current, vpns);
      LoopGivesBack(u, flat, vpns[1..]);
      assert vpns[..1] == [vpns[0]];
      PagesCompose(s, u, ExitLoop(s, vpns), s.current, vpns);
      RoomCompose(s, u, ExitLoop(s, vpns), s.current, vpns);
    }
  }

  lemma StillThere(s: Pager, u: Pager, space: int, vpns: seq<int>)
    requires vpns != [] && PagesGiven(s, u, space, [vpns[0]]) && forall k :: 0 <= k < |vpns| ==> HasPage(s, space, vpns[k])
    ensures HasPage(u, space, vpns[0]) && forall k :: 0 <= k < |vpns[1..]| ==> HasPage(u, space, vpns[1..][k])
  {
  }

  lemma CoreFrames(s: Pager, flat: Flat)
    requires Core(s, flat, -1)
    ensures Shape(s) && FramesOk(s, -1)
  {
  }

  lemma GiveOneExact(s: Pager, flat: Flat, v: int)
    requires Core(s, flat, -1) && HasPage(s, s.current, v)
    ensures Shape(s) && (Exact(s.fifo, s.used) ==> Exact(GiveOne(s, v).fifo, GiveOne(s, v).used))
  {
    hide GiveOne, Agrees, Untouched, SlotsOk;
    GiveOneRest(s, flat, v);
    var e := PageOf(s, s.current, v);
    assert e.valid && e.location.MAIN? ==> s.used[e.ppn];
    RemoveAnyExact(s.fifo, s.used, if e.valid && e.location.MAIN? then e.ppn else 0);
  }

  lemma RemoveAnyExact(q: seq<int>, used: seq<bool>, p: int)
    requires 0 <= p < |used|
    ensures Exact(q, used) ==> Exact(RemoveFirst(q, p), used[p := false])
  {
    if Exact(q, used) { RemoveExact(q, p); }
  }

  lemma FlushGives(s: Pager, t: Pager, space: int, vpns: seq<int>)
    requires Shape(s) && Shape(t) && PagesGiven(s, t, space, vpns) && RoomGiven(s, t, space, vpns)
    ensures var r := Flush(t);
            && Shape(r) && PagesGiven(s, r, space, vpns) && RoomGiven(s, r, space, vpns) && r.used == t.used && r.fifo == t.fifo
  {
    hide HoldsOneOf, SlotOfOne;
    var r := Flush(t);
    assert forall f :: 0 <= f < FRAMES ==> r.ipt[f].(dirty := false) == t.ipt[f].(dirty := false) && r.ipt[f].valid == t.ipt[f].valid;
    assert forall p, v :: HasPage(r, p, v) == HasPage(t, p, v);
    assert forall p, v :: HasPage(t, p, v) ==> PageOf(r, p, v) == PageOf(t, p, v);
  }

  lemma NoneHeld(s: Pager, r: Pager, space: int, vpns: seq<int>)
    requires Shape(s) && Shape(r) && RoomGiven(s, r, space, vpns)
    ensures forall f :: 0 <= f < FRAMES ==> !HoldsOneOf(r, f, space, vpns)
    ensures Exact(r.fifo, r.used) ==> forall f :: HoldsOneOf(s, f, space, vpns) ==> f !in r.fifo
  {
    forall f | 0 <= f < FRAMES ensures !HoldsOneOf(r, f, space, vpns) {
      if !HoldsOneOf(s, f, space, vpns) { assert r.ipt[f].(dirty := false) == s.ipt[f].(dirty := false); }
    }
  }

  /** In every state that a run reaches, a thread that exits gives up each page of its stack; the frames and
      swap pages in which they lay are free, with no inverted page table entry and, if the queue held exactly
      the frames in use, no place in it; every other page, frame and swap page is as it was. */
  lemma ExitGivesBack(s: Pager, acts: seq<Action>, vpns: seq<int>)
    requires Boot(s) && SensibleRun(s, acts) && Reached(s, acts).Some?
    ensures Shape(Reached(s, acts).value)
    ensures var t := Reached(s, acts).value;
            Sensible(t, Exit(vpns)) ==>
              var r := Next(t, Exit(vpns)).value;
              && Shape(r) && PagesGiven(t, r, t.current, vpns) && RoomGiven(t, r, t.current, vpns)
              && (forall f :: 0 <= f < FRAMES ==> !HoldsOneOf(r, f, t.current, vpns))
              && (Exact(t.fifo, t.used) ==> Exact(r.fifo, r.used) && forall f :: HoldsOneOf(t, f, t.current, vpns) ==> f !in r.fifo)
  {
    hide SensibleRun, Reached, Core, TLBOk, ExitLoop, Flush, PagesGiven, RoomGiven, HoldsOneOf, Exact;
    BootOk(s);
    var flat := ReachedOk(s, map[], acts);
    var t := Reached(s, acts).value;
    CoreShape(t, flat, -1);
    if Sensible(t, Exit(vpns)) {
      LoopGivesBack(t, flat, vpns);
      FlushGives(t, ExitLoop(t, vpns), t.current, vpns);
      NoneHeld(t, Next(t, Exit(vpns)).value, t.current, vpns);
    }
  }
}
