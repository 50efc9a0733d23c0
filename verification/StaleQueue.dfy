/** A run in which the destructor's wrong index does harm: it leaves frames in the eviction queue that no page
    is in. */
module StaleQueue {
  import opened Options
  import opened Bits
  import opened Paging
  import opened FlatMemory
  import opened PagedRuns
  import opened EvictionQueue
  import opened PagingTheorems
  import opened Destructor

  lemma LoadShape(s: Pager, vpn: int, p: int, junk: Page)
    requires Shape(s) && CanLoad(s, vpn) && 0 <= p < FRAMES
    ensures var t := Load(s, vpn, p, junk);
            var space := s.spaces[s.current];
            && Shape(t) && t.fifo == s.fifo + [p] && t.used == s.used && t.current == s.current && t.tlb == s.tlb && t.turn == s.turn
            && t.spaces == s.spaces[s.current := space.(pages := space.pages[vpn := space.pages[vpn].(ppn := p, valid := true, location := MAIN)])]
            && t.ipt == s.ipt[p := Frame(s.current, vpn, p, true, space.pages[vpn].dirty)]
  {
    hide ReadExec;
  }

  lemma PopulateShape(s: Pager, p: int)
    requires Shape(s) && 0 <= p < FRAMES && s.ipt[p].ppn == p
    ensures var t := Populate(s, p);
            && Shape(t) && t.fifo == s.fifo && t.used == s.used && t.current == s.current && t.spaces == s.spaces
            && (forall q :: 0 <= q < FRAMES ==> t.ipt[q].(dirty := false) == s.ipt[q].(dirty := false))
            && (forall j :: 0 <= j < TLB_SIZE && t.tlb[j].valid ==> t.tlb[j].vpn == s.ipt[p].vpn || (s.tlb[j].valid && t.tlb[j] == s.tlb[j]))
  {
  }

  /** A fault with a frame to spare. */
  lemma FreshMiss(s: Pager, vpn: int, policy: Policy, junk: Page)
    requires Shape(s) && FindFrame(s.ipt, s.current, vpn, 0) == -1 && FirstClear(s.used, 0) != -1 && CanLoad(s, vpn)
    ensures HandleTLBMiss(s, vpn, policy, junk).Some?
    ensures var t := HandleTLBMiss(s, vpn, policy, junk).value;
            var p := FirstClear(s.used, 0);
            var space := s.spaces[s.current];
            && Shape(t) && t.fifo == s.fifo + [p] && t.used == s.used[p := true] && t.current == s.current
            && t.spaces == s.spaces[s.current := space.(pages := space.pages[vpn := space.pages[vpn].(ppn := p, valid := true, location := MAIN)])]
            && (forall q :: 0 <= q < FRAMES && q != p ==> t.ipt[q].(dirty := false) == s.ipt[q].(dirty := false))
            && t.ipt[p].valid && t.ipt[p].space == s.current && t.ipt[p].vpn == vpn
            && (forall j :: 0 <= j < TLB_SIZE && t.tlb[j].valid ==> t.tlb[j].vpn == vpn || (s.tlb[j].valid && t.tlb[j] == s.tlb[j]))
  {
    hide Load, Populate, FindFrame;
    var p := FirstClear(s.used, 0);
    var u := s.(used := s.used[p := true]);
    assert TakeFrame(s, policy) == Some((u, p));
    assert CanLoad(u, vpn);
    LoadShape(u, vpn, p, junk);
    PopulateShape(Load(u, vpn, p, junk), p);
    var t := Populate(Load(u, vpn, p, junk), p);
    assert t.ipt[p].(dirty := false) == Load(u, vpn, p, junk).ipt[p].(dirty := false);
  }

  /** Page 1 is touched, then page 0, and the space is destroyed. */
  function Script(beyond: int -> int, junk: Page): seq<Action> {
    [Create(0, [], 0, 0), Switch(0), Read(128, 1, Fifo, junk), Read(0, 1, Fifo, junk), Remove(0, AsWritten(beyond))]
  }

  /** The space as the constructor sets it up: eight pages of stack. */
  function Started(s: Pager): Pager
    requires Shape(s)
  {
    Flush(s.(spaces := map[0 := NewSpace([], 0, 0)])).(current := 0)
  }

  lemma FirstRead(s: Pager, junk: Page)
    requires Boot(s)
    ensures var t := Started(s);
            Shape(t) && Touchable(t, 1) && ReadMem(t, 128, 1).1.PageFault? && HandleTLBMiss(t, 1, Fifo, junk).Some?
    ensures AfterFirst(HandleTLBMiss(Started(s), 1, Fifo, junk).value)
  {
    hide HandleTLBMiss;
    var t := Started(s);
    assert FirstClear(t.used, 0) == 0;
    FreshMiss(t, 1, Fifo, junk);
    var u := HandleTLBMiss(t, 1, Fifo, junk).value;
    assert u.fifo == [0];
  }

  ghost predicate AfterFirst(t: Pager) {
    && Shape(t) && t.fifo == [0] && t.current == 0 && t.spaces.Keys == {0} && |t.spaces[0].pages| == STACK_PAGES
    && t.spaces[0].pages[1] == PageEntry(0, true, false, MAIN, -1)
    && (forall v :: 0 <= v < STACK_PAGES && v != 1 ==> t.spaces[0].pages[v] == PageEntry(-1, false, false, VOID, -1))
    && (forall q :: 0 <= q < FRAMES ==> t.used[q] == (q == 0) && t.ipt[q].valid == (q == 0))
    && t.ipt[0].vpn == 1
    && forall j :: 0 <= j < TLB_SIZE && t.tlb[j].valid ==> t.tlb[j].vpn == 1
  }

  ghost predicate AfterSecond(t: Pager) {
    && Shape(t) && t.fifo == [0, 1] && t.current == 0 && t.spaces.Keys == {0} && |t.spaces[0].pages| == STACK_PAGES
    && t.spaces[0].pages[0] == PageEntry(1, true, false, MAIN, -1) && t.spaces[0].pages[1] == PageEntry(0, true, false, MAIN, -1)
    && (forall v :: 2 <= v < STACK_PAGES ==> t.spaces[0].pages[v] == PageEntry(-1, false, false, VOID, -1))
    && (forall q :: 0 <= q < FRAMES ==> t.used[q] == (q < 2))
  }

  lemma SecondRead(t: Pager, junk: Page)
    requires AfterFirst(t)
    ensures Touchable(t, 0) && ReadMem(t, 0, 1).1.PageFault? && HandleTLBMiss(t, 0, Fifo, junk).Some?
    ensures AfterSecond(HandleTLBMiss(t, 0, Fifo, junk).value)
  {
    hide HandleTLBMiss;
    assert FirstClear(t.used, 0) == 1;
    FreshMiss(t, 0, Fifo, junk);
    assert [0] + [1] == [0, 1];
  }

  lemma Destroyed(t: Pager, flat: Flat, beyond: int -> int)
    requires AfterSecond(t) && Ok(t, flat)
    ensures var u := Destroy(t, 0, AsWritten(beyond));
            u.fifo == [0, 1] && |u.used| == FRAMES && forall q :: 0 <= q < FRAMES ==> !u.used[q]
  {
    hide Ok, EraseTimes;
    var pages := t.spaces[0].pages;
    OkCore(t, flat);
    DestroyQueue(t, flat, 0, 0, |pages|, beyond);
    var u := DestroyLoop(t, 0, 0, |pages|, AsWritten(beyond));
    assert Hit([0, 1], pages, beyond, 2) == -1;
    assert Hit([0, 1], pages, beyond, 1) == -1;
    NothingHit([0, 1], pages, beyond, |Frames(pages)|);
    assert IsResident(pages[0]) && IsResident(pages[1]) && 1 in Frames(pages) && 0 in Frames(pages);
    FlushQueue(u);
  }

  lemma OkCore(t: Pager, flat: Flat)
    requires Ok(t, flat)
    ensures Core(t, flat, -1)
  {
  }

  /** From any boot state: the run is a sensible one, ends with two frames queued that are not in use, and so its
      queue is not the frames in use. */
  lemma StaleEntriesReached(s: Pager, beyond: int -> int, junk: Page)
    requires Boot(s)
    ensures SensibleRun(s, Script(beyond, junk)) && Reached(s, Script(beyond, junk)).Some?
    ensures var end := Reached(s, Script(beyond, junk)).value;
            end.fifo == [0, 1] && |end.used| == FRAMES && (forall q :: 0 <= q < FRAMES ==> !end.used[q]) && !Exact(end.fifo, end.used)
  {
    hide SensibleRun, Reached, HandleTLBMiss, Destroy, ReadMem, Touchable, Ok, AfterSecond, AfterFirst, Exact;
    var acts := Script(beyond, junk);
    var s1 := s.(spaces := map[0 := NewSpace([], 0, 0)]);
    var s2 := Started(s);
    FirstRead(s, junk);
    var s3 := HandleTLBMiss(s2, 1, Fifo, junk).value;
    AfterFirstShape(s3);
    SecondRead(s3, junk);
    var s4 := HandleTLBMiss(s3, 0, Fifo, junk).value;
    AfterSecondShape(s4);
    RunNone(s4);
    RunCons(s3, acts[3], []);
    RunCons(s2, acts[2], [acts[3]]);
    RunCons(s1, acts[1], [acts[2]] + [acts[3]]);
    RunCons(s, acts[0], [acts[1]] + ([acts[2]] + [acts[3]]));
    BootOk(s);
    var flat := ReachedOk(s, map[], [acts[0]] + ([acts[1]] + ([acts[2]] + ([acts[3]] + []))));
    Destroyed(s4, flat, beyond);
    var s5 := Destroy(s4, 0, AsWritten(beyond));
    RunNone(s5);
    RunCons(s4, acts[4], []);
    RunCons(s3, acts[3], [acts[4]]);
    RunCons(s2, acts[2], [acts[3]] + [acts[4]]);
    RunCons(s1, acts[1], [acts[2]] + ([acts[3]] + [acts[4]]));
    RunCons(s, acts[0], [acts[1]] + ([acts[2]] + ([acts[3]] + [acts[4]])));
    assert acts == [acts[0]] + ([acts[1]] + ([acts[2]] + ([acts[3]] + [acts[4]])));
    NotExact(s5);
  }

  lemma AfterFirstShape(t: Pager)
    requires AfterFirst(t)
    ensures Shape(t)
  {
  }

  lemma AfterSecondShape(t: Pager)
    requires AfterSecond(t)
    ensures Shape(t) && 0 in t.spaces
  {
  }

  lemma NotExact(t: Pager)
    requires t.fifo == [0, 1] && |t.used| == FRAMES && forall q :: 0 <= q < FRAMES ==> !t.used[q]
    ensures !Exact(t.fifo, t.used)
  {
    assert 0 in t.fifo;
  }

  lemma RunNone(s: Pager)
    ensures SensibleRun(s, []) && Reached(s, []) == Some(s)
  {
  }

  lemma RunCons(s: Pager, a: Action, rest: seq<Action>)
    requires Shape(s) && Sensible(s, a) && Next(s, a).Some? && SensibleRun(Next(s, a).value, rest)
    ensures SensibleRun(s, [a] + rest) && Reached(s, [a] + rest) == Reached(Next(s, a).value, rest)
    ensures [a] + [] == [a]
  {
    assert ([a] + rest)[1..] == rest;
  }
}
