/** ~AddrSpace searches the eviction queue with the wrong index. Exactly when that does no harm, for one
    search, for one destruction and over whole runs; and a run in which it does. */
module Destructor {
  import opened Paging
  import opened FlatMemory
  import opened Misses
  import opened AddressSpaces
  import opened PagedRuns
  import opened EvictionQueue
  import opened PagingTheorems
  import opened Seqs

  // ---- one search ----

  function Compared(pages: seq<PageEntry>, beyond: int -> int, ii: nat): int {
    if ii < |pages| then pages[ii].ppn else beyond(ii)
  }

  /** The destructor's search erases the frame being freed if and only if the first queue position
      that holds the frame of the page numbered like the position is the frame's own position. */
  lemma {:induction false} ErasesRightFrame(q: seq<int>, pages: seq<PageEntry>, beyond: int -> int, i: nat, ii: nat)
    requires Distinct(q) && ii <= i < |q|
    ensures EraseByIndex(q, pages, beyond, ii) == q[..i] + q[i + 1..] <==>
              q[i] == Compared(pages, beyond, i) && forall k :: ii <= k < i ==> q[k] != Compared(pages, beyond, k)
    decreases |q| - ii
  {
    if q[ii] == Compared(pages, beyond, ii) {
      if ii != i {
        assert (q[..i] + q[i + 1..])[ii] == q[ii];
        assert (q[..ii] + q[ii + 1..])[ii] == q[ii + 1];
      }
    } else if ii < i {
      ErasesRightFrame(q, pages, beyond, i, ii + 1);
    } else {
      KeepsPrefix(q, pages, beyond, ii + 1);
      var r := EraseByIndex(q, pages, beyond, ii + 1);
      assert r[i] == r[..i + 1][i] == q[..i + 1][i];
      if i + 1 < |q| { assert (q[..i] + q[i + 1..])[i] == q[i + 1]; }
    }
  }

  lemma {:induction false} KeepsPrefix(q: seq<int>, pages: seq<PageEntry>, beyond: int -> int, ii: nat)
    requires ii <= |q|
    ensures var r := EraseByIndex(q, pages, beyond, ii); |r| >= ii && r[..ii] == q[..ii]
    decreases |q| - ii
  {
    if ii < |q| && q[ii] != Compared(pages, beyond, ii) { KeepsPrefix(q, pages, beyond, ii + 1); }
  }

  // ---- one destruction ----

  /** The position that the search erases, or -1. */
  function Hit(q: seq<int>, pages: seq<PageEntry>, beyond: int -> int, ii: nat): (r: int)
    requires ii <= |q|
    ensures r == -1 || ii <= r < |q|
    decreases |q| - ii
  {
    if ii == |q| then -1 else if q[ii] == Compared(pages, beyond, ii) then ii else Hit(q, pages, beyond, ii + 1)
  }

  function Without(q: seq<int>, i: int): seq<int>
    requires -1 <= i < |q|
  {
    if i == -1 then q else q[..i] + q[i + 1..]
  }

  lemma {:induction false} EraseIsHit(q: seq<int>, pages: seq<PageEntry>, beyond: int -> int, ii: nat)
    requires ii <= |q|
    ensures EraseByIndex(q, pages, beyond, ii) == Without(q, Hit(q, pages, beyond, ii))
    decreases |q| - ii
  {
    if ii < |q| && q[ii] != Compared(pages, beyond, ii) { EraseIsHit(q, pages, beyond, ii + 1); }
  }

  /** The search does not look at the page being freed, so it is the same each time. */
  function EraseTimes(q: seq<int>, pages: seq<PageEntry>, beyond: int -> int, n: nat): seq<int>
    decreases n
  {
    if n == 0 then q else EraseTimes(EraseByIndex(q, pages, beyond, 0), pages, beyond, n - 1)
  }

  /** Each of the searches, one for every frame of the space, erases one of these frames. */
  predicate ErasesOwn(q: seq<int>, pages: seq<PageEntry>, beyond: int -> int, own: set<int>)
    decreases |own|
  {
    own == {}
    || (var i := Hit(q, pages, beyond, 0); i != -1 && q[i] in own && ErasesOwn(Without(q, i), pages, beyond, own - {q[i]}))
  }

  lemma WithoutDistinct(q: seq<int>, i: int)
    requires Distinct(q) && 0 <= i < |q|
    ensures Distinct(Without(q, i)) && forall y :: y in Without(q, i) <==> y in q && y != q[i]
  {
    var r := Without(q, i);
    forall y ensures y in r <==> y in q && y != q[i] {
      if y in q && y != q[i] {
        var k :| 0 <= k < |q| && q[k] == y;
        assert r[if k < i then k else k - 1] == y;
      }
    }
  }

  lemma {:induction false} EraseTimesWithin(q: seq<int>, pages: seq<PageEntry>, beyond: int -> int, n: nat)
    requires Distinct(q)
    ensures Distinct(EraseTimes(q, pages, beyond, n)) && forall y :: y in EraseTimes(q, pages, beyond, n) ==> y in q
    decreases n
  {
    if n > 0 {
      EraseIsHit(q, pages, beyond, 0);
      if Hit(q, pages, beyond, 0) != -1 { WithoutDistinct(q, Hit(q, pages, beyond, 0)); }
      EraseTimesWithin(EraseByIndex(q, pages, beyond, 0), pages, beyond, n - 1);
    }
  }

  /** What is left is what does not belong to the space. */
  ghost predicate Rid(after: seq<int>, q: seq<int>, own: set<int>) {
    forall y :: y in after <==> y in q && y !in own
  }

  lemma {:induction false} NothingHit(q: seq<int>, pages: seq<PageEntry>, beyond: int -> int, n: nat)
    requires Hit(q, pages, beyond, 0) == -1
    ensures EraseTimes(q, pages, beyond, n) == q
    decreases n
  {
    EraseIsHit(q, pages, beyond, 0);
    if n > 0 { NothingHit(q, pages, beyond, n - 1); }
  }

  /** As many searches as the space has frames leave the queue rid of exactly them if and only if each search
      erases one of them. */
  lemma {:induction false} RidIffErasesOwn(q: seq<int>, pages: seq<PageEntry>, beyond: int -> int, own: set<int>)
    requires Distinct(q) && forall y :: y in own ==> y in q
    ensures Rid(EraseTimes(q, pages, beyond, |own|), q, own) <==> ErasesOwn(q, pages, beyond, own)
    decreases |own|
  {
    var i := Hit(q, pages, beyond, 0);
    EraseIsHit(q, pages, beyond, 0);
    if own != {} {
      if i == -1 {
        NothingHit(q, pages, beyond, |own|);
        SomeOwn(own);
        var y :| y in own;
        assert y in q;
      } else {
        WithoutDistinct(q, i);
        if q[i] in own {
          RidIffErasesOwn(Without(q, i), pages, beyond, own - {q[i]});
          RidShrinks(EraseTimes(q, pages, beyond, |own|), q, own, i);
        } else {
          EraseTimesWithin(Without(q, i), pages, beyond, |own| - 1);
          assert q[i] in q && q[i] !in EraseTimes(q, pages, beyond, |own|);
        }
      }
    }
  }

  lemma SomeOwn(own: set<int>)
    ensures own == {} || exists y :: y in own
  {
    if forall y :: y !in own { assert own == {}; }
  }

  lemma RidShrinks(after: seq<int>, q: seq<int>, own: set<int>, i: int)
    requires Distinct(q) && 0 <= i < |q| && q[i] in own && forall y :: y in Without(q, i) <==> y in q && y != q[i]
    ensures Rid(after, q, own) <==> Rid(after, Without(q, i), own - {q[i]})
  {
    hide Without;
  }

  lemma WithoutOrdered(q: seq<int>, i: int, times: seq<int>, now: int)
    requires InLoadOrder(q, times, now) && 0 <= i < |q|
    ensures InLoadOrder(Without(q, i), times, now)
  {
    var r := Without(q, i);
    assert forall k :: 0 <= k < |r| ==> r[k] == q[if k < i then k else k + 1];
  }

  lemma {:induction false} EraseTimesOrdered(q: seq<int>, pages: seq<PageEntry>, beyond: int -> int, n: nat, times: seq<int>, now: int)
    requires InLoadOrder(q, times, now)
    ensures InLoadOrder(EraseTimes(q, pages, beyond, n), times, now)
    decreases n
  {
    hide InLoadOrder;
    if n > 0 {
      EraseIsHit(q, pages, beyond, 0);
      if Hit(q, pages, beyond, 0) != -1 { WithoutOrdered(q, Hit(q, pages, beyond, 0), times, now); }
      EraseTimesOrdered(EraseByIndex(q, pages, beyond, 0), pages, beyond, n - 1, times, now);
    }
  }

  // ---- the loop over the pages ----

  predicate IsResident(e: PageEntry) { e.valid && e.location.MAIN? }

  /** The frames that hold the space's pages. */
  function Frames(pages: seq<PageEntry>): set<int> {
    set v | 0 <= v < |pages| && IsResident(pages[v]) :: pages[v].ppn
  }

  /** Freeing a page changes what is resident, but not the numbers that the searches compare. */
  lemma {:induction false} SameSearch(q: seq<int>, a: seq<PageEntry>, b: seq<PageEntry>, beyond: int -> int, ii: nat)
    requires ii <= |q| && |a| == |b| && forall v :: 0 <= v < |a| ==> a[v].ppn == b[v].ppn
    ensures EraseByIndex(q, a, beyond, ii) == EraseByIndex(q, b, beyond, ii)
    decreases |q| - ii
  {
    if ii < |q| { SameSearch(q, a, b, beyond, ii + 1); }
  }

  lemma {:induction false} SameSearches(q: seq<int>, a: seq<PageEntry>, b: seq<PageEntry>, beyond: int -> int, n: nat)
    requires |a| == |b| && forall v :: 0 <= v < |a| ==> a[v].ppn == b[v].ppn
    ensures EraseTimes(q, a, beyond, n) == EraseTimes(q, b, beyond, n)
    decreases n
  {
    if n > 0 {
      SameSearch(q, a, b, beyond, 0);
      SameSearches(EraseByIndex(q, a, beyond, 0), a, b, beyond, n - 1);
    }
  }

  /** No two pages of a space are in one frame. */
  ghost predicate Apart(pages: seq<PageEntry>) {
    forall v, w :: 0 <= v < |pages| && 0 <= w < |pages| && IsResident(pages[v]) && IsResident(pages[w]) && pages[v].ppn == pages[w].ppn ==> v == w
  }

  lemma PagesApart(s: Pager, flat: Flat, space: int)
    requires Core(s, flat, -1) && space in s.spaces
    ensures var pages := s.spaces[space].pages;
            Apart(pages) && forall p :: p in Frames(pages) ==> 0 <= p < FRAMES && s.used[p]
  {
    hide Agrees, Untouched, SlotsOk;
    var pages := s.spaces[space].pages;
    forall v | 0 <= v < |pages| && IsResident(pages[v])
      ensures 0 <= pages[v].ppn < FRAMES && s.ipt[pages[v].ppn].valid && s.ipt[pages[v].ppn].space == space && s.ipt[pages[v].ppn].vpn == v
    {
      assert Fits(s, space, v, PageOf(s, space, v), flat[space][v]);
    }
  }

  lemma FreedFrames(pages: seq<PageEntry>, v: int)
    requires 0 <= v < |pages| && Apart(pages)
    ensures Frames(pages[v := pages[v].(valid := false)]) == Frames(pages) - (if IsResident(pages[v]) then {pages[v].ppn} else {})
    ensures IsResident(pages[v]) ==> pages[v].ppn in Frames(pages)
    ensures Apart(pages[v := pages[v].(valid := false)])
  {
    var after := pages[v := pages[v].(valid := false)];
    forall p ensures p in Frames(after) <==> p in Frames(pages) && (IsResident(pages[v]) ==> p != pages[v].ppn) {
      if p in Frames(pages) && (IsResident(pages[v]) ==> p != pages[v].ppn) {
        var w :| 0 <= w < |pages| && IsResident(pages[w]) && pages[w].ppn == p;
        assert after[w] == pages[w];
      }
    }
  }

  ghost predicate Invalid(pages: seq<PageEntry>, n: int) {
    forall v :: 0 <= v < n && v < |pages| ==> !pages[v].valid
  }

  /** What the loop from page vpn on leaves of the queue and of the frames' bits. */
  lemma {:induction false} DestroyQueue(s: Pager, flat: Flat, space: int, vpn: nat, n: nat, beyond: int -> int)
    requires Core(s, flat, -1) && space in s.spaces && n == |s.spaces[space].pages| && vpn <= n && Invalid(s.spaces[space].pages, vpn)
    ensures var pages := s.spaces[space].pages;
            var t := DestroyLoop(s, space, vpn, n, AsWritten(beyond));
            && t.fifo == EraseTimes(s.fifo, pages, beyond, |Frames(pages)|) && |t.used| == |s.used|
            && forall p :: 0 <= p < |s.used| ==> (t.used[p] <==> s.used[p] && p !in Frames(pages))
    decreases n - vpn
  {
    hide Core, Release, Frames, EraseTimes, Apart;
    CoreShape(s, flat, -1);
    var pages := s.spaces[space].pages;
    if vpn == n {
      NoFrames(pages);
      assert EraseTimes(s.fifo, pages, beyond, 0) == s.fifo by { EraseNone(s.fifo, pages, beyond); }
    } else {
      var e := PageOf(s, space, vpn);
      var fifo := Erased(s, space, e.ppn, AsWritten(beyond));
      var t := Release(s, space, vpn, fifo);
      ReleaseKeeps(s, flat, space, vpn, fifo);
      ReleaseQueue(s, flat, space, vpn, fifo);
      PagesApart(s, flat, space);
      FreedFrames(pages, vpn);
      ReleasedPagesAre(s, t, space, vpn);
      var after := t.spaces[space].pages;
      DestroyQueue(t, flat, space, vpn + 1, n, beyond);
      SameSearches(t.fifo, pages, after, beyond, |Frames(after)|);
      if IsResident(e) {
        assert |Frames(pages)| == |Frames(after)| + 1;
        EraseOnce(s.fifo, pages, beyond, |Frames(pages)|);
      }
    }
  }

  lemma EraseNone(q: seq<int>, pages: seq<PageEntry>, beyond: int -> int)
    ensures EraseTimes(q, pages, beyond, 0) == q
  {
  }

  lemma EraseOnce(q: seq<int>, pages: seq<PageEntry>, beyond: int -> int, n: nat)
    requires n > 0
    ensures EraseTimes(q, pages, beyond, n) == EraseTimes(EraseByIndex(q, pages, beyond, 0), pages, beyond, n - 1)
  {
  }

  lemma NoFrames(pages: seq<PageEntry>)
    requires Invalid(pages, |pages|)
    ensures Frames(pages) == {}
  {
  }

  lemma ReleasedPagesAre(s: Pager, t: Pager, space: int, vpn: nat)
    requires space in s.spaces && vpn < |s.spaces[space].pages| && SameSpaces(s, t) && Invalid(s.spaces[space].pages, vpn)
    requires forall q, w :: HasPage(s, q, w) ==>
               PageOf(t, q, w) == if q == space && w == vpn then PageOf(s, q, w).(valid := false) else PageOf(s, q, w)
    ensures space in t.spaces && t.spaces[space].pages == s.spaces[space].pages[vpn := s.spaces[space].pages[vpn].(valid := false)]
    ensures Invalid(t.spaces[space].pages, vpn + 1)
  {
    assert forall w :: 0 <= w < |s.spaces[space].pages| ==> HasPage(s, space, w) && t.spaces[space].pages[w] == PageOf(t, space, w);
  }

  // ---- destruction, and every run ----

  /** What destroying does no harm under, as the queue and the page table are before it. */
  predicate ErasesRight(s: Pager, a: Action) {
    a.Remove? && a.how.AsWritten? && a.space in s.spaces ==>
      ErasesOwn(s.fifo, s.spaces[a.space].pages, a.how.beyond, Frames(s.spaces[a.space].pages))
  }

  lemma DestroyOldestIff(s: Pager, flat: Flat, space: int, beyond: int -> int, c: Clock)
    requires Ok(s, flat) && Shape(s) && Oldest(s, c) && space in s.spaces
    ensures Oldest(Destroy(s, space, AsWritten(beyond)), c) <==>
              ErasesOwn(s.fifo, s.spaces[space].pages, beyond, Frames(s.spaces[space].pages))
  {
    hide Core, TLBOk, Frames, DestroyLoop, InLoadOrder, ErasesOwn, EraseTimes;
    var pages := s.spaces[space].pages;
    var own := Frames(pages);
    var t := DestroyLoop(s, space, 0, |pages|, AsWritten(beyond));
    DestroyQueue(s, flat, space, 0, |pages|, beyond);
    PagesApart(s, flat, space);
    FlushQueue(t);
    RidIffErasesOwn(s.fifo, pages, beyond, own);
    EraseTimesWithin(s.fifo, pages, beyond, |own|);
    EraseTimesOrdered(s.fifo, pages, beyond, |own|, c.times, c.now);
    CoreShape(s, flat, -1);
    assert Exact(t.fifo, t.used) <==> Rid(t.fifo, s.fifo, own);
  }

  lemma StepOldestIff(s: Pager, flat: Flat, a: Action, c: Clock)
    requires Ok(s, flat) && Oldest(s, c) && Shape(s) && Sensible(s, a) && Next(s, a).Some?
    ensures Oldest(Next(s, a).value, Tick(s, a, c)) <==> ErasesRight(s, a)
  {
    hide Ok, Oldest, Destroy, ErasesOwn, Frames, HandleTLBMiss, Touchable, ReadMem, WriteMem;
    if a.Remove? && a.how.AsWritten? {
      DestroyOldestIff(s, flat, a.space, a.how.beyond, c);
    } else {
      StepOldest(s, flat, a, c);
    }
  }

  /** At every Remove of the run, each search erases one of the space's own frames. */
  ghost predicate ErasesRightRun(s: Pager, acts: seq<Action>)
    decreases |acts|
  {
    acts == []
    || (Shape(s) && Sensible(s, acts[0]) && ErasesRight(s, acts[0])
        && (Next(s, acts[0]).Some? ==> ErasesRightRun(Next(s, acts[0]).value, acts[1..])))
  }

  lemma {:induction false} RunOldestIff(s: Pager, flat: Flat, c: Clock, acts: seq<Action>)
    requires Ok(s, flat) && Oldest(s, c) && SensibleRun(s, acts)
    ensures AlwaysOldest(s, c, acts) <==> ErasesRightRun(s, acts)
    decreases |acts|
  {
    hide Ok, Next, NextFlat, Sensible, Oldest, Tick, ErasesRight;
    if acts != [] {
      OkShape(s, flat);
      OldestSize(s, c);
      if Next(s, acts[0]).Some? {
        StepKeeps2(s, flat, acts[0]);
        StepOldestIff(s, flat, acts[0], c);
        if ErasesRight(s, acts[0]) {
          RunOldestIff(Next(s, acts[0]).value, NextFlat(s, flat, acts[0]), Tick(s, acts[0], c), acts[1..]);
        } else {
          NotOldest(Next(s, acts[0]).value, Tick(s, acts[0], c), acts[1..]);
        }
      } else {
        NeverStops(s, acts[0]);
      }
    }
  }

  lemma NotOldest(s: Pager, c: Clock, acts: seq<Action>)
    requires !Oldest(s, c)
    ensures !AlwaysOldest(s, c, acts)
  {
  }

  /** Only accesses stop the machine. */
  lemma NeverStops(s: Pager, a: Action)
    requires Shape(s) && Sensible(s, a) && Next(s, a).None?
    ensures ErasesRight(s, a)
  {
  }

  /** FIFO eviction with the destructor as it is written: in a run from boot the queue is at every point the
      frames in use in load order if and only if, at each destruction, each search erases one of the
      space's own frames. */
  lemma LoadOrderIffErasesOwn(s: Pager, times: seq<int>, acts: seq<Action>)
    requires Boot(s) && SensibleRun(s, acts) && |times| == FRAMES
    ensures AlwaysOldest(s, Clock(0, times), acts) <==> ErasesRightRun(s, acts)
  {
    hide SensibleRun, AlwaysOldest, Ok, ErasesRightRun;
    BootOk(s);
    BootQueue(s);
    RunOldestIff(s, map[], Clock(0, times), acts);
  }
}
