/** No client is lost or served twice: what a server's queues hold, against what it was asked to
    do and what it answered. Any requests, including destroys, and any identifiers. */
module Waiters {
  import opened Options
  import opened Wire
  import opened Tables
  import opened Protocol
  import opened Seqs

  // ---- counting ----

  /** The events that put a client into a queue or take it out of one; the last two are about one lock
      slot of server `me`. */
  datatype Event =
    | AcquireRun(c: Client) | AcquireAnswered(c: Client) | AcquireIssued(c: Client) | ReleaseIssued(c: Client)
    | RunOn(slot: int, c: Client) | AnsweredOn(up: set<int>, me: int, slot: int, c: Client)

  function Shows(o: Out, v: Event): nat {
    match v
    case AcquireRun(c) => if o.Ran? && o.caller == c && o.what.Acquire? then 1 else 0
    case AcquireAnswered(c) => if o.Answer? && o.client == c && o.to.Acquire? then 1 else 0
    case AcquireIssued(c) => if o.Issued? && o.issuer == c && o.what.Acquire? then 1 else 0
    case ReleaseIssued(c) => if o.Issued? && o.issuer == c && o.what.Release? then 1 else 0
    case RunOn(i, c) => if o.Ran? && o.caller == c && o.what.Acquire? && o.slot == i then 1 else 0
    case AnsweredOn(up, me, i, c) => if o.Answer? && o.client == c && o.to.Acquire? && SlotFor(up, me, o.to.lock) == i then 1 else 0
  }

  function Tally(out: seq<Out>, v: Event): nat {
    if out == [] then 0 else Shows(out[0], v) + Tally(out[1..], v)
  }

  function LockQueue(e: Option<Entry<LockData>>): seq<Client> {
    if e.Some? then e.value.data.q else []
  }

  function CVQueue(e: Option<Entry<CVData>>): seq<Client> {
    if e.Some? then e.value.data.q else []
  }

  /** How often the client waits in the queues of a lock table, and of a CV table. */
  function LockWaits(slots: seq<Option<Entry<LockData>>>, c: Client): nat {
    if slots == [] then 0 else Times(LockQueue(slots[0]), c) + LockWaits(slots[1..], c)
  }

  function CVWaits(slots: seq<Option<Entry<CVData>>>, c: Client): nat {
    if slots == [] then 0 else Times(CVQueue(slots[0]), c) + CVWaits(slots[1..], c)
  }

  lemma {:induction false} TallyAppend(a: seq<Out>, b: seq<Out>, v: Event)
    ensures Tally(a + b, v) == Tally(a, v) + Tally(b, v)
  {
    if a == [] {
      assert a + b == b;
    } else {
      assert (a + b)[0] == a[0] && (a + b)[1..] == a[1..] + b;
      TallyAppend(a[1..], b, v);
    }
  }

  lemma TallyOne(o: Out, v: Event)
    ensures Tally([o], v) == Shows(o, v)
  {
    assert [o][1..] == [];
  }

  lemma {:induction false} LockWaitsAt(slots: seq<Option<Entry<LockData>>>, i: int, e: Option<Entry<LockData>>, c: Client)
    requires 0 <= i < |slots|
    ensures LockWaits(slots[i := e], c) + Times(LockQueue(slots[i]), c) == LockWaits(slots, c) + Times(LockQueue(e), c)
  {
    if i > 0 {
      LockWaitsAt(slots[1..], i - 1, e, c);
      assert slots[i := e][1..] == slots[1..][i - 1 := e];
    } else {
      assert slots[i := e][1..] == slots[1..];
    }
  }

  lemma {:induction false} LockWaitsPush(slots: seq<Option<Entry<LockData>>>, e: Option<Entry<LockData>>, c: Client)
    ensures LockWaits(slots + [e], c) == LockWaits(slots, c) + Times(LockQueue(e), c)
  {
    if slots == [] {
      assert slots + [e] == [e] && [e][1..] == [];
    } else {
      assert (slots + [e])[0] == slots[0] && (slots + [e])[1..] == slots[1..] + [e];
      LockWaitsPush(slots[1..], e, c);
    }
  }

  lemma {:induction false} CVWaitsAt(slots: seq<Option<Entry<CVData>>>, i: int, e: Option<Entry<CVData>>, c: Client)
    requires 0 <= i < |slots|
    ensures CVWaits(slots[i := e], c) + Times(CVQueue(slots[i]), c) == CVWaits(slots, c) + Times(CVQueue(e), c)
  {
    if i > 0 {
      CVWaitsAt(slots[1..], i - 1, e, c);
      assert slots[i := e][1..] == slots[1..][i - 1 := e];
    } else {
      assert slots[i := e][1..] == slots[1..];
    }
  }

  lemma {:induction false} CVWaitsPush(slots: seq<Option<Entry<CVData>>>, e: Option<Entry<CVData>>, c: Client)
    ensures CVWaits(slots + [e], c) == CVWaits(slots, c) + Times(CVQueue(e), c)
  {
    if slots == [] {
      assert slots + [e] == [e] && [e][1..] == [];
    } else {
      assert (slots + [e])[0] == slots[0] && (slots + [e])[1..] == slots[1..] + [e];
      CVWaitsPush(slots[1..], e, c);
    }
  }

  // ---- what every operation keeps ----

  /** A lock that is free has no one waiting for it. */
  predicate IdleOk(d: LockData) { d.busy || d.q == [] }

  ghost predicate LocksIdle(t: Table<LockData>) {
    forall i :: Live(t.slots, i) ==> IdleOk(t.slots[i].value.data)
  }

  ghost predicate Sound(s: Server) {
    TableOk(s.locks) && TableOk(s.cvs) && TableOk(s.mvs) && LocksIdle(s.locks)
  }

  /** A client enters a lock queue by an acquire that runs here without an answer, and leaves it by
      an answer; it enters a CV queue with a release in its name, and leaves it with an acquire in
      its name. */
  ghost predicate Balanced(s: Server, e: Eff) {
    && e.s.me == s.me && (Sound(s) ==> Sound(e.s))
    && (Sound(s) ==> forall c :: LockWaits(e.s.locks.slots, c) + Tally(e.out, AcquireAnswered(c))
                              == LockWaits(s.locks.slots, c) + Tally(e.out, AcquireRun(c)))
    && (Sound(s) ==> forall c :: CVWaits(e.s.cvs.slots, c) + Tally(e.out, AcquireIssued(c))
                              == CVWaits(s.cvs.slots, c) + Tally(e.out, ReleaseIssued(c)))
  }

  lemma BalancedCompose(s: Server, a: Eff, b: Eff)
    requires Balanced(s, a) && Balanced(a.s, b)
    ensures Balanced(s, Eff(b.s, a.out + b.out))
  {
    hide Sound, LockWaits, CVWaits, Tally;
    forall v ensures Tally(a.out + b.out, v) == Tally(a.out, v) + Tally(b.out, v) { TallyAppend(a.out, b.out, v); }
  }

  /** Nothing the two laws count. */
  predicate Plain(o: Out) {
    && !(o.Ran? && o.what.Acquire?) && !(o.Answer? && o.to.Acquire?)
    && !(o.Issued? && (o.what.Acquire? || o.what.Release?))
  }

  ghost predicate AllPlain(out: seq<Out>) {
    forall k :: 0 <= k < |out| ==> Plain(out[k])
  }

  lemma {:induction false} PlainTally(out: seq<Out>, v: Event)
    requires AllPlain(out)
    ensures Tally(out, v) == 0
  {
    if out != [] { PlainTally(out[1..], v); }
  }

  /** An effect that leaves the two tables alone and shows nothing that counts. */
  lemma BalancedPlain(s: Server, e: Eff)
    requires e.s.me == s.me && e.s.locks == s.locks && e.s.cvs == s.cvs && (Sound(s) ==> TableOk(e.s.mvs)) && AllPlain(e.out)
    ensures Balanced(s, e)
  {
    hide LockWaits, CVWaits, Tally, AllPlain;
    forall v ensures Tally(e.out, v) == 0 { PlainTally(e.out, v); }
  }

  lemma BalancedAround(s: Server, e: Eff, a: seq<Out>, b: seq<Out>)
    requires Balanced(s, e) && AllPlain(a) && AllPlain(b)
    ensures Balanced(s, Eff(e.s, a + e.out + b))
  {
    hide LockWaits, CVWaits, Tally, AllPlain, Sound;
    forall v ensures Tally(a + e.out + b, v) == Tally(e.out, v) {
      TallyAppend(a, e.out, v);
      TallyAppend(a + e.out, b, v);
      PlainTally(a, v);
      PlainTally(b, v);
    }
  }

  // ---- locks ----

  /** Changing one lock's queue. */
  lemma SetLockWaits(s: Server, i: int, d: LockData, c: Client)
    requires Live(s.locks.slots, i)
    ensures LockWaits(SetLock(s, i, d).locks.slots, c) + Times(s.locks.slots[i].value.data.q, c)
         == LockWaits(s.locks.slots, c) + Times(d.q, c)
  {
    LockWaitsAt(s.locks.slots, i, Some(s.locks.slots[i].value.(data := d)), c);
  }

  lemma SetLockSound(s: Server, i: int, d: LockData)
    requires Live(s.locks.slots, i) && IdleOk(d)
    ensures Sound(s) ==> Sound(SetLock(s, i, d))
  {
    UpdateOk(s.locks, i, s.locks.slots[i].value.(data := d));
  }

  lemma DeleteLockBalanced(s: Server, i: int, out: seq<Out>)
    requires Live(s.locks.slots, i) && !s.locks.slots[i].value.data.busy && AllPlain(out)
    ensures Balanced(s, Eff(s.(locks := Delete(s.locks, i)), out))
  {
    hide LockWaits, CVWaits, Tally, AllPlain;
    forall v ensures Tally(out, v) == 0 { PlainTally(out, v); }
    if Sound(s) {
      DeleteOk(s.locks, i);
      assert IdleOk(s.locks.slots[i].value.data);
      forall c ensures LockWaits(Delete(s.locks, i).slots, c) == LockWaits(s.locks.slots, c) {
        LockWaitsAt(s.locks.slots, i, None, c);
      }
    }
  }

  /** Updating a lock without touching its queue. */
  lemma UpdateLockBalanced(s: Server, i: int, l: Entry<LockData>, out: seq<Out>)
    requires Live(s.locks.slots, i) && l.name == s.locks.slots[i].value.name && AllPlain(out)
    requires l.data.q == s.locks.slots[i].value.data.q
    requires l.data.busy == s.locks.slots[i].value.data.busy || l.data.q == []
    ensures Balanced(s, Eff(s.(locks := Update(s.locks, i, l)), out))
  {
    hide LockWaits, CVWaits, Tally, AllPlain;
    forall v ensures Tally(out, v) == 0 { PlainTally(out, v); }
    UpdateOk(s.locks, i, l);
    forall c ensures LockWaits(Update(s.locks, i, l).slots, c) == LockWaits(s.locks.slots, c) {
      LockWaitsAt(s.locks.slots, i, Some(l), c);
    }
  }

  lemma CheckDestroyBalanced(s: Server, i: int)
    requires Live(s.locks.slots, i)
    ensures Balanced(s, Eff(CheckLockAndDestroy(s, i), []))
  {
    hide Balanced;
    if CheckLockAndDestroy(s, i) == s { BalancedPlain(s, Eff(s, [])); } else { DeleteLockBalanced(s, i, []); }
  }

  lemma AnswerTally(c: Client, req: Request, i: int, d: Client)
    requires req.Acquire?
    ensures var out := [Ran(i, c, req), Answer(c, req, Status(true))];
            var bad := [Ran(i, c, req), Answer(c, req, Status(false))];
            var none := [Ran(i, c, req)];
            && Tally(out, AcquireAnswered(d)) == Tally(out, AcquireRun(d))
            && Tally(bad, AcquireAnswered(d)) == Tally(bad, AcquireRun(d))
            && Tally(none, AcquireAnswered(d)) == 0 && Tally(none, AcquireRun(d)) == (if c == d then 1 else 0)
            && forall v: Event :: v.AcquireIssued? || v.ReleaseIssued? ==> Tally(out, v) == 0 && Tally(bad, v) == 0 && Tally(none, v) == 0
  {
    forall v: Event, r: Reply ensures Tally([Ran(i, c, req), Answer(c, req, r)], v) == Shows(Ran(i, c, req), v) + Shows(Answer(c, req, r), v) {
      assert [Ran(i, c, req), Answer(c, req, r)][1..] == [Answer(c, req, r)];
      TallyOne(Answer(c, req, r), v);
    }
    forall v ensures Tally([Ran(i, c, req)], v) == Shows(Ran(i, c, req), v) { TallyOne(Ran(i, c, req), v); }
  }

  lemma AcquireBalanced(s: Server, i: int, c: Client, req: Request)
    requires req.Acquire?
    ensures Balanced(s, DoLock(s, i, c, req))
  {
    hide LockWaits, CVWaits, Tally, Sound;
    forall d ensures var out := [Ran(i, c, req), Answer(c, req, Status(true))];
            var bad := [Ran(i, c, req), Answer(c, req, Status(false))];
            var none := [Ran(i, c, req)];
            && Tally(out, AcquireAnswered(d)) == Tally(out, AcquireRun(d))
            && Tally(bad, AcquireAnswered(d)) == Tally(bad, AcquireRun(d))
            && Tally(none, AcquireAnswered(d)) == 0 && Tally(none, AcquireRun(d)) == (if c == d then 1 else 0)
            && Tally(out, AcquireIssued(d)) == 0 && Tally(bad, AcquireIssued(d)) == 0 && Tally(none, AcquireIssued(d)) == 0
            && Tally(out, ReleaseIssued(d)) == 0 && Tally(bad, ReleaseIssued(d)) == 0 && Tally(none, ReleaseIssued(d)) == 0
    {
      AnswerTally(c, req, i, d);
    }
    var e := DoLock(s, i, c, req);
    if Live(s.locks.slots, i) {
      var d := s.locks.slots[i].value.data;
      if d.busy && d.owner != c {
        SetLockSound(s, i, d.(q := d.q + [c]));
        assert e == Eff(SetLock(s, i, d.(q := d.q + [c])), [Ran(i, c, req)]);
        forall x ensures LockWaits(e.s.locks.slots, x) == LockWaits(s.locks.slots, x) + if c == x then 1 else 0 {
          SetLockWaits(s, i, d.(q := d.q + [c]), x);
          TimesPush(d.q, c, x);
        }
      } else if !d.busy {
        SetLockSound(s, i, d.(busy := true, owner := c));
        forall x ensures LockWaits(SetLock(s, i, d.(busy := true, owner := c)).locks.slots, x) == LockWaits(s.locks.slots, x) {
          SetLockWaits(s, i, d.(busy := true, owner := c), x);
        }
        assert e.out == [Ran(i, c, req), Answer(c, req, Status(true))];
      } else {
        assert e.out == [Ran(i, c, req), Answer(c, req, Status(true))];
      }
    } else {
      assert e.out == [Ran(i, c, req), Answer(c, req, Status(false))];
    }
  }

  /** The owner's release hands the lock to the first in the queue, who gets an answer. */
  lemma HandOverBalanced(s: Server, i: int, r: Request)
    requires Live(s.locks.slots, i) && r.Acquire?
    requires s.locks.slots[i].value.data.busy && s.locks.slots[i].value.data.q != []
    ensures var d := s.locks.slots[i].value.data;
            Balanced(s, Eff(SetLock(s, i, d.(owner := d.q[0], q := d.q[1..])), [Answer(d.q[0], r, Status(true))]))
  {
    hide LockWaits, CVWaits, Tally, Sound;
    var d := s.locks.slots[i].value.data;
    var e := d.(owner := d.q[0], q := d.q[1..]);
    var a := Answer(d.q[0], r, Status(true));
    SetLockSound(s, i, e);
    forall v ensures Tally([a], v) == Shows(a, v) { TallyOne(a, v); }
    forall x ensures LockWaits(SetLock(s, i, e).locks.slots, x) + (if d.q[0] == x then 1 else 0) == LockWaits(s.locks.slots, x) {
      SetLockWaits(s, i, e, x);
    }
  }

  lemma ReleaseBalanced(s: Server, i: int, c: Client, req: Request)
    requires req.Release?
    ensures Balanced(s, DoLock(s, i, c, req))
  {
    hide Balanced;
    var e := DoRelease(s, i, c);
    BalancedPlain(s, Eff(s, []));
    if Live(s.locks.slots, i) {
      var d := s.locks.slots[i].value.data;
      if d.busy && d.owner == c {
        if d.q != [] {
          HandOverBalanced(s, i, Acquire(Encode(s.me, i)));
        } else {
          UpdateLockBalanced(s, i, s.locks.slots[i].value.(data := d.(busy := false)), []);
          CheckDestroyBalanced(SetLock(s, i, d.(busy := false)), i);
          BalancedCompose(s, Eff(SetLock(s, i, d.(busy := false)), []), Eff(e.s, []));
          assert [] + [] == e.out;
        }
      }
    }
    BalancedAround(s, e, [Ran(i, c, req)], []);
    assert [Ran(i, c, req)] + e.out + [] == [Ran(i, c, req)] + e.out;
  }

  lemma DestroyLockBalanced(s: Server, i: int, c: Client, req: Request)
    requires req.DestroyLock?
    ensures Balanced(s, DoLock(s, i, c, req))
  {
    hide Balanced;
    var e := DoDestroyLock(s, i);
    BalancedPlain(s, Eff(s, []));
    if Live(s.locks.slots, i) {
      var l := s.locks.slots[i].value;
      var marked := l.(data := l.data.(toBeDestroyed := true), count := l.count - 1);
      UpdateLockBalanced(s, i, marked, []);
      CheckDestroyBalanced(s.(locks := Update(s.locks, i, marked)), i);
      BalancedCompose(s, Eff(s.(locks := Update(s.locks, i, marked)), []), Eff(e.s, []));
      assert [] + [] == e.out;
    }
    BalancedAround(s, e, [Ran(i, c, req)], []);
    assert [Ran(i, c, req)] + e.out + [] == [Ran(i, c, req)] + e.out;
  }

  lemma DoLockBalanced(s: Server, i: int, c: Client, req: Request)
    requires req.Acquire? || req.Release? || req.DestroyLock?
    ensures Balanced(s, DoLock(s, i, c, req))
  {
    hide Balanced, DoLock;
    match req
    case Acquire(_) => AcquireBalanced(s, i, c, req);
    case Release(_) => ReleaseBalanced(s, i, c, req);
    case DestroyLock(_) => DestroyLockBalanced(s, i, c, req);
  }
}
