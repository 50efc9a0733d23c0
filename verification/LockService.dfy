/** The lock operations one server runs, in any order and on any slots: waiting requesters are
    granted in arrival order, and a lock leaves its holder only by the holder's own release. What
    is said of a request is read off the replies it causes. */
module LockService {
  import opened Options
  import opened Wire
  import opened Tables
  import opened Protocol
  import opened Waiters
  import opened Seqs

  datatype LockOp = LockOp(slot: int, client: Client, req: Request)

  predicate IsLockOp(o: LockOp) { o.req.Acquire? || o.req.Release? || o.req.DestroyLock? }

  type LockOps = ops: seq<LockOp> | forall k :: 0 <= k < |ops| ==> IsLockOp(ops[k])

  /** Which other machines are up plays no part. */
  function Run1(s: Server, o: LockOp): Eff
    requires IsLockOp(o)
  {
    Do(s, {}, o.slot, o.client, o.req)
  }

  function Serve(s: Server, ops: LockOps): Server
    decreases |ops|
  {
    if ops == [] then s else Serve(Run1(s, ops[0]).s, ops[1..])
  }

  function QueueOf(s: Server, k: int): seq<Client> {
    if Live(s.locks.slots, k) then s.locks.slots[k].value.data.q else []
  }

  function Holder(s: Server, k: int): Option<Client> {
    if Live(s.locks.slots, k) && s.locks.slots[k].value.data.busy then Some(s.locks.slots[k].value.data.owner) else None
  }

  /** The client whose acquire of slot k this operation leaves unanswered. */
  function LeftBy(s: Server, o: LockOp, k: int): seq<Client>
    requires IsLockOp(o)
  {
    if o.slot == k && o.req.Acquire? && |Run1(s, o).out| == 1 then [o.client] else []
  }

  /** The client answered because this operation released slot k. */
  function HandedBy(s: Server, o: LockOp, k: int): seq<Client>
    requires IsLockOp(o)
  {
    var out := Run1(s, o).out;
    if o.slot == k && o.req.Release? && |out| == 2 && out[1].Answer? then [out[1].client] else []
  }

  function LeftWaiting(s: Server, ops: LockOps, k: int): seq<Client>
    decreases |ops|
  {
    if ops == [] then [] else LeftBy(s, ops[0], k) + LeftWaiting(Run1(s, ops[0]).s, ops[1..], k)
  }

  function HandedTo(s: Server, ops: LockOps, k: int): seq<Client>
    decreases |ops|
  {
    if ops == [] then [] else HandedBy(s, ops[0], k) + HandedTo(Run1(s, ops[0]).s, ops[1..], k)
  }

  /** One operation on slot j, seen from slot k. */
  lemma OtherSlot(s: Server, o: LockOp, k: int)
    requires IsLockOp(o) && o.slot != k
    ensures var t := Run1(s, o).s;
            && Live(t.locks.slots, k) == Live(s.locks.slots, k)
            && (Live(s.locks.slots, k) ==> t.locks.slots[k] == s.locks.slots[k])
  {
  }

  lemma OneInOrder(s: Server, o: LockOp, k: int)
    requires IsLockOp(o) && LocksIdle(s.locks)
    ensures QueueOf(s, k) + LeftBy(s, o, k) == HandedBy(s, o, k) + QueueOf(Run1(s, o).s, k)
    ensures LocksIdle(Run1(s, o).s.locks)
  {
    if o.slot != k {
      OtherSlot(s, o, k);
    } else if Live(s.locks.slots, k) {
      assert IdleOk(s.locks.slots[k].value.data);
    }
    OneKeepsIdle(s, o);
  }

  lemma OneKeepsIdle(s: Server, o: LockOp)
    requires IsLockOp(o) && LocksIdle(s.locks)
    ensures LocksIdle(Run1(s, o).s.locks)
  {
    var t := Run1(s, o).s;
    forall j | Live(t.locks.slots, j) ensures IdleOk(t.locks.slots[j].value.data) {
      if o.slot != j { OtherSlot(s, o, j); }
      assert Live(s.locks.slots, j) && IdleOk(s.locks.slots[j].value.data);
    }
  }

  /** First come, first served: those waiting at the start and those left waiting since are, in
      order, those the lock was handed to and those still waiting. */
  lemma {:induction false} FirstComeFirstServed(s: Server, ops: LockOps, k: int)
    requires LocksIdle(s.locks)
    ensures QueueOf(s, k) + LeftWaiting(s, ops, k) == HandedTo(s, ops, k) + QueueOf(Serve(s, ops), k)
    ensures LocksIdle(Serve(s, ops).locks)
    decreases |ops|
  {
    hide Run1, QueueOf, LocksIdle, LeftBy, HandedBy;
    if ops != [] {
      var t := Run1(s, ops[0]).s;
      OneInOrder(s, ops[0], k);
      FirstComeFirstServed(t, ops[1..], k);
      Regroup(QueueOf(s, k), LeftBy(s, ops[0], k), LeftWaiting(t, ops[1..], k), HandedBy(s, ops[0], k), QueueOf(t, k),
              HandedTo(t, ops[1..], k), QueueOf(Serve(s, ops), k));
    }
  }

  /** An acquire of slot k was granted to c by this operation. */
  predicate Grants(s: Server, o: LockOp, k: int, c: Client)
    requires IsLockOp(o)
  {
    var e := Run1(s, o);
    o.slot == k && exists j :: 0 <= j < |e.out| && e.out[j].Answer? && e.out[j].to.Acquire? && e.out[j].reply == Status(true) && e.out[j].client == c
  }

  lemma OneHolder(s: Server, o: LockOp, k: int)
    requires IsLockOp(o)
    ensures var t := Run1(s, o).s;
            && (Holder(s, k).Some? && Holder(t, k) != Holder(s, k) ==>
                  o.slot == k && o.req.Release? && Some(o.client) == Holder(s, k))
            && forall c :: Grants(s, o, k, c) ==> Holder(t, k) == Some(c)
  {
    if o.slot != k { OtherSlot(s, o, k); }
  }

  /** Mutual exclusion: until the holder itself releases, it stays the holder and nobody else is
      granted the lock. */
  lemma {:induction false} HeldUntilReleased(s: Server, ops: LockOps, k: int, h: Client, n: nat)
    requires Holder(s, k) == Some(h) && n <= |ops|
    requires forall j :: 0 <= j < n ==> !(ops[j].slot == k && ops[j].client == h && ops[j].req.Release?)
    ensures Holder(Serve(s, ops[..n]), k) == Some(h)
    ensures forall c :: n < |ops| && c != h && Grants(Serve(s, ops[..n]), ops[n], k, c) ==>
              (ops[n].client == h && ops[n].req.Release?)
    decreases n
  {
    hide Run1, Holder, Grants;
    if n == 0 {
      if |ops| > 0 { OneHolder(s, ops[0], k); }
    } else {
      OneHolder(s, ops[0], k);
      HeldUntilReleased(Run1(s, ops[0]).s, ops[1..], k, h, n - 1);
      assert ops[..n][1..] == ops[1..][..n - 1];
    }
  }

  /** A lock disappears only when it is marked (or being marked), its create count comes to zero,
      nobody waits for it, and it is free or its holder is just releasing it. */
  lemma DeletedOnlyWhenUnused(s: Server, o: LockOp, k: int)
    requires IsLockOp(o) && LocksIdle(s.locks)
    requires Live(s.locks.slots, k) && !Live(Run1(s, o).s.locks.slots, k)
    ensures var l := s.locks.slots[k].value;
            && o.slot == k && QueueOf(s, k) == []
            && (l.data.toBeDestroyed || o.req.DestroyLock?)
            && l.count == (if o.req.DestroyLock? then 1 else 0)
            && (Holder(s, k).None? || (o.req.Release? && Holder(s, k) == Some(o.client)))
  {
    if o.slot != k { OtherSlot(s, o, k); }
    assert IdleOk(s.locks.slots[k].value.data);
  }

  /** What an acquire does: a lock that is free or the client's own is granted at once; otherwise the client
      goes to the end of the queue, with no answer yet; and a slot with no lock is answered with a failure. */
  lemma AcquireAnswers(s: Server, o: LockOp, k: int)
    requires o.req.Acquire? && o.slot == k
    ensures var e := Run1(s, o);
            var ran := Ran(k, o.client, o.req);
            if !Live(s.locks.slots, k) then e == Eff(s, [ran, Answer(o.client, o.req, Status(false))])
            else if Holder(s, k) in {None, Some(o.client)} then
              && e.out == [ran, Answer(o.client, o.req, Status(true))]
              && Holder(e.s, k) == Some(o.client) && QueueOf(e.s, k) == QueueOf(s, k)
            else e.out == [ran] && Holder(e.s, k) == Holder(s, k) && QueueOf(e.s, k) == QueueOf(s, k) + [o.client]
  {
  }

  /** What a release does: the holder's hands the lock to the client that waited longest, which is told so, or
      frees it when nobody waits; anybody else's changes nothing. */
  lemma ReleaseHandsOver(s: Server, o: LockOp, k: int)
    requires o.req.Release? && o.slot == k
    ensures var e := Run1(s, o);
            var ran := Ran(k, o.client, o.req);
            if Holder(s, k) != Some(o.client) then e == Eff(s, [ran])
            else if QueueOf(s, k) == [] then e.out == [ran] && Holder(e.s, k) == None && QueueOf(e.s, k) == []
            else
              var next := QueueOf(s, k)[0];
              && e.out == [ran, Answer(next, Acquire(Encode(s.me, k)), Status(true))]
              && Holder(e.s, k) == Some(next) && QueueOf(e.s, k) == QueueOf(s, k)[1..]
  {
  }
}
