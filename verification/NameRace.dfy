/** The creation of one name as seen by two servers: `lo`, the one with the smaller machine id,
    and `hi`. Everything that does not concern the name is projected away. */
module NameRace {
  import opened Wire
  import opened Protocol

  type Job = (Client, Request)

  datatype Race = Race(
    kind: Kind, name: string,
    ownLo: bool, ownHi: bool,
    lo: seq<Pending>, hi: seq<Pending>,      // the pending creates of the name
    toHi: seq<Msg>, toLo: seq<Msg>,          // the messages about the name
    nextLo: int, nextHi: int,
    issued: multiset<Job>, answered: multiset<Job>)

  datatype Move = ClientLo(c: Client, req: Request) | ClientHi(c: Client, req: Request) | AtHi | AtLo

  // ---- views of the queues ----

  predicate IsForwarded(p: Pending) { p.sentCount == 1 && p.noCount == 0 }
  predicate IsParked(p: Pending) { p.sentCount == -1 && p.noCount == 0 }

  function Forwarded(ps: seq<Pending>): seq<Ticket> {
    if ps == [] then []
    else (if IsForwarded(ps[0]) then [Ticket(ps[0].requestID, ps[0].client, ps[0].req)] else []) + Forwarded(ps[1..])
  }

  function Asks(q: seq<Msg>): seq<Ticket> {
    if q == [] then []
    else (if q[0].Ask? then [Ticket(q[0].requestID, q[0].client, q[0].req)] else []) + Asks(q[1..])
  }

  function Tells(q: seq<Msg>): seq<Ticket> {
    if q == [] then []
    else (if q[0].Tell? then [Ticket(q[0].requestID, q[0].client, q[0].req)] else []) + Tells(q[1..])
  }

  /** Every reply in the queue says the same. */
  predicate OnlyTells(q: seq<Msg>, yes: bool) {
    q == [] || ((q[0].Tell? ==> q[0].yes == yes) && OnlyTells(q[1..], yes))
  }

  function Jobs(ts: seq<Ticket>): multiset<Job> {
    if ts == [] then multiset{} else multiset{(ts[0].client, ts[0].req)} + Jobs(ts[1..])
  }

  function JobsOf(ps: seq<Pending>): multiset<Job> {
    if ps == [] then multiset{} else multiset{(ps[0].client, ps[0].req)} + JobsOf(ps[1..])
  }

  ghost predicate IsSuffix<T>(a: seq<T>, b: seq<T>) {
    |a| <= |b| && a == b[|b| - |a|..]
  }

  // ---- the moves ----

  function Answer1(x: Race, c: Client, req: Request): Race {
    x.(answered := x.answered + multiset{(c, req)})
  }

  function ClientAtLo(x: Race, c: Client, req: Request): Race {
    var y := x.(issued := x.issued + multiset{(c, req)});
    if x.ownLo then Answer1(y, c, req)
    else y.(lo := x.lo + [Pending(c, req, 1, 0, x.nextLo)], nextLo := x.nextLo + 1,
            toHi := x.toHi + [Ask(x.nextLo, c, req)])
  }

  function ClientAtHi(x: Race, c: Client, req: Request): Race {
    var y := x.(issued := x.issued + multiset{(c, req)});
    if x.ownHi then Answer1(y, c, req)
    else y.(hi := x.hi + [Pending(c, req, 1, 0, x.nextHi)], nextHi := x.nextHi + 1,
            toLo := x.toLo + [Ask(x.nextHi, c, req)])
  }

  function ReplyTo(m: Msg, yes: bool): Msg {
    Tell(m.requestID, m.client, m.req, yes)
  }

  function DeliverToLo(x: Race): Race
    requires x.toLo != []
  {
    var m := x.toLo[0];
    var y := x.(toLo := x.toLo[1..]);
    if m.Ask? then
      if x.ownLo then Answer1(y.(toHi := x.toHi + [ReplyTo(m, true)]), m.client, m.req)
      else if x.lo != [] then
        y.(toHi := x.toHi + [ReplyTo(m, true)],
           lo := x.lo + [Pending(m.client, m.req, -1, 0, x.nextLo)], nextLo := x.nextLo + 1)
      else y.(toHi := x.toHi + [ReplyTo(m, false)])
    else
      var i := FindPending(x.lo, m, 0);
      if i == -1 then y
      else if m.yes then y.(lo := [])
      else if x.lo[i].noCount + 1 == x.lo[i].sentCount then
        y.(lo := [], ownLo := true, answered := x.answered + JobsOf(x.lo))
      else y.(lo := x.lo[i := x.lo[i].(noCount := x.lo[i].noCount + 1)])
  }

  function DeliverToHi(x: Race): Race
    requires x.toHi != []
  {
    var m := x.toHi[0];
    var y := x.(toHi := x.toHi[1..]);
    if m.Ask? then
      if x.ownHi then Answer1(y.(toLo := x.toLo + [ReplyTo(m, true)]), m.client, m.req)
      else y.(toLo := x.toLo + [ReplyTo(m, false)])
    else
      var i := FindPending(x.hi, m, 0);
      if i == -1 then y
      else if m.yes then y.(hi := [])
      else if x.hi[i].noCount + 1 == x.hi[i].sentCount then
        y.(hi := [], ownHi := true, answered := x.answered + JobsOf(x.hi))
      else y.(hi := x.hi[i := x.hi[i].(noCount := x.hi[i].noCount + 1)])
  }

  predicate CanMove(x: Race, v: Move) {
    match v
    case ClientLo(_, req) => About(x, req)
    case ClientHi(_, req) => About(x, req)
    case AtHi => x.toHi != []
    case AtLo => x.toLo != []
  }

  function Moved(x: Race, v: Move): Race
    requires CanMove(x, v)
  {
    match v
    case ClientLo(c, req) => ClientAtLo(x, c, req)
    case ClientHi(c, req) => ClientAtHi(x, c, req)
    case AtHi => DeliverToHi(x)
    case AtLo => DeliverToLo(x)
  }

  // ---- the invariant ----

  /** Pending requests are numbered apart and concern one name. */
  ghost predicate Tidy(ps: seq<Pending>, next: int) {
    && (forall i :: 0 <= i < |ps| ==> ps[i].requestID < next && (IsForwarded(ps[i]) || IsParked(ps[i])))
    && (forall i, j :: 0 <= i < j < |ps| ==> ps[i].requestID < ps[j].requestID)
  }

  predicate About(x: Race, req: Request) {
    req.Create? && req.kind == x.kind && req.name == x.name
  }

  ghost predicate SameName(x: Race) {
    && (forall p :: p in x.lo ==> About(x, p.req))
    && (forall p :: p in x.hi ==> About(x, p.req))
    && (forall m :: m in x.toLo ==> About(x, m.req))
    && (forall m :: m in x.toHi ==> About(x, m.req))
  }

  /** What the argument looks at: the tags on their way each way, the tags and the work pending
      on each side, and which answers the queues hold. */
  datatype View = View(
    ownLo: bool, ownHi: bool,
    idleLo: bool, idleHi: bool,
    fwdLo: seq<Ticket>, fwdHi: seq<Ticket>,
    workLo: multiset<Job>, workHi: multiset<Job>,
    asksHi: seq<Ticket>, asksLo: seq<Ticket>,
    tellsHi: seq<Ticket>, tellsLo: seq<Ticket>,
    yesHi: bool,    // every answer on its way to hi is a YES
    noFirst: bool,  // the next message hi reads is a NO
    yesLo: bool, noLo: bool,
    issued: multiset<Job>, answered: multiset<Job>)

  ghost function ViewOf(x: Race): View {
    View(x.ownLo, x.ownHi, x.lo == [], x.hi == [],
         Forwarded(x.lo), Forwarded(x.hi), JobsOf(x.lo), JobsOf(x.hi),
         Asks(x.toHi), Asks(x.toLo), Tells(x.toHi), Tells(x.toLo),
         OnlyTells(x.toHi, true), x.toHi != [] && x.toHi[0].Tell? && !x.toHi[0].yes,
         OnlyTells(x.toLo, true), OnlyTells(x.toLo, false),
         x.issued, x.answered)
  }

  /** Nobody owns the name and `lo` has not given it away: `lo` is idle or about to win. */
  ghost predicate Open(v: View) {
    && !v.ownLo && !v.ownHi && v.yesHi && v.noLo
    && v.fwdLo == v.tellsLo + v.asksHi
    && (v.idleLo ==> v.tellsHi == [] && v.fwdHi == v.asksLo)
    && IsSuffix(v.fwdHi, v.tellsHi + v.asksLo)
    && v.issued == v.answered + v.workLo + Jobs(v.asksLo)
  }

  ghost predicate LoOwns(v: View) {
    && v.ownLo && !v.ownHi && v.idleLo && v.yesHi && v.noLo
    && IsSuffix(v.fwdHi, v.tellsHi + v.asksLo)
    && v.issued == v.answered + Jobs(v.asksLo)
  }

  /** `lo` has answered NO while idle: `hi` owns the name as soon as it reads that answer, and it
      reads it before any request `lo` sent later. */
  ghost predicate HiWins(v: View) {
    && !v.ownLo && !v.ownHi && v.noFirst && v.tellsLo == []
    && v.fwdLo == v.asksHi
    && v.fwdHi == v.tellsHi + v.asksLo
    && v.issued == v.answered + v.workHi + Jobs(v.asksHi)
  }

  ghost predicate HiOwns(v: View) {
    && !v.ownLo && v.ownHi && v.idleHi && v.yesLo
    && IsSuffix(v.fwdLo, v.tellsLo + v.asksHi)
    && v.issued == v.answered + Jobs(v.asksHi)
  }

  ghost predicate Phase(v: View) {
    Open(v) || LoOwns(v) || HiWins(v) || HiOwns(v)
  }

  ghost predicate Shape(x: Race) {
    && Tidy(x.lo, x.nextLo) && Tidy(x.hi, x.nextHi)
    && (forall i :: 0 <= i < |x.hi| ==> IsForwarded(x.hi[i]))
    && (x.lo != [] ==> Forwarded(x.lo) != [])
    && SameName(x)
  }

  ghost predicate Inv(x: Race) {
    Shape(x) && Phase(ViewOf(x))
  }

  // ---- lemmas about the views ----

  lemma ForwardedAppend(ps: seq<Pending>, p: Pending)
    ensures Forwarded(ps + [p]) == Forwarded(ps) + (if IsForwarded(p) then [Ticket(p.requestID, p.client, p.req)] else [])
    ensures JobsOf(ps + [p]) == JobsOf(ps) + multiset{(p.client, p.req)}
  {
    TagsAppend(ps, p);
    WorkAppend(ps, p);
  }

  lemma {:induction false} TagsAppend(ps: seq<Pending>, p: Pending)
    ensures Forwarded(ps + [p]) == Forwarded(ps) + (if IsForwarded(p) then [Ticket(p.requestID, p.client, p.req)] else [])
  {
    if ps == [] {
      assert ps + [p] == [p] && [p][1..] == [];
    } else {
      var last := if IsForwarded(p) then [Ticket(p.requestID, p.client, p.req)] else [];
      var first := if IsForwarded(ps[0]) then [Ticket(ps[0].requestID, ps[0].client, ps[0].req)] else [];
      assert (ps + [p])[0] == ps[0] && (ps + [p])[1..] == ps[1..] + [p];
      TagsAppend(ps[1..], p);
      assert first + (Forwarded(ps[1..]) + last) == (first + Forwarded(ps[1..])) + last;
    }
  }

  lemma {:induction false} WorkAppend(ps: seq<Pending>, p: Pending)
    ensures JobsOf(ps + [p]) == JobsOf(ps) + multiset{(p.client, p.req)}
  {
    if ps == [] {
      assert ps + [p] == [p];
    } else {
      assert (ps + [p])[0] == ps[0] && (ps + [p])[1..] == ps[1..] + [p];
      WorkAppend(ps[1..], p);
    }
  }

  lemma {:induction false} QueueAppend(q: seq<Msg>, m: Msg)
    ensures Asks(q + [m]) == Asks(q) + (if m.Ask? then [OnMessage(m)] else [])
    ensures Tells(q + [m]) == Tells(q) + (if m.Tell? then [OnMessage(m)] else [])
  {
    if q == [] {
      assert q + [m] == [m];
    } else {
      assert (q + [m])[0] == q[0] && (q + [m])[1..] == q[1..] + [m];
      QueueAppend(q[1..], m);
    }
  }

  lemma {:induction false} JobsAppend(ts: seq<Ticket>, t: Ticket)
    ensures Jobs(ts + [t]) == Jobs(ts) + multiset{(t.client, t.req)}
  {
    if ts == [] {
      assert ts + [t] == [t];
    } else {
      assert (ts + [t])[0] == ts[0] && (ts + [t])[1..] == ts[1..] + [t];
      JobsAppend(ts[1..], t);
    }
  }

  /** When everything pending is forwarded, the work of the list is the work of its tags. */
  lemma {:induction false} JobsOfForwarded(ps: seq<Pending>)
    requires forall i :: 0 <= i < |ps| ==> IsForwarded(ps[i])
    ensures JobsOf(ps) == Jobs(Forwarded(ps)) && |Forwarded(ps)| == |ps|
  {
    if ps != [] {
      var t := Ticket(ps[0].requestID, ps[0].client, ps[0].req);
      JobsOfForwarded(ps[1..]);
      assert Forwarded(ps) == [t] + Forwarded(ps[1..]);
      assert Forwarded(ps)[1..] == Forwarded(ps[1..]);
    }
  }

  /** A forwarded tag comes from a forwarded request of the list. */
  lemma {:induction false} ForwardedMember(ps: seq<Pending>, t: Ticket) returns (i: int)
    requires t in Forwarded(ps)
    ensures 0 <= i < |ps| && IsForwarded(ps[i]) && t == Ticket(ps[i].requestID, ps[i].client, ps[i].req)
  {
    if IsForwarded(ps[0]) && t == Ticket(ps[0].requestID, ps[0].client, ps[0].req) {
      i := 0;
    } else {
      assert t in Forwarded(ps[1..]);
      var j := ForwardedMember(ps[1..], t);
      i := j + 1;
    }
  }

  lemma {:induction false} NoTells(q: seq<Msg>)
    requires Tells(q) == []
    ensures OnlyTells(q, true)
  {
    if q != [] {
      NoTells(q[1..]);
    }
  }

  /** The reply to a request that is pending finds it. */
  lemma FindsForwarded(ps: seq<Pending>, next: int, m: Msg)
    requires Tidy(ps, next) && m.Tell?
    requires OnMessage(m) in Forwarded(ps)
    requires forall p :: p in ps ==> SameTarget(p.req, m.req)
    ensures FindPending(ps, m, 0) != -1 && IsForwarded(ps[FindPending(ps, m, 0)])
  {
    var i := ForwardedMember(ps, OnMessage(m));
    assert Matches(ps[i], m) by { assert ps[i] in ps; }
    var j := FindPending(ps, m, 0);
    assert j <= i && ps[j].requestID == ps[i].requestID;
  }

  lemma SuffixDrop<T>(a: seq<T>, b: seq<T>)
    requires IsSuffix(a, b) && b != [] && b[0] !in a
    ensures IsSuffix(a, b[1..])
  {
    assert |a| < |b| || a == b;
  }

  lemma SuffixExtend<T>(a: seq<T>, b: seq<T>, t: T)
    requires IsSuffix(a, b)
    ensures IsSuffix(a + [t], b + [t])
  {
  }

  lemma {:induction false} NothingLeft(q: seq<Msg>)
    requires Asks(q) == [] && Tells(q) == []
    ensures q == []
  {
  }

  // ---- Shape is kept ----

  lemma TidyAppend(ps: seq<Pending>, next: int, p: Pending)
    requires Tidy(ps, next) && p.requestID == next && (IsForwarded(p) || IsParked(p))
    ensures Tidy(ps + [p], next + 1)
  {
  }

  lemma ClientLoShape(x: Race, c: Client, req: Request)
    requires Shape(x) && About(x, req)
    ensures Shape(ClientAtLo(x, c, req))
  {
    TidyAppend(x.lo, x.nextLo, Pending(c, req, 1, 0, x.nextLo));
    ForwardedAppend(x.lo, Pending(c, req, 1, 0, x.nextLo));
  }

  lemma ClientHiShape(x: Race, c: Client, req: Request)
    requires Shape(x) && About(x, req)
    ensures Shape(ClientAtHi(x, c, req))
  {
    TidyAppend(x.hi, x.nextHi, Pending(c, req, 1, 0, x.nextHi));
  }

  /** Taking a message off either queue. */
  lemma PopShape(x: Race)
    requires Shape(x)
    ensures x.toLo != [] ==> Shape(x.(toLo := x.toLo[1..])) && About(x, x.toLo[0].req)
    ensures x.toHi != [] ==> Shape(x.(toHi := x.toHi[1..])) && About(x, x.toHi[0].req)
  {
    if x.toLo != [] {
      assert x.toLo[0] in x.toLo && forall k :: k in x.toLo[1..] ==> k in x.toLo;
    }
    if x.toHi != [] {
      assert x.toHi[0] in x.toHi && forall k :: k in x.toHi[1..] ==> k in x.toHi;
    }
  }

  lemma SendShape(x: Race, m: Msg)
    requires Shape(x) && About(x, m.req)
    ensures Shape(x.(toHi := x.toHi + [m])) && Shape(x.(toLo := x.toLo + [m]))
  {
  }

  lemma ParkShape(x: Race, p: Pending)
    requires Shape(x) && About(x, p.req) && IsParked(p) && p.requestID == x.nextLo && x.lo != []
    ensures Shape(x.(lo := x.lo + [p], nextLo := x.nextLo + 1))
  {
    TidyAppend(x.lo, x.nextLo, p);
    ForwardedAppend(x.lo, p);
  }

  lemma EmptyShape(x: Race)
    requires Shape(x)
    ensures Shape(x.(lo := [])) && Shape(x.(hi := []))
  {
  }

  // ---- views after one event ----

  ghost predicate SentHi(v: View, w: View, m: Msg) {
    && w == v.(asksHi := v.asksHi + (if m.Ask? then [OnMessage(m)] else []),
               tellsHi := v.tellsHi + (if m.Tell? then [OnMessage(m)] else []),
               yesHi := v.yesHi && (m.Tell? ==> m.yes), noFirst := w.noFirst)
    && (v.noFirst ==> w.noFirst)
  }

  lemma SendHiView(x: Race, m: Msg)
    ensures SentHi(ViewOf(x), ViewOf(x.(toHi := x.toHi + [m])), m)
    ensures x.toHi == [] ==> ViewOf(x.(toHi := x.toHi + [m])).noFirst == (m.Tell? && !m.yes)
  {
    QueueAppend(x.toHi, m);
    OnlyTellsAppend(x.toHi, m, true);
  }

  ghost predicate SentLo(v: View, w: View, m: Msg) {
    w == v.(asksLo := v.asksLo + (if m.Ask? then [OnMessage(m)] else []),
            tellsLo := v.tellsLo + (if m.Tell? then [OnMessage(m)] else []),
            yesLo := v.yesLo && (m.Tell? ==> m.yes), noLo := v.noLo && (m.Tell? ==> !m.yes))
  }

  lemma SendLoView(x: Race, m: Msg)
    ensures SentLo(ViewOf(x), ViewOf(x.(toLo := x.toLo + [m])), m)
  {
    QueueAppend(x.toLo, m);
    OnlyTellsAppend(x.toLo, m, true);
    OnlyTellsAppend(x.toLo, m, false);
  }

  lemma {:induction false} OnlyTellsAppend(q: seq<Msg>, m: Msg, yes: bool)
    ensures OnlyTells(q + [m], yes) == (OnlyTells(q, yes) && (m.Tell? ==> m.yes == yes))
  {
    if q == [] {
      assert q + [m] == [m];
    } else {
      assert (q + [m])[0] == q[0] && (q + [m])[1..] == q[1..] + [m];
      OnlyTellsAppend(q[1..], m, yes);
    }
  }

  ghost predicate PoppedLo(v: View, w: View, m: Msg) {
    && w == v.(asksLo := w.asksLo, tellsLo := w.tellsLo, yesLo := w.yesLo, noLo := w.noLo)
    && v.asksLo == (if m.Ask? then [OnMessage(m)] else []) + w.asksLo
    && v.tellsLo == (if m.Tell? then [OnMessage(m)] else []) + w.tellsLo
    && v.yesLo == (w.yesLo && (m.Tell? ==> m.yes))
    && v.noLo == (w.noLo && (m.Tell? ==> !m.yes))
  }

  /** Reading a message off `lo`'s queue. */
  lemma PopLoView(x: Race)
    requires x.toLo != []
    ensures PoppedLo(ViewOf(x), ViewOf(x.(toLo := x.toLo[1..])), x.toLo[0])
  {
  }

  ghost predicate PoppedHi(v: View, w: View, m: Msg) {
    && w == v.(asksHi := w.asksHi, tellsHi := w.tellsHi, yesHi := w.yesHi, noFirst := w.noFirst)
    && v.asksHi == (if m.Ask? then [OnMessage(m)] else []) + w.asksHi
    && v.tellsHi == (if m.Tell? then [OnMessage(m)] else []) + w.tellsHi
    && v.yesHi == (w.yesHi && (m.Tell? ==> m.yes))
    && v.noFirst == (m.Tell? && !m.yes)
  }

  /** Reading a message off `hi`'s queue. */
  lemma PopHiView(x: Race)
    requires x.toHi != []
    ensures PoppedHi(ViewOf(x), ViewOf(x.(toHi := x.toHi[1..])), x.toHi[0])
  {
  }

  lemma JobsHead(ts: seq<Ticket>, t: Ticket, rest: seq<Ticket>)
    requires ts == [t] + rest
    ensures Jobs(ts) == multiset{(t.client, t.req)} + Jobs(rest)
  {
    assert ts[1..] == rest;
  }

  ghost predicate PushedLo(v: View, w: View, p: Pending) {
    w == v.(idleLo := false,
            fwdLo := v.fwdLo + (if IsForwarded(p) then [Ticket(p.requestID, p.client, p.req)] else []),
            workLo := v.workLo + multiset{(p.client, p.req)})
  }

  /** Pushing a request on a pending list. */
  lemma PushLoView(x: Race, p: Pending)
    ensures PushedLo(ViewOf(x), ViewOf(x.(lo := x.lo + [p])), p)
  {
    ForwardedAppend(x.lo, p);
  }

  ghost predicate PushedHi(v: View, w: View, p: Pending) {
    w == v.(idleHi := false,
            fwdHi := v.fwdHi + (if IsForwarded(p) then [Ticket(p.requestID, p.client, p.req)] else []),
            workHi := v.workHi + multiset{(p.client, p.req)})
  }

  lemma PushHiView(x: Race, p: Pending)
    ensures PushedHi(ViewOf(x), ViewOf(x.(hi := x.hi + [p])), p)
  {
    ForwardedAppend(x.hi, p);
  }

  // ---- a client asks ----

  /** The owner answers at once. */
  ghost predicate AnsweredAtOnce(v: View, w: View, job: Job) {
    (v.ownLo || v.ownHi) && w == v.(issued := v.issued + multiset{job}, answered := v.answered + multiset{job})
  }

  lemma AnsweredAtOncePhase(v: View, w: View, job: Job)
    requires Phase(v) && AnsweredAtOnce(v, w, job)
    ensures Phase(w)
  {
  }

  ghost predicate AskedLo(v: View, w: View, t: Ticket) {
    && !v.ownLo
    && w == v.(idleLo := false, fwdLo := v.fwdLo + [t], workLo := v.workLo + multiset{(t.client, t.req)},
               asksHi := v.asksHi + [t], noFirst := w.noFirst, issued := v.issued + multiset{(t.client, t.req)})
    && (v.noFirst ==> w.noFirst)
    && Jobs(w.asksHi) == Jobs(v.asksHi) + multiset{(t.client, t.req)}
  }

  lemma AskedLoPhase(v: View, w: View, t: Ticket)
    requires Phase(v) && AskedLo(v, w, t)
    ensures Phase(w)
  {
    assert w.tellsLo + w.asksHi == v.tellsLo + v.asksHi + [t];
    if HiOwns(v) { SuffixExtend(v.fwdLo, v.tellsLo + v.asksHi, t); }
  }

  lemma AskedLoView(x: Race, c: Client, req: Request)
    requires !x.ownLo
    ensures AskedLo(ViewOf(x), ViewOf(ClientAtLo(x, c, req)), Ticket(x.nextLo, c, req))
  {
    var p := Pending(c, req, 1, 0, x.nextLo);
    PushLoView(x, p);
    SendHiView(x.(lo := x.lo + [p]), Ask(x.nextLo, c, req));
    JobsAppend(Asks(x.toHi), Ticket(x.nextLo, c, req));
  }

  lemma ClientLoKeeps(x: Race, c: Client, req: Request)
    requires Inv(x) && About(x, req)
    ensures Inv(ClientAtLo(x, c, req))
  {
    ClientLoShape(x, c, req);
    var v, w := ViewOf(x), ViewOf(ClientAtLo(x, c, req));
    if x.ownLo {
      AnsweredAtOncePhase(v, w, (c, req));
    } else {
      AskedLoView(x, c, req);
      AskedLoPhase(v, w, Ticket(x.nextLo, c, req));
    }
  }

  ghost predicate AskedHi(v: View, w: View, t: Ticket) {
    && !v.ownHi
    && w == v.(idleHi := false, fwdHi := v.fwdHi + [t], workHi := v.workHi + multiset{(t.client, t.req)},
               asksLo := v.asksLo + [t], issued := v.issued + multiset{(t.client, t.req)})
    && Jobs(w.asksLo) == Jobs(v.asksLo) + multiset{(t.client, t.req)}
  }

  lemma AskedHiPhase(v: View, w: View, t: Ticket)
    requires Phase(v) && AskedHi(v, w, t)
    ensures Phase(w)
  {
    assert w.tellsHi + w.asksLo == v.tellsHi + v.asksLo + [t];
    if Open(v) || LoOwns(v) { SuffixExtend(v.fwdHi, v.tellsHi + v.asksLo, t); }
  }

  lemma AskedHiView(x: Race, c: Client, req: Request)
    requires !x.ownHi
    ensures AskedHi(ViewOf(x), ViewOf(ClientAtHi(x, c, req)), Ticket(x.nextHi, c, req))
  {
    var p := Pending(c, req, 1, 0, x.nextHi);
    PushHiView(x, p);
    SendLoView(x.(hi := x.hi + [p]), Ask(x.nextHi, c, req));
    JobsAppend(Asks(x.toLo), Ticket(x.nextHi, c, req));
  }

  lemma ClientHiKeeps(x: Race, c: Client, req: Request)
    requires Inv(x) && About(x, req)
    ensures Inv(ClientAtHi(x, c, req))
  {
    ClientHiShape(x, c, req);
    var v, w := ViewOf(x), ViewOf(ClientAtHi(x, c, req));
    if x.ownHi {
      AnsweredAtOncePhase(v, w, (c, req));
    } else {
      AskedHiView(x, c, req);
      AskedHiPhase(v, w, Ticket(x.nextHi, c, req));
    }
  }

  // ---- a request arrives at lo ----

  /** `lo` takes a request off its queue and puts a reply on the other. */
  ghost predicate RepliedLo(v: View, w: View, t: Ticket, yes: bool) {
    && v.asksLo == [t] + w.asksLo
    && Jobs(v.asksLo) == multiset{(t.client, t.req)} + Jobs(w.asksLo)
    && w.tellsHi == v.tellsHi + [t]
    && w.yesHi == (v.yesHi && yes)
    && (v.noFirst ==> w.noFirst)
    && w == v.(asksLo := w.asksLo, tellsHi := w.tellsHi, yesHi := w.yesHi, noFirst := w.noFirst,
               workLo := w.workLo, idleLo := w.idleLo, answered := w.answered)
  }

  ghost predicate OwnerRepliedLo(v: View, w: View, t: Ticket) {
    && v.ownLo && RepliedLo(v, w, t, true)
    && w.workLo == v.workLo && w.idleLo == v.idleLo
    && w.answered == v.answered + multiset{(t.client, t.req)}
  }

  ghost predicate ParkedLo(v: View, w: View, t: Ticket) {
    && !v.ownLo && !v.idleLo && RepliedLo(v, w, t, true)
    && w.workLo == v.workLo + multiset{(t.client, t.req)} && !w.idleLo
    && w.answered == v.answered
  }

  /** The decisive moment of an open race: an idle `lo` answers NO, with nothing else under way
      to `hi`, and every request of `hi` still on its way to `lo`. */
  ghost predicate RefusedLo(v: View, w: View, t: Ticket) {
    && !v.ownLo && v.idleLo && RepliedLo(v, w, t, false)
    && w.workLo == v.workLo && w.idleLo && w.answered == v.answered
    && v.workLo == multiset{} && Jobs([]) == multiset{}
    && (Open(v) ==> w.noFirst && v.workHi == Jobs(v.asksLo) && v.asksHi == [] && v.tellsLo == [])
  }

  lemma OwnerRepliedLoPhase(v: View, w: View, t: Ticket)
    requires Phase(v) && OwnerRepliedLo(v, w, t)
    ensures Phase(w)
  {
    assert w.tellsHi + w.asksLo == v.tellsHi + v.asksLo;
    assert LoOwns(w);
  }

  lemma ParkedLoPhase(v: View, w: View, t: Ticket)
    requires Phase(v) && ParkedLo(v, w, t)
    ensures Phase(w)
  {
    assert w.tellsHi + w.asksLo == v.tellsHi + v.asksLo;
  }

  lemma RefusedLoPhase(v: View, w: View, t: Ticket)
    requires Phase(v) && RefusedLo(v, w, t)
    ensures Phase(w)
  {
    if Open(v) { RefusedOpenLo(v, w, t); } else { RefusedClosedLo(v, w, t); }
  }

  lemma RefusedOpenLo(v: View, w: View, t: Ticket)
    requires Open(v) && RefusedLo(v, w, t)
    ensures HiWins(w)
  {
    assert v.fwdLo == w.asksHi;
    assert w.fwdHi == w.tellsHi + w.asksLo;
  }

  lemma RefusedClosedLo(v: View, w: View, t: Ticket)
    requires (HiWins(v) || HiOwns(v)) && RefusedLo(v, w, t)
    ensures Phase(w)
  {
    if HiWins(v) {
      assert w.tellsHi + w.asksLo == v.tellsHi + v.asksLo;
      assert HiWins(w);
    } else {
      assert HiOwns(w);
    }
  }

  /** An idle `lo` in an open race has nothing under way to `hi`, and all of `hi`'s requests are. */
  lemma IdleLo(x: Race)
    requires Shape(x) && x.lo == []
    ensures Open(ViewOf(x)) ==> x.toHi == [] && JobsOf(x.hi) == Jobs(Asks(x.toLo)) && Tells(x.toLo) == []
  {
    if Open(ViewOf(x)) {
      assert |Tells(x.toLo) + Asks(x.toHi)| == 0;
      NothingLeft(x.toHi);
      JobsOfForwarded(x.hi);
    }
  }

  lemma RepliedLoCompose(v: View, u: View, w: View, m: Msg, yes: bool)
    requires m.Ask? && PoppedLo(v, u, m) && SentHi(u, w, ReplyTo(m, yes))
    ensures RepliedLo(v, w, OnMessage(m), yes)
    ensures w.workLo == v.workLo && w.idleLo == v.idleLo && w.answered == v.answered
  {
    JobsHead(v.asksLo, OnMessage(m), w.asksLo);
  }

  lemma RepliedLoView(x: Race, yes: bool)
    requires x.toLo != [] && x.toLo[0].Ask?
    ensures var m := x.toLo[0];
            var v := ViewOf(x);
            var w := ViewOf(x.(toLo := x.toLo[1..], toHi := x.toHi + [ReplyTo(m, yes)]));
            && RepliedLo(v, w, OnMessage(m), yes)
            && w.workLo == v.workLo && w.idleLo == v.idleLo && w.answered == v.answered
            && (x.toHi == [] && !yes ==> w.noFirst)
  {
    var m := x.toLo[0];
    var popped := x.(toLo := x.toLo[1..]);
    var sent := popped.(toHi := x.toHi + [ReplyTo(m, yes)]);
    PopLoView(x);
    SendHiView(popped, ReplyTo(m, yes));
    RepliedLoCompose(ViewOf(x), ViewOf(popped), ViewOf(sent), m, yes);
  }

  lemma AskAtLoShape(x: Race)
    requires Shape(x) && x.toLo != [] && x.toLo[0].Ask?
    ensures Shape(DeliverToLo(x))
  {
    var m := x.toLo[0];
    var popped := x.(toLo := x.toLo[1..]);
    var reply := ReplyTo(m, x.ownLo || x.lo != []);
    var sent := popped.(toHi := x.toHi + [reply]);
    PopShape(x);
    SendShape(popped, reply);
    if !x.ownLo && x.lo != [] {
      var p := Pending(m.client, m.req, -1, 0, x.nextLo);
      ParkShape(sent, p);
      assert DeliverToLo(x) == sent.(lo := sent.lo + [p], nextLo := sent.nextLo + 1);
    } else {
      assert DeliverToLo(x) == sent.(answered := DeliverToLo(x).answered);
    }
  }

  /** A request reaches `lo`. */
  lemma AskAtLoKeeps(x: Race)
    requires Inv(x) && x.toLo != [] && x.toLo[0].Ask?
    ensures Inv(DeliverToLo(x))
  {
    hide Phase, ViewOf;
    AskAtLoShape(x);
    AskAtLoPhase(x);
  }

  lemma AskAtLoPhase(x: Race)
    requires Inv(x) && x.toLo != [] && x.toLo[0].Ask?
    ensures Phase(ViewOf(DeliverToLo(x)))
  {
    if x.ownLo { AskAtOwningLo(x); } else if x.lo != [] { AskAtBusyLo(x); } else { AskAtIdleLo(x); }
  }

  lemma AskAtOwningLo(x: Race)
    requires x.ownLo && Phase(ViewOf(x)) && x.toLo != [] && x.toLo[0].Ask?
    ensures Phase(ViewOf(DeliverToLo(x)))
  {
    RepliedLoView(x, true);
    OwnerRepliedLoPhase(ViewOf(x), ViewOf(DeliverToLo(x)), OnMessage(x.toLo[0]));
  }

  lemma AskAtBusyLo(x: Race)
    requires !x.ownLo && x.lo != [] && Phase(ViewOf(x)) && x.toLo != [] && x.toLo[0].Ask?
    ensures Phase(ViewOf(DeliverToLo(x)))
  {
    var m := x.toLo[0];
    var sent := x.(toLo := x.toLo[1..], toHi := x.toHi + [ReplyTo(m, true)]);
    var p := Pending(m.client, m.req, -1, 0, x.nextLo);
    var parked := sent.(lo := x.lo + [p]);
    RepliedLoView(x, true);
    PushLoView(sent, p);
    assert ViewOf(DeliverToLo(x)) == ViewOf(parked);
    ParkedLoCompose(ViewOf(x), ViewOf(sent), ViewOf(parked), m, p);
    ParkedLoPhase(ViewOf(x), ViewOf(parked), OnMessage(m));
  }

  lemma ParkedLoCompose(v: View, u: View, w: View, m: Msg, p: Pending)
    requires !v.ownLo && !v.idleLo && RepliedLo(v, u, OnMessage(m), true) && PushedLo(u, w, p)
    requires u.workLo == v.workLo && u.idleLo == v.idleLo && u.answered == v.answered
    requires p.client == m.client && p.req == m.req && IsParked(p)
    ensures ParkedLo(v, w, OnMessage(m))
  {
  }

  lemma AskAtIdleLo(x: Race)
    requires !x.ownLo && x.lo == [] && Shape(x) && Phase(ViewOf(x)) && x.toLo != [] && x.toLo[0].Ask?
    ensures Phase(ViewOf(DeliverToLo(x)))
  {
    RepliedLoView(x, false);
    IdleLo(x);
    RefusedLoPhase(ViewOf(x), ViewOf(DeliverToLo(x)), OnMessage(x.toLo[0]));
  }

  // ---- a request arrives at hi ----

  ghost predicate RepliedHi(v: View, w: View, t: Ticket) {
    && !v.noFirst
    && v.asksHi == [t] + w.asksHi
    && Jobs(v.asksHi) == multiset{(t.client, t.req)} + Jobs(w.asksHi)
    && w == v.(asksHi := w.asksHi, tellsLo := v.tellsLo + [t], noFirst := w.noFirst,
               yesLo := v.yesLo && v.ownHi, noLo := v.noLo && !v.ownHi,
               answered := if v.ownHi then v.answered + multiset{(t.client, t.req)} else v.answered)
  }

  lemma RepliedHiPhase(v: View, w: View, t: Ticket)
    requires Phase(v) && RepliedHi(v, w, t)
    ensures Phase(w)
  {
    assert w.tellsLo + w.asksHi == v.tellsLo + v.asksHi;
  }

  lemma RepliedHiView(x: Race)
    requires x.toHi != [] && x.toHi[0].Ask?
    ensures var m := x.toHi[0];
            RepliedHi(ViewOf(x), ViewOf(DeliverToHi(x)), OnMessage(m))
  {
    hide Asks, Tells, OnlyTells, Forwarded, JobsOf, Jobs, FindPending;
    var m := x.toHi[0];
    PopHiView(x);
    SendLoView(x.(toHi := x.toHi[1..]), ReplyTo(m, x.ownHi));
    JobsHead(Asks(x.toHi), OnMessage(m), Asks(x.toHi[1..]));
  }

  /** A request reaches `hi`. */
  lemma AskAtHiKeeps(x: Race)
    requires Inv(x) && x.toHi != [] && x.toHi[0].Ask?
    ensures Inv(DeliverToHi(x))
  {
    hide Phase, ViewOf;
    var m := x.toHi[0];
    PopShape(x);
    SendShape(x.(toHi := x.toHi[1..]), ReplyTo(m, x.ownHi));
    RepliedHiView(x);
    RepliedHiPhase(ViewOf(x), ViewOf(DeliverToHi(x)), OnMessage(m));
  }

  // ---- a reply arrives ----

  /** `lo` reads a reply. Unless the request is not pending any more, a YES makes it drop its
      requests for the name and the last NO makes it own the name. */
  ghost predicate ReadLo(v: View, w: View, t: Ticket, yes: bool, found: bool) {
    && v.tellsLo == [t] + w.tellsLo
    && (v.yesLo ==> yes && w.yesLo)
    && (v.noLo ==> !yes && w.noLo)
    && (t in v.fwdLo ==> found)
    && (v.idleLo ==> !found)
    && var popped := v.(tellsLo := w.tellsLo, yesLo := w.yesLo, noLo := w.noLo);
       var emptied := popped.(idleLo := true, fwdLo := [], workLo := multiset{});
       && (!found ==> w == popped)
       && (found && yes ==> w == emptied)
       && (found && !yes ==> w == emptied.(ownLo := true, answered := v.answered + v.workLo))
  }

  lemma ReadLoPhase(v: View, w: View, t: Ticket, yes: bool, found: bool)
    requires Phase(v) && ReadLo(v, w, t, yes, found)
    ensures Phase(w)
  {
    if Open(v) {
      assert v.fwdLo[0] == t;
      assert LoOwns(w);
    } else if HiOwns(v) {
      var b := v.tellsLo + v.asksHi;
      assert b[0] == t && b[1..] == w.tellsLo + w.asksHi;
      if !found { SuffixDrop(v.fwdLo, b); }
      assert HiOwns(w);
    }
  }

  /** Whatever a NO finds has nothing else outstanding. */
  ghost predicate LastNoLo(x: Race)
    requires x.toLo != [] && x.toLo[0].Tell?
  {
    var i := FindPending(x.lo, x.toLo[0], 0);
    i != -1 && !x.toLo[0].yes ==> IsForwarded(x.lo[i])
  }

  /** What reading a reply does to `lo`. */
  lemma ReadLoState(x: Race)
    requires Shape(x) && x.toLo != [] && x.toLo[0].Tell? && About(x, x.toLo[0].req) && LastNoLo(x)
    ensures var m := x.toLo[0];
            var popped := x.(toLo := x.toLo[1..]);
            var found := FindPending(x.lo, m, 0) != -1;
            && (OnMessage(m) in Forwarded(x.lo) ==> found)
            && DeliverToLo(x) == if !found then popped
                                else if m.yes then popped.(lo := [])
                                else popped.(lo := [], ownLo := true, answered := x.answered + JobsOf(x.lo))
  {
    var m := x.toLo[0];
    if OnMessage(m) in Forwarded(x.lo) { FindsForwarded(x.lo, x.nextLo, m); }
  }

  lemma EmptiedLoView(x: Race)
    ensures ViewOf(x.(lo := [])) == ViewOf(x).(idleLo := true, fwdLo := [], workLo := multiset{})
    ensures x.lo == [] ==> ViewOf(x).fwdLo == []
  {
  }

  lemma ReadLoCompose(v: View, u: View, w: View, m: Msg, found: bool)
    requires m.Tell? && PoppedLo(v, u, m)
    requires OnMessage(m) in v.fwdLo ==> found
    requires v.idleLo ==> !found
    requires !found ==> w == u
    requires var emptied := u.(idleLo := true, fwdLo := [], workLo := multiset{});
             && (found && m.yes ==> w == emptied)
             && (found && !m.yes ==> w == emptied.(ownLo := true, answered := v.answered + v.workLo))
    ensures ReadLo(v, w, OnMessage(m), m.yes, found)
  {
  }

  lemma ReadLoView(x: Race)
    requires Shape(x) && x.toLo != [] && x.toLo[0].Tell? && About(x, x.toLo[0].req) && LastNoLo(x)
    ensures var m := x.toLo[0];
            ReadLo(ViewOf(x), ViewOf(DeliverToLo(x)), OnMessage(m), m.yes, FindPending(x.lo, m, 0) != -1)
  {
    var m := x.toLo[0];
    var popped := x.(toLo := x.toLo[1..]);
    PopLoView(x);
    ReadLoState(x);
    EmptiedLoView(popped);
    ReadLoCompose(ViewOf(x), ViewOf(popped), ViewOf(DeliverToLo(x)), m, FindPending(x.lo, m, 0) != -1);
  }

  lemma NoIsLastLo(x: Race)
    requires Shape(x) && Phase(ViewOf(x)) && x.toLo != [] && x.toLo[0].Tell? && About(x, x.toLo[0].req)
    ensures LastNoLo(x)
  {
    PopLoView(x);
    if Open(ViewOf(x)) {
      OpenHead(ViewOf(x), OnMessage(x.toLo[0]));
      FindsForwarded(x.lo, x.nextLo, x.toLo[0]);
    }
  }

  lemma OpenHead(v: View, t: Ticket)
    requires Open(v) && v.tellsLo != [] && v.tellsLo[0] == t
    ensures t in v.fwdLo
  {
    assert v.fwdLo[0] == t;
  }

  lemma TellAtLoShape(x: Race)
    requires Inv(x) && x.toLo != [] && x.toLo[0].Tell?
    ensures LastNoLo(x) && Shape(DeliverToLo(x)) && About(x, x.toLo[0].req)
  {
    hide Phase;
    PopShape(x);
    EmptyShape(x.(toLo := x.toLo[1..]));
    NoIsLastLo(x);
    ReadLoState(x);
  }

  /** A reply reaches `lo`. */
  lemma TellAtLoKeeps(x: Race)
    requires Inv(x) && x.toLo != [] && x.toLo[0].Tell?
    ensures Inv(DeliverToLo(x))
  {
    hide Phase, ViewOf;
    var m := x.toLo[0];
    TellAtLoShape(x);
    PopShape(x);
    ReadLoView(x);
    ReadLoPhase(ViewOf(x), ViewOf(DeliverToLo(x)), OnMessage(m), m.yes,
                FindPending(x.lo, m, 0) != -1);
  }

  ghost predicate ReadHi(v: View, w: View, t: Ticket, yes: bool, found: bool) {
    && v.tellsHi == [t] + w.tellsHi
    && v.noFirst == !yes
    && (v.yesHi ==> yes && w.yesHi)
    && (v.tellsLo == [] ==> v.yesLo)
    && (t in v.fwdHi ==> found)
    && (v.idleHi ==> !found)
    && var popped := v.(tellsHi := w.tellsHi, yesHi := w.yesHi, noFirst := w.noFirst);
       var emptied := popped.(idleHi := true, fwdHi := [], workHi := multiset{});
       && (!found ==> w == popped)
       && (found && yes ==> w == emptied)
       && (found && !yes ==> w == emptied.(ownHi := true, answered := v.answered + v.workHi))
  }

  lemma ReadHiPhase(v: View, w: View, t: Ticket, yes: bool, found: bool)
    requires Phase(v) && ReadHi(v, w, t, yes, found)
    ensures Phase(w)
  {
    if HiWins(v) {
      assert v.fwdHi[0] == t;
      assert HiOwns(w);
    } else if Open(v) || LoOwns(v) {
      var b := v.tellsHi + v.asksLo;
      assert b[0] == t && b[1..] == w.tellsHi + w.asksLo;
      if !found { SuffixDrop(v.fwdHi, b); }
      assert if LoOwns(v) then LoOwns(w) else Open(w);
    } else {
      assert HiOwns(w);
    }
  }

  /** Whatever a NO finds has nothing else outstanding. */
  ghost predicate LastNoHi(x: Race)
    requires x.toHi != [] && x.toHi[0].Tell?
  {
    var i := FindPending(x.hi, x.toHi[0], 0);
    i != -1 && !x.toHi[0].yes ==> IsForwarded(x.hi[i])
  }

  /** What reading a reply does to `hi`. */
  lemma ReadHiState(x: Race)
    requires Shape(x) && x.toHi != [] && x.toHi[0].Tell? && About(x, x.toHi[0].req) && LastNoHi(x)
    ensures var m := x.toHi[0];
            var popped := x.(toHi := x.toHi[1..]);
            var found := FindPending(x.hi, m, 0) != -1;
            && (OnMessage(m) in Forwarded(x.hi) ==> found)
            && DeliverToHi(x) == if !found then popped
                                else if m.yes then popped.(hi := [])
                                else popped.(hi := [], ownHi := true, answered := x.answered + JobsOf(x.hi))
  {
    var m := x.toHi[0];
    if OnMessage(m) in Forwarded(x.hi) { FindsForwarded(x.hi, x.nextHi, m); }
  }

  lemma EmptiedHiView(x: Race)
    ensures ViewOf(x.(hi := [])) == ViewOf(x).(idleHi := true, fwdHi := [], workHi := multiset{})
    ensures x.hi == [] ==> ViewOf(x).fwdHi == []
  {
  }

  lemma ReadHiCompose(v: View, u: View, w: View, m: Msg, found: bool)
    requires m.Tell? && PoppedHi(v, u, m)
    requires v.tellsLo == [] ==> v.yesLo
    requires OnMessage(m) in v.fwdHi ==> found
    requires v.idleHi ==> !found
    requires !found ==> w == u
    requires var emptied := u.(idleHi := true, fwdHi := [], workHi := multiset{});
             && (found && m.yes ==> w == emptied)
             && (found && !m.yes ==> w == emptied.(ownHi := true, answered := v.answered + v.workHi))
    ensures ReadHi(v, w, OnMessage(m), m.yes, found)
  {
  }

  lemma ReadHiView(x: Race)
    requires Shape(x) && x.toHi != [] && x.toHi[0].Tell? && About(x, x.toHi[0].req) && LastNoHi(x)
    ensures var m := x.toHi[0];
            ReadHi(ViewOf(x), ViewOf(DeliverToHi(x)), OnMessage(m), m.yes, FindPending(x.hi, m, 0) != -1)
  {
    var m := x.toHi[0];
    var popped := x.(toHi := x.toHi[1..]);
    PopHiView(x);
    ReadHiState(x);
    EmptiedHiView(popped);
    if Tells(x.toLo) == [] { NoTells(x.toLo); }
    ReadHiCompose(ViewOf(x), ViewOf(popped), ViewOf(DeliverToHi(x)), m, FindPending(x.hi, m, 0) != -1);
  }

  lemma TellAtHiShape(x: Race)
    requires Shape(x) && x.toHi != [] && x.toHi[0].Tell?
    ensures LastNoHi(x) && Shape(DeliverToHi(x)) && About(x, x.toHi[0].req)
  {
    PopShape(x);
    EmptyShape(x.(toHi := x.toHi[1..]));
    ReadHiState(x);
  }

  /** A reply reaches `hi`. */
  lemma TellAtHiKeeps(x: Race)
    requires Inv(x) && x.toHi != [] && x.toHi[0].Tell?
    ensures Inv(DeliverToHi(x))
  {
    hide Phase, ViewOf;
    var m := x.toHi[0];
    TellAtHiShape(x);
    PopShape(x);
    ReadHiView(x);
    ReadHiPhase(ViewOf(x), ViewOf(DeliverToHi(x)), OnMessage(m), m.yes,
                FindPending(x.hi, m, 0) != -1);
  }

  /** Every move keeps the invariant. */
  lemma MoveKeeps(x: Race, v: Move)
    requires Inv(x) && CanMove(x, v)
    ensures Inv(Moved(x, v))
  {
    match v
    case ClientLo(c, req) => ClientLoKeeps(x, c, req);
    case ClientHi(c, req) => ClientHiKeeps(x, c, req);
    case AtHi => if x.toHi[0].Ask? { AskAtHiKeeps(x); } else { TellAtHiKeeps(x); }
    case AtLo => if x.toLo[0].Ask? { AskAtLoKeeps(x); } else { TellAtLoKeeps(x); }
  }

  /** Identifiers spent on other names do not matter. */
  lemma TickKeeps(x: Race, nextLo: int, nextHi: int)
    requires Inv(x) && x.nextLo <= nextLo && x.nextHi <= nextHi
    ensures Inv(x.(nextLo := nextLo, nextHi := nextHi))
  {
    assert ViewOf(x.(nextLo := nextLo, nextHi := nextHi)) == ViewOf(x);
  }

  /** What the invariant means: one owner at most, no answer without a request, and when no
      message is on its way every request has been answered and nothing is left pending. */
  lemma InvMeans(x: Race)
    requires Inv(x)
    ensures !(x.ownLo && x.ownHi)
    ensures x.answered <= x.issued
    ensures x.toLo == [] && x.toHi == [] ==> x.answered == x.issued && x.lo == [] && x.hi == []
  {
    if x.toLo == [] && x.toHi == [] {
      JobsOfForwarded(x.hi);
    }
  }
}
