/** With two servers a name has at most one owner and every create is answered exactly once: the
    service, seen through one name, moves like NameRace. */
module TwoServers {
  import opened Wire
  import opened Protocol
  import opened Network
  import opened Effects
  import opened NameRace

  // ---- one name's share of a server and of a channel ----

  predicate Is(req: Request, kind: Kind, name: string) {
    req.Create? && req.kind == kind && req.name == name
  }

  function PendingFor(ps: seq<Pending>, kind: Kind, name: string): seq<Pending> {
    if ps == [] then []
    else (if Is(ps[0].req, kind, name) then [ps[0]] else []) + PendingFor(ps[1..], kind, name)
  }

  function MsgsFor(q: seq<Msg>, kind: Kind, name: string): seq<Msg> {
    if q == [] then []
    else (if Is(q[0].req, kind, name) then [q[0]] else []) + MsgsFor(q[1..], kind, name)
  }

  /** The creates of the name that servers took on. */
  function IssuedFor(out: seq<Out>, kind: Kind, name: string): multiset<Job> {
    if out == [] then multiset{}
    else (if out[0].Issued? && Is(out[0].what, kind, name) then multiset{(out[0].issuer, out[0].what)} else multiset{})
         + IssuedFor(out[1..], kind, name)
  }

  /** The creates of the name that servers answered. */
  function AnsweredFor(out: seq<Out>, kind: Kind, name: string): multiset<Job> {
    if out == [] then multiset{}
    else (if out[0].Answer? && Is(out[0].to, kind, name) then multiset{(out[0].client, out[0].to)} else multiset{})
         + AnsweredFor(out[1..], kind, name)
  }

  function Outs(trace: seq<(int, Out)>): seq<Out> {
    if trace == [] then [] else [trace[0].1] + Outs(trace[1..])
  }

  function RaceOf(sys: Sys, lo: int, hi: int, kind: Kind, name: string): Race
    requires lo in sys.servers && hi in sys.servers
  {
    var a, b := sys.servers[lo], sys.servers[hi];
    Race(kind, name, OwnsKey(a, kind, name), OwnsKey(b, kind, name),
         PendingFor(a.pending, kind, name), PendingFor(b.pending, kind, name),
         MsgsFor(Chan(sys.chan, lo, hi), kind, name), MsgsFor(Chan(sys.chan, hi, lo), kind, name),
         a.nextID, b.nextID,
         IssuedFor(Outs(sys.trace), kind, name), AnsweredFor(Outs(sys.trace), kind, name))
  }

  // ---- the views distribute over concatenation ----

  lemma {:induction false} PendingForAppend(a: seq<Pending>, b: seq<Pending>, kind: Kind, name: string)
    ensures PendingFor(a + b, kind, name) == PendingFor(a, kind, name) + PendingFor(b, kind, name)
  {
    if a == [] {
      assert a + b == b;
    } else {
      assert (a + b)[0] == a[0] && (a + b)[1..] == a[1..] + b;
      PendingForAppend(a[1..], b, kind, name);
      assert PendingFor(a + b, kind, name) == (if Is(a[0].req, kind, name) then [a[0]] else []) + PendingFor(a[1..] + b, kind, name);
    }
  }

  lemma {:induction false} MsgsForAppend(a: seq<Msg>, b: seq<Msg>, kind: Kind, name: string)
    ensures MsgsFor(a + b, kind, name) == MsgsFor(a, kind, name) + MsgsFor(b, kind, name)
  {
    if a == [] {
      assert a + b == b;
    } else {
      assert (a + b)[0] == a[0] && (a + b)[1..] == a[1..] + b;
      MsgsForAppend(a[1..], b, kind, name);
      assert MsgsFor(a + b, kind, name) == (if Is(a[0].req, kind, name) then [a[0]] else []) + MsgsFor(a[1..] + b, kind, name);
    }
  }

  lemma {:induction false} IssuedForAppend(a: seq<Out>, b: seq<Out>, kind: Kind, name: string)
    ensures IssuedFor(a + b, kind, name) == IssuedFor(a, kind, name) + IssuedFor(b, kind, name)
  {
    if a == [] {
      assert a + b == b;
    } else {
      assert (a + b)[0] == a[0] && (a + b)[1..] == a[1..] + b;
      IssuedForAppend(a[1..], b, kind, name);
    }
  }

  lemma {:induction false} AnsweredForAppend(a: seq<Out>, b: seq<Out>, kind: Kind, name: string)
    ensures AnsweredFor(a + b, kind, name) == AnsweredFor(a, kind, name) + AnsweredFor(b, kind, name)
  {
    if a == [] {
      assert a + b == b;
    } else {
      assert (a + b)[0] == a[0] && (a + b)[1..] == a[1..] + b;
      AnsweredForAppend(a[1..], b, kind, name);
    }
  }

  lemma JobsForAppend(a: seq<Out>, b: seq<Out>, kind: Kind, name: string)
    ensures IssuedFor(a + b, kind, name) == IssuedFor(a, kind, name) + IssuedFor(b, kind, name)
    ensures AnsweredFor(a + b, kind, name) == AnsweredFor(a, kind, name) + AnsweredFor(b, kind, name)
  {
    IssuedForAppend(a, b, kind, name);
    AnsweredForAppend(a, b, kind, name);
  }

  /** The views of single elements. */
  lemma Singles(p: Pending, m: Msg, o: Out, peer: int, kind: Kind, name: string)
    ensures PendingFor([p], kind, name) == (if Is(p.req, kind, name) then [p] else [])
    ensures MsgsFor([m], kind, name) == (if Is(m.req, kind, name) then [m] else [])
    ensures SentTo([o], peer) == (if o.Send? && o.dest == peer then [o.msg] else [])
    ensures IssuedFor([o], kind, name) ==
              if o.Issued? && Is(o.what, kind, name) then multiset{(o.issuer, o.what)} else multiset{}
    ensures AnsweredFor([o], kind, name) ==
              if o.Answer? && Is(o.to, kind, name) then multiset{(o.client, o.to)} else multiset{}
    ensures JobsOf([p]) == multiset{(p.client, p.req)}
  {
    assert [p][1..] == [] && [m][1..] == [] && [o][1..] == [];
  }

  lemma {:induction false} OutsAppend(trace: seq<(int, Out)>, machine: int, out: seq<Out>)
    ensures Outs(trace + At(machine, out)) == Outs(trace) + out
  {
    if trace == [] {
      assert trace + At(machine, out) == At(machine, out);
      if out != [] {
        assert At(machine, out)[1..] == At(machine, out[1..]);
        OutsAppend([], machine, out[1..]);
        assert [] + At(machine, out[1..]) == At(machine, out[1..]);
        assert Outs([]) + out[1..] == out[1..];
      }
    } else {
      var t := trace + At(machine, out);
      assert t[0] == trace[0] && t[1..] == trace[1..] + At(machine, out);
      OutsAppend(trace[1..], machine, out);
    }
  }

  // ---- what a server step does to one name ----

  /** The part of an effect that concerns the name. */
  datatype Share = Share(own: bool, pending: seq<Pending>, sent: seq<Msg>, issued: multiset<Job>, answered: multiset<Job>)

  function ShareOf(e: Eff, peer: int, kind: Kind, name: string): Share {
    Share(OwnsKey(e.s, kind, name), PendingFor(e.s.pending, kind, name),
          MsgsFor(SentTo(e.out, peer), kind, name), IssuedFor(e.out, kind, name), AnsweredFor(e.out, kind, name))
  }

  function Idle(s: Server, kind: Kind, name: string): Share {
    Share(OwnsKey(s, kind, name), PendingFor(s.pending, kind, name), [], multiset{}, multiset{})
  }

  lemma {:induction false} QuietOutsShare(out: seq<Out>, peer: int, kind: Kind, name: string)
    requires forall k :: 0 <= k < |out| ==> IsQuietOut(out[k])
    ensures MsgsFor(SentTo(out, peer), kind, name) == []
    ensures IssuedFor(out, kind, name) == multiset{} && AnsweredFor(out, kind, name) == multiset{}
  {
    if out != [] {
      QuietOutsShare(out[1..], peer, kind, name);
      MsgsForAppend(if out[0].Send? && out[0].dest == peer then [out[0].msg] else [], SentTo(out[1..], peer), kind, name);
    }
  }

  lemma {:induction false} QuietPending(ps: seq<Pending>, kind: Kind, name: string)
    requires forall k :: 0 <= k < |ps| ==> !ps[k].req.Create?
    ensures PendingFor(ps, kind, name) == []
  {
    if ps != [] { QuietPending(ps[1..], kind, name); }
  }

  /** Operations by identifier do not concern the name. */
  lemma QuietShare(s: Server, e: Eff, peer: int, kind: Kind, name: string)
    requires Quiet(s, e)
    ensures ShareOf(e, peer, kind, name) == Idle(s, kind, name)
  {
    QuietOutsShare(e.out, peer, kind, name);
    var more := e.s.pending[|s.pending|..];
    assert e.s.pending == s.pending + more;
    PendingForAppend(s.pending, more, kind, name);
    QuietPending(more, kind, name);
  }

  lemma SendAllTwo(m: Msg, peer: int)
    ensures SendAll([peer], m) == [Send(peer, m)]
  {
    assert [peer][1..] == [];
  }

  /** What forwarding a create does. */
  lemma ForwardShare(s: Server, peer: int, c: Client, req: Request, kind: Kind, name: string)
    requires req.Create?
    ensures var e := Forward(s, [peer], c, req);
            ShareOf(e, peer, kind, name) ==
              if Is(req, kind, name)
              then Idle(s, kind, name).(pending := PendingFor(s.pending, kind, name) + [Pending(c, req, 1, 0, s.nextID)],
                                        sent := [Ask(s.nextID, c, req)])
              else Idle(s, kind, name)
  {
    var p := Pending(c, req, 1, 0, s.nextID);
    SendAllTwo(Ask(s.nextID, c, req), peer);
    PendingForAppend(s.pending, [p], kind, name);
    Singles(p, Ask(s.nextID, c, req), Send(peer, Ask(s.nextID, c, req)), peer, kind, name);
  }

  /** What answering a create does. */
  lemma DoCreateShare(s: Server, c: Client, req: Request, peer: int, kind: Kind, name: string)
    requires ServerOk(s) && req.Create? && (HasRoomFor(s, req.kind) || OwnsKey(s, req.kind, req.name))
    ensures ShareOf(DoCreate(s, c, req), peer, kind, name) ==
              if Is(req, kind, name)
              then Idle(s, kind, name).(own := true, answered := multiset{(c, req)})
              else Idle(s, kind, name)
  {
    DoCreateEffect(s, c, req);
    var e := DoCreate(s, c, req);
    assert e.out == [e.out[0]];
    Singles(Pending(c, req, 0, 0, 0), Ask(0, c, req), e.out[0], peer, kind, name);
  }

  // ---- the delete loops ----

  lemma {:induction false} NoneNamed(ps: seq<Pending>, kind: Kind, name: string)
    requires forall j :: 0 <= j < |ps| ==> !IsNamed(ps[j], kind, name)
    ensures PendingFor(ps, kind, name) == []
  {
    if ps != [] { NoneNamed(ps[1..], kind, name); }
  }

  lemma RemoveSplit(ps: seq<Pending>, i: int, kind: Kind, name: string)
    requires 0 <= i < |ps|
    ensures var fa := PendingFor(ps[..i], kind, name);
            var fb := PendingFor(ps[i + 1..], kind, name);
            && PendingFor(RemoveAt(ps, i), kind, name) == fa + fb
            && PendingFor(ps, kind, name) == fa + ((if Is(ps[i].req, kind, name) then [ps[i]] else []) + fb)
  {
    var a, b := ps[..i], ps[i + 1..];
    assert ps == a + ([ps[i]] + b);
    PendingForAppend(a, [ps[i]] + b, kind, name);
    PendingForAppend([ps[i]], b, kind, name);
    PendingForAppend(a, b, kind, name);
    assert [ps[i]][1..] == [];
  }

  /** Deleting one pending request takes its work off the name it is for. */
  lemma RemoveFor(ps: seq<Pending>, i: int, kind: Kind, name: string)
    requires 0 <= i < |ps|
    ensures !Is(ps[i].req, kind, name) ==> PendingFor(RemoveAt(ps, i), kind, name) == PendingFor(ps, kind, name)
    ensures Is(ps[i].req, kind, name) ==>
              JobsOf(PendingFor(ps, kind, name)) ==
              multiset{(ps[i].client, ps[i].req)} + JobsOf(PendingFor(RemoveAt(ps, i), kind, name))
  {
    RemoveSplit(ps, i, kind, name);
    var fa, fb := PendingFor(ps[..i], kind, name), PendingFor(ps[i + 1..], kind, name);
    if Is(ps[i].req, kind, name) {
      JobsOfAppend(fa, [ps[i]] + fb);
      JobsOfAppend(fa, fb);
      assert ([ps[i]] + fb)[1..] == fb;
    } else {
      assert [] + fb == fb;
    }
  }

  lemma {:induction false} JobsOfAppend(a: seq<Pending>, b: seq<Pending>)
    ensures JobsOf(a + b) == JobsOf(a) + JobsOf(b)
  {
    if a == [] {
      assert a + b == b;
    } else {
      assert (a + b)[0] == a[0] && (a + b)[1..] == a[1..] + b;
      JobsOfAppend(a[1..], b);
    }
  }

  lemma {:induction false} DropNamedFor(ps: seq<Pending>, k: Kind, n: string, kind: Kind, name: string)
    ensures PendingFor(DropNamed(ps, k, n), kind, name) ==
              if k == kind && n == name then [] else PendingFor(ps, kind, name)
    ensures forall p :: p in DropNamed(ps, k, n) ==> p in ps
    decreases |ps|
  {
    var i := FindPendingNamed(ps, k, n, 0);
    if i == -1 {
      if k == kind && n == name { NoneNamed(ps, kind, name); }
    } else {
      DropNamedFor(RemoveAt(ps, i), k, n, kind, name);
      RemoveFor(ps, i, kind, name);
    }
  }

  /** AnswerNamed, one round unrolled. */
  lemma AnswerNamedUnroll(s: Server, k: Kind, n: string)
    ensures var i := FindPendingNamed(s.pending, k, n, 0);
            if i == -1 then AnswerNamed(s, k, n) == Eff(s, [])
            else
              var e := DoCreate(s, s.pending[i].client, s.pending[i].req);
              var rest := AnswerNamed(e.s.(pending := RemoveAt(s.pending, i)), k, n);
              AnswerNamed(s, k, n) == Eff(rest.s, e.out + rest.out)
  {
    hide DoCreate;
  }

  lemma IsNamedIs(p: Pending, kind: Kind, name: string)
    ensures IsNamed(p, kind, name) == Is(p.req, kind, name)
  {
  }

  /** The loop that answers every pending create of an owned name removes exactly those. */
  lemma {:induction false} AnswerNamedState(s: Server, k: Kind, n: string, peer: int, kind: Kind, name: string)
    requires ServerOk(s) && OwnsKey(s, k, n)
    ensures var t := AnswerNamed(s, k, n).s;
            && ServerOk(t) && t.me == s.me && t.nextID == s.nextID
            && OwnsKey(t, kind, name) == OwnsKey(s, kind, name)
            && PendingFor(t.pending, kind, name) == if k == kind && n == name then [] else PendingFor(s.pending, kind, name)
    decreases |s.pending|
  {
    hide DoCreate, ServerOk, PendingFor, AnswerNamed, FindPendingNamed, OwnsKey;
    AnswerNamedUnroll(s, k, n);
    var i := FindPendingNamed(s.pending, k, n, 0);
    if i == -1 {
      if k == kind && n == name { NoneNamed(s.pending, kind, name); }
    } else {
      var p := s.pending[i];
      IsNamedIs(p, k, n);
      AnswerNamedStep(s, i, peer, kind, name);
      AnswerNamedState(DoCreate(s, p.client, p.req).s.(pending := RemoveAt(s.pending, i)), k, n, peer, kind, name);
    }
  }

  /** It answers exactly those, and sends nothing to other servers. */
  lemma {:induction false} AnswerNamedOuts(s: Server, k: Kind, n: string, peer: int, kind: Kind, name: string)
    requires ServerOk(s) && OwnsKey(s, k, n)
    ensures var out := AnswerNamed(s, k, n).out;
            && MsgsFor(SentTo(out, peer), kind, name) == [] && IssuedFor(out, kind, name) == multiset{}
            && AnsweredFor(out, kind, name) == if k == kind && n == name then JobsOf(PendingFor(s.pending, kind, name)) else multiset{}
    decreases |s.pending|
  {
    hide DoCreate, ServerOk, PendingFor, AnswerNamed, FindPendingNamed, OwnsKey;
    AnswerNamedUnroll(s, k, n);
    var i := FindPendingNamed(s.pending, k, n, 0);
    if i == -1 {
      if k == kind && n == name { NoneNamed(s.pending, kind, name); }
    } else {
      var p := s.pending[i];
      IsNamedIs(p, k, n);
      AnswerNamedStep(s, i, peer, kind, name);
      var e := DoCreate(s, p.client, p.req);
      var t := e.s.(pending := RemoveAt(s.pending, i));
      AnswerNamedOuts(t, k, n, peer, kind, name);
      ShareCompose(e, AnswerNamed(t, k, n), peer, kind, name);
    }
  }

  /** One round of the loop. */
  lemma AnswerNamedStep(s: Server, i: int, peer: int, kind: Kind, name: string)
    requires ServerOk(s) && 0 <= i < |s.pending| && s.pending[i].req.Create?
    requires var req := s.pending[i].req; HasRoomFor(s, req.kind) || OwnsKey(s, req.kind, req.name)
    ensures var p := s.pending[i];
            var e := DoCreate(s, p.client, p.req);
            var t := e.s.(pending := RemoveAt(s.pending, i));
            var mine := Is(p.req, kind, name);
            && ServerOk(t) && t.me == s.me && t.nextID == s.nextID
            && OwnsKey(t, p.req.kind, p.req.name)
            && OwnsKey(t, kind, name) == (OwnsKey(s, kind, name) || mine)
            && MsgsFor(SentTo(e.out, peer), kind, name) == [] && IssuedFor(e.out, kind, name) == multiset{}
            && AnsweredFor(e.out, kind, name) == (if mine then multiset{(p.client, p.req)} else multiset{})
            && (!mine ==> PendingFor(t.pending, kind, name) == PendingFor(s.pending, kind, name))
            && (mine ==> JobsOf(PendingFor(s.pending, kind, name)) ==
                         multiset{(p.client, p.req)} + JobsOf(PendingFor(t.pending, kind, name)))
  {
    var p := s.pending[i];
    DoCreateEffect(s, p.client, p.req);
    DoCreateShare(s, p.client, p.req, peer, kind, name);
    RemoveFor(s.pending, i, kind, name);
    var e := DoCreate(s, p.client, p.req);
    assert OwnsKey(e.s, p.req.kind, p.req.name);
  }

  /** The shares of consecutive outputs add up. */
  lemma ShareCompose(a: Eff, b: Eff, peer: int, kind: Kind, name: string)
    ensures var e := Eff(b.s, a.out + b.out);
            && MsgsFor(SentTo(e.out, peer), kind, name) ==
                 MsgsFor(SentTo(a.out, peer), kind, name) + MsgsFor(SentTo(b.out, peer), kind, name)
            && IssuedFor(e.out, kind, name) == IssuedFor(a.out, kind, name) + IssuedFor(b.out, kind, name)
            && AnsweredFor(e.out, kind, name) == AnsweredFor(a.out, kind, name) + AnsweredFor(b.out, kind, name)
  {
    SentToAppend(a.out, b.out, peer);
    MsgsForAppend(SentTo(a.out, peer), SentTo(b.out, peer), kind, name);
    JobsForAppend(a.out, b.out, kind, name);
  }

  // ---- the three handlers, seen through one name ----

  lemma {:induction false} PeersTwo(up: set<int>, me: int, peer: int, i: nat)
    requires up == {me, peer} && me != peer && 0 <= peer < SERVERS
    ensures Peers(up, me, i) == if i <= peer then [peer] else []
    decreases SERVERS - i
  {
    if i < SERVERS { PeersTwo(up, me, peer, i + 1); }
  }

  /** A server of a two-server system. */
  ghost predicate Paired(s: Server, up: set<int>, peer: int) {
    ServerOk(s) && Peers(up, s.me, 0) == [peer]
  }

  ghost predicate Grown(s: Server, t: Server) {
    ServerOk(t) && t.me == s.me && t.nextID >= s.nextID
  }

  lemma PrefixShare(o: Out, e: Eff, peer: int, kind: Kind, name: string)
    ensures var w := ShareOf(Eff(e.s, [o] + e.out), peer, kind, name);
            var v := ShareOf(e, peer, kind, name);
            w == v.(sent := (if o.Send? && o.dest == peer && Is(o.msg.req, kind, name) then [o.msg] else []) + v.sent,
                    issued := (if o.Issued? && Is(o.what, kind, name) then multiset{(o.issuer, o.what)} else multiset{}) + v.issued,
                    answered := (if o.Answer? && Is(o.to, kind, name) then multiset{(o.client, o.to)} else multiset{}) + v.answered)
  {
    ShareCompose(Eff(e.s, [o]), e, peer, kind, name);
    Singles(Pending(Client(0, 0), Get(0, 0), 0, 0, 0), if o.Send? then o.msg else Ask(0, Client(0, 0), Get(0, 0)), o, peer, kind, name);
  }

  /** What OnClient does to a name. */
  function ClientShare(s: Server, c: Client, req: Request, kind: Kind, name: string): Share {
    var v := Idle(s, kind, name);
    if !Is(req, kind, name) then v
    else if v.own then v.(issued := multiset{(c, req)}, answered := multiset{(c, req)})
    else v.(pending := v.pending + [Pending(c, req, 1, 0, s.nextID)], sent := [Ask(s.nextID, c, req)],
            issued := multiset{(c, req)})
  }

  lemma OnClientShare(s: Server, up: set<int>, peer: int, c: Client, req: Request, kind: Kind, name: string)
    requires Paired(s, up, peer) && !Destroys(req) && (req.Create? ==> HasRoomFor(s, req.kind))
    ensures var e := OnClient(s, up, c, req);
            Grown(s, e.s) && ShareOf(e, peer, kind, name) == ClientShare(s, c, req, kind, name)
    ensures Is(req, kind, name) ==>
              OnClient(s, up, c, req).s.nextID == if OwnsKey(s, kind, name) then s.nextID else s.nextID + 1
  {
    if !req.Create? {
      OnClientQuiet(s, up, peer, c, req);
      QuietShare(s, OnClient(s, up, c, req), peer, kind, name);
    } else if OwnsKey(s, req.kind, req.name) {
      OnClientOwned(s, up, peer, c, req, kind, name);
    } else {
      OnClientForward(s, up, peer, c, req, kind, name);
    }
  }

  lemma OnClientOwned(s: Server, up: set<int>, peer: int, c: Client, req: Request, kind: Kind, name: string)
    requires Paired(s, up, peer) && req.Create? && OwnsKey(s, req.kind, req.name)
    ensures var e := OnClient(s, up, c, req);
            && Grown(s, e.s) && e.s.nextID == s.nextID
            && ShareOf(e, peer, kind, name) == ClientShare(s, c, req, kind, name)
  {
    var e := DoCreate(s, c, req);
    DoCreateEffect(s, c, req);
    DoCreateShare(s, c, req, peer, kind, name);
    PrefixShare(Issued(c, req), e, peer, kind, name);
    assert OnClient(s, up, c, req) == Eff(e.s, [Issued(c, req)] + e.out);
  }

  lemma OnClientForward(s: Server, up: set<int>, peer: int, c: Client, req: Request, kind: Kind, name: string)
    requires Paired(s, up, peer) && req.Create? && !OwnsKey(s, req.kind, req.name)
    ensures var e := OnClient(s, up, c, req);
            && Grown(s, e.s) && e.s.nextID == s.nextID + 1
            && ShareOf(e, peer, kind, name) == ClientShare(s, c, req, kind, name)
  {
    var e := Forward(s, [peer], c, req);
    ForwardShare(s, peer, c, req, kind, name);
    PrefixShare(Issued(c, req), e, peer, kind, name);
    assert OnClient(s, up, c, req) == Eff(e.s, [Issued(c, req)] + e.out);
  }

  lemma OnClientQuiet(s: Server, up: set<int>, peer: int, c: Client, req: Request)
    requires Paired(s, up, peer) && IsQuietRequest(req)
    ensures Quiet(s, OnClient(s, up, c, req))
  {
    var i := MyIndex(Target(req), s.me);
    DoQuiet(s, up, i, c, req);
    ForwardQuiet(s, [peer], c, req);
    QuietBefore(s, if i != -1 then Do(s, up, i, c, req) else Forward(s, [peer], c, req), Issued(c, req));
  }

  lemma {:induction false} NamedFor(ps: seq<Pending>, kind: Kind, name: string)
    ensures (exists j :: 0 <= j < |ps| && IsNamed(ps[j], kind, name)) <==> PendingFor(ps, kind, name) != []
  {
    if ps != [] {
      NamedFor(ps[1..], kind, name);
      assert forall j :: 1 <= j < |ps| ==> ps[j] == ps[1..][j - 1];
      assert forall j :: 0 <= j < |ps| - 1 ==> ps[1..][j] == ps[j + 1];
      if PendingFor(ps[1..], kind, name) != [] {
        var j :| 0 <= j < |ps[1..]| && IsNamed(ps[1..][j], kind, name);
        assert IsNamed(ps[j + 1], kind, name);
      }
    }
  }

  /** What OnAsk does to a name. */
  function AskShare(s: Server, from: int, m: Msg, kind: Kind, name: string): Share
    requires m.Ask?
  {
    var v := Idle(s, kind, name);
    if !Is(m.req, kind, name) then v
    else if v.own then v.(sent := [ReplyTo(m, true)], answered := multiset{(m.client, m.req)})
    else if v.pending != [] && s.me < from then
      v.(pending := v.pending + [Pending(m.client, m.req, -1, 0, s.nextID)], sent := [ReplyTo(m, true)])
    else v.(sent := [ReplyTo(m, false)])
  }

  lemma OnAskShare(s: Server, up: set<int>, peer: int, m: Msg, kind: Kind, name: string)
    requires Paired(s, up, peer) && m.Ask? && !Destroys(m.req) && (m.req.Create? ==> HasRoomFor(s, m.req.kind))
    ensures var e := OnAsk(s, up, peer, m);
            Grown(s, e.s) && ShareOf(e, peer, kind, name) == AskShare(s, peer, m, kind, name)
    ensures Is(m.req, kind, name) ==> OnAsk(s, up, peer, m).s.nextID == AskNext(s, peer, kind, name)
  {
    if !m.req.Create? {
      OnAskQuiet(s, up, peer, m, kind, name);
    } else if OwnsKey(s, m.req.kind, m.req.name) {
      OnAskOwned(s, up, peer, m, kind, name);
    } else {
      OnAskElsewhere(s, up, peer, m, kind, name);
    }
  }

  function AskNext(s: Server, from: int, kind: Kind, name: string): int {
    if !OwnsKey(s, kind, name) && PendingFor(s.pending, kind, name) != [] && s.me < from then s.nextID + 1 else s.nextID
  }

  lemma OnAskOwned(s: Server, up: set<int>, peer: int, m: Msg, kind: Kind, name: string)
    requires Paired(s, up, peer) && m.Ask? && m.req.Create? && OwnsKey(s, m.req.kind, m.req.name)
    ensures var e := OnAsk(s, up, peer, m);
            && Grown(s, e.s) && e.s.nextID == s.nextID
            && ShareOf(e, peer, kind, name) == AskShare(s, peer, m, kind, name)
  {
    var e := DoCreate(s, m.client, m.req);
    DoCreateEffect(s, m.client, m.req);
    DoCreateShare(s, m.client, m.req, peer, kind, name);
    PrefixShare(Send(peer, ReplyTo(m, true)), e, peer, kind, name);
    assert OnAsk(s, up, peer, m) == Eff(e.s, [Send(peer, ReplyTo(m, true))] + e.out);
  }

  /** A create for a name this server does not own. */
  lemma OnAskElsewhere(s: Server, up: set<int>, peer: int, m: Msg, kind: Kind, name: string)
    requires Paired(s, up, peer) && m.Ask? && m.req.Create? && !OwnsKey(s, m.req.kind, m.req.name)
    ensures var e := OnAsk(s, up, peer, m);
            && Grown(s, e.s)
            && ShareOf(e, peer, kind, name) == AskShare(s, peer, m, kind, name)
            && (Is(m.req, kind, name) ==> e.s.nextID == AskNext(s, peer, kind, name))
  {
    hide Do, DoCreate;
    var yes, no := Send(peer, ReplyTo(m, true)), Send(peer, ReplyTo(m, false));
    var p := Pending(m.client, m.req, -1, 0, s.nextID);
    NamedFor(s.pending, m.req.kind, m.req.name);
    PendingForAppend(s.pending, [p], kind, name);
    Singles(p, m, yes, peer, kind, name);
    Singles(p, ReplyTo(m, true), no, peer, kind, name);
    Singles(p, ReplyTo(m, false), no, peer, kind, name);
  }

  lemma OnAskQuiet(s: Server, up: set<int>, peer: int, m: Msg, kind: Kind, name: string)
    requires Paired(s, up, peer) && m.Ask? && IsQuietRequest(m.req)
    ensures var e := OnAsk(s, up, peer, m);
            Grown(s, e.s) && ShareOf(e, peer, kind, name) == Idle(s, kind, name)
  {
    var yes, no := Send(peer, ReplyTo(m, true)), Send(peer, ReplyTo(m, false));
    var i := MyIndex(Target(m.req), s.me);
    var e := if i != -1 then Do(s, up, i, m.client, m.req) else Eff(s, []);
    if i != -1 { DoQuiet(s, up, i, m.client, m.req); }
    QuietShare(s, e, peer, kind, name);
    PrefixShare(if i != -1 then yes else no, e, peer, kind, name);
    assert [no] + [] == [no];
  }

  // ---- replies ----

  /** A reply finds the same request in the whole list and in the name's share of it. */
  lemma {:induction false} FindFor(ps: seq<Pending>, m: Msg, kind: Kind, name: string)
    requires m.Tell? && Is(m.req, kind, name)
    ensures var i := FindPending(ps, m, 0);
            var j := FindPending(PendingFor(ps, kind, name), m, 0);
            && (i == -1) == (j == -1)
            && (i != -1 ==> Is(ps[i].req, kind, name) && PendingFor(ps, kind, name)[j] == ps[i])
  {
    if ps != [] {
      var rest := ps[1..];
      FindFor(rest, m, kind, name);
      FindTail(ps, m);
      var own := PendingFor(ps, kind, name);
      if Is(ps[0].req, kind, name) {
        assert own[1..] == PendingFor(rest, kind, name);
        FindTail(own, m);
      } else {
        assert own == PendingFor(rest, kind, name);
      }
    }
  }

  lemma FindTail(ps: seq<Pending>, m: Msg)
    requires ps != [] && m.Tell?
    ensures var i := FindPending(ps, m, 0);
            var j := FindPending(ps[1..], m, 0);
            i == if Matches(ps[0], m) then 0 else if j == -1 then -1 else j + 1
  {
    var i := FindPending(ps, m, 0);
    var j := FindPending(ps[1..], m, 0);
    if !Matches(ps[0], m) {
      if i != -1 { assert Matches(ps[1..][i - 1], m); }
      if j != -1 { assert Matches(ps[j + 1], m); }
    }
  }

  /** What a reply that is not just counted does to a name. */
  function TellShare(s: Server, m: Msg, kind: Kind, name: string): Share
    requires m.Tell?
  {
    var v := Idle(s, kind, name);
    if !Is(m.req, kind, name) || FindPending(v.pending, m, 0) == -1 then v
    else if m.yes then v.(pending := [])
    else v.(own := true, pending := [], answered := JobsOf(v.pending))
  }

  /** A NO, if its request is still pending, is the last one. */
  predicate IsLastReply(s: Server, m: Msg)
    requires m.Tell?
  {
    var i := FindPending(s.pending, m, 0);
    i == -1 || m.yes || s.pending[i].noCount + 1 == s.pending[i].sentCount
  }

  /** What a YES leaves pending. */
  function Kept(ps: seq<Pending>, i: int, req: Request): seq<Pending>
    requires 0 <= i < |ps|
  {
    if req.Create? then DropNamed(RemoveAt(ps, i), req.kind, req.name) else RemoveAt(ps, i)
  }

  lemma KeptFor(ps: seq<Pending>, m: Msg, kind: Kind, name: string)
    requires m.Tell? && FindPending(ps, m, 0) != -1
    ensures var kept := Kept(ps, FindPending(ps, m, 0), m.req);
            && PendingFor(kept, kind, name) == (if Is(m.req, kind, name) then [] else PendingFor(ps, kind, name))
            && forall p :: p in kept ==> p in ps
  {
    var i := FindPending(ps, m, 0);
    assert SameTarget(ps[i].req, m.req);
    RemoveFor(ps, i, kind, name);
    if m.req.Create? { DropNamedFor(RemoveAt(ps, i), m.req.kind, m.req.name, kind, name); }
  }

  lemma YesShare(s: Server, up: set<int>, peer: int, m: Msg, kind: Kind, name: string)
    requires Paired(s, up, peer) && m.Tell? && m.yes && FindPending(s.pending, m, 0) != -1
    ensures var e := OnTell(s, up, m);
            Grown(s, e.s) && e.s.nextID == s.nextID && ShareOf(e, peer, kind, name) == TellShare(s, m, kind, name)
  {
    hide Do, DoCreate, AnswerNamed, OnAllNo, DropNamed, PendingFor;
    KeptFor(s.pending, m, kind, name);
    if Is(m.req, kind, name) { FindFor(s.pending, m, kind, name); }
    assert OnTell(s, up, m) == Eff(s.(pending := Kept(s.pending, FindPending(s.pending, m, 0), m.req)), []);
  }

  lemma AllNoCreateShare(s: Server, up: set<int>, peer: int, i: int, req: Request, kind: Kind, name: string)
    requires Paired(s, up, peer) && 0 <= i < |s.pending| && req.Create?
    requires SameTarget(s.pending[i].req, req) && HasRoomFor(s, req.kind)
    ensures var e := OnAllNo(s, up, i, req);
            && Grown(s, e.s) && e.s.nextID == s.nextID
            && ShareOf(e, peer, kind, name) ==
                 if Is(req, kind, name)
                 then Share(true, [], [], multiset{}, JobsOf(PendingFor(s.pending, kind, name)))
                 else Idle(s, kind, name)
  {
    var p := s.pending[i];
    var e := DoCreate(s, p.client, p.req);
    var t := e.s.(pending := RemoveAt(s.pending, i));
    AnswerNamedStep(s, i, peer, kind, name);
    AnswerNamedState(t, req.kind, req.name, peer, kind, name);
    AnswerNamedOuts(t, req.kind, req.name, peer, kind, name);
    ShareCompose(e, AnswerNamed(t, req.kind, req.name), peer, kind, name);
    DoCreateEffect(s, p.client, p.req);
    assert OnAllNo(s, up, i, req) == Eff(AnswerNamed(t, req.kind, req.name).s, e.out + AnswerNamed(t, req.kind, req.name).out);
  }

  lemma AllNoQuietShare(s: Server, up: set<int>, peer: int, i: int, req: Request, kind: Kind, name: string)
    requires Paired(s, up, peer) && 0 <= i < |s.pending| && IsQuietRequest(req)
    requires SameTarget(s.pending[i].req, req)
    ensures var e := OnAllNo(s, up, i, req);
            Grown(s, e.s) && ShareOf(e, peer, kind, name) == Idle(s, kind, name)
  {
    var e := Do(s, up, Target(req), s.pending[i].client, req);
    DoQuiet(s, up, Target(req), s.pending[i].client, req);
    QuietShare(s, e, peer, kind, name);
    RemoveFor(e.s.pending, i, kind, name);
    assert forall p :: p in RemoveAt(e.s.pending, i) ==> p in e.s.pending;
  }

  lemma BumpFor(ps: seq<Pending>, i: int, p: Pending, kind: Kind, name: string)
    requires 0 <= i < |ps| && p.req == ps[i].req && p.client == ps[i].client
    ensures !Is(p.req, kind, name) ==> PendingFor(ps[i := p], kind, name) == PendingFor(ps, kind, name)
    ensures JobsOf(PendingFor(ps[i := p], kind, name)) == JobsOf(PendingFor(ps, kind, name))
  {
    var a, b := ps[..i], ps[i + 1..];
    assert ps[i := p] == a + ([p] + b) && ps == a + ([ps[i]] + b);
    PendingForAppend(a, [p] + b, kind, name);
    PendingForAppend([p], b, kind, name);
    PendingForAppend(a, [ps[i]] + b, kind, name);
    PendingForAppend([ps[i]], b, kind, name);
    JobsOfAppend(PendingFor(a, kind, name), PendingFor([p] + b, kind, name));
    JobsOfAppend(PendingFor(a, kind, name), PendingFor([ps[i]] + b, kind, name));
    JobsOfAppend(PendingFor([p], kind, name), PendingFor(b, kind, name));
    JobsOfAppend(PendingFor([ps[i]], kind, name), PendingFor(b, kind, name));
    assert [p][1..] == [] && [ps[i]][1..] == [];
  }

  /** Counting a NO. */
  function Counted(s: Server, i: int): Server
    requires 0 <= i < |s.pending|
  {
    s.(pending := s.pending[i := s.pending[i].(noCount := s.pending[i].noCount + 1)])
  }

  lemma CountedShare(s: Server, up: set<int>, peer: int, i: int, kind: Kind, name: string)
    requires Paired(s, up, peer) && 0 <= i < |s.pending|
    ensures Paired(Counted(s, i), up, peer) && Grown(s, Counted(s, i))
    ensures OwnsKey(Counted(s, i), kind, name) == OwnsKey(s, kind, name)
    ensures HasRoomFor(Counted(s, i), kind) == HasRoomFor(s, kind)
    ensures JobsOf(PendingFor(Counted(s, i).pending, kind, name)) == JobsOf(PendingFor(s.pending, kind, name))
    ensures !Is(s.pending[i].req, kind, name) ==> Idle(Counted(s, i), kind, name) == Idle(s, kind, name)
  {
    var p := s.pending[i].(noCount := s.pending[i].noCount + 1);
    assert s.pending[i] in s.pending;
    assert forall q :: q in Counted(s, i).pending ==> q in s.pending || q == p;
    BumpFor(s.pending, i, p, kind, name);
  }

  lemma LastNoShare(s: Server, up: set<int>, peer: int, m: Msg, kind: Kind, name: string)
    requires Paired(s, up, peer) && m.Tell? && !m.yes && FindPending(s.pending, m, 0) != -1 && IsLastReply(s, m)
    requires !Destroys(m.req) && (m.req.Create? ==> HasRoomFor(s, m.req.kind))
    ensures var e := OnTell(s, up, m);
            Grown(s, e.s) && ShareOf(e, peer, kind, name) == TellShare(s, m, kind, name)
    ensures m.req.Create? ==> OnTell(s, up, m).s.nextID == s.nextID
  {
    hide Do, DoCreate, AnswerNamed, OnAllNo, PendingFor, JobsOf;
    var i := FindPending(s.pending, m, 0);
    CountedShare(s, up, peer, i, kind, name);
    assert OnTell(s, up, m) == OnAllNo(Counted(s, i), up, i, m.req);
    if m.req.Create? {
      CountedShare(s, up, peer, i, m.req.kind, m.req.name);
      AllNoCreateShare(Counted(s, i), up, peer, i, m.req, kind, name);
      if Is(m.req, kind, name) { FindFor(s.pending, m, kind, name); }
    } else {
      AllNoQuietShare(Counted(s, i), up, peer, i, m.req, kind, name);
    }
  }

  lemma OnTellShare(s: Server, up: set<int>, peer: int, m: Msg, kind: Kind, name: string)
    requires Paired(s, up, peer) && m.Tell? && !Destroys(m.req) && (Is(m.req, kind, name) ==> IsLastReply(s, m))
    requires m.req.Create? ==> HasRoomFor(s, m.req.kind)
    ensures var e := OnTell(s, up, m);
            Grown(s, e.s) && ShareOf(e, peer, kind, name) == TellShare(s, m, kind, name)
    ensures m.req.Create? ==> OnTell(s, up, m).s.nextID == s.nextID
  {
    var i := FindPending(s.pending, m, 0);
    if i == -1 {
      if Is(m.req, kind, name) { FindFor(s.pending, m, kind, name); }
    } else if m.yes {
      YesShare(s, up, peer, m, kind, name);
    } else if IsLastReply(s, m) {
      LastNoShare(s, up, peer, m, kind, name);
    } else {
      CountedShare(s, up, peer, i, kind, name);
      assert SameTarget(s.pending[i].req, m.req);
      assert OnTell(s, up, m) == Eff(Counted(s, i), []);
    }
  }
}
