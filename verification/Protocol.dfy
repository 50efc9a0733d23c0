/** What one server does with one message: the serverDo... bodies, the server... entry points
    and the branches of the Server() loop, as functions from a server to a server and its
    outgoing messages. */
module Protocol {
  import opened Wire
  import opened Tables

  datatype Server = Server(
    me: int,
    locks: Table<LockData>, cvs: Table<CVData>, mvs: Table<MVData>,
    pending: seq<Pending>, nextID: int)

  datatype Eff = Eff(s: Server, out: seq<Out>)

  const NOBODY := Client(-1, -1)

  ghost predicate TablesOk(s: Server) { TableOk(s.locks) && TableOk(s.cvs) && TableOk(s.mvs) }

  function NewServer(me: int): Server {
    Server(me, EmptyTable(), EmptyTable(), EmptyTable(), [], 0)
  }

  /** The machines from i on that postOffice->Send can reach, in the order the loop tries them. */
  function Peers(up: set<int>, me: int, i: nat): seq<int>
    decreases SERVERS - i
  {
    if i >= SERVERS then []
    else (if i != me && i in up then [i] else []) + Peers(up, me, i + 1)
  }

  function SendAll(peers: seq<int>, m: Msg): seq<Out> {
    if peers == [] then [] else [Send(peers[0], m)] + SendAll(peers[1..], m)
  }

  predicate OwnsKey(s: Server, kind: Kind, name: string) {
    match kind
    case LockKind => Owns(s.locks, name)
    case CVKind => Owns(s.cvs, name)
    case MVKind => Owns(s.mvs, name)
  }

  predicate HasRoomFor(s: Server, kind: Kind) {
    match kind
    case LockKind => HasRoom(s.locks)
    case CVKind => HasRoom(s.cvs)
    case MVKind => HasRoom(s.mvs)
  }

  // ---- pending requests ----

  function RemoveAt<T>(s: seq<T>, i: int): seq<T>
    requires 0 <= i < |s|
  {
    s[..i] + s[i + 1..]
  }

  predicate IsNamed(p: Pending, kind: Kind, name: string) {
    p.req.Create? && p.req.kind == kind && p.req.name == name
  }

  /** findPendingCreate...RequestNamed. */
  function FindPendingNamed(ps: seq<Pending>, kind: Kind, name: string, i: nat): (r: int)
    requires i <= |ps|
    ensures r == -1 || i <= r < |ps|
    ensures r != -1 ==> IsNamed(ps[r], kind, name)
    ensures forall j :: i <= j < (if r == -1 then |ps| else r) ==> !IsNamed(ps[j], kind, name)
    decreases |ps| - i
  {
    if i == |ps| then -1
    else if IsNamed(ps[i], kind, name) then i
    else FindPendingNamed(ps, kind, name, i + 1)
  }

  predicate Matches(p: Pending, m: Msg) {
    p.requestID == m.requestID && SameTarget(p.req, m.req) && p.client == m.client
  }

  /** The other findPending... functions: the pending request a reply belongs to. */
  function FindPending(ps: seq<Pending>, m: Msg, i: nat): (r: int)
    requires i <= |ps|
    ensures r == -1 || i <= r < |ps|
    ensures r != -1 ==> Matches(ps[r], m)
    ensures forall j :: i <= j < (if r == -1 then |ps| else r) ==> !Matches(ps[j], m)
    decreases |ps| - i
  {
    if i == |ps| then -1 else if Matches(ps[i], m) then i else FindPending(ps, m, i + 1)
  }

  /** The loop that deletes every pending create of a name. */
  function DropNamed(ps: seq<Pending>, kind: Kind, name: string): seq<Pending>
    decreases |ps|
  {
    var i := FindPendingNamed(ps, kind, name, 0);
    if i == -1 then ps else DropNamed(RemoveAt(ps, i), kind, name)
  }

  // ---- locks ----

  function CheckLockAndDestroy(s: Server, i: int): Server
    requires Live(s.locks.slots, i)
  {
    var l := s.locks.slots[i].value;
    if l.data.toBeDestroyed && !l.data.busy && l.count == 0 then s.(locks := Delete(s.locks, i)) else s
  }

  function SetLock(s: Server, i: int, d: LockData): Server
    requires Live(s.locks.slots, i)
  {
    s.(locks := Update(s.locks, i, s.locks.slots[i].value.(data := d)))
  }

  function DoAcquire(s: Server, i: int, c: Client, req: Request): Eff {
    if !Live(s.locks.slots, i) then Eff(s, [Answer(c, req, Status(false))])
    else
      var d := s.locks.slots[i].value.data;
      if d.busy && d.owner == c then Eff(s, [Answer(c, req, Status(true))])
      else if d.busy then Eff(SetLock(s, i, d.(q := d.q + [c])), [])
      else Eff(SetLock(s, i, d.(busy := true, owner := c)), [Answer(c, req, Status(true))])
  }

  function DoRelease(s: Server, i: int, c: Client): Eff {
    if !Live(s.locks.slots, i) then Eff(s, [])
    else
      var d := s.locks.slots[i].value.data;
      if !(d.busy && d.owner == c) then Eff(s, [])
      else if d.q != [] then
        Eff(SetLock(s, i, d.(owner := d.q[0], q := d.q[1..])),
            [Answer(d.q[0], Acquire(Encode(s.me, i)), Status(true))])
      else Eff(CheckLockAndDestroy(SetLock(s, i, d.(busy := false)), i), [])
  }

  function DoDestroyLock(s: Server, i: int): Eff {
    if !Live(s.locks.slots, i) then Eff(s, [])
    else
      var l := s.locks.slots[i].value;
      var marked := l.(data := l.data.(toBeDestroyed := true), count := l.count - 1);
      Eff(CheckLockAndDestroy(s.(locks := Update(s.locks, i, marked)), i), [])
  }

  // ---- monitor variables ----

  function DoSet(s: Server, i: int, index: int, value: int, c: Client, req: Request): Eff {
    if !Live(s.mvs.slots, i) then Eff(s, [Answer(c, req, Status(false))])
    else
      var m := s.mvs.slots[i].value;
      if index < 0 || index >= |m.data.v| then Eff(s, [Answer(c, req, Status(false))])
      else Eff(s.(mvs := Update(s.mvs, i, m.(data := MVData(m.data.v[index := value])))),
               [Answer(c, req, Status(true))])
  }

  function DoGet(s: Server, i: int, index: int, c: Client, req: Request): Eff {
    if !Live(s.mvs.slots, i) then Eff(s, [Answer(c, req, Value(false, 0))])
    else
      var m := s.mvs.slots[i].value;
      if index < 0 || index >= |m.data.v| then Eff(s, [Answer(c, req, Value(false, 0))])
      else Eff(s, [Answer(c, req, Value(true, m.data.v[index]))])
  }

  function DoDestroyMV(s: Server, i: int): Eff {
    if !Live(s.mvs.slots, i) then Eff(s, [])
    else
      var m := s.mvs.slots[i].value;
      if m.count - 1 == 0 then Eff(s.(mvs := Delete(s.mvs, i)), [])
      else Eff(s.(mvs := Update(s.mvs, i, m.(count := m.count - 1))), [])
  }

  // ---- creates ----

  function NewMV(size: int): MVData {
    MVData(seq(if size > 0 then size else 0, i => 0))
  }

  /** serverDoCreateLock, serverDoCreateCV and serverDoCreateMV: find or create, and answer. The
      lock's status test looks at the encoded identifier, the other two at the slot. */
  function DoCreate(s: Server, c: Client, req: Request): Eff
    requires req.Create?
  {
    match req.kind
    case LockKind =>
      var (t, i) := CreateNamed(s.locks, req.name, LockData(false, NOBODY, [], false));
      var id := Encode(s.me, i);
      Eff(s.(locks := t), [Answer(c, req, Created(id != -1, id))])
    case CVKind =>
      var (t, i) := CreateNamed(s.cvs, req.name, CVData([], -1));
      Eff(s.(cvs := t), [Answer(c, req, Created(i != -1, if i == -1 then -1 else Encode(s.me, i)))])
    case MVKind =>
      var j := FindNamed(s.mvs.slots, req.name, 0);
      if j != -1 && |s.mvs.slots[j].value.data.v| != req.size then
        Eff(s, [Answer(c, req, Created(false, -1))])
      else
        var (t, i) := CreateNamed(s.mvs, req.name, NewMV(req.size));
        Eff(s.(mvs := t), [Answer(c, req, Created(i != -1, if i == -1 then -1 else Encode(s.me, i)))])
  }

  /** The loop that answers every pending create of a name and deletes it. */
  function AnswerNamed(s: Server, kind: Kind, name: string): Eff
    decreases |s.pending|
  {
    var i := FindPendingNamed(s.pending, kind, name, 0);
    if i == -1 then Eff(s, [])
    else
      var e := DoCreate(s, s.pending[i].client, s.pending[i].req);
      var rest := AnswerNamed(e.s.(pending := RemoveAt(s.pending, i)), kind, name);
      Eff(rest.s, e.out + rest.out)
  }

  // ---- dispatch of the operations by identifier ----

  /** sendPendingRequest for a request just pushed on the pending list. */
  function Forward(s: Server, peers: seq<int>, c: Client, req: Request): Eff {
    Eff(s.(pending := s.pending + [Pending(c, req, |peers|, 0, s.nextID)], nextID := s.nextID + 1),
        SendAll(peers, Ask(s.nextID, c, req)))
  }

  /** The slot on which this server runs a lock operation it was asked for: its own for its own
      identifiers; for others it is the identifier itself, after the last NO, or none when alone. */
  function SlotFor(up: set<int>, me: int, id: int): int {
    var i := MyIndex(id, me);
    if i != -1 then i else if Peers(up, me, 0) == [] then -1 else id
  }

  /** serverDoAcquireLock, serverDoReleaseLock and serverDoDestroyLock. */
  function DoLock(s: Server, i: int, c: Client, req: Request): Eff
    requires req.Acquire? || req.Release? || req.DestroyLock?
  {
    var e := match req
             case Acquire(_) => DoAcquire(s, i, c, req)
             case Release(_) => DoRelease(s, i, c)
             case DestroyLock(_) => DoDestroyLock(s, i);
    Eff(e.s, [Ran(i, c, req)] + e.out)
  }

  /** serverAcquireLock, serverReleaseLock and serverDestroyLock. */
  function IssueLock(s: Server, up: set<int>, c: Client, req: Request): Eff
    requires req.Acquire? || req.Release? || req.DestroyLock?
  {
    var i := MyIndex(Target(req), s.me);
    var peers := Peers(up, s.me, 0);
    var e := if i != -1 then DoLock(s, i, c, req)
             else if peers == [] then DoLock(s.(nextID := s.nextID + 1), i, c, req)
             else Forward(s, peers, c, req);
    Eff(e.s, [Issued(c, req)] + e.out)
  }

  function SetCV(s: Server, i: int, d: CVData): Server
    requires Live(s.cvs.slots, i)
  {
    s.(cvs := Update(s.cvs, i, s.cvs.slots[i].value.(data := d)))
  }

  function DoWait(s: Server, up: set<int>, i: int, lock: int, c: Client, req: Request): Eff {
    if !Live(s.cvs.slots, i) then Eff(s, [Answer(c, req, Status(false))])
    else
      var d := s.cvs.slots[i].value.data;
      var w := if d.waitingLock == -1 then lock else d.waitingLock;
      if w != lock then Eff(s, [Answer(c, req, Status(false))])
      else IssueLock(SetCV(s, i, CVData(d.q + [c], w)), up, c, Release(lock))
  }

  /** With a waiting lock the queue is not empty (see WakeRuns), so the source's Remove() finds a waiter. */
  function DoSignal(s: Server, up: set<int>, i: int, lock: int, c: Client, req: Request): Eff {
    if !Live(s.cvs.slots, i) then Eff(s, [Answer(c, req, Status(false))])
    else
      var d := s.cvs.slots[i].value.data;
      if d.waitingLock == -1 || d.q == [] then Eff(s, [Answer(c, req, Status(true))])
      else if d.waitingLock != lock then Eff(s, [Answer(c, req, Status(false))])
      else
        var woken := SetCV(s, i, CVData(d.q[1..], if |d.q| == 1 then -1 else d.waitingLock));
        var e := IssueLock(woken, up, d.q[0], Acquire(lock));
        Eff(e.s, e.out + [Answer(c, req, Status(true))])
  }

  /** serverDoBroadcast's loop: every waiter re-acquires the lock, in queue order. */
  function WakeAll(s: Server, up: set<int>, lock: int, q: seq<Client>): Eff
    decreases |q|
  {
    if q == [] then Eff(s, [])
    else
      var e := IssueLock(s, up, q[0], Acquire(lock));
      var rest := WakeAll(e.s, up, lock, q[1..]);
      Eff(rest.s, e.out + rest.out)
  }

  function DoBroadcast(s: Server, up: set<int>, i: int, lock: int, c: Client, req: Request): Eff {
    if !Live(s.cvs.slots, i) then Eff(s, [Answer(c, req, Status(false))])
    else
      var d := s.cvs.slots[i].value.data;
      var emptied := if d.q == [] then s else SetCV(s, i, CVData([], -1));
      var e := WakeAll(emptied, up, lock, d.q);
      Eff(e.s, e.out + [Answer(c, req, Status(true))])
  }

  function DoDestroyCV(s: Server, i: int): Eff {
    if !Live(s.cvs.slots, i) then Eff(s, [])
    else
      var v := s.cvs.slots[i].value;
      if v.data.q == [] && v.count - 1 == 0 then Eff(s.(cvs := Delete(s.cvs, i)), [])
      else Eff(s.(cvs := Update(s.cvs, i, v.(count := v.count - 1))), [])
  }

  /** The serverDo... bodies other than the creates, run on a local slot. */
  function Do(s: Server, up: set<int>, i: int, c: Client, req: Request): Eff
    requires !req.Create?
  {
    if req.Acquire? || req.Release? || req.DestroyLock? then DoLock(s, i, c, req)
    else
      var e := match req
               case Wait(_, lock) => DoWait(s, up, i, lock, c, req)
               case Signal(_, lock) => DoSignal(s, up, i, lock, c, req)
               case Broadcast(_, lock) => DoBroadcast(s, up, i, lock, c, req)
               case DestroyCV(_) => DoDestroyCV(s, i)
               case Set(_, index, value) => DoSet(s, i, index, value, c, req)
               case Get(_, index) => DoGet(s, i, index, c, req)
               case DestroyMV(_) => DoDestroyMV(s, i);
      Eff(e.s, [Ran(i, c, req)] + e.out)
  }

  // ---- the three kinds of message ----

  /** A request that arrives from a client (the !fromServer branches). */
  function OnClient(s: Server, up: set<int>, c: Client, req: Request): Eff {
    var peers := Peers(up, s.me, 0);
    var e :=
      if req.Create? then
        if OwnsKey(s, req.kind, req.name) then DoCreate(s, c, req)
        else if peers == [] then DoCreate(s.(nextID := s.nextID + 1), c, req)
        else Forward(s, peers, c, req)
      else
        var i := MyIndex(Target(req), s.me);
        if i != -1 then Do(s, up, i, c, req)
        else if peers == [] then Do(s.(nextID := s.nextID + 1), up, i, c, req)
        else Forward(s, peers, c, req);
    Eff(e.s, [Issued(c, req)] + e.out)
  }

  /** A request that another server forwarded. */
  function OnAsk(s: Server, up: set<int>, from: int, m: Msg): Eff
    requires m.Ask?
  {
    var yes := Send(from, Tell(m.requestID, m.client, m.req, true));
    var no := Send(from, Tell(m.requestID, m.client, m.req, false));
    if m.req.Create? then
      if OwnsKey(s, m.req.kind, m.req.name) then
        var e := DoCreate(s, m.client, m.req);
        Eff(e.s, [yes] + e.out)
      else if FindPendingNamed(s.pending, m.req.kind, m.req.name, 0) != -1 && s.me < from then
        Eff(s.(pending := s.pending + [Pending(m.client, m.req, -1, 0, s.nextID)], nextID := s.nextID + 1), [yes])
      else Eff(s, [no])
    else
      var i := MyIndex(Target(m.req), s.me);
      if i != -1 then
        var e := Do(s, up, i, m.client, m.req);
        Eff(e.s, [yes] + e.out)
      else Eff(s, [no])
  }

  /** A YES: the other server handles the request, and for a create every request for the name. */
  function OnYes(s: Server, i: int, req: Request): Eff
    requires 0 <= i < |s.pending|
  {
    var rest := RemoveAt(s.pending, i);
    Eff(s.(pending := if req.Create? then DropNamed(rest, req.kind, req.name) else rest), [])
  }

  /** The last NO: this server handles the request, and for a create every request for the name.
      The operations by identifier pass the global identifier where a local slot is meant. */
  function OnAllNo(s: Server, up: set<int>, i: int, req: Request): Eff
    requires 0 <= i < |s.pending| && SameTarget(s.pending[i].req, req)
  {
    var p := s.pending[i];
    if req.Create? then
      var e := DoCreate(s, p.client, p.req);
      var rest := AnswerNamed(e.s.(pending := RemoveAt(s.pending, i)), req.kind, req.name);
      Eff(rest.s, e.out + rest.out)
    else
      var e := Do(s, up, Target(req), p.client, req);
      if i < |e.s.pending| then Eff(e.s.(pending := RemoveAt(e.s.pending, i)), e.out) else e
  }

  /** A reply to a request this server forwarded. */
  function OnTell(s: Server, up: set<int>, m: Msg): Eff
    requires m.Tell?
  {
    var i := FindPending(s.pending, m, 0);
    if i == -1 then Eff(s, [])
    else if m.yes then OnYes(s, i, m.req)
    else
      var p := s.pending[i].(noCount := s.pending[i].noCount + 1);
      var counted := s.(pending := s.pending[i := p]);
      if p.noCount == p.sentCount then OnAllNo(counted, up, i, m.req)
      else Eff(counted, [])
  }

  function OnMsg(s: Server, up: set<int>, from: int, m: Msg): Eff {
    if m.Ask? then OnAsk(s, up, from, m) else OnTell(s, up, m)
  }
}
