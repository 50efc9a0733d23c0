/** Messages, requests and identifiers exchanged by the clients and the servers of the
    networked lock, condition-variable and monitor-variable service. */
module Wire {
  /** Servers are the machines 0..4; every other machine is a client. */
  const SERVERS: int := 5

  /** lockTableSize, CVTableSize and MVTableSize. */
  const TABLE_SIZE: int := 100

  /** The two headers of a request: the client's machine and its mailbox. */
  datatype Client = Client(machine: int, mailbox: int)

  datatype Kind = LockKind | CVKind | MVKind

  datatype Request =
    | Create(kind: Kind, name: string, size: int)  // size only matters for MVKind
    | Acquire(lock: int)
    | Release(lock: int)
    | DestroyLock(lock: int)
    | Wait(cv: int, lock: int)
    | Signal(cv: int, lock: int)
    | Broadcast(cv: int, lock: int)
    | DestroyCV(cv: int)
    | Set(mv: int, index: int, value: int)
    | Get(mv: int, index: int)
    | DestroyMV(mv: int)

  /** The SC_ code that starts a message. */
  function OpCode(r: Request): int {
    match r
    case Create(LockKind, _, _) => 13
    case Acquire(_) => 14
    case Release(_) => 15
    case DestroyLock(_) => 16
    case Create(CVKind, _, _) => 17
    case Wait(_, _) => 18
    case Signal(_, _) => 19
    case Broadcast(_, _) => 20
    case DestroyCV(_) => 21
    case Create(MVKind, _, _) => 24
    case DestroyMV(_) => 25
    case Get(_, _) => 26
    case Set(_, _, _) => 27
  }

  /** The identifier that decides which server serves a request other than Create. */
  function Target(r: Request): int
    requires !r.Create?
  {
    match r
    case Acquire(id) => id
    case Release(id) => id
    case DestroyLock(id) => id
    case Wait(id, _) => id
    case Signal(id, _) => id
    case Broadcast(id, _) => id
    case DestroyCV(id) => id
    case Set(id, _, _) => id
    case Get(id, _) => id
    case DestroyMV(id) => id
  }

  predicate Destroys(r: Request) {
    r.DestroyLock? || r.DestroyCV? || r.DestroyMV?
  }

  /** What the findPending...Request functions compare: the type, and the name or identifier. */
  predicate SameTarget(p: Request, m: Request) {
    && OpCode(p) == OpCode(m)
    && if p.Create? then m.Create? && p.name == m.name else !m.Create? && Target(p) == Target(m)
  }

  /** C's % with a positive right-hand side: the result has the sign of the left-hand side. */
  function CMod(n: int): int {
    if n >= 0 then n % TABLE_SIZE else -((-n) % TABLE_SIZE)
  }

  /** The machine an identifier was issued by. */
  function OwnerOf(id: int): int {
    (id - CMod(id)) / TABLE_SIZE
  }

  /** checkIf...IsMineAndGetMyIndex: the local slot, or -1. */
  function MyIndex(id: int, me: int): int {
    if OwnerOf(id) == me then CMod(id) else -1
  }

  /** The identifier a server hands out for one of its slots. */
  function Encode(me: int, slot: int): int {
    me * TABLE_SIZE + slot
  }

  /** An identifier decodes to its slot on the machine that issued it and to -1 on every other. */
  lemma DecodeEncode(machine: int, slot: int, me: int)
    requires 0 <= machine && 0 <= slot < TABLE_SIZE
    ensures OwnerOf(Encode(machine, slot)) == machine
    ensures MyIndex(Encode(machine, slot), me) == if me == machine then slot else -1
  {
  }

  /** Every identifier splits as C's / and % split it: the remainder has the identifier's sign. */
  lemma SplitsAsInC(id: int)
    ensures id == 100 * OwnerOf(id) + CMod(id)
    ensures if id >= 0 then 0 <= CMod(id) < 100 else -100 < CMod(id) <= 0
  {
  }

  /** No two kinds of request have the same code. */
  lemma CodesDiffer(a: Request, b: Request)
    requires OpCode(a) == OpCode(b)
    ensures a.Create? == b.Create? && a.Acquire? == b.Acquire? && a.Release? == b.Release? && a.DestroyLock? == b.DestroyLock?
    ensures a.Wait? == b.Wait? && a.Signal? == b.Signal? && a.Broadcast? == b.Broadcast? && a.DestroyCV? == b.DestroyCV?
    ensures a.Set? == b.Set? && a.Get? == b.Get? && a.DestroyMV? == b.DestroyMV?
    ensures a.Create? ==> a.kind == b.kind
  {
  }

  datatype Reply =
    | Status(ok: bool)
    | Created(ok: bool, id: int)
    | Value(ok: bool, value: int)

  datatype Msg =
    | Ask(requestID: int, client: Client, req: Request)
    | Tell(requestID: int, client: Client, req: Request, yes: bool)

  /** What a request and the replies to it have in common. */
  datatype Ticket = Ticket(requestID: int, client: Client, req: Request)

  function OnMessage(m: Msg): Ticket { Ticket(m.requestID, m.client, m.req) }

  /** What one server step does to the outside: messages to servers and answers to clients, in
      order. `Issued` and `Ran` are observations of the model only: this server took on a request
      for a client, and the body of an operation was executed here on that slot. */
  datatype Out =
    | Send(dest: int, msg: Msg)
    | Answer(client: Client, to: Request, reply: Reply)
    | Ran(slot: int, caller: Client, what: Request)
    | Issued(issuer: Client, what: Request)

  datatype Pending = Pending(client: Client, req: Request, sentCount: int, noCount: int, requestID: int)
}
