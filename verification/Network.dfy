/** The whole service as a transition system: servers, one reliable FIFO channel per ordered
    pair of servers, and the trace of everything the servers did. */
module Network {
  import opened Wire
  import opened Protocol

  type Channels = map<(int, int), seq<Msg>>

  datatype Sys = Sys(up: set<int>, servers: map<int, Server>, chan: Channels, trace: seq<(int, Out)>)

  datatype Action = FromClient(server: int, client: Client, req: Request) | Deliver(from: int, dest: int)

  function Chan(chan: Channels, i: int, j: int): seq<Msg> {
    if (i, j) in chan then chan[(i, j)] else []
  }

  /** Append what a server sent to its outgoing channels. */
  function Post(chan: Channels, from: int, out: seq<Out>): Channels
    decreases |out|
  {
    if out == [] then chan
    else if out[0].Send? then
      Post(chan[(from, out[0].dest) := Chan(chan, from, out[0].dest) + [out[0].msg]], from, out[1..])
    else Post(chan, from, out[1..])
  }

  /** The messages among the outputs that go to one destination. */
  function SentTo(out: seq<Out>, dest: int): seq<Msg>
    decreases |out|
  {
    if out == [] then []
    else (if out[0].Send? && out[0].dest == dest then [out[0].msg] else []) + SentTo(out[1..], dest)
  }

  function At(machine: int, out: seq<Out>): seq<(int, Out)>
    ensures |At(machine, out)| == |out|
  {
    if out == [] then [] else [(machine, out[0])] + At(machine, out[1..])
  }

  ghost predicate WellFormed(sys: Sys) {
    && sys.servers.Keys == sys.up
    && (forall i :: i in sys.up ==> 0 <= i < SERVERS && sys.servers[i].me == i)
    && (forall i, j :: Chan(sys.chan, i, j) != [] ==> i in sys.up && j in sys.up && i != j)
  }

  ghost predicate Initial(sys: Sys) {
    && WellFormed(sys)
    && (forall i :: i in sys.up ==> sys.servers[i] == NewServer(i))
    && (forall i, j :: Chan(sys.chan, i, j) == [])
    && sys.trace == []
  }

  /** Clients are the machines from SERVERS up: a smaller sender would be taken for a server. */
  predicate Enabled(sys: Sys, a: Action) {
    match a
    case FromClient(i, c, _) => i in sys.up && i in sys.servers && c.machine >= SERVERS
    case Deliver(i, j) => j in sys.up && j in sys.servers && Chan(sys.chan, i, j) != []
  }

  /** One iteration of one server's loop. */
  function Step(sys: Sys, a: Action): Sys
    requires Enabled(sys, a)
  {
    match a
    case FromClient(i, c, req) =>
      var e := OnClient(sys.servers[i], sys.up, c, req);
      Sys(sys.up, sys.servers[i := e.s], Post(sys.chan, i, e.out), sys.trace + At(i, e.out))
    case Deliver(i, j) =>
      var q := Chan(sys.chan, i, j);
      var e := OnMsg(sys.servers[j], sys.up, i, q[0]);
      Sys(sys.up, sys.servers[j := e.s], Post(sys.chan[(i, j) := q[1..]], j, e.out), sys.trace + At(j, e.out))
  }

  /** The actions can be taken one after the other. */
  ghost predicate Run(sys: Sys, acts: seq<Action>)
    decreases |acts|
  {
    acts == [] || (Enabled(sys, acts[0]) && Run(Step(sys, acts[0]), acts[1..]))
  }

  function After(sys: Sys, acts: seq<Action>): Sys
    requires Run(sys, acts)
    decreases |acts|
  {
    if acts == [] then sys else After(Step(sys, acts[0]), acts[1..])
  }

  lemma {:induction false} PostChannels(chan: Channels, from: int, out: seq<Out>, i: int, j: int)
    ensures Chan(Post(chan, from, out), i, j) == if i == from then Chan(chan, i, j) + SentTo(out, j) else Chan(chan, i, j)
    decreases |out|
  {
    if out != [] {
      if out[0].Send? {
        var next := chan[(from, out[0].dest) := Chan(chan, from, out[0].dest) + [out[0].msg]];
        PostChannels(next, from, out[1..], i, j);
      } else {
        PostChannels(chan, from, out[1..], i, j);
      }
    }
  }

  lemma {:induction false} SentToAppend(a: seq<Out>, b: seq<Out>, dest: int)
    ensures SentTo(a + b, dest) == SentTo(a, dest) + SentTo(b, dest)
    decreases |a|
  {
    if a == [] {
      assert a + b == b;
    } else {
      assert (a + b)[0] == a[0] && (a + b)[1..] == a[1..] + b;
      SentToAppend(a[1..], b, dest);
    }
  }

  lemma {:induction false} AtAppend(machine: int, a: seq<Out>, b: seq<Out>)
    ensures At(machine, a + b) == At(machine, a) + At(machine, b)
    decreases |a|
  {
    if a == [] {
      assert a + b == b;
    } else {
      assert (a + b)[0] == a[0] && (a + b)[1..] == a[1..] + b;
      AtAppend(machine, a[1..], b);
    }
  }
}
