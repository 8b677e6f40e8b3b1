/**
  The `Probe` actor: Pioneer's registry of connected WebSocket clients and the
  dispatcher of their operations. The actor serialises its mailbox, so each
  `onMessage(msg:)` is one atomic step over the client map; every `send` it
  performs is appended to a delivery log.

  The specification is given twice, as is usual for stateful code: as pure
  functions over a `State` value (`Step`, `Run`), about which the lemmas
  below are proved, and as the class `Probe`, whose methods update the fields
  in place and are proved to agree with `Step`.
 */
module Actor {
  import opened Messages

  /** The actor's command set. */
  datatype Act =
    | Connect(process: Process)
    | Disconnect(pid: Pid)
    | Start(pid: Pid, oid: Oid, gql: GraphQLRequest, ctx: Context)
    | Once(pid: Pid, oid: Oid, gql: GraphQLRequest, ctx: Context)
    | Stop(pid: Pid, oid: Oid)
    | Outgoing(oid: Oid, process: Process, res: Message)
  {
    /** The connection this command is about. */
    function Subject(): Pid
    {
      match this
      case Connect(process) => process.id
      case Disconnect(pid) => pid
      case Start(pid, _, _, _) => pid
      case Once(pid, _, _, _) => pid
      case Stop(pid, _) => pid
      case Outgoing(_, process, _) => process.id
    }

    /** True of the commands that write the client map for `pid`. */
    predicate Touches(pid: Pid)
    {
      (Connect? || Disconnect?) && Subject() == pid
    }
  }

  /** The behaviour returned to the actor runtime: `same` keeps the actor running. */
  datatype Signal = Same | Stopped

  /** One `process.send`: the process written to and the message. */
  datatype Delivery = Delivery(to: Process, msg: Message)

  /** Outcome of `schema.execute`, a foreign call: a result or a thrown error's description. */
  datatype Execution = Success(result: GraphQLResult) | Failure(description: string)

  /**
    A `pipeToSelf` in flight for a short-lived operation: the execution it
    waits for (request and context) and what its completion will address.
   */
  datatype Pipe = Pipe(oid: Oid, process: Process, gql: GraphQLRequest, ctx: Context)

  /** The actor's state: the client map and every message sent so far. */
  datatype State = State(clients: map<Pid, Process>, sent: seq<Delivery>)

  /** Every client is filed under its own id, as `connect` files it. */
  predicate Keyed(clients: map<Pid, Process>)
  {
    forall pid | pid in clients :: clients[pid].id == pid
  }

  /** `pid` has the same entry (or the same absence) in both maps. */
  predicate SameEntry(m: map<Pid, Process>, m': map<Pid, Process>, pid: Pid)
  {
    (pid in m <==> pid in m') && (pid in m ==> m[pid] == m'[pid])
  }

  /** The client map after one command. */
  function Registered(clients: map<Pid, Process>, act: Act): (next: map<Pid, Process>)
    ensures forall pid | !act.Touches(pid) :: SameEntry(clients, next, pid)
    ensures act.Connect? ==> act.process.id in next && next[act.process.id] == act.process
    ensures act.Disconnect? ==> act.pid !in next
    ensures Keyed(clients) ==> Keyed(next)
  {
    match act
    case Connect(process) => clients[process.id := process]
    case Disconnect(pid) => clients - {pid}
    case _ => clients
  }

  /** The messages one command sends. */
  function Deliveries(act: Act): seq<Delivery>
  {
    match act
    case Outgoing(oid, process, res) => [Delivery(process, res), Delivery(process, CompleteMessage(oid))]
    case _ => []
  }

  /** The `pipeToSelf` one command starts, if any: only `once` for a registered client. */
  function PipeOf(clients: map<Pid, Process>, act: Act): Option<Pipe>
  {
    match act
    case Once(pid, oid, gql, ctx) => if pid in clients then Some(Pipe(oid, clients[pid], gql, ctx)) else None
    case _ => None
  }

  /** The reply a finished short-lived operation sends: always a `next` for the same id. */
  function Reply(oid: Oid, outcome: Execution): (msg: Message)
    ensures msg.id == Some(oid) && msg.kind == Next && msg.payload.Result?
    ensures outcome.Success? ==> msg.payload.result == outcome.result
    ensures outcome.Failure? ==> msg.payload.result.data == None
    ensures outcome.Failure? ==> msg.payload.result.errors == [GraphQLError(outcome.description)]
  {
    match outcome
    case Success(result) => NextMessage(oid, result)
    case Failure(description) => NextMessage(oid, GraphQLResult(None, [GraphQLError(description)]))
  }

  /** The command a completed pipe posts back to the actor. */
  function Piped(pipe: Pipe, outcome: Execution): (act: Act)
    ensures act.Outgoing? && act.oid == pipe.oid && act.process == pipe.process
    ensures act.res.id == Some(pipe.oid) && act.res.kind == Next
  {
    Outgoing(pipe.oid, pipe.process, Reply(pipe.oid, outcome))
  }

  /** One atomic step of the actor. */
  function Step(s: State, act: Act): State
  {
    State(Registered(s.clients, act), s.sent + Deliveries(act))
  }

  /** The actor after processing a mailbox of commands in order. */
  function Run(s: State, acts: seq<Act>): State
    decreases |acts|
  {
    if acts == [] then s else Run(Step(s, acts[0]), acts[1..])
  }

  /** Number of `outgoing` commands in a mailbox. */
  function OutgoingCount(acts: seq<Act>): nat
    decreases |acts|
  {
    if acts == [] then 0 else (if acts[0].Outgoing? then 1 else 0) + OutgoingCount(acts[1..])
  }

  /** `connect` for an id already present replaces the earlier process. */
  lemma ConnectOverwrites(s: State, p: Process, q: Process)
    requires p.id == q.id
    ensures Step(Step(s, Connect(p)), Connect(q)).clients == Step(s, Connect(q)).clients
    ensures Step(Step(s, Connect(p)), Connect(q)).clients[q.id] == q
  {
  }

  /** `disconnect` is idempotent. */
  lemma DisconnectIdempotent(s: State, pid: Pid)
    ensures Step(Step(s, Disconnect(pid)), Disconnect(pid)) == Step(s, Disconnect(pid))
  {
  }

  /**
    As built, `start` and `stop` change nothing, and `once` neither changes
    the client map nor sends: its reply comes later, as an `outgoing`.
   */
  lemma OperationsLeaveState(s: State, act: Act)
    requires act.Start? || act.Stop? || act.Once?
    ensures Step(s, act) == s
  {
  }

  /** `once` for an unregistered client starts no execution and sends nothing. */
  lemma OnceUnregisteredInert(s: State, pid: Pid, oid: Oid, gql: GraphQLRequest, ctx: Context)
    requires pid !in s.clients
    ensures PipeOf(s.clients, Once(pid, oid, gql, ctx)) == None
    ensures Step(s, Once(pid, oid, gql, ctx)) == s
  {
  }

  /**
    The delivery log only grows, and it grows by exactly two messages for each
    `outgoing` command and by none for any other command.
   */
  lemma {:induction false} RunExtendsLog(s: State, acts: seq<Act>)
    ensures s.sent <= Run(s, acts).sent
    ensures |Run(s, acts).sent| == |s.sent| + 2 * OutgoingCount(acts)
    decreases |acts|
  {
    if acts != [] {
      RunExtendsLog(Step(s, acts[0]), acts[1..]);
    }
  }

  /** A mailbox that never connects or disconnects `pid` leaves its entry as it was. */
  lemma {:induction false} RunFrame(s: State, acts: seq<Act>, pid: Pid)
    requires forall a | a in acts :: !a.Touches(pid)
    ensures SameEntry(s.clients, Run(s, acts).clients, pid)
    decreases |acts|
  {
    if acts != [] {
      assert acts[0] in acts;
      assert forall a | a in acts[1..] :: a in acts;
      RunFrame(Step(s, acts[0]), acts[1..], pid);
    }
  }

  /** Every mailbox keeps each client filed under its own id. */
  lemma {:induction false} RunKeepsKeyed(s: State, acts: seq<Act>)
    requires Keyed(s.clients)
    ensures Keyed(Run(s, acts).clients)
    decreases |acts|
  {
    if acts != [] {
      RunKeepsKeyed(Step(s, acts[0]), acts[1..]);
    }
  }

  /**
    A `once` for a registered client is answered by exactly one `next` and one
    `complete` for its id, on that client, in that order, whether execution
    succeeded or failed, and whatever the actor processed in between. As
    built this holds even when `between` disconnects the client: the pipe
    captured the process, not its registry entry.
   */
  lemma OnceAnsweredOnce(s: State, pid: Pid, oid: Oid, gql: GraphQLRequest, ctx: Context,
                         between: seq<Act>, outcome: Execution)
    requires Keyed(s.clients) && pid in s.clients
    ensures PipeOf(s.clients, Once(pid, oid, gql, ctx)).Some?
    ensures
      var pipe := PipeOf(s.clients, Once(pid, oid, gql, ctx)).value;
      var mid := Run(Step(s, Once(pid, oid, gql, ctx)), between);
      var after := Step(mid, Piped(pipe, outcome));
      && pipe.process.id == pid
      && after.clients == mid.clients
      && after.sent == mid.sent + [Delivery(pipe.process, Reply(oid, outcome)),
                                   Delivery(pipe.process, CompleteMessage(oid))]
  {
  }

  /** The actor itself: the client map and the log of sent messages, updated in place. */
  class Probe {
    var clients: map<Pid, Process>
    var sent: seq<Delivery>

    ghost predicate Valid()
      reads this
    {
      Keyed(clients)
    }

    /** The current state as a value. */
    function Snapshot(): State
      reads this
    {
      State(clients, sent)
    }

    constructor ()
      ensures Valid() && clients == map[] && sent == []
    {
      clients := map[];
      sent := [];
    }

    /** Registers `process`, replacing any process already filed under its id. */
    method Connect(process: Process)
      requires Valid()
      modifies this
      ensures Valid()
      ensures clients == old(clients)[process.id := process] && sent == old(sent)
    {
      clients := clients[process.id := process];
    }

    /** Removes `pid` from the map; no operation is cancelled, none being tracked. */
    method Disconnect(pid: Pid)
      requires Valid()
      modifies this
      ensures Valid()
      ensures clients == old(clients) - {pid} && sent == old(sent)
    {
      clients := clients - {pid};
    }

    /** Long-running operation: not implemented in the library, so nothing happens. */
    method Start(pid: Pid, oid: Oid, gql: GraphQLRequest, ctx: Context)
      requires Valid()
      modifies this
      ensures Valid()
      ensures clients == old(clients) && sent == old(sent)
    {
    }

    /**
      Short-lived operation: for a registered client, starts the execution and
      returns the pipe that will post its result back; otherwise nothing.
     */
    method Once(pid: Pid, oid: Oid, gql: GraphQLRequest, ctx: Context) returns (pipe: Option<Pipe>)
      requires Valid()
      ensures pipe.Some? <==> pid in clients
      ensures pipe.Some? ==> pipe.value == Pipe(oid, clients[pid], gql, ctx) && pipe.value.process.id == pid
    {
      if pid in clients {
        pipe := Some(Pipe(oid, clients[pid], gql, ctx));
      } else {
        pipe := None;
      }
    }

    /** Stopping an operation: not implemented in the library, so nothing happens. */
    method Stop(pid: Pid, oid: Oid)
      requires Valid()
      modifies this
      ensures Valid()
      ensures clients == old(clients) && sent == old(sent)
    {
    }

    /** Delivers a piped result: the reply, then `complete` for the same id. */
    method Outgoing(oid: Oid, process: Process, res: Message)
      requires Valid()
      modifies this
      ensures Valid()
      ensures clients == old(clients)
      ensures sent == old(sent) + [Delivery(process, res), Delivery(process, CompleteMessage(oid))]
    {
      sent := sent + [Delivery(process, res)];
      sent := sent + [Delivery(process, CompleteMessage(oid))];
    }

    /** The mailbox handler: one command, one atomic step; the actor never stops. */
    method OnMessage(msg: Act) returns (signal: Signal, pipe: Option<Pipe>)
      requires Valid()
      modifies this
      ensures Valid()
      ensures Snapshot() == Step(old(Snapshot()), msg)
      ensures pipe == PipeOf(old(clients), msg)
      ensures signal == Same
    {
      pipe := None;
      match msg {
        case Connect(process) => Connect(process);
        case Disconnect(pid) => Disconnect(pid);
        case Start(pid, oid, gql, ctx) => Start(pid, oid, gql, ctx);
        case Once(pid, oid, gql, ctx) => pipe := Once(pid, oid, gql, ctx);
        case Stop(pid, oid) => Stop(pid, oid);
        case Outgoing(oid, process, res) => Outgoing(oid, process, res);
      }
      signal := Same;
    }
  }
}
