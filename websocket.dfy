/**
  Pioneer's per-connection WebSocket handlers: `onMessage`, which turns one
  inbound text frame into an ordered list of effects on the connection, the
  keep-alive task and the `Probe` actor; `onEnd`, run when the socket closes;
  and the `nil` guard of `setInterval`, which decides whether a keep-alive
  task exists at all.

  The effects are values: what the handler would do, in the order it would
  do it. The lemmas at the end run the actor commands among them through
  `Actor.Run` to state what a frame does to the registry.
 */
module WebSocket {
  import opened Messages
  import Actor

  /** What `try? allowed(from:)` yields: the introspection check's answer, or that it threw. */
  datatype Verdict = Allowed(ok: bool) | Threw

  /** The intent the sub-protocol parser assigns to a frame. */
  datatype Intent =
    | Initial
    | Ping
    | Terminate
    | Start(oid: Oid, gql: GraphQLRequest)
    | Once(oid: Oid, gql: GraphQLRequest)
    | Stop(oid: Oid)
    | Error(id: Option<Oid>, message: string)
    | Fatal(message: string)
    | Ignore

  /** Close codes used by the handlers. */
  datatype CloseCode = GoingAway | UnacceptableData | PolicyViolation

  /** The status code sent on the wire, as section 7.4.1 of RFC 6455 assigns them. */
  function StatusCode(code: CloseCode): nat
  {
    match code
    case GoingAway => 1001
    case UnacceptableData => 1003
    case PolicyViolation => 1008
  }

  /** Handle of a keep-alive task. */
  type Timer = nat

  /** One thing a handler does. */
  datatype Effect =
    | Send(msg: Message)          // `process.send`
    | Tell(act: Actor.Act)        // a call into the `Probe` actor
    | Initialize                  // `websocketProtocol.initialize(ws:)`: the sub-protocol's acknowledgement
    | Cancel(timer: Timer)        // `keepAlive?.cancel()` on a live task
    | Close(code: CloseCode)      // `process.close(code:)`

  /** The error text sent when the introspection check rejects an operation. */
  const IntrospectionRejected: string :=
    "GraphQL introspection is not allowed by Pioneer, but the query contained __schema or __type."

  /** `keepAlive?.cancel()`: cancels the task if there is one, does nothing otherwise. */
  function CancelKeepAlive(keepAlive: Option<Timer>): seq<Effect>
  {
    match keepAlive
    case None => []
    case Some(timer) => [Cancel(timer)]
  }

  /** The rejection `start` and `once` send when the introspection check does not answer `true`. */
  function Rejection(oid: Oid): Message
  {
    ErrorsMessage(Some(oid), [GraphQLError(IntrospectionRejected)])
  }

  /** The introspection guard: forward `act` only when the check returned `true`. */
  function Guarded(oid: Oid, gql: GraphQLRequest, allowed: GraphQLRequest -> Verdict, act: Actor.Act): seq<Effect>
  {
    if allowed(gql) == Allowed(true) then [Tell(act)] else [Send(Rejection(oid))]
  }

  /**
    The handler for one inbound text frame of `process`: `utf8` says whether the
    text could be encoded, `intent` is what the parser made of it and `allowed`
    is the introspection check.
   */
  function OnMessage(process: Process, keepAlive: Option<Timer>, utf8: bool, intent: Intent,
                     allowed: GraphQLRequest -> Verdict): (effects: seq<Effect>)
    ensures !utf8 ==> effects == [Close(UnacceptableData)]
    ensures forall i | 0 <= i < |effects| && effects[i].Close? :: i == |effects| - 1
    ensures forall e | e in effects && e.Tell? :: e.act.Subject() == process.id && !e.act.Outgoing?
    ensures forall e | e in effects && e.Send? :: e.msg.kind == ErrorKind || e.msg.kind == KeepAlive
    ensures forall i | 0 <= i < |effects| && effects[i].Close? && effects[i].code != UnacceptableData ::
              Tell(Actor.Disconnect(process.id)) in effects[..i]
              && (keepAlive.Some? ==> Cancel(keepAlive.value) in effects[..i])
  {
    if !utf8 then
      [Close(UnacceptableData)]
    else
      match intent
      case Initial => [Tell(Actor.Connect(process)), Initialize]
      case Ping => [Send(KeepAliveMessage)]
      case Terminate =>
        [Tell(Actor.Disconnect(process.id))] + CancelKeepAlive(keepAlive) + [Close(GoingAway)]
      case Start(oid, gql) => Guarded(oid, gql, allowed, Actor.Start(process.id, oid, gql, process.ctx))
      case Once(oid, gql) => Guarded(oid, gql, allowed, Actor.Once(process.id, oid, gql, process.ctx))
      case Stop(oid) => [Tell(Actor.Stop(process.id, oid))]
      case Error(id, message) => [Send(ErrorsMessage(id, [GraphQLError(message)]))]
      case Fatal(message) =>
        [Send(ErrorsMessage(None, [GraphQLError(message)])), Tell(Actor.Disconnect(process.id))]
        + CancelKeepAlive(keepAlive) + [Close(PolicyViolation)]
      case Ignore => []
  }

  /**
    The handler run when the socket closes. The disconnect is spawned as a
    separate task, so it is not ordered with respect to the cancellation.
   */
  function OnEnd(pid: Pid, keepAlive: Option<Timer>): (effects: seq<Effect>)
    ensures Tell(Actor.Disconnect(pid)) in effects
    ensures keepAlive.Some? ==> Cancel(keepAlive.value) in effects
    ensures forall e | e in effects :: e == Tell(Actor.Disconnect(pid)) || e in CancelKeepAlive(keepAlive)
  {
    [Tell(Actor.Disconnect(pid))] + CancelKeepAlive(keepAlive)
  }

  /**
    `setInterval`'s guard: with no delay there is no keep-alive task; with a
    delay the repeating task (`task`) is returned.
   */
  function SetInterval(delay: Option<nat>, task: Timer): (keepAlive: Option<Timer>)
    ensures keepAlive.None? <==> delay.None?
    ensures delay.Some? ==> keepAlive == Some(task)
  {
    match delay
    case None => None
    case Some(_) => Some(task)
  }

  // What an effect list shows to each observer: the client, the actor and the transport.

  /** The messages sent to the client, in order. */
  function Sends(effects: seq<Effect>): seq<Message>
    decreases |effects|
  {
    if effects == [] then []
    else (if effects[0].Send? then [effects[0].msg] else []) + Sends(effects[1..])
  }

  /** The commands given to the actor, in order. */
  function Tells(effects: seq<Effect>): seq<Actor.Act>
    decreases |effects|
  {
    if effects == [] then []
    else (if effects[0].Tell? then [effects[0].act] else []) + Tells(effects[1..])
  }

  /** The status codes the transport is closed with, in order. */
  function Closes(effects: seq<Effect>): seq<nat>
    decreases |effects|
  {
    if effects == [] then []
    else (if effects[0].Close? then [StatusCode(effects[0].code)] else []) + Closes(effects[1..])
  }

  lemma {:induction false} SendsAppend(a: seq<Effect>, b: seq<Effect>)
    ensures Sends(a + b) == Sends(a) + Sends(b)
    decreases |a|
  {
    if a == [] {
      assert a + b == b;
    } else {
      var head := if a[0].Send? then [a[0].msg] else [];
      assert (a + b)[0] == a[0] && (a + b)[1..] == a[1..] + b;
      calc {
        Sends(a + b);
        head + Sends(a[1..] + b);
        { SendsAppend(a[1..], b); }
        head + (Sends(a[1..]) + Sends(b));
        (head + Sends(a[1..])) + Sends(b);
      }
    }
  }

  lemma {:induction false} TellsAppend(a: seq<Effect>, b: seq<Effect>)
    ensures Tells(a + b) == Tells(a) + Tells(b)
    decreases |a|
  {
    if a == [] {
      assert a + b == b;
    } else {
      var head := if a[0].Tell? then [a[0].act] else [];
      assert (a + b)[0] == a[0] && (a + b)[1..] == a[1..] + b;
      calc {
        Tells(a + b);
        head + Tells(a[1..] + b);
        { TellsAppend(a[1..], b); }
        head + (Tells(a[1..]) + Tells(b));
        (head + Tells(a[1..])) + Tells(b);
      }
    }
  }

  lemma {:induction false} ClosesAppend(a: seq<Effect>, b: seq<Effect>)
    ensures Closes(a + b) == Closes(a) + Closes(b)
    decreases |a|
  {
    if a == [] {
      assert a + b == b;
    } else {
      var head := if a[0].Close? then [StatusCode(a[0].code)] else [];
      assert (a + b)[0] == a[0] && (a + b)[1..] == a[1..] + b;
      calc {
        Closes(a + b);
        head + Closes(a[1..] + b);
        { ClosesAppend(a[1..], b); }
        head + (Closes(a[1..]) + Closes(b));
        (head + Closes(a[1..])) + Closes(b);
      }
    }
  }

  /** Each observer's view of `a + b` is its view of `a` followed by its view of `b`. */
  lemma ViewsAppend(a: seq<Effect>, b: seq<Effect>)
    ensures Sends(a + b) == Sends(a) + Sends(b)
    ensures Tells(a + b) == Tells(a) + Tells(b)
    ensures Closes(a + b) == Closes(a) + Closes(b)
  {
    SendsAppend(a, b);
    TellsAppend(a, b);
    ClosesAppend(a, b);
  }

  /** Every command the actor is given comes from a `Tell` effect of the list. */
  lemma {:induction false} TellsFrom(effects: seq<Effect>)
    ensures forall a | a in Tells(effects) :: Tell(a) in effects
    decreases |effects|
  {
    if effects != [] {
      TellsFrom(effects[1..]);
      assert forall e | e in effects[1..] :: e in effects;
    }
  }

  /** The views of a single effect. */
  lemma ViewsOfOne(e: Effect)
    ensures Sends([e]) == (if e.Send? then [e.msg] else [])
    ensures Tells([e]) == (if e.Tell? then [e.act] else [])
    ensures Closes([e]) == (if e.Close? then [StatusCode(e.code)] else [])
  {
  }

  /** Cancelling the keep-alive task is invisible to the client, the actor and the transport. */
  lemma CancelUnseen(keepAlive: Option<Timer>)
    ensures Sends(CancelKeepAlive(keepAlive)) == []
    ensures Tells(CancelKeepAlive(keepAlive)) == []
    ensures Closes(CancelKeepAlive(keepAlive)) == []
  {
  }

  /** A teardown tail (keep-alive cancel, then a close) adds only its close code to what `head` shows. */
  lemma TeardownViews(head: seq<Effect>, keepAlive: Option<Timer>, code: CloseCode)
    ensures Sends(head + CancelKeepAlive(keepAlive) + [Close(code)]) == Sends(head)
    ensures Tells(head + CancelKeepAlive(keepAlive) + [Close(code)]) == Tells(head)
    ensures Closes(head + CancelKeepAlive(keepAlive) + [Close(code)]) == Closes(head) + [StatusCode(code)]
  {
    ViewsOfOne(Close(code));
    CancelUnseen(keepAlive);
    ViewsAppend(head, CancelKeepAlive(keepAlive));
    ViewsAppend(head + CancelKeepAlive(keepAlive), [Close(code)]);
  }

  /** A frame that is not valid text only closes with 1003; the parser and the actor are never reached. */
  lemma NotTextClosesOnly(process: Process, keepAlive: Option<Timer>, intent: Intent, intent': Intent,
                          allowed: GraphQLRequest -> Verdict, allowed': GraphQLRequest -> Verdict)
    ensures OnMessage(process, keepAlive, false, intent, allowed) == OnMessage(process, keepAlive, false, intent', allowed')
    ensures Closes(OnMessage(process, keepAlive, false, intent, allowed)) == [1003]
    ensures Tells(OnMessage(process, keepAlive, false, intent, allowed)) == []
    ensures Sends(OnMessage(process, keepAlive, false, intent, allowed)) == []
  {
  }

  /** `initial` registers the process with the actor, then acknowledges; nothing is sent or closed. */
  lemma InitialConnects(process: Process, keepAlive: Option<Timer>, allowed: GraphQLRequest -> Verdict)
    ensures OnMessage(process, keepAlive, true, Initial, allowed) == [Tell(Actor.Connect(process)), Initialize]
    ensures Tells(OnMessage(process, keepAlive, true, Initial, allowed)) == [Actor.Connect(process)]
    ensures Sends(OnMessage(process, keepAlive, true, Initial, allowed)) == []
    ensures Closes(OnMessage(process, keepAlive, true, Initial, allowed)) == []
  {
    ViewsOfOne(Tell(Actor.Connect(process)));
    ViewsOfOne(Initialize);
    ViewsAppend([Tell(Actor.Connect(process))], [Initialize]);
  }

  /** `ping` sends the keep-alive message and nothing else. */
  lemma PingKeepsAlive(process: Process, keepAlive: Option<Timer>, allowed: GraphQLRequest -> Verdict)
    ensures Sends(OnMessage(process, keepAlive, true, Ping, allowed)) == [KeepAliveMessage]
    ensures Tells(OnMessage(process, keepAlive, true, Ping, allowed)) == []
    ensures Closes(OnMessage(process, keepAlive, true, Ping, allowed)) == []
    ensures |OnMessage(process, keepAlive, true, Ping, allowed)| == 1
  {
  }

  /** `terminate`: disconnect, cancel the keep-alive task, close with 1001, in that order; nothing is sent. */
  lemma TerminateTearsDown(process: Process, keepAlive: Option<Timer>, allowed: GraphQLRequest -> Verdict)
    ensures OnMessage(process, keepAlive, true, Terminate, allowed)
            == [Tell(Actor.Disconnect(process.id))] + CancelKeepAlive(keepAlive) + [Close(GoingAway)]
    ensures Tells(OnMessage(process, keepAlive, true, Terminate, allowed)) == [Actor.Disconnect(process.id)]
    ensures Closes(OnMessage(process, keepAlive, true, Terminate, allowed)) == [1001]
    ensures Sends(OnMessage(process, keepAlive, true, Terminate, allowed)) == []
  {
    ViewsOfOne(Tell(Actor.Disconnect(process.id)));
    TeardownViews([Tell(Actor.Disconnect(process.id))], keepAlive, GoingAway);
  }

  /**
    `start` and `once` reach the actor exactly when the introspection check
    returns `true`; `false` or a throw sends one rejection tagged with the
    operation id instead. Either way nothing is closed.
   */
  lemma OperationGuarded(process: Process, keepAlive: Option<Timer>, intent: Intent,
                         allowed: GraphQLRequest -> Verdict)
    requires intent.Start? || intent.Once?
    ensures OnMessage(process, keepAlive, true, intent, allowed)
            == if allowed(intent.gql) == Allowed(true)
               then [Tell(if intent.Start?
                          then Actor.Start(process.id, intent.oid, intent.gql, process.ctx)
                          else Actor.Once(process.id, intent.oid, intent.gql, process.ctx))]
               else [Send(Rejection(intent.oid))]
    ensures var effects := OnMessage(process, keepAlive, true, intent, allowed);
      && (Tells(effects) != [] <==> allowed(intent.gql) == Allowed(true))
      && Closes(effects) == []
      && (allowed(intent.gql) == Allowed(true) ==>
            && Sends(effects) == []
            && Tells(effects) == [if intent.Start?
                                  then Actor.Start(process.id, intent.oid, intent.gql, process.ctx)
                                  else Actor.Once(process.id, intent.oid, intent.gql, process.ctx)])
      && (allowed(intent.gql) != Allowed(true) ==>
            Sends(effects) == [Rejection(intent.oid)] && Tells(effects) == [])
  {
  }

  /** `stop` forwards to the actor and does nothing else. */
  lemma StopForwards(process: Process, keepAlive: Option<Timer>, oid: Oid, allowed: GraphQLRequest -> Verdict)
    ensures OnMessage(process, keepAlive, true, Stop(oid), allowed) == [Tell(Actor.Stop(process.id, oid))]
    ensures Tells(OnMessage(process, keepAlive, true, Stop(oid), allowed)) == [Actor.Stop(process.id, oid)]
    ensures Sends(OnMessage(process, keepAlive, true, Stop(oid), allowed)) == []
    ensures Closes(OnMessage(process, keepAlive, true, Stop(oid), allowed)) == []
  {
  }

  /** A recoverable `error` is reported with its id and text; the connection stays registered and open. */
  lemma ErrorReported(process: Process, keepAlive: Option<Timer>, id: Option<Oid>, message: string,
                      allowed: GraphQLRequest -> Verdict)
    ensures OnMessage(process, keepAlive, true, Error(id, message), allowed)
            == [Send(ErrorsMessage(id, [GraphQLError(message)]))]
    ensures Sends(OnMessage(process, keepAlive, true, Error(id, message), allowed))
            == [ErrorsMessage(id, [GraphQLError(message)])]
    ensures Tells(OnMessage(process, keepAlive, true, Error(id, message), allowed)) == []
    ensures Closes(OnMessage(process, keepAlive, true, Error(id, message), allowed)) == []
  {
  }

  /**
    `fatal`: an error without an id, then disconnect, cancel the keep-alive
    task and close with 1008, in that order.
   */
  lemma FatalTearsDown(process: Process, keepAlive: Option<Timer>, message: string,
                       allowed: GraphQLRequest -> Verdict)
    ensures OnMessage(process, keepAlive, true, Fatal(message), allowed)
            == [Send(ErrorsMessage(None, [GraphQLError(message)])), Tell(Actor.Disconnect(process.id))]
               + CancelKeepAlive(keepAlive) + [Close(PolicyViolation)]
    ensures Sends(OnMessage(process, keepAlive, true, Fatal(message), allowed))
            == [ErrorsMessage(None, [GraphQLError(message)])]
    ensures Tells(OnMessage(process, keepAlive, true, Fatal(message), allowed)) == [Actor.Disconnect(process.id)]
    ensures Closes(OnMessage(process, keepAlive, true, Fatal(message), allowed)) == [1008]
  {
    var send, tell := Send(ErrorsMessage(None, [GraphQLError(message)])), Tell(Actor.Disconnect(process.id));
    ViewsOfOne(send);
    ViewsOfOne(tell);
    ViewsAppend([send], [tell]);
    assert [send] + [tell] == [send, tell];
    TeardownViews([send, tell], keepAlive, PolicyViolation);
  }

  /** `ignore` does nothing. */
  lemma IgnoreInert(process: Process, keepAlive: Option<Timer>, allowed: GraphQLRequest -> Verdict)
    ensures OnMessage(process, keepAlive, true, Ignore, allowed) == []
  {
  }

  /** The close handler never sends and never closes; it only disconnects and cancels. */
  lemma OnEndQuiet(pid: Pid, keepAlive: Option<Timer>)
    ensures Sends(OnEnd(pid, keepAlive)) == [] && Closes(OnEnd(pid, keepAlive)) == []
    ensures Tells(OnEnd(pid, keepAlive)) == [Actor.Disconnect(pid)]
  {
    ViewsOfOne(Tell(Actor.Disconnect(pid)));
    CancelUnseen(keepAlive);
    ViewsAppend([Tell(Actor.Disconnect(pid))], CancelKeepAlive(keepAlive));
  }

  // What a frame does to the registry: its actor commands, run in order.

  lemma RunOne(s: Actor.State, act: Actor.Act)
    ensures Actor.Run(s, [act]) == Actor.Step(s, act)
  {
  }

  /** No command a handler gives the actor sends anything by itself. */
  lemma {:induction false} NoOutgoingNoCount(acts: seq<Actor.Act>)
    requires forall a | a in acts :: !a.Outgoing?
    ensures Actor.OutgoingCount(acts) == 0
    decreases |acts|
  {
    if acts != [] {
      assert acts[0] in acts;
      assert forall a | a in acts[1..] :: a in acts;
      NoOutgoingNoCount(acts[1..]);
    }
  }

  /** A frame never makes the actor send a message: replies come only from piped results. */
  lemma FrameSendsNothingViaActor(s: Actor.State, process: Process, keepAlive: Option<Timer>, utf8: bool,
                                  intent: Intent, allowed: GraphQLRequest -> Verdict)
    ensures Actor.Run(s, Tells(OnMessage(process, keepAlive, utf8, intent, allowed))).sent == s.sent
  {
    var acts := Tells(OnMessage(process, keepAlive, utf8, intent, allowed));
    TellsFrom(OnMessage(process, keepAlive, utf8, intent, allowed));
    NoOutgoingNoCount(acts);
    Actor.RunExtendsLog(s, acts);
  }

  /** A frame on one connection leaves every other connection's registry entry as it was. */
  lemma FrameIsolated(s: Actor.State, process: Process, keepAlive: Option<Timer>, utf8: bool,
                      intent: Intent, allowed: GraphQLRequest -> Verdict, other: Pid)
    requires other != process.id
    ensures Actor.SameEntry(s.clients, Actor.Run(s, Tells(OnMessage(process, keepAlive, utf8, intent, allowed))).clients, other)
  {
    TellsFrom(OnMessage(process, keepAlive, utf8, intent, allowed));
    Actor.RunFrame(s, Tells(OnMessage(process, keepAlive, utf8, intent, allowed)), other);
  }

  /** After `initial`, the registry holds exactly the old entries plus this process under its id. */
  lemma InitialRegisters(s: Actor.State, process: Process, keepAlive: Option<Timer>,
                         allowed: GraphQLRequest -> Verdict)
    ensures Actor.Run(s, Tells(OnMessage(process, keepAlive, true, Initial, allowed))).clients
            == s.clients[process.id := process]
  {
    InitialConnects(process, keepAlive, allowed);
    RunOne(s, Actor.Connect(process));
  }

  /**
    Whenever a text frame closes the connection, the connection is no longer
    registered once the frame's actor commands have run.
   */
  lemma ClosingDeregisters(s: Actor.State, process: Process, keepAlive: Option<Timer>, intent: Intent,
                           allowed: GraphQLRequest -> Verdict)
    requires Closes(OnMessage(process, keepAlive, true, intent, allowed)) != []
    ensures process.id !in Actor.Run(s, Tells(OnMessage(process, keepAlive, true, intent, allowed))).clients
  {
    match intent
    case Initial => InitialConnects(process, keepAlive, allowed); assert false;
    case Ping => PingKeepsAlive(process, keepAlive, allowed); assert false;
    case Terminate =>
      TerminateTearsDown(process, keepAlive, allowed);
      RunOne(s, Actor.Disconnect(process.id));
    case Start(_, _) => OperationGuarded(process, keepAlive, intent, allowed); assert false;
    case Once(_, _) => OperationGuarded(process, keepAlive, intent, allowed); assert false;
    case Stop(oid) => StopForwards(process, keepAlive, oid, allowed); assert false;
    case Error(id, message) => ErrorReported(process, keepAlive, id, message, allowed); assert false;
    case Fatal(message) =>
      FatalTearsDown(process, keepAlive, message, allowed);
      RunOne(s, Actor.Disconnect(process.id));
    case Ignore => assert false;
  }

  /** After the close handler's commands run, the connection is gone and nothing was sent. */
  lemma OnEndDeregisters(s: Actor.State, pid: Pid, keepAlive: Option<Timer>)
    ensures pid !in Actor.Run(s, Tells(OnEnd(pid, keepAlive))).clients
    ensures Actor.Run(s, Tells(OnEnd(pid, keepAlive))).sent == s.sent
  {
    OnEndQuiet(pid, keepAlive);
    RunOne(s, Actor.Disconnect(pid));
  }
}
