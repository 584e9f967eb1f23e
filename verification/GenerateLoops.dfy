/**
 The Generate client and server loops.

 A loop is a control point, the tokens so far and the session. `ClientThen` and
 `ServerThen` say where a loop goes once a call has recorded a frame. The methods
 are the loops themselves, run against a script of transport answers, and are
 proved to do exactly what the control functions say.
 */
module GenerateLoops {
  import opened Basics
  import opened Traces
  import opened Projection
  import opened Machines
  import opened Sessions

  const U64_LIMIT := 0x1_0000_0000_0000_0000

  /** `token_payload` */
  function TokenIdOf(f: Frame): Option<nat> {
    if f.Data? && f.message == "token" && f.payload.Some? && f.payload.value.Obj? &&
       "id" in f.payload.value.fields && f.payload.value.fields["id"].Number? &&
       0 <= f.payload.value.fields["id"].number < U64_LIMIT
    then Some(f.payload.value.fields["id"].number)
    else None
  }

  /** `prompt_payload` */
  predicate HasPrompt(f: Frame) {
    && f.Data? && f.message == "prompt" && f.payload.Some? && f.payload.value.Obj?
    && "text" in f.payload.value.fields && f.payload.value.fields["text"].Str?
  }

  function PromptPayload(text: string): Json { Obj(map["text" := Str(text)]) }

  function TokenPayload(id: nat): Json { Obj(map["id" := Number(id)]) }

  // ----- Client control

  datatype ClientPc = SendPrompt | AwaitChoice | AwaitToken | SendContinue | SendCancelChoice | SendCancel
                    | ClientReturned | ClientRejected

  datatype Client = Client(pc: ClientPc, tokens: seq<nat>)
  {
    predicate Done() { pc.ClientReturned? || pc.ClientRejected? }
    predicate Sending() { pc.SendPrompt? || pc.SendContinue? || pc.SendCancelChoice? || pc.SendCancel? }
  }

  /** A cancel point of zero is refused before anything is sent. */
  function ClientStart(cancelAfter: Option<nat>): Client {
    Client(if cancelAfter == Some(0) then ClientRejected else SendPrompt, [])
  }

  function ClientAction(pc: ClientPc, text: string): Action {
    match pc
    case SendPrompt => SendData(PromptPayload(text))
    case SendContinue => Choose("continue")
    case SendCancelChoice => Choose("cancel")
    case _ => SendCancellation
  }

  /** The head of the client loop. */
  function ClientHead(tokens: seq<nat>, complete: bool): Client {
    Client(if complete then ClientReturned else AwaitChoice, tokens)
  }

  function ClientThen(cancelAfter: Option<nat>, k: Client, f: Frame, complete: bool): Client {
    if f.Fault? then k.(pc := ClientReturned)
    else match k.pc
         case SendPrompt => ClientHead(k.tokens, complete)
         case AwaitChoice =>
           if f.Select? && f.branch == "done" then ClientHead(k.tokens, complete)
           else if f.Select? && f.branch == "token" then k.(pc := AwaitToken)
           else k.(pc := ClientRejected)
         case AwaitToken =>
           (match TokenIdOf(f)
            case None => k.(pc := ClientRejected)
            case Some(id) =>
              var tokens := k.tokens + [id];
              Client(if cancelAfter.Some? && |tokens| >= cancelAfter.value then SendCancelChoice else SendContinue, tokens))
         case SendContinue => ClientHead(k.tokens, complete)
         case SendCancelChoice => k.(pc := ClientPc.SendCancel)
         case SendCancel => ClientHead(k.tokens, complete)
         case _ => k
  }

  // ----- Server control

  datatype ServerPc = AwaitPrompt | SendDone | SendTokenChoice | SendToken | AwaitAction | AwaitCancel
                    | ServerReturned | ServerRejected

  datatype Server = Server(pc: ServerPc, tokens: seq<nat>)
  {
    predicate Done() { pc.ServerReturned? || pc.ServerRejected? }
    predicate Sending() { pc.SendDone? || pc.SendTokenChoice? || pc.SendToken? }
  }

  function ServerAction(k: Server): Action {
    match k.pc
    case SendDone => Choose("done")
    case SendTokenChoice => Choose("token")
    case _ => SendData(TokenPayload(|k.tokens| + 1))
  }

  /** The head of the server loop. */
  function ServerHead(limit: nat, tokens: seq<nat>, complete: bool): Server {
    Server(if complete then ServerReturned else if |tokens| >= limit then SendDone else SendTokenChoice, tokens)
  }

  function ServerThen(limit: nat, k: Server, f: Frame, complete: bool): Server {
    if f.Fault? then k.(pc := ServerReturned)
    else match k.pc
         case AwaitPrompt => if HasPrompt(f) then ServerHead(limit, k.tokens, complete) else k.(pc := ServerRejected)
         case SendDone => ServerHead(limit, k.tokens, complete)
         case SendTokenChoice => k.(pc := SendToken)
         case SendToken => Server(AwaitAction, k.tokens + [|k.tokens| + 1])
         case AwaitAction =>
           if f.Select? && f.branch == "continue" then ServerHead(limit, k.tokens, complete)
           else if f.Select? && f.branch == "cancel" then k.(pc := AwaitCancel)
           else k.(pc := ServerRejected)
         case AwaitCancel => if f.Cancel? then ServerHead(limit, k.tokens, complete) else k.(pc := ServerRejected)
         case _ => k
  }

  // ----- The loops against a script of answers

  /** A loop in progress, with the session it drives. */
  datatype ClientRun = ClientRun(control: Client, session: Session)

  datatype ServerRun = ServerRun(control: Server, session: Session)

  ghost function Last(s: Session): Frame
    requires |s.trace| > 0
  {
    s.trace[|s.trace| - 1]
  }

  ghost function ClientNext(cancelAfter: Option<nat>, text: string, run: ClientRun, r: Reply): ClientRun
    requires run.session.machine.Ready()
  {
    var event := EventOf(run.control.Sending(), ClientAction(run.control.pc, text), r);
    PerformReady(run.session, event);
    match Perform(run.session, event)
    case Err(_) => ClientRun(run.control.(pc := ClientRejected), Abandoned(run.session, event))
    case Ok(s) => ClientRun(ClientThen(cancelAfter, run.control, Last(s), s.machine.Local().Terminal()), s)
  }

  ghost function ServerNext(limit: nat, run: ServerRun, r: Reply): ServerRun
    requires run.session.machine.Ready()
  {
    var event := EventOf(run.control.Sending(), ServerAction(run.control), r);
    PerformReady(run.session, event);
    match Perform(run.session, event)
    case Err(_) => ServerRun(run.control.(pc := ServerRejected), Abandoned(run.session, event))
    case Ok(s) => ServerRun(ServerThen(limit, run.control, Last(s), s.machine.Local().Terminal()), s)
  }

  /** The loop over the script, until it returns or the script ends. */
  ghost function ClientOver(cancelAfter: Option<nat>, text: string, run: ClientRun, script: seq<Reply>): ClientRun
    decreases |script|
  {
    if |script| == 0 || run.control.Done() || !run.session.machine.Ready() then run
    else ClientOver(cancelAfter, text, ClientNext(cancelAfter, text, run, script[0]), script[1..])
  }

  ghost function ServerOver(limit: nat, run: ServerRun, script: seq<Reply>): ServerRun
    decreases |script|
  {
    if |script| == 0 || run.control.Done() || !run.session.machine.Ready() then run
    else ServerOver(limit, ServerNext(limit, run, script[0]), script[1..])
  }

  // ----- Execution reports

  datatype Report = Report(frames: nat, tokens: seq<nat>, completed: bool, successful: bool, failure: Option<string>,
                           finalState: string, trace: seq<Frame>)

  /** How a loop ends: with a report, with an error, or waiting for the transport. */
  datatype Outcome = Reported(report: Report) | Errored | Waiting

  ghost function ReportOf(tokens: seq<nat>, s: Session): Report
    requires s.machine.Ready()
  {
    var local := s.machine.Local();
    Report(s.machine.sequence, tokens, local.Terminal(), local.End?,
           if local.Fail? then Some(local.failure) else None, s.machine.current, s.trace)
  }

  ghost predicate ClientEnds(run: ClientRun, o: Outcome) {
    match run.control.pc
    case ClientReturned => run.session.machine.Ready() && o == Reported(ReportOf(run.control.tokens, run.session))
    case ClientRejected => o.Errored?
    case _ => o.Waiting?
  }

  ghost predicate ServerEnds(run: ServerRun, o: Outcome) {
    match run.control.pc
    case ServerReturned => run.session.machine.Ready() && o == Reported(ReportOf(run.control.tokens, run.session))
    case ServerRejected => o.Errored?
    case _ => o.Waiting?
  }

  method MakeReport(machine: EndpointMachine, tokens: seq<nat>, trace: seq<Frame>) returns (o: Outcome)
    requires machine.View().Ready()
    ensures o == Reported(ReportOf(tokens, Session(machine.View(), trace)))
  {
    var completed := machine.IsComplete();
    var successful := machine.IsSuccessful();
    var failure := machine.Failure();
    o := Reported(Report(machine.sequence, tokens, completed, successful, failure, machine.current, trace));
  }

  /** `?` and `return` on a refused call: an error ends the loop, a recorded fault ends it with a report. */
  method Ending(r: Result<bool, RuntimeError>, machine: EndpointMachine, tokens: seq<nat>, trace: seq<Frame>) returns (o: Outcome)
    requires machine.View().Ready() && r != Ok(true)
    ensures r.Err? ==> o == Errored
    ensures r.Ok? ==> o == Reported(ReportOf(tokens, Session(machine.View(), trace)))
  {
    if r.Err? { return Errored; }
    o := MakeReport(machine, tokens, trace);
  }

  /** Emit an action and pass it to `send_and_record`. */
  method Transmit(machine: EndpointMachine, a: Action, reply: Reply, trace: seq<Frame>)
    returns (r: Result<bool, RuntimeError>, out: seq<Frame>)
    requires machine.View().Ready()
    modifies machine
    ensures machine.View().Ready()
    ensures match Perform(Session(old(machine.View()), trace), Event.Sending(a, reply.refusal))
            case Ok(s) => && r == Ok(reply.refusal.None?) && machine.View() == s.machine && out == s.trace
                          && |out| > 0 && (out[|out| - 1].Fault? <==> reply.refusal.Some?)
            case Err(e) => r.Err? && machine.View() == Abandoned(Session(old(machine.View()), trace), Event.Sending(a, reply.refusal)).machine
  {
    ghost var before := machine.View();
    var emitted := EmitAction(machine, a);
    if emitted.Err? { return Err(emitted.error), trace; }
    EmitKeepsState(before, a);
    var aborted;
    r, out, aborted := SendAndRecord(machine, emitted.value, reply.refusal, trace);
  }

  lemma AcceptedIsNoFault(m: Machine, e: WireEnvelope)
    requires m.Ready() && Accept(m, e).Ok?
    ensures !e.frame.Fault?
  {
  }

  /** Pass the next answer to `receive_and_record`. */
  method Await(machine: EndpointMachine, reply: Reply, trace: seq<Frame>)
    returns (r: Result<bool, RuntimeError>, frame: Option<Frame>, out: seq<Frame>)
    requires machine.View().Ready()
    modifies machine
    ensures machine.View().Ready()
    ensures match Perform(Session(old(machine.View()), trace), EventOf(false, SendCancellation, reply))
            case Ok(s) => && r == Ok(frame.Some?) && machine.View() == s.machine && out == s.trace
                          && |out| > 0 && (out[|out| - 1].Fault? <==> frame.None?)
                          && (frame.Some? ==> frame.value == out[|out| - 1])
            case Err(e) => r.Err? && machine.View() == old(machine.View())
  {
    var answer := if reply.refusal.Some? then Err(reply.refusal.value) else Ok(reply.envelope);
    var got, aborted;
    got, out, aborted := ReceiveAndRecord(machine, answer, trace);
    if got.Err? { return Err(got.error), None, trace; }
    frame := got.value;
    r := Ok(frame.Some?);
    if frame.Some? { AcceptedIsNoFault(old(machine.View()), reply.envelope); }
  }

  // ----- The client loop

  /** One more answer: the loop makes one more call, unless it has ended. */
  lemma {:induction false} ClientOverSnoc(cancelAfter: Option<nat>, text: string, run: ClientRun, script: seq<Reply>, r: Reply)
    ensures var mid := ClientOver(cancelAfter, text, run, script);
            ClientOver(cancelAfter, text, run, script + [r]) ==
            if mid.control.Done() || !mid.session.machine.Ready() then mid else ClientNext(cancelAfter, text, mid, r)
    decreases |script|
  {
    hide ClientNext, ClientThen, Find, Closed;
    if |script| == 0 || run.control.Done() || !run.session.machine.Ready() {
      assert |script| == 0 ==> script + [r] == [r] && [r][1..] == [];
    } else {
      assert (script + [r])[1..] == script[1..] + [r];
      ClientOverSnoc(cancelAfter, text, ClientNext(cancelAfter, text, run, script[0]), script[1..], r);
    }
  }

  lemma ClientOverStep(cancelAfter: Option<nat>, text: string, run: ClientRun, script: seq<Reply>, i: nat)
    requires i < |script| && !run.control.Done() && run.session.machine.Ready()
    ensures ClientOver(cancelAfter, text, run, script[i..]) ==
            ClientOver(cancelAfter, text, ClientNext(cancelAfter, text, run, script[i]), script[i + 1..])
  {
    assert script[i..][0] == script[i] && script[i..][1..] == script[i + 1..];
  }

  lemma ClientErrs(cancelAfter: Option<nat>, text: string, run: ClientRun, script: seq<Reply>)
    requires run.control.pc.ClientRejected?
    ensures ClientEnds(ClientOver(cancelAfter, text, run, script), Errored)
  {
  }

  lemma ClientReports(cancelAfter: Option<nat>, text: string, run: ClientRun, script: seq<Reply>)
    requires run.control.pc.ClientReturned? && run.session.machine.Ready()
    ensures ClientEnds(ClientOver(cancelAfter, text, run, script), Reported(ReportOf(run.control.tokens, run.session)))
  {
  }

  /** The control after a call that recorded a frame other than a fault. */
  ghost predicate ClientMoved(cancelAfter: Option<nat>, run: ClientRun, next: ClientRun) {
    && next.session.machine.Ready() && |next.session.trace| > 0 && !Last(next.session).Fault?
    && next.control == ClientThen(cancelAfter, run.control, Last(next.session), next.session.machine.Local().Terminal())
  }

  /** One send of the client: go on, or end the loop. */
  method ClientSend(machine: EndpointMachine, text: string, cancelAfter: Option<nat>, a: Action, tokens: seq<nat>,
                    trace: seq<Frame>, script: seq<Reply>, i: nat, ghost run: ClientRun)
    returns (o: Option<Outcome>, out: seq<Frame>, ghost next: ClientRun)
    requires machine.View().Ready() && i <= |script|
    requires run.session == Session(machine.View(), trace) && run.control.Sending()
    requires a == ClientAction(run.control.pc, text) && tokens == run.control.tokens
    modifies machine
    ensures machine.View().Ready()
    ensures o.Some? ==> ClientEnds(ClientOver(cancelAfter, text, run, script[i..]), o.value)
    ensures o.None? ==>
              && i < |script| && next.session == Session(machine.View(), out) && ClientMoved(cancelAfter, run, next)
              && ClientOver(cancelAfter, text, run, script[i..]) == ClientOver(cancelAfter, text, next, script[i + 1..])
  {
    hide Perform, Closed, Find, Emit;
    next, out := run, trace;
    if i == |script| { return Some(Waiting), trace, run; }
    ClientOverStep(cancelAfter, text, run, script, i);
    next := ClientNext(cancelAfter, text, run, script[i]);
    var sent;
    sent, out := Transmit(machine, a, script[i], trace);
    o := None;
    if sent != Ok(true) {
      var ending := Ending(sent, machine, tokens, out);
      o := Some(ending);
    }
  }

  /** One receive of the client. */
  method ClientReceive(machine: EndpointMachine, text: string, cancelAfter: Option<nat>, tokens: seq<nat>,
                       trace: seq<Frame>, script: seq<Reply>, i: nat, ghost run: ClientRun)
    returns (o: Option<Outcome>, frame: Frame, out: seq<Frame>, ghost next: ClientRun)
    requires machine.View().Ready() && i <= |script|
    requires run.session == Session(machine.View(), trace) && !run.control.Sending() && !run.control.Done()
    requires tokens == run.control.tokens
    modifies machine
    ensures machine.View().Ready()
    ensures o.Some? ==> ClientEnds(ClientOver(cancelAfter, text, run, script[i..]), o.value)
    ensures o.None? ==>
              && i < |script| && next.session == Session(machine.View(), out) && ClientMoved(cancelAfter, run, next)
              && frame == Last(next.session)
              && ClientOver(cancelAfter, text, run, script[i..]) == ClientOver(cancelAfter, text, next, script[i + 1..])
  {
    hide Perform, Closed, Find, Accept;
    next, out, frame := run, trace, Fault("", "");
    if i == |script| { return Some(Waiting), frame, trace, run; }
    ClientOverStep(cancelAfter, text, run, script, i);
    next := ClientNext(cancelAfter, text, run, script[i]);
    var ok, got;
    ok, got, out := Await(machine, script[i], trace);
    o := None;
    if ok != Ok(true) {
      var ending := Ending(ok, machine, tokens, out);
      o := Some(ending);
    } else {
      frame := got.value;
    }
  }

  /** The client's answer to a token: cancel at the cancel point, otherwise continue. */
  method ClientAnswer(machine: EndpointMachine, text: string, cancelAfter: Option<nat>, tokens: seq<nat>,
                      trace: seq<Frame>, script: seq<Reply>, i: nat, ghost run: ClientRun)
    returns (o: Option<Outcome>, out: seq<Frame>, at: nat, ghost next: ClientRun)
    requires machine.View().Ready() && i <= |script| && run.session == Session(machine.View(), trace)
    requires run.control == Client(if cancelAfter.Some? && |tokens| >= cancelAfter.value then SendCancelChoice else SendContinue, tokens)
    modifies machine
    ensures machine.View().Ready()
    ensures o.Some? ==> ClientEnds(ClientOver(cancelAfter, text, run, script[i..]), o.value)
    ensures o.None? ==>
              && i < at <= |script|
              && next == ClientRun(ClientHead(tokens, machine.View().Local().Terminal()), Session(machine.View(), out))
              && ClientOver(cancelAfter, text, run, script[i..]) == ClientOver(cancelAfter, text, next, script[at..])
  {
    hide Closed, Find, ClientNext, TokenIdOf, ClientOver, ClientEnds, ReportOf;
    at := i;
    if cancelAfter.Some? && |tokens| >= cancelAfter.value {
      o, out, next := ClientSend(machine, text, cancelAfter, Choose("cancel"), tokens, trace, script, at, run);
      if o.Some? { return; }
      at := at + 1;
      o, out, next := ClientSend(machine, text, cancelAfter, SendCancellation, tokens, out, script, at, next);
      if o.Some? { return; }
      at := at + 1;
    } else {
      o, out, next := ClientSend(machine, text, cancelAfter, Choose("continue"), tokens, trace, script, at, run);
      if o.Some? { return; }
      at := at + 1;
    }
  }

  /** `run_generate_client_plan` */
  method RunGenerateClientPlan(machine: EndpointMachine, text: string, cancelAfter: Option<nat>, script: seq<Reply>)
    returns (o: Outcome)
    requires machine.View().Ready()
    modifies machine
    ensures ClientEnds(ClientOver(cancelAfter, text, ClientRun(ClientStart(cancelAfter), Session(old(machine.View()), [])), script), o)
  {
    hide Closed, Find, ClientNext, TokenIdOf, ClientOver, ClientEnds, ReportOf;
    var trace: seq<Frame>, tokens: seq<nat>, i := [], [], 0;
    ghost var run := ClientRun(ClientStart(cancelAfter), Session(machine.View(), []));
    if cancelAfter == Some(0) { ClientErrs(cancelAfter, text, run, script); return Errored; }
    ghost var goal := ClientOver(cancelAfter, text, run, script);
    assert script[0..] == script;
    var end, frame;
    end, trace, run := ClientSend(machine, text, cancelAfter, SendData(PromptPayload(text)), tokens, trace, script, i, run);
    if end.Some? { return end.value; }
    i := i + 1;
    var complete := machine.IsComplete();
    while !complete
      invariant machine.View().Ready() && 0 <= i <= |script|
      invariant complete == machine.View().Local().Terminal()
      invariant run == ClientRun(ClientHead(tokens, complete), Session(machine.View(), trace))
      invariant goal == ClientOver(cancelAfter, text, run, script[i..])
      decreases |script| - i
    {
      end, frame, trace, run := ClientReceive(machine, text, cancelAfter, tokens, trace, script, i, run);
      if end.Some? { return end.value; }
      i := i + 1;
      if frame.Select? && frame.branch == "done" {
      } else if frame.Select? && frame.branch == "token" {
        end, frame, trace, run := ClientReceive(machine, text, cancelAfter, tokens, trace, script, i, run);
        if end.Some? { return end.value; }
        i := i + 1;
        var token := TokenIdOf(frame);
        if token.None? { ClientErrs(cancelAfter, text, run, script[i..]); return Errored; }
        tokens := tokens + [token.value];
        end, trace, i, run := ClientAnswer(machine, text, cancelAfter, tokens, trace, script, i, run);
        if end.Some? { return end.value; }
      } else {
        ClientErrs(cancelAfter, text, run, script[i..]); return Errored;
      }
      complete := machine.IsComplete();
    }
    ClientReports(cancelAfter, text, run, script[i..]);
    o := MakeReport(machine, tokens, trace);
  }

  // ----- The server loop

  /** One more answer: the loop makes one more call, unless it has ended. */
  lemma {:induction false} ServerOverSnoc(limit: nat, run: ServerRun, script: seq<Reply>, r: Reply)
    ensures var mid := ServerOver(limit, run, script);
            ServerOver(limit, run, script + [r]) ==
            if mid.control.Done() || !mid.session.machine.Ready() then mid else ServerNext(limit, mid, r)
    decreases |script|
  {
    hide ServerNext, ServerThen, Find, Closed;
    if |script| == 0 || run.control.Done() || !run.session.machine.Ready() {
      assert |script| == 0 ==> script + [r] == [r] && [r][1..] == [];
    } else {
      assert (script + [r])[1..] == script[1..] + [r];
      ServerOverSnoc(limit, ServerNext(limit, run, script[0]), script[1..], r);
    }
  }

  lemma ServerOverStep(limit: nat, run: ServerRun, script: seq<Reply>, i: nat)
    requires i < |script| && !run.control.Done() && run.session.machine.Ready()
    ensures ServerOver(limit, run, script[i..]) == ServerOver(limit, ServerNext(limit, run, script[i]), script[i + 1..])
  {
    assert script[i..][0] == script[i] && script[i..][1..] == script[i + 1..];
  }

  lemma ServerErrs(limit: nat, run: ServerRun, script: seq<Reply>)
    requires run.control.pc.ServerRejected?
    ensures ServerEnds(ServerOver(limit, run, script), Errored)
  {
  }

  lemma ServerReports(limit: nat, run: ServerRun, script: seq<Reply>)
    requires run.control.pc.ServerReturned? && run.session.machine.Ready()
    ensures ServerEnds(ServerOver(limit, run, script), Reported(ReportOf(run.control.tokens, run.session)))
  {
  }

  ghost predicate ServerMoved(limit: nat, run: ServerRun, next: ServerRun) {
    && next.session.machine.Ready() && |next.session.trace| > 0 && !Last(next.session).Fault?
    && next.control == ServerThen(limit, run.control, Last(next.session), next.session.machine.Local().Terminal())
  }

  /** One send of the server: go on, or end the loop. */
  method ServerSend(machine: EndpointMachine, limit: nat, a: Action, tokens: seq<nat>, trace: seq<Frame>,
                    script: seq<Reply>, i: nat, ghost run: ServerRun)
    returns (o: Option<Outcome>, out: seq<Frame>, ghost next: ServerRun)
    requires machine.View().Ready() && i <= |script|
    requires run.session == Session(machine.View(), trace) && run.control.Sending()
    requires a == ServerAction(run.control) && tokens == run.control.tokens
    modifies machine
    ensures machine.View().Ready()
    ensures o.Some? ==> ServerEnds(ServerOver(limit, run, script[i..]), o.value)
    ensures o.None? ==>
              && i < |script| && next.session == Session(machine.View(), out) && ServerMoved(limit, run, next)
              && ServerOver(limit, run, script[i..]) == ServerOver(limit, next, script[i + 1..])
  {
    hide Perform, Closed, Find, Emit;
    next, out := run, trace;
    if i == |script| { return Some(Waiting), trace, run; }
    ServerOverStep(limit, run, script, i);
    next := ServerNext(limit, run, script[i]);
    var sent;
    sent, out := Transmit(machine, a, script[i], trace);
    o := None;
    if sent != Ok(true) {
      var ending := Ending(sent, machine, tokens, out);
      o := Some(ending);
    }
  }

  /** One receive of the server. */
  method ServerReceive(machine: EndpointMachine, limit: nat, tokens: seq<nat>, trace: seq<Frame>,
                       script: seq<Reply>, i: nat, ghost run: ServerRun)
    returns (o: Option<Outcome>, frame: Frame, out: seq<Frame>, ghost next: ServerRun)
    requires machine.View().Ready() && i <= |script|
    requires run.session == Session(machine.View(), trace) && !run.control.Sending() && !run.control.Done()
    requires tokens == run.control.tokens
    modifies machine
    ensures machine.View().Ready()
    ensures o.Some? ==> ServerEnds(ServerOver(limit, run, script[i..]), o.value)
    ensures o.None? ==>
              && i < |script| && next.session == Session(machine.View(), out) && ServerMoved(limit, run, next)
              && frame == Last(next.session)
              && ServerOver(limit, run, script[i..]) == ServerOver(limit, next, script[i + 1..])
  {
    hide Perform, Closed, Find, Accept;
    next, out, frame := run, trace, Fault("", "");
    if i == |script| { return Some(Waiting), frame, trace, run; }
    ServerOverStep(limit, run, script, i);
    next := ServerNext(limit, run, script[i]);
    var ok, got;
    ok, got, out := Await(machine, script[i], trace);
    o := None;
    if ok != Ok(true) {
      var ending := Ending(ok, machine, tokens, out);
      o := Some(ending);
    } else {
      frame := got.value;
    }
  }

  /** `run_generate_server_plan` */
  method RunGenerateServerPlan(machine: EndpointMachine, limit: nat, script: seq<Reply>) returns (o: Outcome)
    requires machine.View().Ready()
    modifies machine
    ensures ServerEnds(ServerOver(limit, ServerRun(Server(AwaitPrompt, []), Session(old(machine.View()), [])), script), o)
  {
    hide Closed, Find, ServerNext, HasPrompt, ServerOver, ServerEnds, ReportOf;
    var trace: seq<Frame>, tokens: seq<nat>, i := [], [], 0;
    ghost var run := ServerRun(Server(AwaitPrompt, []), Session(machine.View(), []));
    ghost var goal := ServerOver(limit, run, script);
    assert script[0..] == script;
    var end, frame;
    end, frame, trace, run := ServerReceive(machine, limit, tokens, trace, script, i, run);
    if end.Some? { return end.value; }
    i := i + 1;
    if !HasPrompt(frame) { ServerErrs(limit, run, script[i..]); return Errored; }
    var complete := machine.IsComplete();
    while !complete
      invariant machine.View().Ready() && 0 <= i <= |script|
      invariant complete == machine.View().Local().Terminal()
      invariant run == ServerRun(ServerHead(limit, tokens, complete), Session(machine.View(), trace))
      invariant goal == ServerOver(limit, run, script[i..])
      decreases |script| - i
    {
      if |tokens| >= limit {
        end, trace, run := ServerSend(machine, limit, Choose("done"), tokens, trace, script, i, run);
        if end.Some? { return end.value; }
        i := i + 1;
      } else {
        end, trace, run := ServerSend(machine, limit, Choose("token"), tokens, trace, script, i, run);
        if end.Some? { return end.value; }
        i := i + 1;
        var id := |tokens| + 1;
        end, trace, run := ServerSend(machine, limit, SendData(TokenPayload(id)), tokens, trace, script, i, run);
        if end.Some? { return end.value; }
        i := i + 1;
        tokens := tokens + [id];
        end, frame, trace, run := ServerReceive(machine, limit, tokens, trace, script, i, run);
        if end.Some? { return end.value; }
        i := i + 1;
        if frame.Select? && frame.branch == "continue" {
        } else if frame.Select? && frame.branch == "cancel" {
          end, frame, trace, run := ServerReceive(machine, limit, tokens, trace, script, i, run);
          if end.Some? { return end.value; }
          i := i + 1;
          if !frame.Cancel? { ServerErrs(limit, run, script[i..]); return Errored; }
        } else {
          ServerErrs(limit, run, script[i..]); return Errored;
        }
      }
      complete := machine.IsComplete();
    }
    ServerReports(limit, run, script[i..]);
    o := MakeReport(machine, tokens, trace);
  }

  // ----- Payloads that end a loop

  /** A token frame carries an object whose `id` is a number of 64 bits. */
  lemma TokenIdMeans(f: Frame, id: int)
    ensures (0 <= id && TokenIdOf(f) == Some(id)) <==>
            && f.Data? && f.message == "token" && 0 <= id <= 18446744073709551615
            && exists fields :: f.payload == Some(Obj(fields)) && "id" in fields && fields["id"] == Number(id)
  {
  }

  lemma HasPromptMeans(f: Frame)
    ensures HasPrompt(f) <==>
            && f.Data? && f.message == "prompt"
            && exists fields, text :: f.payload == Some(Obj(fields)) && "text" in fields && fields["text"] == Str(text)
  {
    if HasPrompt(f) {
      assert f.payload == Some(Obj(f.payload.value.fields));
      assert f.payload.value.fields["text"] == Str(f.payload.value.fields["text"].text);
    }
  }

  /** A server whose first frame has no text returns an error, whatever follows. */
  lemma ServerRefusesBadPrompt(limit: nat, m: Machine, script: seq<Reply>)
    requires m.Ready() && |script| > 0 && script[0].refusal.None? && Accept(m, script[0].envelope).Ok?
    requires script[0].envelope.frame.Data? ==>
               forall fields, text :: script[0].envelope.frame.payload == Some(Obj(fields)) && "text" in fields ==>
                 fields["text"] != Str(text)
    ensures ServerEnds(ServerOver(limit, ServerRun(Server(AwaitPrompt, []), Session(m, [])), script), Errored)
  {
    hide Closed, Find, Accept;
    HasPromptMeans(script[0].envelope.frame);
    AcceptedIsNoFault(m, script[0].envelope);
    var start := ServerRun(Server(AwaitPrompt, []), Session(m, []));
    PerformReady(start.session, Receiving(Ok(script[0].envelope)));
    ServerErrs(limit, ServerNext(limit, start, script[0]), script[1..]);
  }

  /** A client that awaits a token and gets a frame without one returns an error, whatever follows. */
  lemma ClientRefusesBadToken(cancelAfter: Option<nat>, text: string, run: ClientRun, script: seq<Reply>)
    requires run.control.pc.AwaitToken? && run.session.machine.Ready()
    requires |script| > 0 && script[0].refusal.None? && Accept(run.session.machine, script[0].envelope).Ok?
    requires script[0].envelope.frame.Data? ==>
               forall fields, id :: script[0].envelope.frame.payload == Some(Obj(fields)) && "id" in fields ==>
                 0 <= id <= 18446744073709551615 ==> fields["id"] != Number(id)
    ensures ClientEnds(ClientOver(cancelAfter, text, run, script), Errored)
  {
    hide Closed, Find, Accept;
    var f := script[0].envelope.frame;
    if TokenIdOf(f).Some? { TokenIdMeans(f, TokenIdOf(f).value); }
    AcceptedIsNoFault(run.session.machine, script[0].envelope);
    PerformReady(run.session, Receiving(Ok(script[0].envelope)));
    ClientErrs(cancelAfter, text, ClientNext(cancelAfter, text, run, script[0]), script[1..]);
  }

  /** A cancel point of zero is an error before anything is sent. */
  lemma CancelAfterNothingErrs(text: string, session: Session, script: seq<Reply>)
    ensures ClientOver(Some(0), text, ClientRun(ClientStart(Some(0)), session), script).session == session
    ensures ClientEnds(ClientOver(Some(0), text, ClientRun(ClientStart(Some(0)), session), script), Errored)
  {
  }

  /** What a report says of the session it was made from. */
  lemma ReportMeans(tokens: seq<nat>, s: Session)
    requires s.machine.Ready()
    ensures var r, local := ReportOf(tokens, s), s.machine.Local();
            && r.frames == s.machine.sequence && r.tokens == tokens && r.trace == s.trace && r.finalState == s.machine.current
            && (r.completed <==> local.End? || local.Fail?) && (r.successful <==> local.End?)
            && r.failure == (if local.Fail? then Some(local.failure) else None)
  {
  }
}
