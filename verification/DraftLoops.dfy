/**
 The draft synchronisation loops. Automerge is an oracle: per round it generates
 a message or nothing, and it accepts every message.
 */
module DraftLoops {
  import opened Basics
  import opened Traces
  import opened Projection
  import opened Machines
  import opened Sessions
  import opened Hex

  const MAX_SYNC_ROUNDS := 1024

  type Oracle = nat -> Option<seq<byte>>

  function SyncPayload(message: seq<byte>): Json { Obj(map["bytes" := Str(HexOf(message))]) }

  /** `sync_payload`: the message a data frame carries, if it carries one. */
  function MessageOf(f: Frame): Option<seq<byte>> {
    if f.Data? && f.message == "sync" && f.payload.Some? && f.payload.value.Obj? &&
       "bytes" in f.payload.value.fields && f.payload.value.fields["bytes"].Str?
    then DecodeHex(f.payload.value.fields["bytes"].text)
    else None
  }

  /** What was put into a payload is read from it again. */
  lemma PayloadRoundTrip(f: Frame, message: seq<byte>)
    requires f.Data? && f.message == "sync" && f.payload == Some(SyncPayload(message))
    ensures MessageOf(f) == Some(message)
  {
    DecodeAfterEncode(message);
  }

  /** A frame carries a message exactly when it is sync data whose payload is an object with the message in hexadecimal. */
  lemma MessageMeans(f: Frame, message: seq<byte>)
    ensures MessageOf(f) == Some(message) <==>
            && f.Data? && f.message == "sync"
            && exists fields, text :: f.payload == Some(Obj(fields)) && "bytes" in fields && fields["bytes"] == Str(text) &&
                                      DecodeHex(text) == Some(message)
  {
    hide DecodeHex;
    if MessageOf(f) == Some(message) {
      var fields := f.payload.value.fields;
      assert f.payload == Some(Obj(fields)) && fields["bytes"] == Str(fields["bytes"].text);
    }
  }

  /** The payload that a loop sends for a message. */
  ghost predicate Carries(f: Frame, message: seq<byte>) {
    f.Data? && f.message == "sync" && f.payload == Some(Obj(map["bytes" := Str(HexOf(message))]))
  }

  /** A data frame as the loops send it. */
  ghost predicate Paid(f: Frame) { MessageOf(f).Some? && Carries(f, MessageOf(f).value) }

  // ----- Control of both loops

  datatype Pc = ChooseMessage | SendBytes | ChooseEnd | AwaitChoice | AwaitBytes | Returned | TooManyRounds | Rejected

  /** `outgoing` and `incoming` are the messages sent and received so far. */
  datatype Party = Party(pc: Pc, round: nat, outgoing: seq<seq<byte>>, incoming: seq<seq<byte>>)
  {
    predicate Done() { pc.Returned? || pc.TooManyRounds? || pc.Rejected? }
    predicate Sending() { pc.ChooseMessage? || pc.SendBytes? || pc.ChooseEnd? }
  }

  function Generated(oracle: Oracle, round: nat): seq<byte> {
    if oracle(round).Some? then oracle(round).value else []
  }

  /** The action of a sending loop; `end` is the label it chooses when it has no message. */
  function ActionOf(oracle: Oracle, k: Party, end: string): Action {
    match k.pc
    case ChooseMessage => Choose("message")
    case SendBytes => SendData(SyncPayload(Generated(oracle, k.round)))
    case _ => Choose(end)
  }

  /** The head of the client's round loop: generate a message, or say done. */
  function ClientHead(oracle: Oracle, k: Party, round: nat): Party {
    Party(if round >= MAX_SYNC_ROUNDS then TooManyRounds
          else if oracle(round).Some? then ChooseMessage else ChooseEnd,
          round, k.outgoing, k.incoming)
  }

  /** The client after a call that has sent its action. */
  function ClientSent(oracle: Oracle, k: Party): Party {
    match k.pc
    case ChooseMessage => k.(pc := SendBytes)
    case SendBytes => k.(pc := Pc.AwaitChoice, outgoing := k.outgoing + [Generated(oracle, k.round)])
    case ChooseEnd => k.(pc := Returned)
    case _ => k
  }

  /** The client after a call that has received the frame `f`. */
  function ClientGot(oracle: Oracle, k: Party, f: Frame): Party {
    match k.pc
    case AwaitChoice =>
      if f.Select? && f.branch == "message" then k.(pc := AwaitBytes)
      else if f.Select? && f.branch == "idle" then ClientHead(oracle, k, k.round + 1)
      else k.(pc := Rejected)
    case AwaitBytes =>
      (match MessageOf(f)
       case None => k.(pc := Rejected)
       case Some(message) => ClientHead(oracle, k.(incoming := k.incoming + [message]), k.round + 1))
    case _ => k
  }

  /** The head of the server's round loop. */
  function ServerHead(k: Party, round: nat): Party {
    Party(if round >= MAX_SYNC_ROUNDS then TooManyRounds else Pc.AwaitChoice, round, k.outgoing, k.incoming)
  }

  function ServerSent(oracle: Oracle, k: Party): Party {
    match k.pc
    case ChooseMessage => k.(pc := SendBytes)
    case SendBytes => ServerHead(k.(outgoing := k.outgoing + [Generated(oracle, k.round)]), k.round + 1)
    case ChooseEnd => ServerHead(k, k.round + 1)
    case _ => k
  }

  function ServerGot(oracle: Oracle, k: Party, f: Frame): Party {
    match k.pc
    case AwaitChoice =>
      if f.Select? && f.branch == "done" then k.(pc := Returned)
      else if f.Select? && f.branch == "message" then k.(pc := AwaitBytes)
      else k.(pc := Rejected)
    case AwaitBytes =>
      (match MessageOf(f)
       case None => k.(pc := Rejected)
       case Some(message) =>
         k.(incoming := k.incoming + [message], pc := if oracle(k.round).Some? then ChooseMessage else ChooseEnd))
    case _ => k
  }

  /** A loop after a call that has sent, or received, the frame `f`. */
  function SyncThen(client: bool, oracle: Oracle, k: Party, f: Frame): Party {
    if k.Sending() then (if client then ClientSent(oracle, k) else ServerSent(oracle, k))
    else if client then ClientGot(oracle, k, f) else ServerGot(oracle, k, f)
  }

  /** The action of the next call of a loop. */
  function SyncAction(client: bool, oracle: Oracle, k: Party): Action {
    ActionOf(oracle, k, if client then "done" else "idle")
  }

  function ClientBegin(oracle: Oracle): Party { ClientHead(oracle, Party(Returned, 0, [], []), 0) }

  function ServerBegin(): Party { ServerHead(Party(Returned, 0, [], []), 0) }

  // ----- The loops against a script of answers

  datatype SyncRun = SyncRun(party: Party, machine: Machine)

  /** One call: emit and send, or receive and accept; any error ends the loop. */
  ghost function CallOver(sending: bool, action: Action, m: Machine, r: Reply): Result<(Machine, Frame), RuntimeError>
    requires m.Ready()
  {
    if sending then
      match Emit(m, action)
      case Err(e) => Err(e)
      case Ok(e) => if r.refusal.Some? then Err(r.refusal.value) else Ok((e.machine, e.envelope.frame))
    else if r.refusal.Some? then Err(r.refusal.value)
    else match Accept(m, r.envelope)
         case Err(e) => Err(e)
         case Ok(next) => Ok((next, r.envelope.frame))
  }

  ghost function SyncNext(client: bool, oracle: Oracle, run: SyncRun, r: Reply): SyncRun
    requires run.machine.Ready()
  {
    var sending, action := run.party.Sending(), SyncAction(client, oracle, run.party);
    match CallOver(sending, action, run.machine, r)
    case Err(_) => SyncRun(run.party.(pc := Rejected), Abandoned(Session(run.machine, []), EventOf(sending, action, r)).machine)
    case Ok((m, f)) => SyncRun(SyncThen(client, oracle, run.party, f), m)
  }

  ghost function SyncOver(client: bool, oracle: Oracle, run: SyncRun, script: seq<Reply>): SyncRun
    decreases |script|
  {
    if |script| == 0 || run.party.Done() || !run.machine.Ready() then run
    else SyncOver(client, oracle, SyncNext(client, oracle, run, script[0]), script[1..])
  }

  datatype SyncReport = SyncReport(messagesSent: nat, messagesReceived: nat, frames: nat, completed: bool)

  datatype SyncOutcome = Synced(report: SyncReport) | LimitHit | SyncErrored | SyncWaiting

  /** The outcome of a loop; the client reports its round as the messages sent. */
  ghost predicate SyncEnds(client: bool, run: SyncRun, o: SyncOutcome) {
    match run.party.pc
    case Returned =>
      run.machine.Ready() &&
      o == Synced(SyncReport(if client then run.party.round else |run.party.outgoing|, |run.party.incoming|,
                             run.machine.sequence, run.machine.Local().End?))
    case TooManyRounds => o == LimitHit
    case Rejected => o == SyncErrored
    case _ => o == SyncWaiting
  }

  /** One more answer: the loop makes one more call, unless it has ended. */
  lemma {:induction false} SyncOverSnoc(client: bool, oracle: Oracle, run: SyncRun, script: seq<Reply>, r: Reply)
    ensures var mid := SyncOver(client, oracle, run, script);
            SyncOver(client, oracle, run, script + [r]) ==
            if mid.party.Done() || !mid.machine.Ready() then mid else SyncNext(client, oracle, mid, r)
    decreases |script|
  {
    hide SyncNext, Find, Closed;
    if |script| == 0 || run.party.Done() || !run.machine.Ready() {
      assert |script| == 0 ==> script + [r] == [r] && [r][1..] == [];
    } else {
      assert (script + [r])[1..] == script[1..] + [r];
      SyncOverSnoc(client, oracle, SyncNext(client, oracle, run, script[0]), script[1..], r);
    }
  }

  lemma SyncOverStep(client: bool, oracle: Oracle, run: SyncRun, script: seq<Reply>, i: nat)
    requires i < |script| && !run.party.Done() && run.machine.Ready()
    ensures SyncOver(client, oracle, run, script[i..]) ==
            SyncOver(client, oracle, SyncNext(client, oracle, run, script[i]), script[i + 1..])
  {
    assert script[i..][0] == script[i] && script[i..][1..] == script[i + 1..];
  }

  lemma SyncStops(client: bool, oracle: Oracle, run: SyncRun, script: seq<Reply>)
    requires run.party.Done() || |script| == 0
    ensures SyncOver(client, oracle, run, script) == run
  {
  }

  /** `send` on an emitted action: go on, or end the loop. */
  method SyncSend(client: bool, oracle: Oracle, machine: EndpointMachine, a: Action, script: seq<Reply>, i: nat, ghost run: SyncRun)
    returns (o: Option<SyncOutcome>, ghost next: SyncRun)
    requires machine.View().Ready() && i <= |script| && run.machine == machine.View()
    requires run.party.Sending() && a == SyncAction(client, oracle, run.party)
    modifies machine
    ensures machine.View().Ready()
    ensures o.Some? ==> SyncEnds(client, SyncOver(client, oracle, run, script[i..]), o.value)
    ensures o.None? ==>
              && i < |script| && next.machine == machine.View()
              && next.party == (if client then ClientSent(oracle, run.party) else ServerSent(oracle, run.party))
              && SyncOver(client, oracle, run, script[i..]) == SyncOver(client, oracle, next, script[i + 1..])
  {
    hide Closed, Find, Emit, Accept, ClientSent, ServerSent, ClientGot, ServerGot, ActionOf;
    next := run;
    if i == |script| {
      SyncStops(client, oracle, run, script[i..]);
      return Some(SyncWaiting), run;
    }
    SyncOverStep(client, oracle, run, script, i);
    next := SyncNext(client, oracle, run, script[i]);
    var emitted := EmitAction(machine, a);
    if emitted.Err? || script[i].refusal.Some? {
      SyncStops(client, oracle, next, script[i + 1..]);
      return Some(SyncErrored), next;
    }
    o := None;
  }

  /** `receive`: the accepted frame, or the end of the loop. */
  method SyncReceive(client: bool, oracle: Oracle, machine: EndpointMachine, script: seq<Reply>, i: nat, ghost run: SyncRun)
    returns (o: Option<SyncOutcome>, frame: Frame, ghost next: SyncRun)
    requires machine.View().Ready() && i <= |script| && run.machine == machine.View()
    requires !run.party.Sending() && !run.party.Done()
    modifies machine
    ensures machine.View().Ready()
    ensures o.Some? ==> SyncEnds(client, SyncOver(client, oracle, run, script[i..]), o.value)
    ensures o.None? ==>
              && i < |script| && next.machine == machine.View()
              && next.party == (if client then ClientGot(oracle, run.party, frame) else ServerGot(oracle, run.party, frame))
              && SyncOver(client, oracle, run, script[i..]) == SyncOver(client, oracle, next, script[i + 1..])
  {
    hide Closed, Find, Emit, Accept, ClientSent, ServerSent, ClientGot, ServerGot, ActionOf;
    next, frame := run, Fault("", "");
    if i == |script| {
      SyncStops(client, oracle, run, script[i..]);
      return Some(SyncWaiting), frame, run;
    }
    SyncOverStep(client, oracle, run, script, i);
    next := SyncNext(client, oracle, run, script[i]);
    if script[i].refusal.Some? {
      SyncStops(client, oracle, next, script[i + 1..]);
      return Some(SyncErrored), frame, next;
    }
    var accepted := machine.AcceptEnvelope(script[i].envelope);
    if accepted.Err? {
      SyncStops(client, oracle, next, script[i + 1..]);
      return Some(SyncErrored), frame, next;
    }
    o, frame := None, accepted.value;
  }

  method SyncReportOf(machine: EndpointMachine, sent: nat, received: nat) returns (o: SyncOutcome)
    requires machine.View().Ready()
    ensures o == Synced(SyncReport(sent, received, machine.View().sequence, machine.View().Local().End?))
  {
    var completed := machine.IsSuccessful();
    o := Synced(SyncReport(sent, received, machine.sequence, completed));
  }

  /** `run_draft_sync_client` */
  method RunDraftSyncClient(machine: EndpointMachine, oracle: Oracle, script: seq<Reply>) returns (o: SyncOutcome)
    requires machine.View().Ready()
    modifies machine
    ensures SyncEnds(true, SyncOver(true, oracle, SyncRun(ClientBegin(oracle), old(machine.View())), script), o)
  {
    hide Closed, Find, SyncNext, SyncOver, MessageOf, HexOf;
    var received, i := 0, 0;
    ghost var run := SyncRun(ClientBegin(oracle), machine.View());
    ghost var goal := SyncOver(true, oracle, run, script);
    assert script[0..] == script;
    var end, frame;
    for round := 0 to MAX_SYNC_ROUNDS
      invariant machine.View().Ready() && 0 <= i <= |script| && run.machine == machine.View()
      invariant run.party == ClientHead(oracle, run.party, round) && received == |run.party.incoming|
      invariant goal == SyncOver(true, oracle, run, script[i..])
    {
      if oracle(round).None? {
        end, run := SyncSend(true, oracle, machine, Choose("done"), script, i, run);
        if end.Some? { return end.value; }
        SyncStops(true, oracle, run, script[i + 1..]);
        o := SyncReportOf(machine, round, received);
        return;
      }
      end, run := SyncSend(true, oracle, machine, Choose("message"), script, i, run);
      if end.Some? { return end.value; }
      i := i + 1;
      end, run := SyncSend(true, oracle, machine, SendData(SyncPayload(oracle(round).value)), script, i, run);
      if end.Some? { return end.value; }
      i := i + 1;
      end, frame, run := SyncReceive(true, oracle, machine, script, i, run);
      if end.Some? { return end.value; }
      i := i + 1;
      if frame.Select? && frame.branch == "message" {
        end, frame, run := SyncReceive(true, oracle, machine, script, i, run);
        if end.Some? { return end.value; }
        i := i + 1;
        if MessageOf(frame).None? {
          SyncStops(true, oracle, run, script[i..]);
          return SyncErrored;
        }
        received := received + 1;
      } else if !(frame.Select? && frame.branch == "idle") {
        SyncStops(true, oracle, run, script[i..]);
        return SyncErrored;
      }
    }
    SyncStops(true, oracle, run, script[i..]);
    o := LimitHit;
  }

  /** `run_draft_sync_server` */
  method RunDraftSyncServer(machine: EndpointMachine, oracle: Oracle, script: seq<Reply>) returns (o: SyncOutcome)
    requires machine.View().Ready()
    modifies machine
    ensures SyncEnds(false, SyncOver(false, oracle, SyncRun(ServerBegin(), old(machine.View())), script), o)
  {
    hide Closed, Find, SyncNext, SyncOver, MessageOf, HexOf;
    var sent, received, i := 0, 0, 0;
    ghost var run := SyncRun(ServerBegin(), machine.View());
    ghost var goal := SyncOver(false, oracle, run, script);
    assert script[0..] == script;
    var end, frame;
    for round := 0 to MAX_SYNC_ROUNDS
      invariant machine.View().Ready() && 0 <= i <= |script| && run.machine == machine.View()
      invariant run.party == ServerHead(run.party, round)
      invariant sent == |run.party.outgoing| && received == |run.party.incoming|
      invariant goal == SyncOver(false, oracle, run, script[i..])
    {
      end, frame, run := SyncReceive(false, oracle, machine, script, i, run);
      if end.Some? { return end.value; }
      i := i + 1;
      if frame.Select? && frame.branch == "done" {
        SyncStops(false, oracle, run, script[i..]);
        o := SyncReportOf(machine, sent, received);
        return;
      } else if frame.Select? && frame.branch == "message" {
        end, frame, run := SyncReceive(false, oracle, machine, script, i, run);
        if end.Some? { return end.value; }
        i := i + 1;
        if MessageOf(frame).None? {
          SyncStops(false, oracle, run, script[i..]);
          return SyncErrored;
        }
        received := received + 1;
      } else {
        SyncStops(false, oracle, run, script[i..]);
        return SyncErrored;
      }
      if oracle(round).Some? {
        end, run := SyncSend(false, oracle, machine, Choose("message"), script, i, run);
        if end.Some? { return end.value; }
        i := i + 1;
        end, run := SyncSend(false, oracle, machine, SendData(SyncPayload(oracle(round).value)), script, i, run);
        if end.Some? { return end.value; }
        i := i + 1;
        sent := sent + 1;
      } else {
        end, run := SyncSend(false, oracle, machine, Choose("idle"), script, i, run);
        if end.Some? { return end.value; }
        i := i + 1;
      }
    }
    SyncStops(false, oracle, run, script[i..]);
    o := LimitHit;
  }
}
