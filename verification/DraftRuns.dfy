/** The two draft synchronisation loops against each other over a reliable channel. */
module DraftRuns {
  import opened Basics
  import opened Conversations
  import opened Traces
  import opened Projection
  import opened Machines
  import opened Sessions
  import opened Systems
  import opened Agreement
  import opened Hex
  import opened ClientServer
  import opened DraftLoops

  datatype Names = Names(clientTurn: string, clientSend: string, serverTurn: string, serverSend: string, end: string)

  /** The protocol of the draft-sync conversation, up to the names of its states and its failure edges. */
  ghost predicate Shaped(c: Conversation, n: Names) {
    && ClientAndServer(c)
    && c.initial == n.clientTurn
    && IsChoice(c, n.clientTurn, "client", map["message" := n.clientSend, "done" := n.end])
    && IsSend(c, n.clientSend, "client", "server", "sync", n.serverTurn)
    && IsChoice(c, n.serverTurn, "server", map["message" := n.serverSend, "idle" := n.clientTurn])
    && IsSend(c, n.serverSend, "server", "client", "sync", n.clientTurn)
    && n.end in StateMap(c.states) && StateMap(c.states)[n.end].End?
  }

  lemma ShapedSides(c: Conversation, n: Names)
    requires Shaped(c, n)
    ensures ClientAndServer(c) && Sound(c) && "client" in c.roles && "server" in c.roles && "client" != "server"
    ensures forall side: Side :: RoleOf(c, side) == RoleName(side)
  {
    hide StateMap, Sound;
    TwoSides(c);
  }

  /** The oracles of both drafts, by round. */
  datatype Oracles = Oracles(client: Oracle, server: Oracle)
  {
    function At(side: Side): Oracle { if side == Left then client else server }
  }

  datatype Loops = Loops(sys: System, client: Party, server: Party)
  {
    function At(side: Side): Party { if side == Left then client else server }
    function With(side: Side, k: Party): Loops { if side == Left then this.(client := k) else this.(server := k) }
  }

  function CallOf(o: Oracles, g: Loops, side: Side): Call {
    if g.At(side).Sending() then Emits(SyncAction(side == Left, o.At(side), g.At(side))) else Receives
  }

  /** The weather of a loop's next call on a reliable channel: it meets nothing but the size limit. */
  ghost function WeatherOf(o: Oracles, fit: Fit, g: Loops, side: Side): Weather {
    Fair(fit, g.sys.At(side).session.machine, CallOf(o, g, side))
  }

  /** One step on a reliable channel: a loop makes its next call, or a finished loop drops its transport. */
  datatype Tick = Next(side: Side) | Retire(side: Side)

  /** One side of a configuration, as a run of its loop. */
  function RunOf(g: Loops, side: Side): SyncRun { SyncRun(g.At(side), g.sys.At(side).session.machine) }

  /** The answer that the next call of a loop meets. */
  ghost function AnswerOf(o: Oracles, fit: Fit, g: Loops, side: Side): Reply {
    ReplyAt(g.sys, side, CallOf(o, g, side), WeatherOf(o, fit, g, side))
  }

  ghost function TickOf(o: Oracles, fit: Fit, g: Loops, tick: Tick): Option<Loops> {
    match tick
    case Retire(side) => if g.At(side).Done() && g.sys.At(side).open then Some(g.(sys := Step(g.sys, Drop(side)).value)) else None
    case Next(side) =>
      if g.At(side).Done() || !g.sys.At(side).session.machine.Ready() then None
      else match Step(g.sys, Do(side, CallOf(o, g, side), WeatherOf(o, fit, g, side)))
           case None => None
           case Some(sys) =>
             Some(g.With(side, SyncNext(side == Left, o.At(side), RunOf(g, side), AnswerOf(o, fit, g, side)).party).(sys := sys))
  }

  /** A run of both loops: the configurations between the steps. */
  ghost predicate IsRun(o: Oracles, fit: Fit, run: seq<Loops>, ticks: seq<Tick>) {
    |run| == |ticks| + 1 && forall i :: 0 <= i < |ticks| ==> TickOf(o, fit, run[i], ticks[i]) == Some(run[i + 1])
  }

  function Begin(c: Conversation, o: Oracles, identity: string, planIdentity: string): Loops
    requires |c.roles| == 2
  {
    Loops(Start(c, identity, planIdentity), ClientBegin(o.client), ServerBegin())
  }

  // ----- Each side of a run is its loop, run against the answers it met

  /** The answers that the calls of one side have met. */
  ghost function Script(o: Oracles, fit: Fit, run: seq<Loops>, ticks: seq<Tick>, side: Side): seq<Reply>
    requires |run| == |ticks| + 1
    decreases |ticks|
  {
    if |ticks| == 0 then []
    else
      var n := |ticks| - 1;
      Script(o, fit, run[..n + 1], ticks[..n], side) +
      if ticks[n] == Next(side) then [AnswerOf(o, fit, run[n], side)] else []
  }

  /** A loop that has failed has nothing more to do with its machine. */
  ghost predicate SameRun(a: SyncRun, b: SyncRun) {
    a.party == b.party && (!a.party.pc.Rejected? ==> a.machine == b.machine)
  }

  /** What a successful call leaves, seen by the loop. */
  lemma CallIsPerform(s: Session, sending: bool, action: Action, r: Reply)
    requires s.machine.Ready()
    ensures CallOver(sending, action, s.machine, r).Ok? ==>
              && Perform(s, EventOf(sending, action, r)).Ok? && !Failing(EventOf(sending, action, r))
              && CallOver(sending, action, s.machine, r).value ==
                 (Perform(s, EventOf(sending, action, r)).value.machine, Recorded(s, EventOf(sending, action, r)))
    ensures Perform(s, EventOf(sending, action, r)).Ok? && !Failing(EventOf(sending, action, r)) ==>
              CallOver(sending, action, s.machine, r).Ok?
  {
    hide Find, Closed, ObserveAt;
  }

  /** A step of a run is one call of the loop whose turn it is, and nothing for the other loop. */
  lemma TickIsCall(o: Oracles, fit: Fit, g: Loops, tick: Tick)
    requires TickOf(o, fit, g, tick).Some?
    ensures var g' := TickOf(o, fit, g, tick).value;
            && RunOf(g', tick.side.Other()) == RunOf(g, tick.side.Other())
            && match tick
               case Retire(side) => RunOf(g', side) == RunOf(g, side)
               case Next(side) =>
                 && !g.At(side).Done() && g.sys.At(side).session.machine.Ready()
                 && SameRun(RunOf(g', side), SyncNext(side == Left, o.At(side), RunOf(g, side), AnswerOf(o, fit, g, side)))
  {
    hide Perform, Find, Closed, SyncThen, SyncAction, Step, ReplyAt, Abandoned, CallOver, Fair;
    match tick {
      case Retire(side) => DropStep(g.sys, side);
      case Next(side) =>
        var call, w := CallOf(o, g, side), WeatherOf(o, fit, g, side);
        StepPerforms(g.sys, side, call, w);
        ReplyIsEvent(g.sys, side, call, w);
        CallIsPerform(g.sys.At(side).session, g.At(side).Sending(), SyncAction(side == Left, o.At(side), g.At(side)),
                      AnswerOf(o, fit, g, side));
    }
  }

  /** Each side of a run stands where its loop stands after the answers it met. */
  lemma {:induction false} RunIsLoop(o: Oracles, fit: Fit, run: seq<Loops>, ticks: seq<Tick>, side: Side)
    requires IsRun(o, fit, run, ticks)
    ensures SameRun(RunOf(run[|ticks|], side),
                    SyncOver(side == Left, o.At(side), RunOf(run[0], side), Script(o, fit, run, ticks, side)))
    decreases |ticks|
  {
    hide TickOf, SyncNext, Find, Closed, AnswerOf;
    if |ticks| == 0 {
    } else {
      var n := |ticks| - 1;
      var before, last := run[..n + 1], ticks[..n];
      assert IsRun(o, fit, before, last);
      RunIsLoop(o, fit, before, last, side);
      assert TickOf(o, fit, run[n], ticks[n]) == Some(run[n + 1]);
      TickIsCall(o, fit, run[n], ticks[n]);
      if ticks[n] == Next(side) {
        SyncOverSnoc(side == Left, o.At(side), RunOf(run[0], side), Script(o, fit, before, last, side),
                     AnswerOf(o, fit, run[n], side));
      } else {
        assert RunOf(run[n + 1], side) == RunOf(run[n], side);
        assert Script(o, fit, run, ticks, side) == Script(o, fit, before, last, side);
      }
    }
  }

  // ----- Messages in traces

  /** The messages that `role` has put into a trace. */
  function Messages(role: string, t: seq<Frame>): seq<seq<byte>> {
    if |t| == 0 then []
    else Messages(role, t[..|t| - 1]) +
         if MessageOf(t[|t| - 1]).Some? && t[|t| - 1].Author() == role then [MessageOf(t[|t| - 1]).value] else []
  }

  lemma MessagesExtend(role: string, t: seq<Frame>, f: Frame)
    ensures Messages(role, t + [f]) ==
            Messages(role, t) + if MessageOf(f).Some? && f.Author() == role then [MessageOf(f).value] else []
  {
    assert (t + [f])[..|t|] == t;
  }

  /** The messages an oracle generates in the first `n` rounds. */
  function Values(oracle: Oracle, n: nat): seq<seq<byte>> {
    if n == 0 then []
    else Values(oracle, n - 1) + if oracle(n - 1).Some? then [oracle(n - 1).value] else []
  }

  /** Every data frame carries a message, and nothing else. */
  ghost predicate GoodSync(t: seq<Frame>) {
    forall i :: 0 <= i < |t| && t[i].Data? ==> Paid(t[i])
  }

  ghost predicate AllGenerate(oracle: Oracle, n: nat) {
    forall i :: 0 <= i < n ==> oracle(i).Some?
  }

  /** One more round of an oracle. */
  lemma NextValue(oracle: Oracle, n: nat)
    ensures Values(oracle, n + 1) == if oracle(n).Some? then Values(oracle, n) + [oracle(n).value] else Values(oracle, n)
    ensures AllGenerate(oracle, n) && oracle(n).Some? ==> AllGenerate(oracle, n + 1)
    ensures AllGenerate(oracle, 0) && Values(oracle, 0) == []
  {
  }

  // ----- Where each loop stands

  ghost predicate ClientAt(n: Names, oracle: Oracle, k: Party, current: string, len: nat) {
    var r, q := |k.outgoing|, |k.incoming|;
    && AllGenerate(oracle, r) && k.outgoing == Values(oracle, r) && q <= k.round
    && match k.pc
       case ChooseMessage => current == n.clientTurn && k.round == r < MAX_SYNC_ROUNDS && len == 3 * r + q && oracle(r).Some?
       case SendBytes => current == n.clientSend && k.round == r < MAX_SYNC_ROUNDS && len == 3 * r + q + 1 && oracle(r).Some?
       case AwaitChoice => current == n.serverTurn && k.round + 1 == r <= MAX_SYNC_ROUNDS && len == 3 * r + q - 1
       case AwaitBytes => current == n.serverSend && k.round + 1 == r <= MAX_SYNC_ROUNDS && len == 3 * r + q
       case ChooseEnd => current == n.clientTurn && k.round == r < MAX_SYNC_ROUNDS && len == 3 * r + q && oracle(r).None?
       case Returned => current == n.end && k.round == r < MAX_SYNC_ROUNDS && len == 3 * r + q + 1 && oracle(r).None?
       case TooManyRounds => current == n.clientTurn && k.round == r == MAX_SYNC_ROUNDS && len == 3 * r + q
       case Rejected => false
  }

  ghost predicate ServerAt(n: Names, oracle: Oracle, k: Party, current: string, len: nat) {
    var r, q := |k.incoming|, |k.outgoing|;
    && k.outgoing == Values(oracle, k.round) && q <= k.round
    && match k.pc
       case AwaitChoice => current == n.clientTurn && k.round == r < MAX_SYNC_ROUNDS && len == 3 * r + q
       case AwaitBytes => current == n.clientSend && k.round == r < MAX_SYNC_ROUNDS && len == 3 * r + q + 1
       case ChooseMessage => current == n.serverTurn && k.round + 1 == r <= MAX_SYNC_ROUNDS && len == 3 * r + q - 1 && oracle(k.round).Some?
       case SendBytes => current == n.serverSend && k.round + 1 == r <= MAX_SYNC_ROUNDS && len == 3 * r + q && oracle(k.round).Some?
       case ChooseEnd => current == n.serverTurn && k.round + 1 == r <= MAX_SYNC_ROUNDS && len == 3 * r + q - 1 && oracle(k.round).None?
       case Returned => current == n.end && k.round == r < MAX_SYNC_ROUNDS && len == 3 * r + q + 1
       case TooManyRounds => current == n.clientTurn && k.round == r == MAX_SYNC_ROUNDS && len == 3 * r + q
       case Rejected => false
  }

  ghost predicate ClientOk(n: Names, oracle: Oracle, k: Party, s: Session) {
    && !Faulted(s.trace) && GoodSync(s.trace)
    && ClientAt(n, oracle, k, s.machine.current, |s.trace|)
    && k.outgoing == Messages("client", s.trace) && k.incoming == Messages("server", s.trace)
  }

  ghost predicate ServerOk(n: Names, oracle: Oracle, k: Party, s: Session) {
    && !Faulted(s.trace) && GoodSync(s.trace)
    && ServerAt(n, oracle, k, s.machine.current, |s.trace|)
    && k.outgoing == Messages("server", s.trace) && k.incoming == Messages("client", s.trace)
  }

  lemma LabelsDiffer()
    ensures "message" != "done" && "message" != "idle" && "client" != "server"
  {
    assert |"message"| != |"done"| && |"message"| != |"idle"|;
    RolesDiffer();
  }

  /** A frame recorded at `id` and the state it leads to fit the protocol. */
  predicate Edge(n: Names, id: string, f: Frame, next: string) {
    && (id == n.clientTurn ==>
          && f.Select? && f.chooser == "client"
          && ((f.branch == "message" && next == n.clientSend) || (f.branch == "done" && next == n.end)))
    && (id == n.clientSend ==> f.Data? && f.message == "sync" && f.from == "client" && next == n.serverTurn)
    && (id == n.serverTurn ==>
          && f.Select? && f.chooser == "server"
          && ((f.branch == "message" && next == n.serverSend) || (f.branch == "idle" && next == n.clientTurn)))
    && (id == n.serverSend ==> f.Data? && f.message == "sync" && f.from == "server" && next == n.clientTurn)
  }

  lemma ShapedStep(c: Conversation, n: Names, id: string, f: Frame)
    requires Shaped(c, n) && GlobalStep(c, id, f).Some? && !f.Fault?
    ensures Edge(n, id, f, GlobalStep(c, id, f).value)
  {
  }

  lemma ClientMoves(n: Names, oracle: Oracle, k: Party, id: string, len: nat, f: Frame, next: string)
    requires Edge(n, id, f, next) && !k.Done() && ClientAt(n, oracle, k, id, len)
    requires k.Sending() ==> Matches(SyncAction(true, oracle, k), f)
    requires f.Data? && f.Author() != "client" ==> Paid(f)
    ensures ClientAt(n, oracle, SyncThen(true, oracle, k, f), next, len + 1)
    ensures f.Data? ==> Paid(f)
  {
    hide MessageOf, HexOf, Values, AllGenerate;
    LabelsDiffer();
    NextValue(oracle, k.round);
    if k.pc.SendBytes? { PayloadRoundTrip(f, oracle(k.round).value); }
  }

  lemma ServerMoves(n: Names, oracle: Oracle, k: Party, id: string, len: nat, f: Frame, next: string)
    requires Edge(n, id, f, next) && !k.Done() && ServerAt(n, oracle, k, id, len)
    requires k.Sending() ==> Matches(SyncAction(false, oracle, k), f)
    requires f.Data? && f.Author() != "server" ==> Paid(f)
    ensures ServerAt(n, oracle, SyncThen(false, oracle, k, f), next, len + 1)
    ensures f.Data? ==> Paid(f)
  {
    hide MessageOf, HexOf, Values;
    LabelsDiffer();
    NextValue(oracle, k.round);
    if k.pc.SendBytes? { PayloadRoundTrip(f, oracle(k.round).value); }
  }

  /** The lists of a loop follow the messages of its trace. */
  lemma ClientRecords(n: Names, oracle: Oracle, k: Party, id: string, t: seq<Frame>, f: Frame, next: string)
    requires Edge(n, id, f, next) && !k.Done() && ClientAt(n, oracle, k, id, |t|)
    requires k.Sending() ==> Matches(SyncAction(true, oracle, k), f)
    requires f.Data? && f.Author() != "client" ==> Paid(f)
    requires k.outgoing == Messages("client", t) && k.incoming == Messages("server", t)
    ensures var k' := SyncThen(true, oracle, k, f);
            k'.outgoing == Messages("client", t + [f]) && k'.incoming == Messages("server", t + [f])
  {
    hide HexOf, DecodeHex, Values, AllGenerate, Messages;
    LabelsDiffer();
    MessagesExtend("client", t, f);
    MessagesExtend("server", t, f);
    if k.pc.SendBytes? { PayloadRoundTrip(f, oracle(k.round).value); }
  }

  lemma ServerRecords(n: Names, oracle: Oracle, k: Party, id: string, t: seq<Frame>, f: Frame, next: string)
    requires Edge(n, id, f, next) && !k.Done() && ServerAt(n, oracle, k, id, |t|)
    requires k.Sending() ==> Matches(SyncAction(false, oracle, k), f)
    requires f.Data? && f.Author() != "server" ==> Paid(f)
    requires k.outgoing == Messages("server", t) && k.incoming == Messages("client", t)
    ensures var k' := SyncThen(false, oracle, k, f);
            k'.outgoing == Messages("server", t + [f]) && k'.incoming == Messages("client", t + [f])
  {
    hide HexOf, DecodeHex, Values, AllGenerate, Messages;
    LabelsDiffer();
    MessagesExtend("client", t, f);
    MessagesExtend("server", t, f);
    if k.pc.SendBytes? { PayloadRoundTrip(f, oracle(k.round).value); }
  }
}
