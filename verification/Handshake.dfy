/**
 The session preface handshake of `establish_session`, as message steps.

 Each side writes its preface, reads the peer's, answers with a status byte and
 reads the peer's status. A stream is the history of what one side wrote and how
 much of it the other side has read. `Break` is any I/O error or timeout. The length
 of the JSON text of a preface is arbitrary and limited to 64 KiB.
 */
module Handshake {
  import opened Basics
  import opened Projection
  import opened Machines
  import opened Plans
  import opened Systems

  const SESSION_FORMAT := "0.1.0"

  datatype WireEncoding = ReferenceEncoding | CompactEncoding
  {
    function AsString(): string { if this == ReferenceEncoding then "reference" else "compact" }
  }

  datatype SessionPreface = SessionPreface(session: string, conversation: string, conversationIdentity: string,
                                           planIdentity: string, role: string, wire: WireEncoding)

  /** The identities a compact codec was prepared with. */
  datatype CodecPlan = CodecPlan(conversation: string, conversationIdentity: string, planIdentity: string)

  /** What one side brings to `establish_session`; a reference codec is bound to no plan. */
  datatype Setup = Setup(plan: PreparedPlan, codec: Option<CodecPlan>, localRole: string, peerRole: string)
  {
    function Encoding(): WireEncoding { if codec.None? then ReferenceEncoding else CompactEncoding }
  }

  /** `require_session_field` */
  function FieldError(field: string, expected: string, actual: string): Option<RuntimeError> {
    if expected != actual then Some(SessionMismatch(field)) else None
  }

  function Or(a: Option<RuntimeError>, b: Option<RuntimeError>): Option<RuntimeError> {
    if a.Some? then a else b
  }

  function CodecError(s: Setup): Option<RuntimeError> {
    match s.codec
    case None => None
    case Some(k) =>
      Or(FieldError("conversation", k.conversation, s.plan.conversation),
         Or(FieldError("conversation_identity", k.conversationIdentity, s.plan.conversationIdentity),
            FieldError("plan_identity", k.planIdentity, s.plan.planIdentity)))
  }

  /** `local_session_preface` */
  function LocalPreface(s: Setup): Result<SessionPreface, RuntimeError> {
    if CodecError(s).Some? then Err(CodecError(s).value)
    else if FindEndpoint(s.plan.endpoints, s.peerRole).None? then Err(UnknownRole(s.peerRole))
    else if s.localRole == s.peerRole then Err(SessionMismatch("role_pair"))
    else if FindEndpoint(s.plan.endpoints, s.localRole).None? then Err(UnknownRole(s.localRole))
    else Ok(SessionPreface(SESSION_FORMAT, s.plan.conversation, s.plan.conversationIdentity, s.plan.planIdentity,
                           s.localRole, s.Encoding()))
  }

  const MAX_PREFACE_BYTES := 64 * 1024

  /** `encode_session_preface` on the local preface; `size` is the length of the text of a preface. */
  function EncodedPreface(s: Setup, size: SessionPreface -> nat): Result<SessionPreface, RuntimeError> {
    match LocalPreface(s)
    case Err(error) => Err(error)
    case Ok(preface) => if size(preface) > MAX_PREFACE_BYTES then Err(PrefaceTooLarge) else Ok(preface)
  }

  /** `verify_peer` */
  function PeerError(s: Setup, p: SessionPreface): Option<RuntimeError> {
    if FindEndpoint(s.plan.endpoints, s.peerRole).None? then Some(UnknownRole(s.peerRole))
    else
      Or(FieldError("colloq_session", SESSION_FORMAT, p.session),
         Or(FieldError("conversation", s.plan.conversation, p.conversation),
            Or(FieldError("conversation_identity", s.plan.conversationIdentity, p.conversationIdentity),
               Or(FieldError("plan_identity", s.plan.planIdentity, p.planIdentity),
                  Or(FieldError("role", s.peerRole, p.role),
                     FieldError("wire", s.Encoding().AsString(), p.wire.AsString()))))))
  }

  // ----- The protocol

  datatype Token = Preface(preface: SessionPreface) | Status(accepted: bool)

  datatype Phase = Opening | AwaitPreface | AwaitStatus | Established | Failed

  /** `sent` is everything written so far, `got` how many of the peer's tokens were read. */
  datatype Party = Party(phase: Phase, sent: seq<Token>, got: nat)

  datatype Session = Session(left: Party, right: Party)
  {
    function At(side: Side): Party { if side == Left then left else right }
    function With(side: Side, p: Party): Session { if side == Left then this.(left := p) else this.(right := p) }
  }

  datatype Setups = Setups(left: Setup, right: Setup, size: SessionPreface -> nat)
  {
    function At(side: Side): Setup { if side == Left then left else right }
  }

  /** One step of one side; `Break` and a lost rejection are the breakage. */
  datatype Move = Write(side: Side) | Read(side: Side) | RejectUnheard(side: Side) | Break(side: Side)

  predicate Pending(st: Session, side: Side) {
    st.At(side).got < |st.At(side.Other()).sent|
  }

  function NextToken(st: Session, side: Side): Token
    requires Pending(st, side)
  {
    st.At(side.Other()).sent[st.At(side).got]
  }

  /**
   The side after reading `t`, with the status byte it writes, if any. A preface that
   is announced as too long is refused without an answer.
   */
  function AfterRead(setup: Setup, size: SessionPreface -> nat, p: Party, t: Token, heard: bool): Party {
    match (p.phase, t)
    case (AwaitPreface, Preface(peer)) =>
      if size(peer) > MAX_PREFACE_BYTES then Party(Failed, p.sent, p.got + 1)
      else if PeerError(setup, peer).None? then Party(AwaitStatus, p.sent + [Status(true)], p.got + 1)
      else Party(Failed, if heard then p.sent + [Status(false)] else p.sent, p.got + 1)
    case (AwaitStatus, Status(accepted)) => Party(if accepted then Established else Failed, p.sent, p.got + 1)
    case _ => Party(Failed, p.sent, p.got + 1)
  }

  function AfterWrite(setup: Setup, size: SessionPreface -> nat): Party {
    match EncodedPreface(setup, size)
    case Err(_) => Party(Failed, [], 0)
    case Ok(preface) => Party(AwaitPreface, [Preface(preface)], 0)
  }

  function Step(setups: Setups, st: Session, move: Move): Option<Session> {
    var p, setup := st.At(move.side), setups.At(move.side);
    match move
    case Write(side) =>
      if p.phase != Opening then None
      else Some(st.With(side, AfterWrite(setup, setups.size)))
    case Read(side) =>
      if p.phase != AwaitPreface && p.phase != AwaitStatus then None
      else if Pending(st, side) then Some(st.With(side, AfterRead(setup, setups.size, p, NextToken(st, side), true)))
      else if st.At(side.Other()).phase == Failed then Some(st.With(side, p.(phase := Failed)))
      else None
    case RejectUnheard(side) =>
      if p.phase != AwaitPreface || !Pending(st, side) then None
      else Some(st.With(side, AfterRead(setup, setups.size, p, NextToken(st, side), false)))
    case Break(side) =>
      if p.phase == Established then None else Some(st.With(side, p.(phase := Failed)))
  }

  function After(setups: Setups, moves: seq<Move>): Option<Session> {
    if |moves| == 0 then Some(Session(Party(Opening, [], 0), Party(Opening, [], 0)))
    else match After(setups, moves[..|moves| - 1])
         case None => None
         case Some(st) => Step(setups, st, moves[|moves| - 1])
  }

  // ----- Agreement

  /** `s` accepts what `o` declares. */
  predicate Accepts(s: Setup, o: Setup) {
    LocalPreface(o).Ok? && PeerError(s, LocalPreface(o).value).None?
  }

  /** Both sides have a preface within the size limit, and each accepts that of the other. */
  predicate Compatible(setups: Setups) {
    && EncodedPreface(setups.left, setups.size).Ok? && EncodedPreface(setups.right, setups.size).Ok?
    && Accepts(setups.left, setups.right) && Accepts(setups.right, setups.left)
  }

  ghost predicate PartyOk(s: Setup, o: Setup, size: SessionPreface -> nat, p: Party, other: Party) {
    && |p.sent| <= 2 && p.got <= |other.sent|
    && (|p.sent| >= 1 ==> EncodedPreface(s, size).Ok? && p.sent[0] == Preface(EncodedPreface(s, size).value))
    && (|p.sent| == 2 ==> p.sent[1].Status? && (p.sent[1].accepted ==> Accepts(s, o)))
    && match p.phase
       case Opening => p.sent == [] && p.got == 0
       case AwaitPreface => |p.sent| == 1 && p.got == 0
       case AwaitStatus => |p.sent| == 2 && p.sent[1] == Status(true) && p.got == 1
       case Established => |p.sent| == 2 && p.sent[1] == Status(true) && p.got == 2 && other.sent[1] == Status(true)
       case Failed => true
  }

  ghost predicate Inv(setups: Setups, st: Session) {
    && PartyOk(setups.left, setups.right, setups.size, st.left, st.right)
    && PartyOk(setups.right, setups.left, setups.size, st.right, st.left)
  }

  /** The steps of one side keep both parties in order. */
  lemma SideKeeps(s: Setup, o: Setup, size: SessionPreface -> nat, p: Party, q: Party, heard: bool)
    requires PartyOk(s, o, size, p, q) && PartyOk(o, s, size, q, p)
    ensures p.phase == Opening ==> PartyOk(s, o, size, AfterWrite(s, size), q) && PartyOk(o, s, size, q, AfterWrite(s, size))
    ensures (p.phase == AwaitPreface || p.phase == AwaitStatus) && p.got < |q.sent| ==>
              var next := AfterRead(s, size, p, q.sent[p.got], heard);
              PartyOk(s, o, size, next, q) && PartyOk(o, s, size, q, next)
    ensures p.phase != Established ==>
              PartyOk(s, o, size, p.(phase := Failed), q) && PartyOk(o, s, size, q, p.(phase := Failed))
  {
    hide PeerError, LocalPreface;
  }

  lemma StepKeeps(setups: Setups, st: Session, move: Move)
    requires Inv(setups, st) && Step(setups, st, move).Some?
    ensures Inv(setups, Step(setups, st, move).value)
  {
    hide PartyOk, AfterWrite, AfterRead;
    if move.side == Left { SideKeeps(setups.left, setups.right, setups.size, st.left, st.right, move.Read?); }
    else { SideKeeps(setups.right, setups.left, setups.size, st.right, st.left, move.Read?); }
  }

  lemma {:induction false} ReachableInv(setups: Setups, moves: seq<Move>)
    requires After(setups, moves).Some?
    ensures Inv(setups, After(setups, moves).value)
  {
    if |moves| == 0 {
    } else {
      ReachableInv(setups, moves[..|moves| - 1]);
      StepKeeps(setups, After(setups, moves[..|moves| - 1]).value, moves[|moves| - 1]);
    }
  }

  /** A compact codec was prepared for the plan of its side. */
  ghost predicate CodecOfPlan(s: Setup) {
    s.codec.Some? ==> s.codec.value == CodecPlan(s.plan.conversation, s.plan.conversationIdentity, s.plan.planIdentity)
  }

  /** A side's own preface, or the first thing that is wrong with its setup. */
  lemma LocalPrefaceMeans(s: Setup)
    ensures LocalPreface(s) ==
            if s.codec.Some? && s.codec.value.conversation != s.plan.conversation then Err(SessionMismatch("conversation"))
            else if s.codec.Some? && s.codec.value.conversationIdentity != s.plan.conversationIdentity then Err(SessionMismatch("conversation_identity"))
            else if s.codec.Some? && s.codec.value.planIdentity != s.plan.planIdentity then Err(SessionMismatch("plan_identity"))
            else if FindEndpoint(s.plan.endpoints, s.peerRole).None? then Err(UnknownRole(s.peerRole))
            else if s.localRole == s.peerRole then Err(SessionMismatch("role_pair"))
            else if FindEndpoint(s.plan.endpoints, s.localRole).None? then Err(UnknownRole(s.localRole))
            else Ok(SessionPreface("0.1.0", s.plan.conversation, s.plan.conversationIdentity, s.plan.planIdentity, s.localRole,
                                   if s.codec.Some? then CompactEncoding else ReferenceEncoding))
  {
  }

  /** What is wrong with a peer's preface, field by field. */
  lemma PeerErrorMeans(s: Setup, p: SessionPreface)
    ensures PeerError(s, p) ==
            if FindEndpoint(s.plan.endpoints, s.peerRole).None? then Some(UnknownRole(s.peerRole))
            else if p.session != "0.1.0" then Some(SessionMismatch("colloq_session"))
            else if p.conversation != s.plan.conversation then Some(SessionMismatch("conversation"))
            else if p.conversationIdentity != s.plan.conversationIdentity then Some(SessionMismatch("conversation_identity"))
            else if p.planIdentity != s.plan.planIdentity then Some(SessionMismatch("plan_identity"))
            else if p.role != s.peerRole then Some(SessionMismatch("role"))
            else if p.wire != (if s.codec.Some? then CompactEncoding else ReferenceEncoding) then Some(SessionMismatch("wire"))
            else None
  {
    assert "reference"[0] != "compact"[0];
  }

  /** A preface is sent exactly when it is at most 64 KiB long. */
  lemma EncodedPrefaceMeans(s: Setup, size: SessionPreface -> nat)
    requires LocalPreface(s).Ok?
    ensures EncodedPreface(s, size) == if size(LocalPreface(s).value) > 65536 then Err(PrefaceTooLarge) else LocalPreface(s)
  {
  }

  /** What both sides have in common once a session stands. */
  ghost predicate Agreed(l: Setup, r: Setup) {
    && l.plan.conversation == r.plan.conversation
    && l.plan.conversationIdentity == r.plan.conversationIdentity
    && l.plan.planIdentity == r.plan.planIdentity
    && l.Encoding() == r.Encoding()
    && l.localRole == r.peerRole && r.localRole == l.peerRole && l.localRole != r.localRole
    && CodecOfPlan(l) && CodecOfPlan(r)
    && FindEndpoint(l.plan.endpoints, l.localRole).Some? && FindEndpoint(r.plan.endpoints, r.localRole).Some?
  }

  lemma AcceptMeansSame(s: Setup, o: Setup)
    requires Accepts(s, o)
    ensures s.plan.conversation == o.plan.conversation && s.plan.conversationIdentity == o.plan.conversationIdentity
    ensures s.plan.planIdentity == o.plan.planIdentity && s.Encoding() == o.Encoding()
    ensures s.peerRole == o.localRole && o.localRole != o.peerRole
    ensures FindEndpoint(o.plan.endpoints, o.localRole).Some? && CodecOfPlan(o)
  {
    assert "reference"[0] != "compact"[0];
  }

  /** If either side establishes the session, both sides agree, whatever breaks. */
  lemma SessionAgreement(setups: Setups, moves: seq<Move>)
    requires After(setups, moves).Some?
    ensures var st := After(setups, moves).value;
            st.left.phase == Established || st.right.phase == Established ==>
              Compatible(setups) && Agreed(setups.left, setups.right)
  {
    hide PeerError, LocalPreface;
    ReachableInv(setups, moves);
    var st := After(setups, moves).value;
    if st.left.phase == Established || st.right.phase == Established {
      AcceptMeansSame(setups.left, setups.right);
      AcceptMeansSame(setups.right, setups.left);
    }
  }

  // ----- Runs without breakage

  ghost predicate Unbroken(moves: seq<Move>) {
    forall i :: 0 <= i < |moves| ==> moves[i].Write? || moves[i].Read?
  }

  /** Nothing but breakage can happen any more. */
  ghost predicate Quiescent(setups: Setups, st: Session) {
    forall side :: Step(setups, st, Write(side)).None? && Step(setups, st, Read(side)).None?
  }

  /** Without breakage a side fails only if the two sides are incompatible. */
  ghost predicate JustFailures(setups: Setups, st: Session) {
    && (st.left.phase == Failed || st.right.phase == Failed ==> !Compatible(setups))
    && (|st.left.sent| == 2 && st.left.sent[1] == Status(false) ==> !Compatible(setups))
    && (|st.right.sent| == 2 && st.right.sent[1] == Status(false) ==> !Compatible(setups))
  }

  /** One unbroken step of the side `p`, seen from that side. */
  lemma SideFailsJustly(setups: Setups, p: Party, q: Party, s: Setup, o: Setup, write: bool)
    requires PartyOk(s, o, setups.size, p, q) && PartyOk(o, s, setups.size, q, p)
    requires Compatible(setups) ==> EncodedPreface(s, setups.size).Ok? && Accepts(s, o)
    requires q.phase == Failed ==> !Compatible(setups)
    requires |q.sent| == 2 && q.sent[1] == Status(false) ==> !Compatible(setups)
    ensures write ==> (AfterWrite(s, setups.size).phase == Failed ==> !Compatible(setups))
    ensures p.phase == AwaitPreface && p.got < |q.sent| ==>
              var next := AfterRead(s, setups.size, p, q.sent[p.got], true);
              && (next.phase == Failed ==> !Compatible(setups))
              && (|next.sent| == 2 && next.sent[1] == Status(false) ==> !Compatible(setups))
    ensures p.phase == AwaitStatus && p.got < |q.sent| ==>
              var next := AfterRead(s, setups.size, p, q.sent[p.got], true);
              && (next.phase == Failed ==> !Compatible(setups))
              && next.sent == p.sent
  {
    hide PeerError, LocalPreface;
  }

  lemma StepFailsJustly(setups: Setups, st: Session, move: Move)
    requires Inv(setups, st) && JustFailures(setups, st) && Step(setups, st, move).Some?
    requires move.Write? || move.Read?
    ensures JustFailures(setups, Step(setups, st, move).value)
  {
    hide PeerError, LocalPreface;
    if move.side == Left { SideFailsJustly(setups, st.left, st.right, setups.left, setups.right, move.Write?); }
    else { SideFailsJustly(setups, st.right, st.left, setups.right, setups.left, move.Write?); }
  }

  lemma {:induction false} UnbrokenFailsJustly(setups: Setups, moves: seq<Move>)
    requires After(setups, moves).Some? && Unbroken(moves)
    ensures Inv(setups, After(setups, moves).value) && JustFailures(setups, After(setups, moves).value)
  {
    hide PeerError, LocalPreface;
    ReachableInv(setups, moves);
    if |moves| == 0 {
    } else {
      var n := |moves| - 1;
      UnbrokenFailsJustly(setups, moves[..n]);
      ReachableInv(setups, moves[..n]);
      StepFailsJustly(setups, After(setups, moves[..n]).value, moves[n]);
    }
  }

  /**
   Without breakage, once one side has established the session the other side has
   too, or has the acceptance waiting for it; and when nothing more can happen both
   sides have established it if their setups are compatible, and both have failed
   otherwise.
   */
  lemma UnbrokenSessions(setups: Setups, moves: seq<Move>, side: Side)
    requires After(setups, moves).Some? && Unbroken(moves)
    ensures var st := After(setups, moves).value;
            && (st.At(side).phase == Established ==>
                  || st.At(side.Other()).phase == Established
                  || (st.At(side.Other()).phase == AwaitStatus && Step(setups, st, Read(side.Other())).Some? &&
                      Step(setups, st, Read(side.Other())).value.At(side.Other()).phase == Established))
            && (Quiescent(setups, st) ==>
                  st.left.phase == st.right.phase == if Compatible(setups) then Established else Failed)
  {
    hide PeerError, LocalPreface;
    UnbrokenFailsJustly(setups, moves);
    var st := After(setups, moves).value;
    if Quiescent(setups, st) {
      assert Step(setups, st, Write(Left)).None? && Step(setups, st, Write(Right)).None?;
      assert Step(setups, st, Read(Left)).None? && Step(setups, st, Read(Right)).None?;
    }
  }
}
