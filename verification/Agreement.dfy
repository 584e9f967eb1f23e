/** What holds of every run of two projected endpoints: safety, agreement and progress. */
module Agreement {
  import opened Basics
  import opened Conversations
  import opened Traces
  import opened Projection
  import opened Machines
  import opened Sessions
  import opened Systems

  /** `sys` is reached from the start by some sequence of steps. */
  ghost predicate Reached(c: Conversation, identity: string, planIdentity: string, acts: seq<Act>, sys: System)
  {
    |c.roles| == 2 && After(Start(c, identity, planIdentity), acts) == Some(sys)
  }

  lemma ReachedPeer(c: Conversation, identity: string, planIdentity: string, acts: seq<Act>, sys: System, side: Side)
    requires Valid(c) && Reached(c, identity, planIdentity, acts, sys)
    ensures PeerOk(c, identity, RoleOf(c, side), sys.At(side))
  {
    ValidIsSound(c);
    ReachableInv(c, identity, planIdentity, acts);
  }

  // ----- Communication safety

  /**
   The machine of `p` stands at state `id` with counter `n`. One whose last call
   returned an error may have emitted before: it stands one step of its own further.
   */
  ghost predicate StandsAt(c: Conversation, role: string, p: Peer, id: string, n: nat) {
    var m := p.session.machine;
    || (m.current == id && m.sequence == n)
    || (!p.live && OwnStep(c, role, id, m.current) && m.sequence == n + 1)
  }

  /**
   At most one queue holds anything. As long as its reader has not faulted, the
   queue is a path of the graph from the reader's state, stamped with consecutive
   numbers from the reader's counter, and the reader accepts the head. Unless the
   writer has faulted too, it stands where the path ends. With both queues empty
   and no fault both stand at the same state and counter.
   */
  lemma CommunicationSafety(c: Conversation, identity: string, planIdentity: string, acts: seq<Act>, sys: System, side: Side)
    requires Valid(c) && Reached(c, identity, planIdentity, acts, sys)
    ensures sys.toLeft == [] || sys.toRight == []
    ensures var reader, writer := sys.At(side).session, sys.At(side.Other()).session;
            var q := sys.Inbox(side);
            q != [] && !Faulted(reader.trace) ==>
              && Path(c, identity, q, reader.machine.current, reader.machine.sequence, RoleOf(c, side.Other()),
                      Place(c, writer.trace))
              && reader.machine.Ready() && Accept(reader.machine, q[0]).Ok?
              && (!Faulted(writer.trace) ==>
                    StandsAt(c, RoleOf(c, side.Other()), sys.At(side.Other()), Place(c, writer.trace),
                             reader.machine.sequence + |q|))
    ensures var l, r := sys.left.session, sys.right.session;
            sys.toLeft == [] && sys.toRight == [] && !Faulted(l.trace) && !Faulted(r.trace) ==>
              && StandsAt(c, RoleOf(c, Left), sys.left, Place(c, l.trace), |l.trace|)
              && StandsAt(c, RoleOf(c, Right), sys.right, Place(c, l.trace), |l.trace|)
  {
    ValidIsSound(c);
    ReachableInv(c, identity, planIdentity, acts);
    PlaceOf(c, identity, RoleOf(c, Left), sys.left);
    PlaceOf(c, identity, RoleOf(c, Right), sys.right);
    var reader := sys.At(side).session;
    if sys.Inbox(side) != [] && !Faulted(reader.trace) {
      var lead := side.Other();
      assert LinkOk(c, identity, sys, lead);
      FollowerReceives(c, identity, sys, lead);
      NoOverrunWithMail(c, RoleOf(c, side), reader, sys.Inbox(side)[0].frame);
      assert |NormalTrace(Clean(sys.At(lead).session.trace))| == |Clean(reader.trace)| + |sys.Inbox(side)|;
    }
    if sys.toLeft == [] && sys.toRight == [] {
      if LinkOk(c, identity, sys, Left) { LeadSwitch(c, identity, sys, Left); }
      else { LeadSwitch(c, identity, sys, Right); }
    }
  }

  // ----- Agreement under faults

  predicate CarriesNull(f: Frame) { f.Data? && f.payload == Some(Null) }

  /** None of the first `k` frames carries a null. */
  ghost predicate NullFree(trace: seq<Frame>, k: nat)
    requires k <= |trace|
  {
    forall i :: 0 <= i < k ==> !CarriesNull(trace[i])
  }

  /** The graph accepts the trace of `p`, and the machine of `p` stands where it leads. */
  ghost predicate Placed(c: Conversation, role: string, p: Peer) {
    var r, s := RunTrace(c, p.session.trace), p.session;
    && r.Some?
    && (Faulted(s.trace) ==> s.machine.current == r.value)
    && (!Faulted(s.trace) ==> StandsAt(c, role, p, r.value, |s.trace|))
  }

  /** `longer` extends `shorter` by frames that `lead` authored. */
  ghost predicate Ahead(c: Conversation, lead: Side, longer: seq<Frame>, shorter: seq<Frame>)
  {
    && |c.roles| == 2
    && NormalTrace(shorter) <= NormalTrace(longer)
    && forall i :: |shorter| <= i < |longer| ==> longer[i].Author() == RoleOf(c, lead)
  }

  lemma {:induction false} PathAuthors(c: Conversation, identity: string, q: seq<WireEnvelope>, from: string, n: nat,
                                       author: string, to: string)
    requires Path(c, identity, q, from, n, author, to)
    ensures forall i :: 0 <= i < |q| ==> q[i].frame.Author() == author
  {
    if |q| == 0 {
    } else {
      PathAuthors(c, identity, q[1..], GlobalStep(c, from, q[0].frame).value, n + 1, author, to);
      assert forall i :: 1 <= i < |q| ==> q[i] == q[1..][i - 1];
    }
  }

  lemma LinkIsAhead(c: Conversation, identity: string, sys: System, lead: Side)
    requires |c.roles| == 2 && LinkOk(c, identity, sys, lead)
    ensures Ahead(c, lead, Clean(sys.At(lead).session.trace), Clean(sys.At(lead.Other()).session.trace))
  {
    var longer, shorter := Clean(sys.At(lead).session.trace), Clean(sys.At(lead.Other()).session.trace);
    var q := sys.Inbox(lead.Other());
    PathAuthors(c, identity, q, Place(c, sys.At(lead.Other()).session.trace), |shorter|, RoleOf(c, lead),
                Place(c, sys.At(lead).session.trace));
    forall i | |shorter| <= i < |longer| ensures longer[i].Author() == RoleOf(c, lead) {
      assert NormalTrace(longer)[i] == Frames(q)[i - |shorter|] == q[i - |shorter|].frame;
      assert Normal(longer[i]).Author() == longer[i].Author();
    }
  }

  /**
   Whatever aborts, drops or injected failures happen, each trace has at most one
   fault, at its end; without it, one trace is a prefix of the other as read back
   from the wire, and everything the longer one has in excess was put there by its
   own side. Each trace is accepted, and its machine stands where the trace leads.
   */
  lemma AgreementUnderFaults(c: Conversation, identity: string, planIdentity: string, acts: seq<Act>, sys: System)
    requires Valid(c) && Reached(c, identity, planIdentity, acts, sys)
    ensures forall side: Side :: NoFault(Clean(sys.At(side).session.trace))
    ensures exists lead: Side :: Ahead(c, lead, Clean(sys.At(lead).session.trace), Clean(sys.At(lead.Other()).session.trace))
    ensures forall side: Side :: Placed(c, RoleOf(c, side), sys.At(side))
  {
    ValidIsSound(c);
    ReachableInv(c, identity, planIdentity, acts);
    forall side: Side
      ensures NoFault(Clean(sys.At(side).session.trace))
      ensures Placed(c, RoleOf(c, side), sys.At(side))
    {
      assert PeerOk(c, identity, RoleOf(c, side), sys.At(side));
    }
    var lead := if LinkOk(c, identity, sys, Left) then Left else Right;
    LinkIsAhead(c, identity, sys, lead);
  }

  lemma SameUpToNull(left: string, right: string, l: Frame, r: Frame)
    requires left != right && Normal(l) == Normal(r)
    requires l.Data? ==> if l.from == left then l.payload.Some? else Normal(l) == l
    requires r.Data? ==> if r.from == right then r.payload.Some? else Normal(r) == r
    ensures l == r <==> !CarriesNull(l) && !CarriesNull(r)
  {
  }

  /**
   The traces are literally equal on their common part exactly when no frame of
   that part was sent with a null payload, which a sender can avoid.
   */
  lemma AgreementIsExactWithoutNull(c: Conversation, identity: string, planIdentity: string, acts: seq<Act>, sys: System, k: nat)
    requires Valid(c) && Reached(c, identity, planIdentity, acts, sys)
    requires k <= |Clean(sys.left.session.trace)| && k <= |Clean(sys.right.session.trace)|
    ensures var l, r := Clean(sys.left.session.trace), Clean(sys.right.session.trace);
            l[..k] == r[..k] <==> NullFree(l, k) && NullFree(r, k)
  {
    hide StateMap, Find, Closed, RunTrace, After, Path, Valid;
    AgreementUnderFaults(c, identity, planIdentity, acts, sys);
    ValidIsSound(c);
    ReachableInv(c, identity, planIdentity, acts);
    var l, r := Clean(sys.left.session.trace), Clean(sys.right.session.trace);
    forall i | 0 <= i < k ensures l[i] == r[i] <==> !CarriesNull(l[i]) && !CarriesNull(r[i]) {
      assert NormalTrace(l)[i] == NormalTrace(r)[i];
      assert Normal(l[i]) == Normal(r[i]);
      assert l[i] == sys.left.session.trace[i] && r[i] == sys.right.session.trace[i];
      SameUpToNull(RoleOf(c, Left), RoleOf(c, Right), l[i], r[i]);
    }
    if l[..k] == r[..k] {
      forall i | 0 <= i < k ensures !CarriesNull(l[i]) && !CarriesNull(r[i]) {
        assert l[..k][i] == r[..k][i];
      }
    }
  }

  // ----- Deadlock freedom

  ghost predicate Finished(c: Conversation, sys: System) {
    var l, r := sys.left.session.machine, sys.right.session.machine;
    && sys.toLeft == [] && sys.toRight == []
    && l.current == r.current
    && l.current in StateMap(c.states) && StateMap(c.states)[l.current].Terminal()
  }

  /** `act` is a call that succeeds: both ends stay open and one more frame is recorded. */
  ghost predicate Progress(sys: System, act: Act) {
    && act.Do? && act.weather == Clear(None)
    && Step(sys, act).Some?
    && var next := Step(sys, act).value;
       && next.left.open && next.left.live && next.right.open && next.right.live
       && |next.At(act.side).session.trace| == |sys.At(act.side).session.trace| + 1
  }

  ghost predicate Healthy(sys: System) {
    sys.left.open && sys.left.live && sys.right.open && sys.right.live
  }

  lemma FinishedIsStuck(c: Conversation, identity: string, sys: System, act: Act)
    requires Sound(c) && Inv(c, identity, sys) && Healthy(sys) && Finished(c, sys)
    ensures !Progress(sys, act)
  {
    if act.Do? {
      var p, role := sys.At(act.side), RoleOf(c, act.side);
      LocalIsProjected(c, role, p.session.machine);
      if act.call.Emits? {
        FailedRefuses(c, role, p.session, Sending(act.call.action, SendRefusal(sys, act.side, act.weather)));
      }
    }
  }

  lemma MailProgress(c: Conversation, identity: string, sys: System, side: Side) returns (act: Act)
    requires Sound(c) && Inv(c, identity, sys) && Healthy(sys) && sys.Inbox(side) != []
    ensures Progress(sys, act)
  {
    FollowerReceives(c, identity, sys, side.Other());
    ReceiveSucceeds(sys, side);
    act := Do(side, Receives, Clear(None));
  }

  lemma EmitProgress(c: Conversation, identity: string, sys: System, side: Side, frame: Frame) returns (act: Act)
    requires Sound(c) && Healthy(sys) && PeerOk(c, identity, RoleOf(c, side), sys.At(side))
    requires GlobalStep(c, sys.At(side).session.machine.current, frame).Some? && !frame.Fault?
    requires frame.Author() == RoleOf(c, side) && (frame.Data? ==> frame.payload.Some?)
    ensures Progress(sys, act)
  {
    StepIsEmitted(c, RoleOf(c, side), sys.At(side).session.machine, frame);
    EmitSucceeds(sys, side, ActionFor(frame));
    act := Do(side, Emits(ActionFor(frame)), Clear(None));
  }

  /** Some frame is permitted at every state that is not terminal. */
  lemma SomeFrame(c: Conversation, id: string, s: GlobalState) returns (frame: Frame)
    requires id in StateMap(c.states) && StateMap(c.states)[id] == s && !s.Terminal()
    requires StateOk(c, StateMap(c.states), s)
    ensures GlobalStep(c, id, frame).Some? && !frame.Fault? && Sender(s) == Some(frame.Author())
    ensures frame.Data? ==> frame.payload.Some?
  {
    match s {
      case Send(_, from, to, message, _, _) => frame := Data(from, to, message, Some(Bool(true)));
      case Cancel(_, from, to, scope, _, _) => frame := Frame.Cancel(from, to, scope);
      case Choice(_, chooser, branches, _) =>
        assert |branches.Keys| == |branches|;
        var branch :| branch in branches;
        frame := Frame.Select(chooser, branch);
    }
  }

  /** The author of a frame sends it, the other side receives it. */
  function SideOf(c: Conversation, f: Frame): Side
    requires |c.roles| == 2
  {
    if f.Author() == c.roles[0] then Left else Right
  }

  lemma AuthorIsRole(c: Conversation, id: string, f: Frame)
    requires Sound(c) && GlobalStep(c, id, f).Some? && !f.Fault?
    ensures f.Author() in c.roles
  {
    assert IndexedOk(c, id);
  }

  /** With empty queues and no fault both machines stand at the same state. */
  lemma Level(c: Conversation, identity: string, sys: System)
    requires Sound(c) && Inv(c, identity, sys) && sys.toLeft == [] && sys.toRight == []
    requires !Faulted(sys.left.session.trace) && !Faulted(sys.right.session.trace) && sys.left.live && sys.right.live
    ensures sys.left.session.machine.current == sys.right.session.machine.current
  {
    PlaceOf(c, identity, RoleOf(c, Left), sys.left);
    PlaceOf(c, identity, RoleOf(c, Right), sys.right);
    if LinkOk(c, identity, sys, Left) { LeadSwitch(c, identity, sys, Left); }
    else { LeadSwitch(c, identity, sys, Right); }
  }

  lemma SomeProgress(c: Conversation, identity: string, sys: System) returns (act: Act)
    requires Sound(c) && Inv(c, identity, sys) && Healthy(sys) && !Finished(c, sys)
    ensures Progress(sys, act)
  {
    hide Find, Closed, Path, RunTrace;
    if sys.toLeft != [] || sys.toRight != [] {
      act := MailProgress(c, identity, sys, if sys.toLeft != [] then Left else Right);
    } else {
      Level(c, identity, sys);
      var id := sys.left.session.machine.current;
      var s := StateMap(c.states)[id];
      assert IndexedOk(c, id);
      var frame := SomeFrame(c, id, s);
      AuthorIsRole(c, id, frame);
      act := EmitProgress(c, identity, sys, SideOf(c, frame), frame);
    }
  }

  /** A reached configuration without faults is finished exactly when no call can make progress. */
  lemma DeadlockFreedom(c: Conversation, identity: string, planIdentity: string, acts: seq<Act>, sys: System)
    requires Valid(c) && Reached(c, identity, planIdentity, acts, sys) && Healthy(sys)
    ensures Finished(c, sys) <==> !exists act :: Progress(sys, act)
  {
    ValidIsSound(c);
    ReachableInv(c, identity, planIdentity, acts);
    if !Finished(c, sys) {
      var act := SomeProgress(c, identity, sys);
    } else {
      forall act ensures !Progress(sys, act) { FinishedIsStuck(c, identity, sys, act); }
    }
  }
}
