/** The converse of refinement: which traces some run of the two machines records on both sides. */
module Realisation {
  import opened Basics
  import opened Conversations
  import opened Traces
  import opened Projection
  import opened Machines
  import opened Sessions
  import opened Systems
  import opened Agreement

  /** A side's copy of a trace: its own frames as sent, the peer's frames as read from the wire. */
  function CopyFor(role: string, frames: seq<Frame>): (r: seq<Frame>)
    ensures |r| == |frames|
  {
    seq(|frames|, i requires 0 <= i < |frames| => if frames[i].Author() == role then frames[i] else Normal(frames[i]))
  }

  ghost predicate CarryPayloads(frames: seq<Frame>) {
    forall i :: 0 <= i < |frames| && frames[i].Data? ==> frames[i].payload.Some?
  }

  function Exchange(c: Conversation, f: Frame): seq<Act>
    requires |c.roles| == 2
  {
    [Do(SideOf(c, f), Emits(ActionFor(f)), Clear(None)), Do(SideOf(c, f).Other(), Receives, Clear(None))]
  }

  function Schedule(c: Conversation, frames: seq<Frame>): seq<Act>
    requires |c.roles| == 2
  {
    if |frames| == 0 then []
    else Schedule(c, frames[..|frames| - 1]) + Exchange(c, frames[|frames| - 1])
  }

  /** Both sides hold their copy of `frames` and nothing is in flight. */
  ghost predicate Holds(c: Conversation, sys: System, frames: seq<Frame>) {
    && |c.roles| == 2 && Healthy(sys) && sys.toLeft == [] && sys.toRight == []
    && sys.left.session.trace == CopyFor(c.roles[0], frames)
    && sys.right.session.trace == CopyFor(c.roles[1], frames)
  }

  lemma AfterTwo(sys: System, acts: seq<Act>, a: Act, b: Act)
    ensures After(sys, acts + [a, b]) ==
            match After(sys, acts)
            case None => None
            case Some(mid) => match Step(mid, a) { case None => None case Some(next) => Step(next, b) }
  {
    assert (acts + [a, b])[..|acts| + 1] == acts + [a];
    assert (acts + [a])[..|acts|] == acts;
  }

  lemma CopyExtend(role: string, frames: seq<Frame>)
    requires |frames| > 0
    ensures CopyFor(role, frames) ==
            CopyFor(role, frames[..|frames| - 1]) +
            [if frames[|frames| - 1].Author() == role then frames[|frames| - 1] else Normal(frames[|frames| - 1])]
  {
  }

  lemma {:induction false} SameRun(c: Conversation, frames: seq<Frame>, role: string)
    ensures RunTrace(c, CopyFor(role, frames)) == RunTrace(c, frames)
  {
    if |frames| == 0 {
    } else {
      SameRun(c, frames[..|frames| - 1], role);
      CopyExtend(role, frames);
      var copy := CopyFor(role, frames);
      assert copy[..|copy| - 1] == CopyFor(role, frames[..|frames| - 1]);
    }
  }

  /** A healthy follower with mail takes the head. */
  lemma DeliverHead(c: Conversation, identity: string, sys: System, side: Side)
    requires Sound(c) && Inv(c, identity, sys) && Healthy(sys) && sys.Inbox(side) != []
    ensures var end := Step(sys, Do(side, Receives, Clear(None)));
            && end.Some? && Healthy(end.value)
            && end.value.Inbox(side) == sys.Inbox(side)[1..] && end.value.Inbox(side.Other()) == sys.Inbox(side.Other())
            && end.value.At(side).session.trace == sys.At(side).session.trace + [sys.Inbox(side)[0].frame]
            && end.value.At(side.Other()) == sys.At(side.Other())
  {
    FollowerReceives(c, identity, sys, side.Other());
    ReceiveSucceeds(sys, side);
  }

  /** One permitted frame crosses a level, healthy system. */
  lemma ExchangeDelivers(c: Conversation, identity: string, sys: System, f: Frame)
    requires Sound(c) && Inv(c, identity, sys) && Healthy(sys) && sys.toLeft == [] && sys.toRight == []
    requires GlobalStep(c, sys.left.session.machine.current, f).Some? && !f.Fault?
    requires f.Data? ==> f.payload.Some?
    ensures var first := Step(sys, Exchange(c, f)[0]);
            && first.Some?
            && var second := Step(first.value, Exchange(c, f)[1]);
               && second.Some? && Healthy(second.value)
               && second.value.toLeft == [] && second.value.toRight == []
               && second.value.left.session.trace ==
                  sys.left.session.trace + [if f.Author() == c.roles[0] then f else Normal(f)]
               && second.value.right.session.trace ==
                  sys.right.session.trace + [if f.Author() == c.roles[1] then f else Normal(f)]
  {
    hide StateMap, Find, Closed, Step, Emit, Path, RunTrace;
    var side := SideOf(c, f);
    Level(c, identity, sys);
    AuthorIsRole(c, sys.left.session.machine.current, f);
    StepIsEmitted(c, RoleOf(c, side), sys.At(side).session.machine, f);
    EmitSucceeds(sys, side, ActionFor(f));
    var mid := Step(sys, Exchange(c, f)[0]).value;
    StepKeeps(c, identity, sys, Exchange(c, f)[0]);
    DeliverHead(c, identity, mid, side.Other());
  }

  /** The lockstep schedule of an accepted trace delivers it to both sides. */
  lemma {:induction false} ScheduleDelivers(c: Conversation, identity: string, planIdentity: string, frames: seq<Frame>)
    requires Sound(c) && RunTrace(c, frames).Some? && NoFault(frames) && CarryPayloads(frames)
    ensures var end := After(Start(c, identity, planIdentity), Schedule(c, frames));
            end.Some? && Holds(c, end.value, frames)
  {
    if |frames| == 0 {
    } else {
      var n := |frames| - 1;
      var f, start := frames[n], Start(c, identity, planIdentity);
      var before := Schedule(c, frames[..n]);
      ScheduleDelivers(c, identity, planIdentity, frames[..n]);
      ReachableInv(c, identity, planIdentity, before);
      var mid := After(start, before).value;
      AfterTwo(start, before, Exchange(c, f)[0], Exchange(c, f)[1]);
      CopyExtend(c.roles[0], frames);
      CopyExtend(c.roles[1], frames);
      SameRun(c, frames[..n], c.roles[0]);
      ExchangeDelivers(c, identity, mid, f);
    }
  }

  /** Some run of the two machines records `frames` on both sides. */
  ghost predicate Realised(c: Conversation, identity: string, planIdentity: string, frames: seq<Frame>) {
    exists acts, sys :: Reached(c, identity, planIdentity, acts, sys) &&
                        sys.left.session.trace == frames && sys.right.session.trace == frames
  }

  /** Every frame of an accepted fault-free trace is authored by one of the roles. */
  lemma AcceptedAuthor(c: Conversation, frames: seq<Frame>, i: nat)
    requires Sound(c) && RunTrace(c, frames).Some? && NoFault(frames) && i < |frames|
    ensures frames[i].Author() in c.roles
  {
    if RunTrace(c, frames[..i + 1]).None? { RejectedPrefix(c, frames, i + 1); }
    assert frames[..i + 1][..i] == frames[..i];
    AuthorIsRole(c, RunTrace(c, frames[..i]).value, frames[i]);
  }

  /** A trace that both sides hold is at every data frame the copy of its author. */
  lemma CopiesCarryPayloads(c: Conversation, frames: seq<Frame>)
    requires Sound(c) && RunTrace(c, frames).Some? && NoFault(frames)
    requires Copied(c.roles[0], frames) && Copied(c.roles[1], frames)
    ensures CarryPayloads(frames)
  {
    forall i | 0 <= i < |frames| && frames[i].Data? ensures frames[i].payload.Some? {
      AcceptedAuthor(c, frames, i);
    }
  }

  lemma RealisedIsAccepted(c: Conversation, identity: string, planIdentity: string, acts: seq<Act>, sys: System, frames: seq<Frame>)
    requires Valid(c) && NoFault(frames) && Reached(c, identity, planIdentity, acts, sys)
    requires sys.left.session.trace == frames && sys.right.session.trace == frames
    ensures RunTrace(c, frames).Some? && CarryPayloads(frames) && NullFree(frames, |frames|)
  {
    ValidIsSound(c);
    ReachedPeer(c, identity, planIdentity, acts, sys, Left);
    ReachedPeer(c, identity, planIdentity, acts, sys, Right);
    assert Clean(frames) == frames;
    AgreementIsExactWithoutNull(c, identity, planIdentity, acts, sys, |frames|);
    CopiesCarryPayloads(c, frames);
  }

  /**
   Realisability, the converse of refinement: a fault-free trace is recorded
   identically on both sides by some run exactly when the reference semantics
   accepts it and its data frames carry a payload other than null.
   */
  lemma Realisability(c: Conversation, identity: string, planIdentity: string, frames: seq<Frame>)
    requires Valid(c) && NoFault(frames)
    ensures Realised(c, identity, planIdentity, frames) <==>
            RunTrace(c, frames).Some? && CarryPayloads(frames) && NullFree(frames, |frames|)
  {
    ValidIsSound(c);
    if RunTrace(c, frames).Some? && CarryPayloads(frames) && NullFree(frames, |frames|) {
      ScheduleDelivers(c, identity, planIdentity, frames);
      var sys := After(Start(c, identity, planIdentity), Schedule(c, frames)).value;
      assert CopyFor(c.roles[0], frames) == frames && CopyFor(c.roles[1], frames) == frames;
      assert Reached(c, identity, planIdentity, Schedule(c, frames), sys);
    }
    if Realised(c, identity, planIdentity, frames) {
      var acts, sys :| Reached(c, identity, planIdentity, acts, sys) &&
                       sys.left.session.trace == frames && sys.right.session.trace == frames;
      RealisedIsAccepted(c, identity, planIdentity, acts, sys, frames);
    }
  }
}
