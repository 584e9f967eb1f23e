/** Frames and the reference semantics of a conversation: `verify_trace`. */
module Traces {
  import opened Basics
  import opened Conversations
  import Validation

  /** Payload values; numbers are integers, floating point is not modelled. */
  datatype Json =
    | Null | Bool(flag: bool) | Number(number: int) | Str(text: string)
    | Arr(items: seq<Json>) | Obj(fields: map<string, Json>)

  datatype Frame =
    | Data(from: string, to: string, message: string, payload: Option<Json>)
    | Select(chooser: string, branch: string)
    | Cancel(from: string, to: string, scope: string)
    | Fault(observer: string, failure: string)
  {
    /** The role that put the frame into the trace. */
    function Author(): string {
      match this
      case Data(from, _, _, _) => from
      case Select(chooser, _) => chooser
      case Cancel(from, _, _) => from
      case Fault(observer, _) => observer
    }
  }

  /** The target of one frame at one global state, if the state permits the frame. */
  function Advance(roles: seq<string>, s: GlobalState, frame: Frame): Option<string> {
    match frame
    case Fault(observer, failure) =>
      if observer in roles then s.FailureTarget(failure) else None
    case Data(from, to, message, _) =>
      if s.Send? && s.from == from && s.to == to && s.message == message then Some(s.next) else None
    case Select(chooser, branch) =>
      if s.Choice? && s.chooser == chooser && branch in s.branches then Some(s.branches[branch]) else None
    case Cancel(from, to, scope) =>
      if s.Cancel? && s.from == from && s.to == to && s.scope == scope then Some(s.next) else None
  }

  function GlobalStep(c: Conversation, id: string, frame: Frame): Option<string> {
    if id in StateMap(c.states) then Advance(c.roles, StateMap(c.states)[id], frame) else None
  }

  /** The state a trace leads to from the initial one, or None when some frame is not permitted. */
  function RunTrace(c: Conversation, frames: seq<Frame>): Option<string> {
    if |frames| == 0 then Some(c.initial)
    else match RunTrace(c, frames[..|frames| - 1])
         case None => None
         case Some(id) => GlobalStep(c, id, frames[|frames| - 1])
  }

  datatype TraceReport = TraceReport(steps: nat, finalState: string, complete: bool, successful: bool,
                                     failure: Option<string>)

  datatype TraceError = InvalidConversation(diagnostics: seq<Code>) | InvalidFrame(step: nat, state: string)

  /** What a report says about the state a run stops in. */
  ghost predicate Describes(c: Conversation, report: TraceReport) {
    report.finalState in StateMap(c.states) &&
    var s := StateMap(c.states)[report.finalState];
    && (report.complete <==> s.Terminal())
    && (report.successful <==> s.End?)
    && report.failure == (if s.Fail? then Some(s.failure) else None)
  }

  lemma StepStaysIndexed(c: Conversation, id: string, frame: Frame)
    requires Sound(c)
    ensures GlobalStep(c, id, frame).Some? ==> GlobalStep(c, id, frame).value in StateMap(c.states)
    ensures GlobalStep(c, id, frame).Some? && frame.Fault? ==>
              var t := StateMap(c.states)[GlobalStep(c, id, frame).value]; t.Fail? && t.failure == frame.failure
  {
    if id in StateMap(c.states) {
      assert IndexedOk(c, id);
    }
  }

  lemma {:induction false} RejectedPrefix(c: Conversation, frames: seq<Frame>, k: nat)
    requires k <= |frames| && RunTrace(c, frames[..k]).None?
    ensures RunTrace(c, frames).None?
    decreases |frames| - k
  {
    if k == |frames| {
      assert frames[..k] == frames;
    } else {
      assert frames[..k + 1][..k] == frames[..k];
      RejectedPrefix(c, frames, k + 1);
    }
  }

  /** `verify_trace`: the loop over `current` decides the reference semantics and names the first bad frame. */
  method VerifyTrace(c: Conversation, frames: seq<Frame>) returns (r: Result<TraceReport, TraceError>)
    ensures r.Ok? <==> Valid(c) && RunTrace(c, frames).Some?
    ensures r.Ok? ==> r.value.steps == |frames| && Some(r.value.finalState) == RunTrace(c, frames) && Describes(c, r.value)
    ensures r.Ok? ==>
              exists s :: s in c.states && s.id == r.value.finalState
                          && r.value.complete == (s.End? || s.Fail?) && r.value.successful == s.End?
                          && r.value.failure == (if s.Fail? then Some(s.failure) else None)
    ensures r.Err? && r.error.InvalidConversation? <==> !Valid(c)
    ensures r.Err? && r.error.InvalidFrame? ==>
              r.error.step < |frames| &&
              RunTrace(c, frames[..r.error.step]) == Some(r.error.state) &&
              RunTrace(c, frames[..r.error.step + 1]).None?
  {
    var diagnostics := Validation.Validate(c);
    if diagnostics != [] {
      return Err(InvalidConversation(diagnostics));
    }
    ValidIsSound(c);
    var states := StateMap(c.states);
    var current := c.initial;
    for step := 0 to |frames|
      invariant current in states
      invariant RunTrace(c, frames[..step]) == Some(current)
    {
      assert frames[..step + 1][..step] == frames[..step];
      assert RunTrace(c, frames[..step + 1]) == GlobalStep(c, current, frames[step]);
      StepStaysIndexed(c, current, frames[step]);
      match Advance(c.roles, states[current], frames[step]) {
        case Some(next) => current := next;
        case None =>
          RejectedPrefix(c, frames, step + 1);
          return Err(InvalidFrame(step, current));
      }
    }
    assert frames[..|frames|] == frames;
    var terminal := states[current];
    StateMapKeys(c.states);
    assert terminal in c.states && terminal.id == current;
    r := Ok(TraceReport(|frames|, current, terminal.Terminal(), terminal.End?,
                        if terminal.Fail? then Some(terminal.failure) else None));
  }

  lemma {:induction false} RunStaysIndexed(c: Conversation, frames: seq<Frame>)
    requires Sound(c) && RunTrace(c, frames).Some?
    ensures RunTrace(c, frames).value in StateMap(c.states)
  {
    if |frames| == 0 {
    } else {
      StepStaysIndexed(c, RunTrace(c, frames[..|frames| - 1]).value, frames[|frames| - 1]);
    }
  }

  lemma RunExtend(c: Conversation, frames: seq<Frame>, frame: Frame)
    ensures RunTrace(c, frames + [frame]) ==
            match RunTrace(c, frames) { case None => None case Some(id) => GlobalStep(c, id, frame) }
  {
    assert (frames + [frame])[..|frames|] == frames;
  }

  // ----- The JSON normaliser shared by both wire codecs

  /** A payload of JSON null is read back as no payload. */
  function NormalPayload(p: Option<Json>): Option<Json> {
    if p == Some(Null) then None else p
  }

  function Normal(frame: Frame): Frame {
    if frame.Data? then frame.(payload := NormalPayload(frame.payload)) else frame
  }

  function NormalTrace(frames: seq<Frame>): (r: seq<Frame>)
    ensures |r| == |frames|
  {
    seq(|frames|, i requires 0 <= i < |frames| => Normal(frames[i]))
  }

  lemma NormalAppend(a: seq<Frame>, b: seq<Frame>)
    ensures NormalTrace(a + b) == NormalTrace(a) + NormalTrace(b)
  {
  }

  /** Normalisation does not change what a trace means. */
  lemma {:induction false} RunNormal(c: Conversation, frames: seq<Frame>)
    ensures RunTrace(c, NormalTrace(frames)) == RunTrace(c, frames)
  {
    if |frames| == 0 {
    } else {
      var n := |frames| - 1;
      RunNormal(c, frames[..n]);
      assert NormalTrace(frames)[..n] == NormalTrace(frames[..n]);
    }
  }

  // ----- Facts about authorship

  function Sender(s: GlobalState): Option<string> {
    match s
    case Send(_, from, _, _, _, _) => Some(from)
    case Choice(_, chooser, _, _) => Some(chooser)
    case Cancel(_, from, _, _, _, _) => Some(from)
    case _ => None
  }

  lemma StepAuthor(c: Conversation, id: string, frame: Frame)
    requires GlobalStep(c, id, frame).Some? && !frame.Fault?
    ensures id in StateMap(c.states) && Sender(StateMap(c.states)[id]) == Some(frame.Author())
  {
  }

  /** Every fault in an accepted trace was observed by one of the roles. */
  lemma FaultsAreObserved(c: Conversation, frames: seq<Frame>, i: nat)
    requires RunTrace(c, frames).Some? && i < |frames| && frames[i].Fault?
    ensures frames[i].observer in c.roles
  {
    if RunTrace(c, frames[..i + 1]).None? { RejectedPrefix(c, frames, i + 1); }
    assert frames[..i + 1][..i] == frames[..i];
  }
}
