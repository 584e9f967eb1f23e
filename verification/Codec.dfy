/**
 The two wire codecs.

 A document stands for the JSON text of an envelope; `size` gives the length of
 that text and is arbitrary. Writing keeps a null payload and reading drops it,
 in either codec.
 */
module Codecs {
  import opened Basics
  import opened Conversations
  import opened Traces
  import opened Projection
  import opened WireTables
  import opened Machines
  import opened Plans
  import opened Systems

  const MAX_ENVELOPE_BYTES := 16 * 1024 * 1024

  datatype CompactEnvelope = CompactEnvelope(transition: nat, sequence: nat, payload: Option<Json>)

  datatype Document = ReferenceText(full: WireEnvelope) | CompactText(compact: CompactEnvelope)

  datatype CompactCodec = CompactCodec(conversation: string, identity: string, transitions: seq<WireTransition>)

  datatype EnvelopeCodec = Reference | Compact(codec: CompactCodec)

  function Sized(d: Document, size: Document -> nat): Result<Document, RuntimeError> {
    if size(d) > MAX_ENVELOPE_BYTES then Err(EnvelopeTooLarge) else Ok(d)
  }

  // ----- The reference codec

  function EncodeReference(e: WireEnvelope, size: Document -> nat): Result<Document, RuntimeError> {
    Sized(ReferenceText(e), size)
  }

  function DecodeReference(d: Document, size: Document -> nat): Result<WireEnvelope, RuntimeError> {
    if size(d) > MAX_ENVELOPE_BYTES then Err(EnvelopeTooLarge)
    else match d
         case ReferenceText(e) => Ok(NormalEnvelope(e))
         case CompactText(_) => Err(Codec)
  }

  // ----- The compact codec

  function TransitionMatches(t: WireTransition, e: WireEnvelope): bool {
    t.state == e.state &&
    match (t.operation, e.frame)
    case (Data(from, to, message), Data(actualFrom, actualTo, actualMessage, _)) =>
      from == actualFrom && to == actualTo && message == actualMessage
    case (Select(chooser, branch), Select(actualChooser, actualBranch)) =>
      chooser == actualChooser && branch == actualBranch
    case (Cancel(from, to, scope), Cancel(actualFrom, actualTo, actualScope)) =>
      from == actualFrom && to == actualTo && scope == actualScope
    case _ => false
  }

  /** The first matching transition, as `iter().find` returns it. */
  function FindTransition(ts: seq<WireTransition>, e: WireEnvelope): Option<WireTransition> {
    if |ts| == 0 then None
    else if TransitionMatches(ts[0], e) then Some(ts[0])
    else FindTransition(ts[1..], e)
  }

  function EncodeCompact(codec: CompactCodec, e: WireEnvelope, size: Document -> nat): Result<Document, RuntimeError> {
    if e.wire != WIRE_FORMAT then Err(WireVersion)
    else if e.conversation != codec.conversation then Err(CompactWire)
    else if e.identity != codec.identity then Err(CompactWire)
    else match FindTransition(codec.transitions, e)
         case None => Err(CompactWire)
         case Some(t) =>
           match e.frame
           case Data(_, _, _, payload) => Sized(CompactText(CompactEnvelope(t.id, e.sequence, payload)), size)
           case Select(_, _) => Sized(CompactText(CompactEnvelope(t.id, e.sequence, None)), size)
           case Cancel(_, _, _) => Sized(CompactText(CompactEnvelope(t.id, e.sequence, None)), size)
           case Fault(_, _) => Err(CompactWire)
  }

  /** The transition with a given id, by direct index at id - 1. */
  function ByIndex(ts: seq<WireTransition>, id: nat): Option<WireTransition> {
    if 1 <= id <= |ts| && ts[id - 1].id == id then Some(ts[id - 1]) else None
  }

  function FrameOf(op: WireOperation, payload: Option<Json>): Frame {
    match op
    case Data(from, to, message) => Frame.Data(from, to, message, payload)
    case Select(chooser, branch) => Frame.Select(chooser, branch)
    case Cancel(from, to, scope) => Frame.Cancel(from, to, scope)
  }

  function DecodeCompact(codec: CompactCodec, d: Document, size: Document -> nat): Result<WireEnvelope, RuntimeError> {
    if size(d) > MAX_ENVELOPE_BYTES then Err(EnvelopeTooLarge)
    else match d
         case ReferenceText(_) => Err(Codec)
         case CompactText(compact) =>
           var payload := NormalPayload(compact.payload);
           match ByIndex(codec.transitions, compact.transition)
           case None => Err(CompactWire)
           case Some(t) =>
             if !t.operation.Data? && payload.Some? then Err(CompactWire)
             else Ok(WireEnvelope(WIRE_FORMAT, codec.conversation, codec.identity, t.state, compact.sequence,
                                  FrameOf(t.operation, payload)))
  }

  function Encode(codec: EnvelopeCodec, e: WireEnvelope, size: Document -> nat): Result<Document, RuntimeError> {
    match codec
    case Reference => EncodeReference(e, size)
    case Compact(k) => EncodeCompact(k, e, size)
  }

  function Decode(codec: EnvelopeCodec, d: Document, size: Document -> nat): Result<WireEnvelope, RuntimeError> {
    match codec
    case Reference => DecodeReference(d, size)
    case Compact(k) => DecodeCompact(k, d, size)
  }

  // ----- The dictionary as a bijection

  function OperationOf(frame: Frame): Option<WireOperation> {
    match frame
    case Data(from, to, message, _) => Some(WireOperation.Data(from, to, message))
    case Select(chooser, branch) => Some(WireOperation.Select(chooser, branch))
    case Cancel(from, to, scope) => Some(WireOperation.Cancel(from, to, scope))
    case Fault(_, _) => None
  }

  lemma MatchesIsKey(t: WireTransition, e: WireEnvelope)
    ensures TransitionMatches(t, e) <==> OperationOf(e.frame).Some? && KeyOf(t) == Key(e.state, OperationOf(e.frame).value)
  {
  }

  lemma {:induction false} FindTransitionFinds(ts: seq<WireTransition>, e: WireEnvelope)
    ensures match FindTransition(ts, e)
            case None => forall i :: 0 <= i < |ts| ==> !TransitionMatches(ts[i], e)
            case Some(t) => t in ts && TransitionMatches(t, e)
  {
    if |ts| == 0 {
    } else {
      FindTransitionFinds(ts[1..], e);
      assert forall i :: 1 <= i < |ts| ==> ts[i] == ts[1..][i - 1];
    }
  }

  /** The keys of a table are distinct. */
  lemma TableInjective(keys: set<Key>, ts: seq<WireTransition>, i: nat, j: nat)
    requires IsTable(keys, ts) && i < |ts| && j < |ts| && KeyOf(ts[i]) == KeyOf(ts[j])
    ensures i == j
  {
    KeyOrder(KeyOf(ts[i]), KeyOf(ts[j]));
    assert KeysOf(ts)[i] == KeysOf(ts)[j] == KeyOf(ts[i]);
  }

  /** A linear search by id over a table finds what the direct index finds. */
  function SearchById(ts: seq<WireTransition>, id: nat): Option<WireTransition> {
    if |ts| == 0 then None
    else if ts[0].id == id then Some(ts[0])
    else SearchById(ts[1..], id)
  }

  lemma {:induction false} SearchFrom(ts: seq<WireTransition>, base: nat, id: nat)
    requires forall i :: 0 <= i < |ts| ==> ts[i].id == base + i
    ensures SearchById(ts, id) == if base <= id < base + |ts| then Some(ts[id - base]) else None
  {
    if |ts| == 0 {
    } else {
      SearchFrom(ts[1..], base + 1, id);
    }
  }

  lemma IndexAgreesWithSearch(keys: set<Key>, ts: seq<WireTransition>, id: nat)
    requires IsTable(keys, ts)
    ensures ByIndex(ts, id) == SearchById(ts, id)
  {
    SearchFrom(ts, 1, id);
  }

  // ----- Refinement and inverse

  /** The envelopes a codec is prepared for. */
  ghost predicate Encodable(codec: CompactCodec, keys: set<Key>, e: WireEnvelope) {
    && e.wire == WIRE_FORMAT && e.conversation == codec.conversation && e.identity == codec.identity
    && OperationOf(e.frame).Some? && Key(e.state, OperationOf(e.frame).value) in keys
  }

  /** The table entry of an encodable envelope. */
  lemma EntryOf(codec: CompactCodec, keys: set<Key>, e: WireEnvelope) returns (i: nat)
    requires IsTable(keys, codec.transitions) && Encodable(codec, keys, e)
    ensures i < |codec.transitions| && FindTransition(codec.transitions, e) == Some(codec.transitions[i])
    ensures KeyOf(codec.transitions[i]) == Key(e.state, OperationOf(e.frame).value)
    ensures codec.transitions[i].id == i + 1 && ByIndex(codec.transitions, i + 1) == Some(codec.transitions[i])
  {
    hide KeyLess;
    var ts := codec.transitions;
    FindTransitionFinds(ts, e);
    assert Key(e.state, OperationOf(e.frame).value) in KeysOf(ts);
    var k :| 0 <= k < |ts| && KeysOf(ts)[k] == Key(e.state, OperationOf(e.frame).value);
    MatchesIsKey(ts[k], e);
    i :| 0 <= i < |ts| && ts[i] == FindTransition(ts, e).value;
    MatchesIsKey(ts[i], e);
  }

  lemma FoundIsEncodable(codec: CompactCodec, keys: set<Key>, e: WireEnvelope)
    requires IsTable(keys, codec.transitions) && FindTransition(codec.transitions, e).Some?
    ensures OperationOf(e.frame).Some? && Key(e.state, OperationOf(e.frame).value) in keys
  {
    FindTransitionFinds(codec.transitions, e);
    var t := FindTransition(codec.transitions, e).value;
    MatchesIsKey(t, e);
    var i :| 0 <= i < |codec.transitions| && codec.transitions[i] == t;
    assert KeysOf(codec.transitions)[i] == KeyOf(t);
    assert KeyOf(t) in Elements(KeysOf(codec.transitions));
  }

  /** The compact codec accepts exactly the envelopes it is prepared for, within the size limit. */
  lemma CompactAcceptsExactly(codec: CompactCodec, keys: set<Key>, e: WireEnvelope, size: Document -> nat)
    requires IsTable(keys, codec.transitions)
    ensures EncodeCompact(codec, e, size).Ok? ==> Encodable(codec, keys, e)
    ensures Encodable(codec, keys, e) ==>
              EncodeCompact(codec, e, size).Ok? || EncodeCompact(codec, e, size) == Err(EnvelopeTooLarge)
    ensures EncodeCompact(codec, e, size).Ok? ==> size(EncodeCompact(codec, e, size).value) <= 16777216
  {
    if Encodable(codec, keys, e) {
      var i := EntryOf(codec, keys, e);
    }
    if EncodeCompact(codec, e, size).Ok? { FoundIsEncodable(codec, keys, e); }
  }

  /**
   Compact wire refines reference wire: what one end encodes, the other decodes to
   the same envelope in both encodings, the sent one up to a null payload.
   */
  lemma CompactRefinesReference(codec: CompactCodec, keys: set<Key>, e: WireEnvelope, size: Document -> nat)
    requires IsTable(keys, codec.transitions)
    requires EncodeCompact(codec, e, size).Ok? && EncodeReference(e, size).Ok?
    ensures DecodeCompact(codec, EncodeCompact(codec, e, size).value, size) == Ok(NormalEnvelope(e))
    ensures DecodeReference(EncodeReference(e, size).value, size) == Ok(NormalEnvelope(e))
  {
    CompactAcceptsExactly(codec, keys, e, size);
    var i := EntryOf(codec, keys, e);
  }

  /** Decoding is undone by encoding, up to a null payload and the size limit. */
  lemma EncodeAfterDecode(codec: CompactCodec, keys: set<Key>, d: Document, size: Document -> nat)
    requires IsTable(keys, codec.transitions)
    requires DecodeCompact(codec, d, size).Ok?
    ensures d.CompactText? &&
            EncodeCompact(codec, DecodeCompact(codec, d, size).value, size) ==
            Sized(CompactText(d.compact.(payload := NormalPayload(d.compact.payload))), size)
  {
    hide KeyLess, FindTransition, Sorted;
    var e := DecodeCompact(codec, d, size).value;
    var ts, k := codec.transitions, d.compact.transition - 1;
    assert KeysOf(ts)[k] == KeyOf(ts[k]);
    assert KeyOf(ts[k]) in Elements(KeysOf(ts));
    var i := EntryOf(codec, keys, e);
    TableInjective(keys, ts, i, k);
  }

  lemma StepIsKey(c: Conversation, id: string, frame: Frame)
    requires GlobalStep(c, id, frame).Some? && !frame.Fault?
    ensures Key(StateMap(c.states)[id].id, OperationOf(frame).value) in ConversationKeys(c.states)
    ensures StateMap(c.states)[id].id == id
  {
    StateMapKeys(c.states);
    var s := StateMap(c.states)[id];
    assert s in c.states;
    assert Key(s.id, OperationOf(frame).value) in GlobalKeys(s);
  }

  /** Every envelope a machine of a compiled plan emits is one the plan's codec is prepared for. */
  lemma EmittedIsEncodable(c: Conversation, role: string, m: Machine, a: Action, codec: CompactCodec)
    requires Valid(c) && Runs(c, role, m) && m.Ready() && Emit(m, a).Ok?
    requires codec.conversation == c.moduleId && codec.identity == m.identity
    ensures Encodable(codec, ConversationKeys(c.states), Emit(m, a).value.envelope)
  {
    hide Valid;
    ValidIsSound(c);
    EmitIsStep(c, role, m, a);
    StepIsKey(c, m.current, Emit(m, a).value.envelope.frame);
  }

  /**
   Over either codec of a compiled plan, an envelope a machine emits arrives as
   its normal form whenever it is within the size limit of that codec: the wire
   that the two-endpoint model assumes.
   */
  lemma WireDeliversNormal(c: Conversation, role: string, m: Machine, a: Action, codec: EnvelopeCodec, size: Document -> nat)
    requires Valid(c) && Runs(c, role, m) && m.Ready() && Emit(m, a).Ok?
    requires codec.Compact? ==> codec.codec.conversation == c.moduleId && codec.codec.identity == m.identity &&
                                IsTable(ConversationKeys(c.states), codec.codec.transitions)
    ensures var e := Emit(m, a).value.envelope;
            match Encode(codec, e, size)
            case Ok(d) => Decode(codec, d, size) == Ok(NormalEnvelope(e))
            case Err(error) => error == EnvelopeTooLarge
  {
    hide Valid, ConversationKeys, Emit;
    var e := Emit(m, a).value.envelope;
    if codec.Compact? {
      EmittedIsEncodable(c, role, m, a, codec.codec);
      CompactAcceptsExactly(codec.codec, ConversationKeys(c.states), e, size);
      if Encode(codec, e, size).Ok? {
        var i := EntryOf(codec.codec, ConversationKeys(c.states), e);
      }
    }
  }

  /** What the compact encoder refuses, and how. */
  lemma CompactRefuses(codec: CompactCodec, keys: set<Key>, e: WireEnvelope, size: Document -> nat)
    requires IsTable(keys, codec.transitions) && EncodeCompact(codec, e, size).Err?
    ensures EncodeCompact(codec, e, size).error ==
            if e.wire != "0.1.0" then WireVersion
            else if Encodable(codec, keys, e) then EnvelopeTooLarge
            else CompactWire
  {
    if Encodable(codec, keys, e) {
      CompactAcceptsExactly(codec, keys, e, size);
    } else if FindTransition(codec.transitions, e).Some? {
      FoundIsEncodable(codec, keys, e);
    }
  }

  /**
   The compact decoder takes a text of at most 16 MiB with a known number, and a
   payload other than null only for data; it gives the envelope of that number.
   */
  lemma DecodesExactly(codec: CompactCodec, keys: set<Key>, compact: CompactEnvelope, size: Document -> nat)
    requires IsTable(keys, codec.transitions)
    ensures var r := DecodeCompact(codec, CompactText(compact), size);
            var known := 1 <= compact.transition <= |codec.transitions|;
            && (r.Ok? <==>
                  && size(CompactText(compact)) <= 16777216 && known
                  && (codec.transitions[compact.transition - 1].operation.Data? || compact.payload == None || compact.payload == Some(Null)))
            && (r.Ok? ==>
                  var t := codec.transitions[compact.transition - 1];
                  && r.value.wire == "0.1.0" && r.value.conversation == codec.conversation && r.value.identity == codec.identity
                  && r.value.state == t.state && r.value.sequence == compact.sequence
                  && r.value.frame == match t.operation
                                      case Data(from, to, message) =>
                                        Frame.Data(from, to, message, if compact.payload == Some(Null) then None else compact.payload)
                                      case Select(chooser, branch) => Frame.Select(chooser, branch)
                                      case Cancel(from, to, scope) => Frame.Cancel(from, to, scope))
            && (r.Err? ==> r.error == if size(CompactText(compact)) > 16777216 then EnvelopeTooLarge else CompactWire)
  {
  }

  /** The reference codec takes every envelope of at most 16 MiB. */
  lemma ReferenceTakesExactly(e: WireEnvelope, size: Document -> nat)
    ensures EncodeReference(e, size) == if size(ReferenceText(e)) > 16777216 then Err(EnvelopeTooLarge) else Ok(ReferenceText(e))
  {
  }
}
