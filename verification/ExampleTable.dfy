/** The transition dictionary of the example conversation, entry by entry. */
module ExampleTable {
  import opened Basics
  import opened Orders
  import opened Conversations
  import opened WireTables
  import opened Codecs
  import Traces
  import Machines
  import Example

  const TABLE: seq<WireTransition> := [
    WireTransition(1, "cancel", WireOperation.Cancel("client", "server", "generation")),
    WireTransition(2, "client-action", WireOperation.Select("client", "cancel")),
    WireTransition(3, "client-action", WireOperation.Select("client", "continue")),
    WireTransition(4, "decide", WireOperation.Select("server", "done")),
    WireTransition(5, "decide", WireOperation.Select("server", "token")),
    WireTransition(6, "emit-token", WireOperation.Data("server", "client", "token")),
    WireTransition(7, "start", WireOperation.Data("client", "server", "prompt"))]

  lemma DiffersAt(a: string, b: string, i: nat)
    requires i < |a| && i < |b| && a[..i] == b[..i] && a[i] < b[i]
    ensures Before(a, b)
  {
  }

  /** Of two entries the earlier state comes first, or the state is the same. */
  lemma StatesAscend(i: nat, j: nat)
    requires i < j < |TABLE| && (i, j) != (1, 2) && (i, j) != (3, 4)
    ensures Before(TABLE[i].state, TABLE[j].state)
  {
    hide Before;
    if i == 0 && j <= 2 {
      assert "cancel"[..1] == "client-action"[..1];
      DiffersAt(TABLE[i].state, TABLE[j].state, 1);
    } else {
      DiffersAt(TABLE[i].state, TABLE[j].state, 0);
    }
  }

  lemma BranchesAscend()
    ensures OperationBefore(TABLE[1].operation, TABLE[2].operation) && OperationBefore(TABLE[3].operation, TABLE[4].operation)
  {
    hide Before;
    assert "cancel"[..1] == "continue"[..1];
    DiffersAt("cancel", "continue", 1);
    DiffersAt("done", "token", 0);
  }

  lemma TableAscends()
    ensures Ascending(TABLE)
  {
    hide Before, OperationBefore;
    BranchesAscend();
    forall i, j | 0 <= i < j < |TABLE| && (i, j) != (1, 2) && (i, j) != (3, 4)
      ensures Before(TABLE[i].state, TABLE[j].state)
    {
      StatesAscend(i, j);
    }
  }

  /** The transitions of the example's states, by state. */
  lemma StateTransitions(i: nat)
    requires i < |Example.STATES|
    ensures GlobalKeys(Example.STATES[i]) ==
            if i == 0 then {KeyOf(TABLE[6])}
            else if i == 1 then {KeyOf(TABLE[3]), KeyOf(TABLE[4])}
            else if i == 2 then {KeyOf(TABLE[5])}
            else if i == 3 then {KeyOf(TABLE[1]), KeyOf(TABLE[2])}
            else if i == 4 then {KeyOf(TABLE[0])}
            else {}
  {
    if i == 1 {
      assert Example.STATES[1].branches.Keys == {"token", "done"};
    } else if i == 3 {
      assert Example.STATES[3].branches.Keys == {"continue", "cancel"};
    }
  }

  lemma TableElements()
    ensures Elements(KeysOf(TABLE)) == ConversationKeys(Example.STATES)
  {
    hide GlobalKeys;
    var states := Example.STATES;
    forall k ensures k in ConversationKeys(states) <==> exists i :: 0 <= i < |states| && k in GlobalKeys(states[i]) {
    }
    forall i | 0 <= i < |states| ensures GlobalKeys(states[i]) <= Elements(KeysOf(TABLE)) {
      StateTransitions(i);
      forall j | 0 <= j < |TABLE| ensures KeyOf(TABLE[j]) in Elements(KeysOf(TABLE)) { assert KeysOf(TABLE)[j] == KeyOf(TABLE[j]); }
    }
    StateTransitions(0); StateTransitions(1); StateTransitions(2); StateTransitions(3); StateTransitions(4);
    forall k | k in Elements(KeysOf(TABLE)) ensures k in ConversationKeys(states) {
      var j :| 0 <= j < |TABLE| && KeysOf(TABLE)[j] == k;
      assert KeyOf(TABLE[j]) == k;
    }
  }

  /** The dictionary of the example is this table: the prompt has the number 7. */
  lemma TableOfExample(ts: seq<WireTransition>)
    requires IsTable(ConversationKeys(Example.GENERATE.states), ts)
    ensures ts == TABLE && ts[6] == WireTransition(7, "start", WireOperation.Data("client", "server", "prompt"))
  {
    hide IsTable, Ascending, KeysOf, ConversationKeys;
    TableAscends();
    TableElements();
    TableIsAscending(ConversationKeys(Example.STATES), TABLE);
    TableUnique(ConversationKeys(Example.STATES), ts, TABLE);
  }

  /** On the compact wire the prompt is its number, the counter and the payload. */
  lemma PromptOnTheWire(codec: CompactCodec, identity: string, sequence: nat, payload: Traces.Json, size: Document -> nat)
    requires IsTable(ConversationKeys(Example.GENERATE.states), codec.transitions)
    requires codec.conversation == "example.generate" && codec.identity == identity
    ensures var e := Machines.WireEnvelope("0.1.0", "example.generate", identity, "start", sequence,
                                           Traces.Data("client", "server", "prompt", Some(payload)));
            var d := CompactText(CompactEnvelope(7, sequence, Some(payload)));
            EncodeCompact(codec, e, size) == if size(d) > 16777216 then Err(Machines.EnvelopeTooLarge) else Ok(d)
  {
    TableOfExample(codec.transitions);
    var e := Machines.WireEnvelope("0.1.0", "example.generate", identity, "start", sequence,
                                   Traces.Data("client", "server", "prompt", Some(payload)));
    FindTransitionFinds(TABLE, e);
    forall i | 0 <= i < 6 ensures !TransitionMatches(TABLE[i], e) {
      assert TABLE[i].state[0] != "start"[0];
    }
  }
}
