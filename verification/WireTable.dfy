/** The compact transition dictionary: a strictly sorted, densely numbered table of the semantic transitions. */
module WireTables {
  import opened Basics
  import opened Orders
  import opened Conversations
  import opened Projection

  const COMPACT_WIRE_FORMAT := "compact-json-v0"
  const MAX_TRANSITIONS := 65535

  datatype WireOperation =
    | Data(from: string, to: string, message: string)
    | Select(chooser: string, branch: string)
    | Cancel(from: string, to: string, scope: string)

  /** What the BTreeSet holds: a state and an operation. */
  datatype Key = Key(state: string, operation: WireOperation)

  datatype WireTransition = WireTransition(id: nat, state: string, operation: WireOperation)

  datatype CompactWirePlan = CompactWirePlan(encoding: string, transitions: seq<WireTransition>)

  /** The derived order compares the state, the variant and then the fields. */
  function KeyList(k: Key): seq<string> {
    match k.operation
    case Data(from, to, message) => [k.state, "0", from, to, message]
    case Select(chooser, branch) => [k.state, "1", chooser, branch]
    case Cancel(from, to, scope) => [k.state, "2", from, to, scope]
  }

  predicate KeyLess(a: Key, b: Key) { ListLess(KeyList(a), KeyList(b)) }

  lemma KeyListInjective(a: Key, b: Key)
    requires KeyList(a) == KeyList(b)
    ensures a == b
  {
    assert KeyList(a)[1] == KeyList(b)[1];
    assert "0"[0] != "1"[0] && "1"[0] != "2"[0] && "0"[0] != "2"[0];
    assert KeyList(a)[0] == KeyList(b)[0] && KeyList(a)[2] == KeyList(b)[2] && KeyList(a)[3] == KeyList(b)[3];
    if !a.operation.Select? { assert KeyList(a)[4] == KeyList(b)[4]; }
  }

  lemma KeyOrder(a: Key, b: Key)
    ensures !KeyLess(a, a)
    ensures KeyLess(a, b) || a == b || KeyLess(b, a)
    ensures !(KeyLess(a, b) && KeyLess(b, a))
  {
    ListIrreflexive(KeyList(a));
    ListTotal(KeyList(a), KeyList(b));
    if KeyList(a) == KeyList(b) { KeyListInjective(a, b); }
    if KeyLess(a, b) && KeyLess(b, a) { ListTransitive(KeyList(a), KeyList(b), KeyList(a)); }
  }

  lemma KeyTransitive(a: Key, b: Key, c: Key)
    requires KeyLess(a, b) && KeyLess(b, c)
    ensures KeyLess(a, c)
  {
    ListTransitive(KeyList(a), KeyList(b), KeyList(c));
  }

  ghost predicate Sorted(t: seq<Key>) {
    forall i, j :: 0 <= i < j < |t| ==> KeyLess(t[i], t[j])
  }

  ghost function Elements(t: seq<Key>): set<Key> { set k | k in t }

  lemma SortedTail(a: seq<Key>)
    requires Sorted(a) && |a| > 0
    ensures Sorted(a[1..]) && Elements(a[1..]) == Elements(a) - {a[0]}
  {
    hide KeyLess;
    forall i | 1 <= i < |a| ensures a[i] != a[0] { KeyOrder(a[0], a[i]); }
    assert forall k :: k in a[1..] ==> k in a && k != a[0];
    assert forall k :: k in a && k != a[0] ==> k in a[1..];
  }

  lemma {:induction false} SortedSize(a: seq<Key>)
    requires Sorted(a)
    ensures |Elements(a)| == |a|
  {
    if |a| == 0 {
    } else {
      SortedTail(a);
      SortedSize(a[1..]);
      assert a[0] in Elements(a);
    }
  }

  /** A strictly sorted sequence is determined by its elements. */
  lemma {:induction false} SortedUnique(a: seq<Key>, b: seq<Key>)
    requires Sorted(a) && Sorted(b) && Elements(a) == Elements(b)
    ensures a == b
  {
    SortedSize(a);
    SortedSize(b);
    if |a| == 0 {
    } else {
      assert a[0] in Elements(b) && b[0] in Elements(a);
      var i :| 0 <= i < |b| && b[i] == a[0];
      var j :| 0 <= j < |a| && a[j] == b[0];
      if i > 0 && j > 0 { KeyOrder(a[0], b[0]); }
      SortedTail(a);
      SortedTail(b);
      SortedUnique(a[1..], b[1..]);
      assert a == [a[0]] + a[1..] && b == [b[0]] + b[1..];
    }
  }

  /** `BTreeSet::insert` */
  method Insert(t: seq<Key>, k: Key) returns (r: seq<Key>)
    requires Sorted(t)
    ensures Sorted(r) && Elements(r) == Elements(t) + {k}
  {
    hide KeyLess;
    var i := 0;
    while i < |t| && KeyLess(t[i], k)
      invariant 0 <= i <= |t| && forall j :: 0 <= j < i ==> KeyLess(t[j], k)
    {
      i := i + 1;
    }
    if i < |t| && t[i] == k {
      r := t;
      assert Elements(r) == Elements(t) + {k};
    } else {
      r := t[..i] + [k] + t[i..];
      if i < |t| { KeyOrder(t[i], k); }
      forall j | i < j < |t| ensures KeyLess(k, t[j]) { KeyTransitive(k, t[i], t[j]); }
      assert forall x :: x in r <==> x in t[..i] || x == k || x in t[i..];
      assert t == t[..i] + t[i..];
    }
  }

  // ----- Transitions of endpoints

  /** The semantic transitions one local state contributes. */
  function StateKeys(role: string, s: EndpointState): set<Key> {
    match s
    case Send(id, to, message, _, _) => {Key(id, Data(role, to, message))}
    case Receive(id, from, message, _, _) => {Key(id, Data(from, role, message))}
    case Select(id, branches, _) => set branch | branch in branches.Keys :: Key(id, WireOperation.Select(role, branch))
    case Branch(id, from, branches, _) => set branch | branch in branches.Keys :: Key(id, WireOperation.Select(from, branch))
    case SendCancel(id, to, scope, _, _) => {Key(id, WireOperation.Cancel(role, to, scope))}
    case ReceiveCancel(id, from, scope, _, _) => {Key(id, WireOperation.Cancel(from, role, scope))}
    case End(_) => {}
    case Fail(_, _) => {}
  }

  ghost function StatesKeys(role: string, states: seq<EndpointState>): set<Key> {
    set s, k | s in states && k in StateKeys(role, s) :: k
  }

  ghost function PlanKeys(endpoints: seq<Endpoint>): set<Key> {
    set e, k | e in endpoints && k in StatesKeys(e.role, e.states) :: k
  }

  function KeyOf(t: WireTransition): Key { Key(t.state, t.operation) }

  function KeysOf(t: seq<WireTransition>): (r: seq<Key>)
    ensures |r| == |t|
    ensures forall i :: 0 <= i < |t| ==> r[i] == KeyOf(t[i])
  {
    seq(|t|, i requires 0 <= i < |t| => KeyOf(t[i]))
  }

  /** `t` lists exactly `keys`, strictly sorted and numbered 1, 2, 3, ... within 16 bits. */
  ghost predicate IsTable(keys: set<Key>, t: seq<WireTransition>) {
    && |t| <= MAX_TRANSITIONS
    && (forall i :: 0 <= i < |t| ==> t[i].id == i + 1)
    && Sorted(KeysOf(t))
    && Elements(KeysOf(t)) == keys
  }

  method InsertBranches(state: string, chooser: string, branches: map<string, string>, t: seq<Key>) returns (r: seq<Key>)
    requires Sorted(t)
    ensures Sorted(r)
    ensures Elements(r) == Elements(t) + set branch | branch in branches.Keys :: Key(state, WireOperation.Select(chooser, branch))
  {
    r := t;
    var todo := branches.Keys;
    while todo != {}
      invariant Sorted(r) && todo <= branches.Keys
      invariant Elements(r) == Elements(t) + set branch | branch in branches.Keys - todo :: Key(state, WireOperation.Select(chooser, branch))
      decreases |todo|
    {
      var branch :| branch in todo;
      r := Insert(r, Key(state, WireOperation.Select(chooser, branch)));
      assert branches.Keys - (todo - {branch}) == (branches.Keys - todo) + {branch};
      todo := todo - {branch};
    }
    assert branches.Keys - {} == branches.Keys;
  }

  method InsertState(role: string, s: EndpointState, t: seq<Key>) returns (r: seq<Key>)
    requires Sorted(t)
    ensures Sorted(r) && Elements(r) == Elements(t) + StateKeys(role, s)
  {
    match s {
      case Send(id, to, message, _, _) => r := Insert(t, Key(id, Data(role, to, message)));
      case Receive(id, from, message, _, _) => r := Insert(t, Key(id, Data(from, role, message)));
      case Select(id, branches, _) => r := InsertBranches(id, role, branches, t);
      case Branch(id, from, branches, _) => r := InsertBranches(id, from, branches, t);
      case SendCancel(id, to, scope, _, _) => r := Insert(t, Key(id, WireOperation.Cancel(role, to, scope)));
      case ReceiveCancel(id, from, scope, _, _) => r := Insert(t, Key(id, WireOperation.Cancel(from, role, scope)));
      case End(_) => r := t;
      case Fail(_, _) => r := t;
    }
  }

  lemma NoStatesKeys(role: string)
    ensures StatesKeys(role, []) == {}
  {
  }

  lemma StatesKeysStep(role: string, states: seq<EndpointState>, i: nat)
    requires i < |states|
    ensures StatesKeys(role, states[..i + 1]) == StatesKeys(role, states[..i]) + StateKeys(role, states[i])
  {
    assert states[..i + 1] == states[..i] + [states[i]];
  }

  method InsertEndpoint(e: Endpoint, t: seq<Key>) returns (r: seq<Key>)
    requires Sorted(t)
    ensures Sorted(r) && Elements(r) == Elements(t) + StatesKeys(e.role, e.states)
  {
    hide Sorted, StateKeys, StatesKeys, Elements;
    NoStatesKeys(e.role);
    r := t;
    for i := 0 to |e.states|
      invariant Sorted(r) && Elements(r) == Elements(t) + StatesKeys(e.role, e.states[..i])
    {
      r := InsertState(e.role, e.states[i], r);
      StatesKeysStep(e.role, e.states, i);
    }
    assert e.states[..|e.states|] == e.states;
  }

  lemma PlanKeysStep(endpoints: seq<Endpoint>, i: nat)
    requires i < |endpoints|
    ensures PlanKeys(endpoints[..i + 1]) == PlanKeys(endpoints[..i]) + StatesKeys(endpoints[i].role, endpoints[i].states)
  {
    hide StatesKeys;
    assert endpoints[..i + 1] == endpoints[..i] + [endpoints[i]];
  }

  // ----- What the order of a table means

  /** Data before select before cancel, and then field by field. */
  ghost predicate OperationBefore(a: WireOperation, b: WireOperation) {
    match (a, b)
    case (Data(from, to, message), Data(from', to', message')) =>
      Before(from, from') || (from == from' && (Before(to, to') || (to == to' && Before(message, message'))))
    case (Select(chooser, branch), Select(chooser', branch')) =>
      Before(chooser, chooser') || (chooser == chooser' && Before(branch, branch'))
    case (Cancel(from, to, scope), Cancel(from', to', scope')) =>
      Before(from, from') || (from == from' && (Before(to, to') || (to == to' && Before(scope, scope'))))
    case (Data(_, _, _), _) => true
    case (Select(_, _), Cancel(_, _, _)) => true
    case _ => false
  }

  /** The table is numbered from 1, by state and then by operation. */
  ghost predicate Ascending(ts: seq<WireTransition>) {
    && (forall i :: 0 <= i < |ts| ==> ts[i].id == i + 1)
    && forall i, j :: 0 <= i < j < |ts| ==>
         || Before(ts[i].state, ts[j].state)
         || (ts[i].state == ts[j].state && OperationBefore(ts[i].operation, ts[j].operation))
  }

  lemma TagOrder()
    ensures StrLess("0", "1") && StrLess("1", "2") && StrLess("0", "2")
    ensures !StrLess("1", "0") && !StrLess("2", "1") && !StrLess("2", "0")
    ensures "0" != "1" && "1" != "2" && "0" != "2"
    ensures !StrLess("0", "0") && !StrLess("1", "1") && !StrLess("2", "2")
  {
    assert "0"[0] != "1"[0] && "1"[0] != "2"[0] && "0"[0] != "2"[0];
  }

  /** Lists in order agree up to their first difference. */
  lemma ListStep(a: seq<string>, b: seq<string>)
    requires |a| > 0 && |b| > 0
    ensures ListLess(a, b) <==> Before(a[0], b[0]) || (a[0] == b[0] && ListLess(a[1..], b[1..]))
  {
    StrLessIsBefore(a[0], b[0]);
  }

  lemma PairStep(x: string, y: string, x': string, y': string)
    ensures ListLess([x, y], [x', y']) <==> Before(x, x') || (x == x' && Before(y, y'))
  {
    ListStep([x, y], [x', y']);
    ListStep([y], [y']);
    assert [x, y][1..] == [y] && [x', y'][1..] == [y'] && [y][1..] == [] && [y'][1..] == [];
  }

  lemma TripleStep(x: string, y: string, z: string, x': string, y': string, z': string)
    ensures ListLess([x, y, z], [x', y', z']) <==>
            Before(x, x') || (x == x' && (Before(y, y') || (y == y' && Before(z, z'))))
  {
    ListStep([x, y, z], [x', y', z']);
    PairStep(y, z, y', z');
    assert [x, y, z][1..] == [y, z] && [x', y', z'][1..] == [y', z'];
  }

  /** The order of the set is the derived order of state and operation. */
  lemma KeyLessMeans(a: Key, b: Key)
    ensures KeyLess(a, b) <==>
            Before(a.state, b.state) || (a.state == b.state && OperationBefore(a.operation, b.operation))
  {
    hide Before, StrLess, ListLess;
    var x, y := KeyList(a), KeyList(b);
    ListStep(x, y);
    ListStep(x[1..], y[1..]);
    StrLessIsBefore(x[1], y[1]);
    TagOrder();
    assert x[1..][1..] == x[2..] && y[1..][1..] == y[2..];
    match (a.operation, b.operation) {
      case (Data(from, to, message), Data(from', to', message')) =>
        TripleStep(from, to, message, from', to', message');
        assert x[2..] == [from, to, message] && y[2..] == [from', to', message'];
      case (Select(chooser, branch), Select(chooser', branch')) =>
        PairStep(chooser, branch, chooser', branch');
        assert x[2..] == [chooser, branch] && y[2..] == [chooser', branch'];
      case (Cancel(from, to, scope), Cancel(from', to', scope')) =>
        TripleStep(from, to, scope, from', to', scope');
        assert x[2..] == [from, to, scope] && y[2..] == [from', to', scope'];
      case _ =>
    }
  }

  /** Tables are exactly the ascending listings of their transitions. */
  lemma TableIsAscending(keys: set<Key>, ts: seq<WireTransition>)
    ensures IsTable(keys, ts) <==> |ts| <= 65535 && Ascending(ts) && Elements(KeysOf(ts)) == keys
  {
    hide KeyLess, Before, OperationBefore;
    forall i, j | 0 <= i < j < |ts|
      ensures KeyLess(KeysOf(ts)[i], KeysOf(ts)[j]) <==>
              Before(ts[i].state, ts[j].state) ||
              (ts[i].state == ts[j].state && OperationBefore(ts[i].operation, ts[j].operation))
    {
      KeyLessMeans(KeyOf(ts[i]), KeyOf(ts[j]));
    }
    if Sorted(KeysOf(ts)) {
      forall i, j | 0 <= i < j < |ts|
        ensures Before(ts[i].state, ts[j].state) ||
                (ts[i].state == ts[j].state && OperationBefore(ts[i].operation, ts[j].operation))
      {
        assert KeyLess(KeysOf(ts)[i], KeysOf(ts)[j]);
      }
    }
  }

  /** `derive_wire_plan`: collect into the set, then number in order; too many transitions is the only error. */
  method DeriveWirePlan(endpoints: seq<Endpoint>) returns (r: Option<CompactWirePlan>)
    ensures r.Some? <==> |PlanKeys(endpoints)| <= 65535
    ensures r.Some? ==> r.value.encoding == "compact-json-v0" && IsTable(PlanKeys(endpoints), r.value.transitions)
    ensures r.Some? ==> Ascending(r.value.transitions)
  {
    var sorted := [];
    for i := 0 to |endpoints|
      invariant Sorted(sorted) && Elements(sorted) == PlanKeys(endpoints[..i])
    {
      sorted := InsertEndpoint(endpoints[i], sorted);
      PlanKeysStep(endpoints, i);
    }
    assert endpoints[..|endpoints|] == endpoints;
    SortedSize(sorted);
    var transitions := [];
    for i := 0 to |sorted|
      invariant |transitions| == i <= MAX_TRANSITIONS
      invariant forall j :: 0 <= j < i ==> transitions[j] == WireTransition(j + 1, sorted[j].state, sorted[j].operation)
    {
      if i + 1 > MAX_TRANSITIONS {
        return None;
      }
      transitions := transitions + [WireTransition(i + 1, sorted[i].state, sorted[i].operation)];
    }
    assert KeysOf(transitions) == sorted;
    TableIsAscending(PlanKeys(endpoints), transitions);
    r := Some(CompactWirePlan(COMPACT_WIRE_FORMAT, transitions));
  }

  /** There is one table for a set of transitions. */
  lemma TableUnique(keys: set<Key>, t: seq<WireTransition>, u: seq<WireTransition>)
    requires IsTable(keys, t) && IsTable(keys, u)
    ensures t == u
  {
    SortedUnique(KeysOf(t), KeysOf(u));
    forall i | 0 <= i < |t| ensures t[i] == u[i] {
      assert KeysOf(t)[i] == KeysOf(u)[i];
    }
  }

  // ----- The transitions of a conversation

  function GlobalKeys(s: GlobalState): set<Key> {
    match s
    case Send(id, from, to, message, _, _) => {Key(id, Data(from, to, message))}
    case Choice(id, chooser, branches, _) => set branch | branch in branches.Keys :: Key(id, WireOperation.Select(chooser, branch))
    case Cancel(id, from, to, scope, _, _) => {Key(id, WireOperation.Cancel(from, to, scope))}
    case End(_) => {}
    case Fail(_, _) => {}
  }

  ghost function ConversationKeys(states: seq<GlobalState>): set<Key> {
    set s, k | s in states && k in GlobalKeys(s) :: k
  }

  /** Sends, cancellations and branch labels, counted in the source graph. */
  function TransitionCount(states: seq<GlobalState>): nat {
    if |states| == 0 then 0
    else TransitionCount(states[..|states| - 1]) +
         match states[|states| - 1]
         case Send(_, _, _, _, _, _) => 1
         case Choice(_, _, branches, _) => |branches|
         case Cancel(_, _, _, _, _, _) => 1
         case End(_) => 0
         case Fail(_, _) => 0
  }

  lemma OtherRole(c: Conversation, from: string, to: string, role: string)
    requires |c.roles| == 2 && from in c.roles && to in c.roles && from != to && role in c.roles
    ensures role == from || role == to
  {
  }

  /** Either side of a state contributes the transitions of the global state. */
  lemma ProjectedKeys(c: Conversation, i: nat, role: string)
    requires Sound(c) && i < |c.states| && role in c.roles
    ensures StateKeys(role, ProjectState(c.states[i], role)) == GlobalKeys(c.states[i])
  {
    hide StateMap;
    var s := c.states[i];
    StateMapUnique(c.states);
    assert s in c.states && IndexedOk(c, s.id);
    if s.Send? || s.Cancel? { OtherRole(c, s.from, s.to, role); }
  }

  /** Each endpoint of a compiled plan alone contributes the whole transition set. */
  lemma EachEndpointContributesAll(c: Conversation, role: string)
    requires Valid(c) && role in c.roles
    ensures StatesKeys(role, Project(c, role).states) == ConversationKeys(c.states)
  {
    hide StateMap, Valid, Sound;
    ValidIsSound(c);
    var local := ProjectStates(c.states, role);
    forall k ensures k in StatesKeys(role, local) <==> k in ConversationKeys(c.states) {
      if k in StatesKeys(role, local) {
        var i :| 0 <= i < |local| && k in StateKeys(role, local[i]);
        ProjectedKeys(c, i, role);
        assert c.states[i] in c.states;
      }
      if k in ConversationKeys(c.states) {
        var i :| 0 <= i < |c.states| && k in GlobalKeys(c.states[i]);
        ProjectedKeys(c, i, role);
        assert local[i] in local;
      }
    }
  }

  lemma {:induction false} BranchKeysSize(state: string, chooser: string, branches: set<string>)
    ensures |set branch | branch in branches :: Key(state, WireOperation.Select(chooser, branch))| == |branches|
  {
    var keys := set branch | branch in branches :: Key(state, WireOperation.Select(chooser, branch));
    if branches == {} {
    } else {
      var branch :| branch in branches;
      var rest := set b | b in branches - {branch} :: Key(state, WireOperation.Select(chooser, b));
      BranchKeysSize(state, chooser, branches - {branch});
      assert keys == rest + {Key(state, WireOperation.Select(chooser, branch))};
    }
  }

  lemma KeysCarryState(s: GlobalState)
    ensures forall k :: k in GlobalKeys(s) ==> k.state == s.id
  {
  }

  lemma {:induction false} CountsTransitions(states: seq<GlobalState>)
    requires UniqueStates(states)
    ensures |ConversationKeys(states)| == TransitionCount(states)
  {
    if |states| == 0 {
    } else {
      var n := |states| - 1;
      var s, rest := states[n], states[..n];
      CountsTransitions(rest);
      assert states == rest + [s];
      assert ConversationKeys(states) == ConversationKeys(rest) + GlobalKeys(s);
      forall k | k in ConversationKeys(rest) ensures k !in GlobalKeys(s) {
        var i :| 0 <= i < n && k in GlobalKeys(rest[i]);
        KeysCarryState(rest[i]);
        KeysCarryState(s);
      }
      if s.Choice? { BranchKeysSize(s.id, s.chooser, s.branches.Keys); assert |s.branches.Keys| == |s.branches|; }
    }
  }

  lemma TableSize(keys: set<Key>, t: seq<WireTransition>)
    requires IsTable(keys, t)
    ensures |t| == |keys|
  {
    SortedSize(KeysOf(t));
  }

  lemma SameKeys(a: seq<GlobalState>, b: seq<GlobalState>)
    requires multiset(a) == multiset(b)
    ensures ConversationKeys(a) == ConversationKeys(b)
  {
    assert forall s :: s in a <==> s in multiset(a);
    assert forall s :: s in b <==> s in multiset(b);
  }

  lemma ProjectedPlanKeys(c: Conversation, x: string, y: string)
    requires Valid(c) && x in c.roles && y in c.roles
    ensures PlanKeys([Project(c, x), Project(c, y)]) == ConversationKeys(c.states)
  {
    hide Valid, StatesKeys, ConversationKeys;
    EachEndpointContributesAll(c, x);
    EachEndpointContributesAll(c, y);
    var plan := [Project(c, x), Project(c, y)];
    PlanKeysStep(plan, 0);
    PlanKeysStep(plan, 1);
    assert plan[..1] == [plan[0]] && plan[..2] == plan && plan[..0] == [];
  }
}
