/**
 Compiled plans: `compile`, `verify` and `prepare`.

 SHA-256 over the canonical JSON is a pair of arbitrary functions whose values
 have the published format; nothing is claimed about collisions.
 */
module Plans {
  import opened Basics
  import opened Orders
  import opened Conversations
  import opened Projection
  import opened WireTables
  import Validation
  import Machines

  const PLAN_FORMAT := "0.1.0"

  datatype PlanError = InvalidConversation(diagnostics: seq<Code>) | Version | IdentityMismatch | Invalid

  /** The part of a plan that its identity covers. */
  datatype SemanticPlan = SemanticPlan(format: string, conversation: string, conversationIdentity: string,
                                       endpoints: seq<Endpoint>, wire: Option<CompactWirePlan>)

  datatype ColloqPlan = ColloqPlan(format: string, conversation: string, conversationIdentity: string,
                                   planIdentity: string, endpoints: seq<Endpoint>, wire: Option<CompactWirePlan>)
  {
    function Semantic(): SemanticPlan {
      SemanticPlan(format, conversation, conversationIdentity, endpoints, wire)
    }
  }

  datatype PreparedPlan = PreparedPlan(conversation: string, conversationIdentity: string, planIdentity: string,
                                       endpoints: seq<Endpoint>, wire: CompactWirePlan)

  // ----- Identifier formats

  predicate Lower(ch: char) { 'a' <= ch <= 'z' }

  predicate Digit(ch: char) { '0' <= ch <= '9' }

  predicate ValidId(s: string) {
    && |s| > 0 && Lower(s[0])
    && forall i :: 1 <= i < |s| ==> Lower(s[i]) || Digit(s[i]) || s[i] == '_' || s[i] == '.' || s[i] == '-'
  }

  predicate ValidSha256(s: string) {
    && |s| == 71 && s[..7] == "sha256:"
    && forall i :: 7 <= i < 71 ==> Digit(s[i]) || 'a' <= s[i] <= 'f'
  }

  // ----- Verification of one endpoint

  function Peer(s: EndpointState): Option<string> {
    match s
    case Send(_, to, _, _, _) => Some(to)
    case SendCancel(_, to, _, _, _) => Some(to)
    case Receive(_, from, _, _, _) => Some(from)
    case Branch(_, from, _, _) => Some(from)
    case ReceiveCancel(_, from, _, _, _) => Some(from)
    case Select(_, _, _) => None
    case End(_) => None
    case Fail(_, _) => None
  }

  ghost predicate UniqueLocal(states: seq<EndpointState>) {
    forall i, j :: 0 <= i < j < |states| ==> states[i].id != states[j].id
  }

  function StateIds(states: seq<EndpointState>): set<string> {
    if |states| == 0 then {} else StateIds(states[..|states| - 1]) + {states[|states| - 1].id}
  }

  lemma {:induction false} StateIdsHold(states: seq<EndpointState>, i: nat)
    requires i < |states|
    ensures states[i].id in StateIds(states)
  {
    if i == |states| - 1 {
    } else {
      StateIdsHold(states[..|states| - 1], i);
    }
  }

  lemma {:induction false} StateIdsIndex(states: seq<EndpointState>, id: string) returns (i: nat)
    requires id in StateIds(states)
    ensures i < |states| && states[i].id == id
  {
    i := |states| - 1;
    if states[i].id != id { i := StateIdsIndex(states[..|states| - 1], id); }
  }

  ghost predicate LocalOk(s: EndpointState, ids: set<string>, roles: set<string>) {
    && ValidId(s.id)
    && s.Successors() <= ids
    && (Peer(s).Some? ==> Peer(s).value in roles)
  }

  /** What `verify_endpoint` demands. */
  ghost predicate EndpointOk(e: Endpoint, conversation: string, roles: set<string>) {
    && e.format == ENDPOINT_FORMAT
    && ValidId(e.role) && ValidId(e.initial)
    && e.conversation == conversation
    && |e.states| > 0
    && UniqueLocal(e.states)
    && e.initial in StateIds(e.states)
    && forall s :: s in e.states ==> LocalOk(s, StateIds(e.states), roles)
  }

  lemma UniqueLast(states: seq<EndpointState>)
    requires |states| > 0
    ensures var n := |states| - 1;
            UniqueLocal(states) <==> UniqueLocal(states[..n]) && states[n].id !in StateIds(states[..n])
  {
    var n := |states| - 1;
    var rest := states[..n];
    if states[n].id in StateIds(rest) {
      var j := StateIdsIndex(rest, states[n].id);
      assert states[j].id == states[n].id;
    } else {
      forall j | 0 <= j < n ensures states[j].id != states[n].id { StateIdsHold(rest, j); }
    }
    if UniqueLocal(states) {
      forall i, j | 0 <= i < j < n ensures rest[i].id != rest[j].id { assert states[i].id != states[j].id; }
    }
    if UniqueLocal(rest) {
      forall i, j | 0 <= i < j < n ensures states[i].id != states[j].id { assert rest[i].id != rest[j].id; }
    }
  }

  lemma {:induction false} UniqueBySize(states: seq<EndpointState>)
    ensures |StateIds(states)| <= |states|
    ensures |StateIds(states)| == |states| <==> UniqueLocal(states)
  {
    if |states| == 0 {
    } else {
      var n := |states| - 1;
      var rest, last := states[..n], states[n];
      UniqueBySize(rest);
      UniqueLast(states);
    }
  }

  method VerifyEndpoint(e: Endpoint, conversation: string, roles: set<string>) returns (ok: bool)
    ensures ok <==> EndpointOk(e, conversation, roles)
  {
    hide StateIds, ValidId, UniqueLocal, Peer;
    if e.format != ENDPOINT_FORMAT { return false; }
    if !ValidId(e.role) || !ValidId(e.initial) { return false; }
    if e.conversation != conversation { return false; }
    if e.states == [] { return false; }
    var ids := StateIds(e.states);
    UniqueBySize(e.states);
    if |ids| != |e.states| { return false; }
    if e.initial !in ids { return false; }
    for i := 0 to |e.states|
      invariant forall j :: 0 <= j < i ==> LocalOk(e.states[j], ids, roles)
    {
      var s := e.states[i];
      assert s in e.states;
      if !ValidId(s.id) { return false; }
      if !(s.Successors() <= ids) { return false; }
      if Peer(s).Some? && Peer(s).value !in roles { return false; }
    }
    ok := true;
  }

  // ----- Verification of a plan

  /** What `verify` demands before it computes the digest. */
  ghost predicate ShapeOk(plan: ColloqPlan) {
    && plan.format == PLAN_FORMAT
    && ValidId(plan.conversation) && ValidSha256(plan.conversationIdentity)
    && |plan.endpoints| == 2 && plan.endpoints[0].role != plan.endpoints[1].role
    && (forall e :: e in plan.endpoints ==>
                      EndpointOk(e, plan.conversation, {plan.endpoints[0].role, plan.endpoints[1].role}))
  }

  ghost predicate PlanOk(plan: ColloqPlan, digest: SemanticPlan -> string) {
    && ShapeOk(plan)
    && plan.planIdentity == digest(plan.Semantic())
    && (plan.wire.Some? ==> plan.wire.value.encoding == COMPACT_WIRE_FORMAT &&
                            IsTable(PlanKeys(plan.endpoints), plan.wire.value.transitions))
  }

  /** Being the derived table is the same as being the table of the transition set. */
  lemma CanonicalWire(keys: set<Key>, wire: CompactWirePlan, expected: Option<CompactWirePlan>)
    requires expected.Some? <==> |keys| <= MAX_TRANSITIONS
    requires expected.Some? ==> expected.value.encoding == COMPACT_WIRE_FORMAT && IsTable(keys, expected.value.transitions)
    ensures expected == Some(wire) <==> wire.encoding == COMPACT_WIRE_FORMAT && IsTable(keys, wire.transitions)
  {
    if wire.encoding == COMPACT_WIRE_FORMAT && IsTable(keys, wire.transitions) {
      SortedSize(KeysOf(wire.transitions));
      TableUnique(keys, wire.transitions, expected.value.transitions);
    }
  }

  /** `verify` accepts exactly the plans that are well-formed, carry their own digest and the canonical table. */
  method Verify(plan: ColloqPlan, digest: SemanticPlan -> string) returns (error: Option<PlanError>)
    ensures error.None? <==> PlanOk(plan, digest)
    ensures error == Some(Version) <==> plan.format != "0.1.0"
    ensures error == Some(IdentityMismatch) <==> ShapeOk(plan) && plan.planIdentity != digest(plan.Semantic())
    ensures error.Some? ==> !error.value.InvalidConversation?
  {
    hide EndpointOk, ValidId, ValidSha256, IsTable, PlanKeys;
    if plan.format != PLAN_FORMAT { return Some(Version); }
    if !ValidId(plan.conversation) || !ValidSha256(plan.conversationIdentity) { return Some(Invalid); }
    if |plan.endpoints| != 2 { return Some(Invalid); }
    if plan.endpoints[0].role == plan.endpoints[1].role { return Some(Invalid); }
    var roles := {plan.endpoints[0].role, plan.endpoints[1].role};
    for i := 0 to |plan.endpoints|
      invariant forall j :: 0 <= j < i ==> EndpointOk(plan.endpoints[j], plan.conversation, roles)
    {
      var ok := VerifyEndpoint(plan.endpoints[i], plan.conversation, roles);
      if !ok { return Some(Invalid); }
    }
    if plan.planIdentity != digest(plan.Semantic()) { return Some(IdentityMismatch); }
    if plan.wire.Some? {
      var expected := DeriveWirePlan(plan.endpoints);
      CanonicalWire(PlanKeys(plan.endpoints), plan.wire.value, expected);
      if expected != plan.wire { return Some(Invalid); }
    }
    error := None;
  }

  function FindEndpoint(endpoints: seq<Endpoint>, role: string): Option<Endpoint> {
    if |endpoints| == 0 then None
    else if endpoints[0].role == role then Some(endpoints[0])
    else FindEndpoint(endpoints[1..], role)
  }

  /** A prepared plan holds the artifact's contents and always a canonical table. */
  ghost predicate Prepared(plan: ColloqPlan, p: PreparedPlan) {
    && p.conversation == plan.conversation && p.conversationIdentity == plan.conversationIdentity
    && p.planIdentity == plan.planIdentity && p.endpoints == plan.endpoints
    && p.wire.encoding == COMPACT_WIRE_FORMAT && IsTable(PlanKeys(p.endpoints), p.wire.transitions)
    && (plan.wire.Some? ==> p.wire == plan.wire.value)
  }

  method Prepare(plan: ColloqPlan, digest: SemanticPlan -> string) returns (r: Result<PreparedPlan, PlanError>)
    ensures r.Ok? <==> PlanOk(plan, digest) && (plan.wire.None? ==> |PlanKeys(plan.endpoints)| <= 65535)
    ensures r.Ok? ==> Prepared(plan, r.value)
  {
    var error := Verify(plan, digest);
    if error.Some? { return Err(error.value); }
    var wire := plan.wire;
    if wire.None? {
      wire := DeriveWirePlan(plan.endpoints);
      if wire.None? { return Err(Invalid); }
    }
    r := Ok(PreparedPlan(plan.conversation, plan.conversationIdentity, plan.planIdentity, plan.endpoints, wire.value));
  }

  // ----- Compilation

  /** The identifiers that the plan format restricts. */
  ghost predicate IdsValid(c: Conversation) {
    && ValidId(c.moduleId)
    && (forall role :: role in c.roles ==> ValidId(role))
    && forall s :: s in c.states ==> ValidId(s.id)
  }

  lemma ProjectedUnique(c: Conversation, role: string)
    requires Sound(c)
    ensures UniqueLocal(Project(c, role).states)
  {
    var local := ProjectStates(c.states, role);
    forall i, j | 0 <= i < j < |local| ensures local[i].id != local[j].id {
      assert c.states[i].id != c.states[j].id;
    }
  }

  lemma ProjectedPeer(c: Conversation, i: nat, role: string)
    requires Sound(c) && i < |c.states|
    ensures var p := Peer(ProjectState(c.states[i], role)); p.Some? ==> p.value == c.roles[0] || p.value == c.roles[1]
  {
    hide StateMap;
    StateMapUnique(c.states);
    assert c.states[i] in c.states && IndexedOk(c, c.states[i].id);
  }

  lemma ProjectedStateRefs(c: Conversation, i: nat, role: string, roles: set<string>)
    requires Sound(c) && i < |c.states| && roles == {c.roles[0], c.roles[1]}
    ensures var s := ProjectState(c.states[i], role);
            s.Successors() <= StateIds(ProjectStates(c.states, role)) && (Peer(s).Some? ==> Peer(s).value in roles)
  {
    hide StateMap, StateIds, Sound, Peer;
    ProjectedSuccessors(c, i, role);
    var local := ProjectStates(c.states, role);
    forall t | t in c.states[i].Successors() ensures t in StateIds(local) {
      ghost var j := IndexOf(c.states, t);
      StateIdsHold(local, j);
    }
    ProjectedPeer(c, i, role);
  }

  lemma ProjectionOk(c: Conversation, role: string, roles: set<string>)
    requires Valid(c) && |c.roles| == 2 && roles == {c.roles[0], c.roles[1]}
    ensures EndpointOk(Project(c, role), c.moduleId, roles) <==>
            ValidId(role) && forall s :: s in c.states ==> ValidId(s.id)
  {
    hide StateMap, ValidId, Valid, StateIds, Peer, ProjectState;
    ValidIsSound(c);
    var e := Project(c, role);
    ghost var k := IndexOf(c.states, c.initial);
    StateIdsHold(e.states, k);
    assert c.states[k] in c.states;
    forall i | 0 <= i < |e.states|
      ensures LocalOk(e.states[i], StateIds(e.states), roles) <==> ValidId(c.states[i].id)
    {
      ProjectedStateRefs(c, i, role, roles);
    }
    assert UniqueLocal(e.states) by { hide *; ProjectedUnique(c, role); }
    if forall s :: s in c.states ==> ValidId(s.id) {
      forall s | s in e.states ensures LocalOk(s, StateIds(e.states), roles) {
        var i :| 0 <= i < |e.states| && e.states[i] == s;
        assert c.states[i] in c.states;
      }
    }
    if EndpointOk(e, c.moduleId, roles) {
      forall s | s in c.states ensures ValidId(s.id) {
        var i :| 0 <= i < |c.states| && c.states[i] == s;
        assert e.states[i] in e.states;
      }
    }
  }

  /** The two projections, sorted by role. */
  method SortByRole(endpoints: seq<Endpoint>) returns (r: seq<Endpoint>)
    requires |endpoints| == 2
    ensures |r| == 2 && multiset(r) == multiset(endpoints)
    ensures !StrLess(r[1].role, r[0].role)
  {
    assert endpoints == [endpoints[0], endpoints[1]];
    if StrLess(endpoints[1].role, endpoints[0].role) {
      if StrLess(endpoints[0].role, endpoints[1].role) {
        StrTransitive(endpoints[0].role, endpoints[1].role, endpoints[0].role);
        StrIrreflexive(endpoints[0].role);
      }
      r := [endpoints[1], endpoints[0]];
    } else {
      r := endpoints;
    }
  }

  /** The endpoints of a plan: both projections, in the order of their roles. */
  ghost predicate InRoleOrder(c: Conversation, endpoints: seq<Endpoint>) {
    && |c.roles| == 2
    && (endpoints == [Project(c, c.roles[0]), Project(c, c.roles[1])] ||
        endpoints == [Project(c, c.roles[1]), Project(c, c.roles[0])])
    && StrLess(endpoints[0].role, endpoints[1].role)
  }

  /** What `compile` produces. */
  ghost predicate Compiled(c: Conversation, digest: SemanticPlan -> string, plan: ColloqPlan) {
    && plan.format == "0.1.0" && plan.conversation == c.moduleId
    && InRoleOrder(c, plan.endpoints)
    && plan.wire.Some? && IsTable(ConversationKeys(c.states), plan.wire.value.transitions)
    && PlanOk(plan, digest)
  }

  /** For a valid conversation only the identifiers decide whether the finished plan verifies. */
  lemma PlanOkIffIdsValid(c: Conversation, digest: SemanticPlan -> string, plan: ColloqPlan)
    requires Valid(c) && |c.roles| == 2 && c.roles[0] != c.roles[1]
    requires plan.format == PLAN_FORMAT && plan.conversation == c.moduleId && ValidSha256(plan.conversationIdentity)
    requires plan.endpoints == [Project(c, c.roles[0]), Project(c, c.roles[1])] ||
             plan.endpoints == [Project(c, c.roles[1]), Project(c, c.roles[0])]
    requires plan.planIdentity == digest(plan.Semantic())
    requires plan.wire.Some? && plan.wire.value.encoding == COMPACT_WIRE_FORMAT
    requires IsTable(PlanKeys(plan.endpoints), plan.wire.value.transitions)
    ensures PlanOk(plan, digest) <==> IdsValid(c)
  {
    hide Valid, ValidId, ValidSha256, IsTable, PlanKeys, EndpointOk;
    var roles := {c.roles[0], c.roles[1]};
    assert roles == {plan.endpoints[0].role, plan.endpoints[1].role};
    ProjectionOk(c, c.roles[0], roles);
    ProjectionOk(c, c.roles[1], roles);
    assert plan.endpoints[0] in plan.endpoints && plan.endpoints[1] in plan.endpoints;
  }

  lemma SortedPair(a: seq<Endpoint>, b: seq<Endpoint>)
    requires |a| == 2 == |b| && multiset(a) == multiset(b)
    ensures b == a || b == [a[1], a[0]]
  {
    assert a == [a[0], a[1]] && b == [b[0], b[1]];
    assert b[0] in multiset(a) && b[1] in multiset(a);
    assert multiset(a)[a[0]] == multiset(b)[a[0]];
    assert multiset(a)[a[1]] == multiset(b)[a[1]];
  }

  method ProjectInRoleOrder(c: Conversation) returns (endpoints: seq<Endpoint>)
    requires |c.roles| == 2 && c.roles[0] != c.roles[1]
    ensures InRoleOrder(c, endpoints)
  {
    hide StrLess, ProjectState;
    var projected := ProjectValidated(c);
    endpoints := SortByRole(projected);
    SortedPair(projected, endpoints);
    StrTotal(endpoints[0].role, endpoints[1].role);
  }

  lemma TwoDistinctRoles(c: Conversation)
    requires Valid(c)
    ensures |c.roles| == 2 && c.roles[0] != c.roles[1] && UniqueStates(c.states)
  {
    ValidIsSound(c);
  }

  lemma OrderedPlanKeys(c: Conversation, endpoints: seq<Endpoint>)
    requires Valid(c) && InRoleOrder(c, endpoints)
    ensures PlanKeys(endpoints) == ConversationKeys(c.states)
    ensures |ConversationKeys(c.states)| == TransitionCount(c.states)
  {
    hide Valid, PlanKeys, ConversationKeys, TransitionCount, StrLess;
    TwoDistinctRoles(c);
    ProjectedPlanKeys(c, c.roles[0], c.roles[1]);
    ProjectedPlanKeys(c, c.roles[1], c.roles[0]);
    CountsTransitions(c.states);
  }

  /**
   Compilation is total on its domain: it succeeds exactly for the valid
   conversations with well-formed identifiers and at most 65535 transitions, and
   what it returns passes `verify`.
   */
  method Compile(c: Conversation, identityOf: Conversation -> string, digest: SemanticPlan -> string)
    returns (r: Result<ColloqPlan, PlanError>)
    requires ValidSha256(identityOf(c))
    ensures r.Ok? <==> Valid(c) && IdsValid(c) && TransitionCount(c.states) <= 65535
    ensures r.Ok? ==> Compiled(c, digest, r.value) && r.value.conversationIdentity == identityOf(c)
    ensures r.Err? && r.error.InvalidConversation? <==> !Valid(c)
    ensures r.Err? && !Valid(c) ==> forall k :: k in r.error.diagnostics <==> Raised(c, k)
    ensures r.Err? && Valid(c) ==> r.error == Invalid
  {
    hide Valid, ConversationKeys, PlanKeys, IsTable, PlanOk, IdsValid, ValidSha256, TransitionCount, StrLess, Project;
    var diagnostics := Validation.Validate(c);
    if diagnostics != [] {
      return Err(InvalidConversation(diagnostics));
    }
    TwoDistinctRoles(c);
    var endpoints := ProjectInRoleOrder(c);
    OrderedPlanKeys(c, endpoints);
    var wire := DeriveWirePlan(endpoints);
    if wire.None? {
      return Err(Invalid);
    }
    var plan := ColloqPlan(PLAN_FORMAT, c.moduleId, identityOf(c), "", endpoints, wire);
    plan := plan.(planIdentity := digest(plan.Semantic()));
    PlanOkIffIdsValid(c, digest, plan);
    var error := Verify(plan, digest);
    if error.Some? {
      return Err(error.value);
    }
    r := Ok(plan);
  }

  /**
   The table of a compiled plan is canonical: strictly sorted and numbered from 1
   to the number of sends, cancellations and branch labels, whatever the order in
   which the conversation lists its roles and states.
   */
  lemma CompiledTableIsCanonical(c: Conversation, d: Conversation, digest: SemanticPlan -> string, p: ColloqPlan, q: ColloqPlan)
    requires Valid(c) && Valid(d) && Compiled(c, digest, p) && Compiled(d, digest, q)
    requires multiset(c.states) == multiset(d.states)
    ensures |p.wire.value.transitions| == TransitionCount(c.states)
    ensures p.wire.value.transitions == q.wire.value.transitions
  {
    hide Valid, IsTable, ConversationKeys, TransitionCount, PlanOk, InRoleOrder;
    TwoDistinctRoles(c);
    CountsTransitions(c.states);
    TableSize(ConversationKeys(c.states), p.wire.value.transitions);
    SameKeys(c.states, d.states);
    TableUnique(ConversationKeys(c.states), p.wire.value.transitions, q.wire.value.transitions);
  }

  lemma {:induction false} FoundIsMember(endpoints: seq<Endpoint>, role: string)
    requires FindEndpoint(endpoints, role).Some?
    ensures FindEndpoint(endpoints, role).value in endpoints && FindEndpoint(endpoints, role).value.role == role
  {
    if endpoints[0].role == role {
    } else {
      FoundIsMember(endpoints[1..], role);
    }
  }

  /** A machine of a prepared plan starts at the initial state of the endpoint of that role. */
  method MachineFor(plan: PreparedPlan, role: string) returns (r: Result<Machines.EndpointMachine, Machines.RuntimeError>)
    requires forall e :: e in plan.endpoints ==> Closed(e)
    ensures FindEndpoint(plan.endpoints, role).None? ==> r == Err(Machines.UnknownRole(role))
    ensures match FindEndpoint(plan.endpoints, role)
            case None => true
            case Some(e) => && r.Ok? && fresh(r.value)
                            && r.value.View() == Machines.Machine(e, plan.conversationIdentity, plan.planIdentity, e.initial, 0)
                            && r.value.View().Ready()
  {
    match FindEndpoint(plan.endpoints, role) {
      case None => r := Err(Machines.UnknownRole(role));
      case Some(e) =>
        FoundIsMember(plan.endpoints, role);
        var m := new Machines.EndpointMachine(e, plan.conversationIdentity, plan.planIdentity);
        r := Ok(m);
    }
  }

  /** The endpoints of a verified plan are closed, so machines over it never lose their state. */
  lemma VerifiedIsClosed(plan: ColloqPlan, digest: SemanticPlan -> string)
    requires PlanOk(plan, digest)
    ensures forall e :: e in plan.endpoints ==> Closed(e)
  {
    forall e | e in plan.endpoints ensures Closed(e) {
      var roles := {plan.endpoints[0].role, plan.endpoints[1].role};
      assert EndpointOk(e, plan.conversation, roles);
      forall id | id in StateIds(e.states) ensures Find(e.states, id).Some? {
        ghost var i := StateIdsIndex(e.states, id);
        FindFinds(e.states, id);
      }
      forall s, t | s in e.states && t in s.Successors() ensures Find(e.states, t).Some? {
        assert LocalOk(s, StateIds(e.states), roles);
      }
    }
  }

  /** In a compiled plan each role finds exactly its own projection. */
  lemma CompiledEndpoint(c: Conversation, digest: SemanticPlan -> string, plan: ColloqPlan, role: string)
    requires Compiled(c, digest, plan)
    ensures FindEndpoint(plan.endpoints, role) == if role in c.roles then Some(Project(c, role)) else None
  {
    hide IsTable, ConversationKeys, PlanOk, StrLess;
    var e := plan.endpoints;
    assert FindEndpoint(e, role) ==
           if e[0].role == role then Some(e[0]) else FindEndpoint(e[1..], role);
    assert e[1..] == [e[1]];
    assert FindEndpoint(e[1..], role) == if e[1].role == role then Some(e[1]) else None;
  }

  // ----- What the formats and checks mean

  lemma LowerMeans(ch: char)
    ensures Lower(ch) <==> ch in "abcdefghijklmnopqrstuvwxyz"
  {
    var letters := "abcdefghijklmnopqrstuvwxyz";
    if Lower(ch) { assert letters[ch as int - 97] == ch; }
  }

  lemma DigitMeans(ch: char)
    ensures Digit(ch) <==> ch in "0123456789"
  {
    var digits := "0123456789";
    if Digit(ch) { assert digits[ch as int - 48] == ch; }
  }

  /** An identifier starts with a lower-case letter and goes on with those, digits, underscores, dots and hyphens. */
  lemma ValidIdMeans(s: string)
    ensures ValidId(s) <==>
            && s != "" && s[0] in "abcdefghijklmnopqrstuvwxyz"
            && forall i :: 1 <= i < |s| ==> s[i] in "abcdefghijklmnopqrstuvwxyz0123456789_.-"
  {
    hide Lower, Digit;
    var all := "abcdefghijklmnopqrstuvwxyz0123456789_.-";
    assert all == "abcdefghijklmnopqrstuvwxyz" + "0123456789" + "_.-";
    forall i | 0 <= i < |s|
      ensures Lower(s[i]) <==> s[i] in "abcdefghijklmnopqrstuvwxyz"
      ensures Lower(s[i]) || Digit(s[i]) || s[i] == '_' || s[i] == '.' || s[i] == '-' <==> s[i] in all
    {
      LowerMeans(s[i]);
      DigitMeans(s[i]);
    }
  }

  lemma HexDigitMeans(ch: char)
    ensures Digit(ch) || 'a' <= ch <= 'f' <==> ch in "0123456789abcdef"
  {
    var digits := "0123456789abcdef";
    if Digit(ch) { assert digits[ch as int - 48] == ch; }
    if 'a' <= ch <= 'f' { assert digits[ch as int - 87] == ch; }
  }

  /** A digest is a prefix and 64 lower-case hexadecimal digits. */
  lemma ValidSha256Means(s: string)
    ensures ValidSha256(s) <==> exists d: string :: s == "sha256:" + d && |d| == 64 && forall i :: 0 <= i < 64 ==> d[i] in "0123456789abcdef"
  {
    forall ch: char ensures Digit(ch) || 'a' <= ch <= 'f' <==> ch in "0123456789abcdef" { HexDigitMeans(ch); }
    if ValidSha256(s) {
      assert s == "sha256:" + s[7..] && |s[7..]| == 64;
      forall i | 0 <= i < 64 ensures s[7..][i] in "0123456789abcdef" { assert s[7..][i] == s[i + 7]; }
    }
    if exists d: string :: s == "sha256:" + d && |d| == 64 && forall i :: 0 <= i < 64 ==> d[i] in "0123456789abcdef" {
      var d: string :| s == "sha256:" + d && |d| == 64 && forall i :: 0 <= i < 64 ==> d[i] in "0123456789abcdef";
      forall i | 7 <= i < 71 ensures Digit(s[i]) || 'a' <= s[i] <= 'f' { assert s[i] == d[i - 7]; }
    }
  }

  /** Some edge of a local state leads to this id. */
  ghost predicate LocalLeadsTo(s: EndpointState, id: string) {
    match s
    case Send(_, _, _, next, onFailure) => id == next || (exists f :: f in onFailure && onFailure[f] == id)
    case Receive(_, _, _, next, onFailure) => id == next || (exists f :: f in onFailure && onFailure[f] == id)
    case SendCancel(_, _, _, next, onFailure) => id == next || (exists f :: f in onFailure && onFailure[f] == id)
    case ReceiveCancel(_, _, _, next, onFailure) => id == next || (exists f :: f in onFailure && onFailure[f] == id)
    case Select(_, branches, onFailure) =>
      (exists b :: b in branches && branches[b] == id) || (exists f :: f in onFailure && onFailure[f] == id)
    case Branch(_, _, branches, onFailure) =>
      (exists b :: b in branches && branches[b] == id) || (exists f :: f in onFailure && onFailure[f] == id)
    case End(_) => false
    case Fail(_, _) => false
  }

  /** The role at the other end of a local state is one of these. */
  ghost predicate FacesOneOf(s: EndpointState, roles: set<string>) {
    && (s.Send? || s.SendCancel? ==> s.to in roles)
    && (s.Receive? || s.Branch? || s.ReceiveCancel? ==> s.from in roles)
  }

  lemma LocalOkMeans(s: EndpointState, ids: set<string>, roles: set<string>)
    ensures LocalOk(s, ids, roles) <==> ValidId(s.id) && (forall id :: LocalLeadsTo(s, id) ==> id in ids) && FacesOneOf(s, roles)
  {
    hide ValidId;
    assert forall id :: id in s.Successors() <==> LocalLeadsTo(s, id);
  }

  lemma StateIdsMean(states: seq<EndpointState>, id: string)
    ensures id in StateIds(states) <==> exists s :: s in states && s.id == id
  {
    if id in StateIds(states) {
      ghost var i := StateIdsIndex(states, id);
      assert states[i] in states;
    }
    if exists s :: s in states && s.id == id {
      var i :| 0 <= i < |states| && states[i].id == id;
      StateIdsHold(states, i);
    }
  }

  /** An endpoint is accepted exactly when every one of its parts is. */
  lemma EndpointOkMeans(e: Endpoint, conversation: string, roles: set<string>)
    ensures EndpointOk(e, conversation, roles) <==>
            && e.format == "0.1.0" && e.conversation == conversation && ValidId(e.role) && ValidId(e.initial)
            && (exists s :: s in e.states && s.id == e.initial)
            && (forall i, j :: 0 <= i < j < |e.states| ==> e.states[i].id != e.states[j].id)
            && (forall s :: s in e.states ==> ValidId(s.id) && FacesOneOf(s, roles))
            && (forall s, id :: s in e.states && LocalLeadsTo(s, id) ==> exists t :: t in e.states && t.id == id)
  {
    hide ValidId, StateIds, LocalLeadsTo, FacesOneOf;
    forall s ensures LocalOk(s, StateIds(e.states), roles) <==>
                     ValidId(s.id) && (forall id :: LocalLeadsTo(s, id) ==> id in StateIds(e.states)) && FacesOneOf(s, roles)
    {
      LocalOkMeans(s, StateIds(e.states), roles);
    }
    forall id ensures id in StateIds(e.states) <==> exists s :: s in e.states && s.id == id { StateIdsMean(e.states, id); }
    hide LocalOk;
  }

  /** The digest of a plan covers everything but the digest. */
  lemma DigestCovers(p: ColloqPlan, q: ColloqPlan)
    ensures p.Semantic() == q.Semantic() <==> p.(planIdentity := "") == q.(planIdentity := "")
  {
  }

  /** The endpoints of a compiled plan are ordered by role, character by character. */
  lemma CompiledRoleOrder(c: Conversation, digest: SemanticPlan -> string, plan: ColloqPlan)
    requires Compiled(c, digest, plan)
    ensures |plan.endpoints| == 2 && Before(plan.endpoints[0].role, plan.endpoints[1].role)
    ensures plan.endpoints[0].role in c.roles && plan.endpoints[1].role in c.roles
  {
    hide IsTable, ConversationKeys, PlanOk;
    StrLessIsBefore(plan.endpoints[0].role, plan.endpoints[1].role);
  }

  lemma ListedKeys(ts: seq<WireTransition>, k: Key)
    ensures k in Elements(KeysOf(ts)) <==> exists t :: t in ts && KeyOf(t) == k
  {
    if k in KeysOf(ts) {
      var i :| 0 <= i < |ts| && KeysOf(ts)[i] == k;
      assert ts[i] in ts && KeyOf(ts[i]) == k;
    }
    if exists t :: t in ts && KeyOf(t) == k {
      var i :| 0 <= i < |ts| && KeyOf(ts[i]) == k;
      assert KeysOf(ts)[i] == k;
    }
  }

  /** A plan is accepted exactly when each of its parts is. */
  lemma PlanOkMeans(plan: ColloqPlan, digest: SemanticPlan -> string)
    ensures PlanOk(plan, digest) <==>
            && plan.format == "0.1.0" && ValidId(plan.conversation) && ValidSha256(plan.conversationIdentity)
            && |plan.endpoints| == 2 && plan.endpoints[0].role != plan.endpoints[1].role
            && (forall i :: 0 <= i < 2 ==>
                  EndpointOk(plan.endpoints[i], plan.conversation, {plan.endpoints[0].role, plan.endpoints[1].role}))
            && plan.planIdentity == digest(plan.Semantic())
            && (plan.wire.Some? ==>
                  && plan.wire.value.encoding == "compact-json-v0" && |plan.wire.value.transitions| <= 65535
                  && Ascending(plan.wire.value.transitions)
                  && forall k :: k in PlanKeys(plan.endpoints) <==> exists t :: t in plan.wire.value.transitions && KeyOf(t) == k)
  {
    hide EndpointOk, ValidId, ValidSha256, PlanKeys, Ascending;
    if plan.wire.Some? {
      var ts := plan.wire.value.transitions;
      TableIsAscending(PlanKeys(plan.endpoints), ts);
      forall k ensures k in Elements(KeysOf(ts)) <==> exists t :: t in ts && KeyOf(t) == k { ListedKeys(ts, k); }
    }
  }
}
