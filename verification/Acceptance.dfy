/**
 What the codes of the checker mean, read directly off a conversation: each code is
 reported exactly when the conversation has the defect it stands for.
 */
module Acceptance {
  import opened Basics
  import opened Conversations

  // ----- Names

  /** `name` is the non-empty id of a listed role, failure or type. */
  ghost predicate Named(ids: seq<string>, name: string) { name != "" && name in ids }

  ghost predicate IsType(c: Conversation, name: string) {
    name != "" && exists t :: t in c.types && t.id == name
  }

  ghost predicate IsState(c: Conversation, id: string) {
    exists s :: s in c.states && s.id == id
  }

  lemma NamesAreIds(ids: seq<string>, name: string)
    ensures name in NonEmptyIds(ids) <==> Named(ids, name)
  {
  }

  lemma TypesAreIds(c: Conversation, name: string)
    ensures name in NonEmptyIds(TypeIds(c.types)) <==> IsType(c, name)
  {
    var ids := TypeIds(c.types);
    if name in ids {
      var i :| 0 <= i < |ids| && ids[i] == name;
      assert c.types[i] in c.types && c.types[i].id == name;
    }
    if IsType(c, name) {
      var t :| t in c.types && t.id == name;
      var i :| 0 <= i < |c.types| && c.types[i] == t;
      assert ids[i] == name;
    }
  }

  lemma StatesAreIndexed(c: Conversation, id: string)
    ensures id in StateMap(c.states) <==> IsState(c, id)
  {
    hide StateMap;
    StateMapKeys(c.states);
    assert id in StateMap(c.states).Keys <==> id in set s | s in c.states :: s.id;
  }

  /** The last listed state with this id. */
  ghost predicate LastWith(states: seq<GlobalState>, id: string, i: int) {
    0 <= i < |states| && states[i].id == id && forall j :: i < j < |states| ==> states[j].id != id
  }

  /** The index holds the last state with an id. */
  lemma {:induction false} IndexIsLast(states: seq<GlobalState>, id: string)
    ensures forall i :: LastWith(states, id, i) ==> id in StateMap(states) && StateMap(states)[id] == states[i]
    ensures id in StateMap(states) ==> exists i :: LastWith(states, id, i)
  {
    if |states| == 0 {
    } else {
      var n := |states| - 1;
      IndexIsLast(states[..n], id);
      if states[n].id == id {
        assert LastWith(states, id, n);
      } else {
        forall i | LastWith(states, id, i) ensures LastWith(states[..n], id, i) {
        }
        if id in StateMap(states) {
          var i :| LastWith(states[..n], id, i);
          assert states[..n][i] == states[i];
          forall j | i < j < n ensures states[j].id != id { assert states[..n][j] == states[j]; }
          assert LastWith(states, id, i);
        }
      }
    }
  }

  // ----- Parts of a state

  ghost predicate HasParties(s: GlobalState) { s.Send? || s.Cancel? }

  /** Some edge of the state leads to this id: its successor, a branch, or a failure edge. */
  ghost predicate LeadsTo(s: GlobalState, id: string) {
    match s
    case Send(_, _, _, _, next, onFailure) => id == next || (exists f :: f in onFailure && onFailure[f] == id)
    case Cancel(_, _, _, _, next, onFailure) => id == next || (exists f :: f in onFailure && onFailure[f] == id)
    case Choice(_, _, branches, onFailure) =>
      (exists b :: b in branches && branches[b] == id) || (exists f :: f in onFailure && onFailure[f] == id)
    case End(_) => false
    case Fail(_, _) => false
  }

  /** The successors that the reachability search follows are exactly the edges. */
  lemma SuccessorsAreEdges(s: GlobalState, id: string)
    ensures id in s.Successors() <==> LeadsTo(s, id)
  {
  }

  /** The failure edges of a state. */
  function Edges(s: GlobalState): map<string, string> {
    if s.End? || s.Fail? then map[] else s.onFailure
  }

  // ----- Each code and its defect

  /** The codes that one state raises, by its own fields. */
  ghost predicate StateDefect(c: Conversation, s: GlobalState, code: Code) {
    match code
    case CLQ0006 => s.Send? && !IsType(c, s.message)
    case CLQ0007 => s.Choice? && !Named(c.roles, s.chooser)
    case CLQ0008 => s.Choice? && |s.branches| < 2
    case CLQ0009 => s.Choice? && "" in s.branches
    case CLQ0010 => s.Cancel? && s.scope == ""
    case CLQ0013 => HasParties(s) && !Named(c.roles, s.from)
    case CLQ0014 => HasParties(s) && !Named(c.roles, s.to)
    case CLQ0015 => HasParties(s) && s.from == s.to
    case CLQ0016 => exists id :: LeadsTo(s, id) && !IsState(c, id)
    case CLQ0019 =>
      || (s.Fail? && !Named(c.failures, s.failure))
      || (exists f :: f in Edges(s) && !Named(c.failures, f))
    case CLQ0020 =>
      exists f, i :: f in Edges(s) && LastWith(c.states, Edges(s)[f], i) &&
                     !(c.states[i].Fail? && c.states[i].failure == f)
    case _ => false
  }

  ghost predicate Repeats(ids: seq<string>) {
    exists i, j :: 0 <= i < j < |ids| && ids[i] == ids[j] && ids[i] != ""
  }

  /** The codes that a conversation raises outside its states. */
  ghost predicate ListDefect(c: Conversation, code: Code) {
    match code
    case CLQ0001 => c.format != "0.1.0"
    case CLQ0002 => |c.roles| != 2
    case CLQ0003 => exists t :: t in c.types && !t.hasKind
    case CLQ0004 => exists i, j :: 0 <= i < j < |c.states| && c.states[i].id == c.states[j].id
    case CLQ0005 => !IsState(c, c.initial)
    case CLQ0011 => "" in c.roles || "" in c.failures || exists t :: t in c.types && t.id == ""
    case CLQ0012 => Repeats(c.roles) || Repeats(c.failures) || Repeats(TypeIds(c.types))
    case _ => false
  }

  /** A defect that is found before the reachability search. */
  ghost predicate Defect(c: Conversation, code: Code) {
    ListDefect(c, code) || exists s :: s in c.states && StateDefect(c, s, code)
  }

  /** The target of a failure edge that is no terminal state of its failure. */
  lemma WrongEdgeMeans(c: Conversation, failure: string, target: string)
    ensures target in StateMap(c.states) && !(StateMap(c.states)[target].Fail? && StateMap(c.states)[target].failure == failure) <==>
            (exists i :: LastWith(c.states, target, i) && !(c.states[i].Fail? && c.states[i].failure == failure))
  {
    hide StateMap;
    IndexIsLast(c.states, target);
  }

  lemma WrongEdgesMean(c: Conversation, s: GlobalState)
    ensures FailureEdgeRaises(NonEmptyIds(c.failures), StateMap(c.states), Edges(s), CLQ0020) <==> StateDefect(c, s, CLQ0020)
  {
    hide StateMap, NonEmptyIds;
    forall f | f in Edges(s)
      ensures EdgeRaises(NonEmptyIds(c.failures), StateMap(c.states), f, Edges(s)[f], CLQ0020) <==>
              (exists i :: LastWith(c.states, Edges(s)[f], i) && !(c.states[i].Fail? && c.states[i].failure == f))
    {
      WrongEdgeMeans(c, f, Edges(s)[f]);
    }
    if StateDefect(c, s, CLQ0020) {
      var f, i :| f in Edges(s) && LastWith(c.states, Edges(s)[f], i) && !(c.states[i].Fail? && c.states[i].failure == f);
      assert EdgeRaises(NonEmptyIds(c.failures), StateMap(c.states), f, Edges(s)[f], CLQ0020);
    }
  }

  /** The sets that the checker collects are the names of the conversation. */
  ghost predicate Collected(c: Conversation, roles: set<string>, types: set<string>, failures: set<string>,
                            m: map<string, GlobalState>) {
    && (forall name :: name in roles <==> Named(c.roles, name))
    && (forall name :: name in failures <==> Named(c.failures, name))
    && (forall name :: name in types <==> IsType(c, name))
    && (forall id :: id in m <==> IsState(c, id))
  }

  lemma PartiesRaise(c: Conversation, roles: set<string>, types: set<string>, failures: set<string>,
                     m: map<string, GlobalState>, s: GlobalState, code: Code)
    requires Collected(c, roles, types, failures, m) && HasParties(s) && code != CLQ0020
    ensures StateRaises(roles, types, failures, m, s, code) <==> StateDefect(c, s, code)
  {
    hide IsState, Named, IsType;
  }

  lemma ChoiceRaises(c: Conversation, roles: set<string>, types: set<string>, failures: set<string>,
                     m: map<string, GlobalState>, s: GlobalState, code: Code)
    requires Collected(c, roles, types, failures, m) && s.Choice? && code != CLQ0020
    ensures StateRaises(roles, types, failures, m, s, code) <==> StateDefect(c, s, code)
  {
    hide IsState, Named, IsType;
  }

  lemma TerminalRaises(c: Conversation, roles: set<string>, types: set<string>, failures: set<string>,
                       m: map<string, GlobalState>, s: GlobalState, code: Code)
    requires Collected(c, roles, types, failures, m) && s.Terminal() && code != CLQ0020
    ensures StateRaises(roles, types, failures, m, s, code) <==> StateDefect(c, s, code)
  {
    hide IsState, Named, IsType;
  }

  lemma StateRaisesMeans(c: Conversation, s: GlobalState, code: Code)
    ensures StateRaises(NonEmptyIds(c.roles), NonEmptyIds(TypeIds(c.types)), NonEmptyIds(c.failures), StateMap(c.states), s, code) <==>
            StateDefect(c, s, code)
  {
    hide StateMap, NonEmptyIds, TypeIds;
    if code == CLQ0020 {
      WrongEdgesMean(c, s);
    } else {
      hide StateRaises, StateDefect;
      var roles, types, failures := NonEmptyIds(c.roles), NonEmptyIds(TypeIds(c.types)), NonEmptyIds(c.failures);
      forall id ensures id in StateMap(c.states) <==> IsState(c, id) { StatesAreIndexed(c, id); }
      forall name ensures name in roles <==> Named(c.roles, name) { NamesAreIds(c.roles, name); }
      forall name ensures name in failures <==> Named(c.failures, name) { NamesAreIds(c.failures, name); }
      forall name ensures name in types <==> IsType(c, name) { TypesAreIds(c, name); }
      hide IsState, Named, IsType;
      if HasParties(s) { PartiesRaise(c, roles, types, failures, StateMap(c.states), s, code); }
      else if s.Choice? { ChoiceRaises(c, roles, types, failures, StateMap(c.states), s, code); }
      else { TerminalRaises(c, roles, types, failures, StateMap(c.states), s, code); }
    }
  }

  lemma IdsRaiseMeans(c: Conversation, code: Code)
    requires code == CLQ0011 || code == CLQ0012
    ensures IdsRaise(c.roles, code) || IdsRaise(TypeIds(c.types), code) || IdsRaise(c.failures, code) <==> ListDefect(c, code)
  {
    var ids := TypeIds(c.types);
    if "" in ids {
      var i :| 0 <= i < |ids| && ids[i] == "";
      assert c.types[i] in c.types && c.types[i].id == "";
    }
    if exists t :: t in c.types && t.id == "" {
      var i :| 0 <= i < |c.types| && c.types[i].id == "";
      assert ids[i] == "";
    }
  }

  lemma NoIdsRaise(c: Conversation, code: Code)
    requires code != CLQ0011 && code != CLQ0012
    ensures !IdsRaise(c.roles, code) && !IdsRaise(TypeIds(c.types), code) && !IdsRaise(c.failures, code)
  {
  }

  /** Every code of the early checks is raised exactly by its defect. */
  lemma EarlyMeans(c: Conversation, code: Code)
    ensures EarlyRaised(c, code) <==> Defect(c, code)
  {
    hide StateMap, NonEmptyIds, TypeIds, StateRaises, StateDefect, IdsRaise;
    var roles, types, failures := NonEmptyIds(c.roles), NonEmptyIds(TypeIds(c.types)), NonEmptyIds(c.failures);
    forall s ensures StateRaises(roles, types, failures, StateMap(c.states), s, code) <==> StateDefect(c, s, code) {
      StateRaisesMeans(c, s, code);
    }
    StatesAreIndexed(c, c.initial);
    if code == CLQ0011 || code == CLQ0012 {
      IdsRaiseMeans(c, code);
    } else {
      NoIdsRaise(c, code);
    }
  }

  lemma NamesAreDeclared(c: Conversation, s: GlobalState)
    requires forall k :: !StateDefect(c, s, k)
    ensures s.Send? ==> IsType(c, s.message)
    ensures forall f :: f in Edges(s) ==> f in c.failures
    ensures s.Fail? ==> s.failure in c.failures
    ensures s.Choice? ==> s.chooser in c.roles
    ensures HasParties(s) ==> s.from in c.roles && s.to in c.roles
  {
    hide LeadsTo, IsState, IsType;
    assert !StateDefect(c, s, CLQ0006) && !StateDefect(c, s, CLQ0007) && !StateDefect(c, s, CLQ0013);
    assert !StateDefect(c, s, CLQ0014) && !StateDefect(c, s, CLQ0019);
  }

  lemma NoStateDefect(c: Conversation, s: GlobalState)
    requires forall k :: !StateDefect(c, s, k)
    ensures s.Cancel? ==> s.scope != ""
    ensures s.Choice? ==> "" !in s.branches && |s.branches| >= 2
    ensures HasParties(s) ==> s.from != s.to
    ensures forall id :: LeadsTo(s, id) ==> IsState(c, id)
  {
    hide LeadsTo, IsState, IsType;
    assert !StateDefect(c, s, CLQ0008) && !StateDefect(c, s, CLQ0009) && !StateDefect(c, s, CLQ0010);
    assert !StateDefect(c, s, CLQ0015) && !StateDefect(c, s, CLQ0016);
  }

  // ----- The whole report

  /** `id` is reached from the initial state along edges of listed states. */
  ghost predicate Reached(c: Conversation, id: string) { Reachable(StateMap(c.states), c.initial, id) }

  /** What the checker reports: the defects; or, if there are none, what the reachability search finds. */
  ghost predicate Reported(c: Conversation, code: Code) {
    || Defect(c, code)
    || ((forall k :: !Defect(c, k)) &&
        ((code == CLQ0017 && exists s :: s in c.states && !Reached(c, s.id)) ||
         (code == CLQ0018 && forall s :: s in c.states && (s.End? || s.Fail?) ==> !Reached(c, s.id))))
  }

  /** The codes of the checker are exactly the reported ones. */
  lemma RaisedExactly(c: Conversation, code: Code)
    ensures Raised(c, code) <==> Reported(c, code)
  {
    hide EarlyRaised, Defect, Reachable, StateMap;
    forall k ensures EarlyRaised(c, k) <==> Defect(c, k) { EarlyMeans(c, k); }
  }

  /** What an accepted conversation declares: its messages, failures, scopes, labels, parties and targets. */
  lemma ValidMeans(c: Conversation)
    requires Valid(c)
    ensures c.format == "0.1.0" && |c.roles| == 2 && c.roles[0] != c.roles[1]
    ensures forall s :: s in c.states && s.Send? ==> exists t :: t in c.types && t.id == s.message
    ensures forall s, f :: s in c.states && f in Edges(s) ==> f in c.failures
    ensures forall s :: s in c.states && s.Fail? ==> s.failure in c.failures
    ensures forall s :: s in c.states && s.Cancel? ==> s.scope != ""
    ensures forall s :: s in c.states && s.Choice? ==> "" !in s.branches && |s.branches| >= 2 && s.chooser in c.roles
    ensures forall s :: s in c.states && HasParties(s) ==> s.from in c.roles && s.to in c.roles && s.from != s.to
    ensures forall s, id :: s in c.states && LeadsTo(s, id) ==> IsState(c, id)
    ensures forall s :: s in c.states ==> Reached(c, s.id)
    ensures exists s :: s in c.states && (s.End? || s.Fail?) && Reached(c, s.id)
  {
    hide Reached, LeadsTo, Reachable, StateMap;
    forall k ensures !Reported(c, k) { RaisedExactly(c, k); }
    assert !Reported(c, CLQ0017) && !Reported(c, CLQ0018);
    forall s, k | s in c.states ensures !StateDefect(c, s, k) { assert !Reported(c, k); }
    forall k ensures !ListDefect(c, k) { assert !Reported(c, k); }
    assert !ListDefect(c, CLQ0001) && !ListDefect(c, CLQ0002) && !ListDefect(c, CLQ0011) && !ListDefect(c, CLQ0012);
    assert c.roles[0] in c.roles;
    forall s | s in c.states
      ensures s.Send? ==> IsType(c, s.message)
      ensures forall f :: f in Edges(s) ==> f in c.failures
      ensures s.Fail? ==> s.failure in c.failures
      ensures s.Cancel? ==> s.scope != ""
      ensures s.Choice? ==> "" !in s.branches && |s.branches| >= 2 && s.chooser in c.roles
      ensures HasParties(s) ==> s.from in c.roles && s.to in c.roles && s.from != s.to
      ensures forall id :: LeadsTo(s, id) ==> IsState(c, id)
    {
      NamesAreDeclared(c, s);
      NoStateDefect(c, s);
    }
  }
}
