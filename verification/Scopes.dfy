/** What a grant's scope admits, and when one scope lies within another.  */
module Scopes {
  import opened Tables

  datatype GrantReason = PRINCIPAL_INACTIVE | GRANT_UNKNOWN | GRANT_NOT_HELD | GRANT_REVOKED | GRANT_EXPIRED
                       | GRANT_PARTY_INACTIVE | GRANT_TOOL | GRANT_EFFECT | GRANT_RISK_CLASS | GRANT_TASK_CATEGORY
                       | GRANT_CEILING(name: string)

  predicate DimensionWithin(mine: Option<set<string>>, theirs: Option<set<string>>) {
    theirs.None? || (mine.Some? && mine.value <= theirs.value)
  }

  predicate Within(mine: GrantScope, parent: GrantScope) {
    && DimensionWithin(mine.tools, parent.tools)
    && DimensionWithin(mine.effects, parent.effects)
    && DimensionWithin(mine.riskClasses, parent.riskClasses)
    && DimensionWithin(mine.taskCategories, parent.taskCategories)
    && forall name :: name in parent.ceilings ==> name in mine.ceilings && mine.ceilings[name] <= parent.ceilings[name]
  }

  predicate UnderCeiling(p: Proposal, name: string, limit: real) {
    name in p.parameters && p.parameters[name].Number? && p.parameters[name].n <= limit
  }

  function ScopeBlockers(s: GrantScope, p: Proposal): set<GrantReason> {
    (if s.tools.Some? && p.tool !in s.tools.value then {GRANT_TOOL} else {})
    + (if s.effects.Some? && !(p.effects <= s.effects.value) then {GRANT_EFFECT} else {})
    + (if s.riskClasses.Some? && p.partition.riskClass !in s.riskClasses.value then {GRANT_RISK_CLASS} else {})
    + (if s.taskCategories.Some? && p.partition.taskCategory !in s.taskCategories.value then {GRANT_TASK_CATEGORY} else {})
    + (set name | name in s.ceilings && !UnderCeiling(p, name, s.ceilings[name]) :: GRANT_CEILING(name))
  }

  /** The meaning of a scope: the proposals it admits. */
  predicate Admits(s: GrantScope, p: Proposal) {
    && (s.tools.Some? ==> p.tool in s.tools.value)
    && (s.effects.Some? ==> p.effects <= s.effects.value)
    && (s.riskClasses.Some? ==> p.partition.riskClass in s.riskClasses.value)
    && (s.taskCategories.Some? ==> p.partition.taskCategory in s.taskCategories.value)
    && forall name :: name in s.ceilings ==> UnderCeiling(p, name, s.ceilings[name])
  }

  lemma NoBlockersMeansAdmits(s: GrantScope, p: Proposal)
    ensures ScopeBlockers(s, p) == {} <==> Admits(s, p)
  {
    var over := set name | name in s.ceilings && !UnderCeiling(p, name, s.ceilings[name]) :: GRANT_CEILING(name);
    if Admits(s, p) {
      assert over == {};
    } else if ScopeBlockers(s, p) == {} {
      assert over <= ScopeBlockers(s, p);
      assert GRANT_TOOL !in ScopeBlockers(s, p) && GRANT_EFFECT !in ScopeBlockers(s, p);
      assert GRANT_RISK_CLASS !in ScopeBlockers(s, p) && GRANT_TASK_CATEGORY !in ScopeBlockers(s, p);
      forall name | name in s.ceilings ensures UnderCeiling(p, name, s.ceilings[name]) {
        assert GRANT_CEILING(name) !in over;
      }
      assert false;
    }
  }

  lemma WithinReflexive(s: GrantScope)
    ensures Within(s, s)
  {}

  lemma WithinTransitive(s: GrantScope, t: GrantScope, u: GrantScope)
    requires Within(s, t) && Within(t, u)
    ensures Within(s, u)
  {}

  lemma WithinSound(s: GrantScope, parent: GrantScope, p: Proposal)
    requires Within(s, parent) && Admits(s, p)
    ensures Admits(parent, p)
  {}

  lemma {:induction false} LengthBound(words: set<string>) returns (n: nat)
    ensures forall w :: w in words ==> |w| < n
    decreases words
  {
    if words == {} {
      n := 0;
    } else {
      var w :| w in words;
      n := LengthBound(words - {w});
      if |w| >= n { n := |w| + 1; }
    }
  }

  lemma FreshWord(words: set<string>) returns (w: string)
    ensures w !in words
  {
    var n := LengthBound(words);
    w := seq(n, _ => 'a');
  }

  lemma Outsider(mine: Option<set<string>>, theirs: set<string>) returns (w: string)
    requires !DimensionWithin(mine, Some(theirs))
    ensures w !in theirs && (mine.Some? ==> w in mine.value)
  {
    if mine.None? {
      w := FreshWord(theirs);
    } else {
      w :| w in mine.value && w !in theirs;
    }
  }

  /** `within` decides containment of meanings exactly, for every scope that admits anything: a scope it
      rejects admits some proposal that the parent does not. */
  lemma WithinComplete(s: GrantScope, parent: GrantScope, some: Proposal) returns (escape: Proposal)
    requires Admits(s, some) && !Within(s, parent)
    ensures Admits(s, escape) && !Admits(parent, escape)
  {
    if !DimensionWithin(s.tools, parent.tools) {
      var w := Outsider(s.tools, parent.tools.value);
      escape := some.(tool := w);
    } else if !DimensionWithin(s.effects, parent.effects) {
      var w := Outsider(s.effects, parent.effects.value);
      escape := some.(effects := some.effects + {w});
      assert w in escape.effects;
    } else if !DimensionWithin(s.riskClasses, parent.riskClasses) {
      var w := Outsider(s.riskClasses, parent.riskClasses.value);
      escape := some.(partition := some.partition.(riskClass := w));
    } else if !DimensionWithin(s.taskCategories, parent.taskCategories) {
      var w := Outsider(s.taskCategories, parent.taskCategories.value);
      escape := some.(partition := some.partition.(taskCategory := w));
    } else {
      var name :| name in parent.ceilings && !(name in s.ceilings && s.ceilings[name] <= parent.ceilings[name]);
      escape := OverCeiling(s, parent, some, name);
    }
  }

  lemma OverCeiling(s: GrantScope, parent: GrantScope, some: Proposal, name: string) returns (escape: Proposal)
    requires Admits(s, some) && name in parent.ceilings && !(name in s.ceilings && s.ceilings[name] <= parent.ceilings[name])
    ensures Admits(s, escape) && !Admits(parent, escape)
  {
    var amount := if name in s.ceilings then s.ceilings[name] else parent.ceilings[name] + 1.0;
    escape := some.(parameters := some.parameters[name := Number(amount)]);
    assert !UnderCeiling(escape, name, parent.ceilings[name]);
    forall other | other in s.ceilings ensures UnderCeiling(escape, other, s.ceilings[other]) {
      assert UnderCeiling(some, other, s.ceilings[other]);
    }
  }

  /** A scope that admits nothing can be rejected although its meaning is contained in every other: the
      one case in which `within` is stricter than containment. */
  lemma EmptyScopeIsRejected()
    ensures exists s, parent :: (forall p :: !Admits(s, p)) && !Within(s, parent)
  {
    var s := GrantScope(Some({}), None, None, None, map[]);
    var parent := GrantScope(None, Some({}), None, None, map[]);
    assert (forall p :: !Admits(s, p)) && !Within(s, parent);
  }
}
