/**
 The coordination view of an approval expression: satisfied, still open, or out of reach.
 */
module ApprovalEvaluator {
  import opened Wrappers
  import opened Protocol

  datatype Decision = Propose | Approve | Reject | Abstain

  datatype Threshold = Threshold(threshold: int, eligible: seq<Did>, decision: Option<Decision>)

  /** The permissions that matter are approve and reject; others are kept as text. */
  datatype Override = Override(signer: Did, permissions: set<string>)

  datatype Requirements = Requirements(anyOf: seq<Threshold>, allOf: seq<Threshold>, overrides: seq<Override>)

  datatype Status = Satisfied | Pending | Unreachable

  datatype SignerDecision = SignerDecision(signer: Did, decision: Decision)

  type Decisions = map<Did, Decision>

  // ---- one threshold --------------------------------------------------------------------

  function Expected(t: Threshold): Decision {
    if t.decision.Some? then t.decision.value else Approve
  }

  function Eligible(t: Threshold): set<Did> {
    set d | d in t.eligible
  }

  function Matching(t: Threshold, decisions: Decisions): set<Did> {
    set d | d in t.eligible && d in decisions && decisions[d] == Expected(t)
  }

  function Undecided(t: Threshold, decisions: Decisions): set<Did> {
    set d | d in t.eligible && d !in decisions
  }

  function ThresholdStatus(t: Threshold, decisions: Decisions): Status {
    if |Matching(t, decisions)| >= t.threshold then Satisfied
    else if |Matching(t, decisions)| + |Undecided(t, decisions)| >= t.threshold then Status.Pending
    else Unreachable
  }

  function MatchingIn(signers: set<Did>, expected: Decision, decisions: Decisions): set<Did> {
    set d | d in signers && d in decisions && decisions[d] == expected
  }

  function UndecidedIn(signers: set<Did>, decisions: Decisions): set<Did> {
    set d | d in signers && d !in decisions
  }

  lemma EligibleCounts(t: Threshold, decisions: Decisions)
    ensures MatchingIn(Eligible(t), Expected(t), decisions) == Matching(t, decisions)
    ensures UndecidedIn(Eligible(t), decisions) == Undecided(t, decisions)
  {
  }

  /** What one signer adds to the two counts. */
  lemma CountOne(rest: set<Did>, did: Did, expected: Decision, decisions: Decisions)
    requires did in rest
    ensures |MatchingIn(rest, expected, decisions)| ==
            |MatchingIn(rest - {did}, expected, decisions)| +
            if did in decisions && decisions[did] == expected then 1 else 0
    ensures |UndecidedIn(rest, decisions)| ==
            |UndecidedIn(rest - {did}, decisions)| + if did !in decisions then 1 else 0
  {
    var m, u := MatchingIn(rest - {did}, expected, decisions), UndecidedIn(rest - {did}, decisions);
    assert MatchingIn(rest, expected, decisions) ==
           if did in decisions && decisions[did] == expected then m + {did} else m;
    assert UndecidedIn(rest, decisions) == if did !in decisions then u + {did} else u;
  }

  /** Counts over the distinct eligible signers. */
  method EvaluateThreshold(t: Threshold, decisions: Decisions) returns (status: Status)
    ensures status == ThresholdStatus(t, decisions)
  {
    var expected := if t.decision.Some? then t.decision.value else Approve;
    var matching, undecided := 0, 0;
    var rest := Eligible(t);
    EligibleCounts(t, decisions);
    while rest != {}
      invariant matching + |MatchingIn(rest, expected, decisions)| == |Matching(t, decisions)|
      invariant undecided + |UndecidedIn(rest, decisions)| == |Undecided(t, decisions)|
      decreases rest
    {
      var did :| did in rest;
      CountOne(rest, did, expected, decisions);
      rest := rest - {did};
      if did in decisions && decisions[did] == expected {
        matching := matching + 1;
      } else if did !in decisions {
        undecided := undecided + 1;
      }
    }
    if matching >= t.threshold {
      return Satisfied;
    }
    status := if matching + undecided >= t.threshold then Status.Pending else Unreachable;
  }

  // ---- the expression -------------------------------------------------------------------

  predicate Decided(o: Override, permission: string, decision: Decision, decisions: Decisions) {
    permission in o.permissions && o.signer in decisions && decisions[o.signer] == decision
  }

  predicate Vetoed(r: Requirements, decisions: Decisions) {
    exists o :: o in r.overrides && Decided(o, "reject", Reject, decisions)
  }

  predicate Overridden(r: Requirements, decisions: Decisions) {
    exists o :: o in r.overrides && Decided(o, "approve", Approve, decisions)
  }

  predicate OverrideOpen(r: Requirements, decisions: Decisions) {
    exists o :: o in r.overrides && "approve" in o.permissions && o.signer !in decisions
  }

  predicate Met(r: Requirements, decisions: Decisions) {
    && (r.anyOf == [] || exists t :: t in r.anyOf && ThresholdStatus(t, decisions).Satisfied?)
    && forall t :: t in r.allOf ==> ThresholdStatus(t, decisions).Satisfied?
  }

  predicate Reachable(r: Requirements, decisions: Decisions) {
    && (r.anyOf == [] || exists t :: t in r.anyOf && !ThresholdStatus(t, decisions).Unreachable?)
    && forall t :: t in r.allOf ==> !ThresholdStatus(t, decisions).Unreachable?
  }

  function Evaluate(r: Requirements, decisions: Decisions): Status {
    if Vetoed(r, decisions) then Unreachable
    else if Overridden(r, decisions) then Satisfied
    else if Met(r, decisions) then Satisfied
    else if Reachable(r, decisions) then Status.Pending
    else if OverrideOpen(r, decisions) then Status.Pending
    else Unreachable
  }

  /** One decision per signer; the source throws on a signer with two. */
  ghost predicate Consistent(entries: seq<SignerDecision>) {
    forall a, b :: a in entries && b in entries && a.signer == b.signer ==> a.decision == b.decision
  }

  ghost predicate Records(decisions: Decisions, entries: seq<SignerDecision>) {
    && (forall e :: e in entries ==> e.signer in decisions && decisions[e.signer] == e.decision)
    && (forall d :: d in decisions ==> SignerDecision(d, decisions[d]) in entries)
  }

  method ImmutableDecisionMap(entries: seq<SignerDecision>) returns (decisions: Option<Decisions>)
    ensures decisions.Some? <==> Consistent(entries)
    ensures decisions.Some? ==> Records(decisions.value, entries)
  {
    var result: Decisions := map[];
    for i := 0 to |entries|
      invariant Records(result, entries[..i])
      invariant Consistent(entries[..i])
    {
      var e := entries[i];
      assert entries[..i + 1] == entries[..i] + [e];
      if e.signer in result && result[e.signer] != e.decision {
        assert SignerDecision(e.signer, result[e.signer]) in entries && e in entries;
        return None;
      }
      result := result[e.signer := e.decision];
    }
    assert entries[..|entries|] == entries;
    decisions := Some(result);
  }

  // ---- what the verdicts mean -----------------------------------------------------------

  /** These distinct signers are all eligible, and made the decision asked for: approve if none is named. */
  ghost predicate Count(t: Threshold, decisions: Decisions, signers: set<Did>) {
    forall d :: d in signers ==>
      && d in t.eligible && d in decisions
      && (t.decision == Some(decisions[d]) || (t.decision.None? && decisions[d].Approve?))
  }

  ghost predicate Enough(t: Threshold, decisions: Decisions) {
    exists signers :: Count(t, decisions, signers) && |signers| >= t.threshold
  }

  lemma EnoughIsSatisfied(t: Threshold, decisions: Decisions)
    ensures ThresholdStatus(t, decisions).Satisfied? <==> Enough(t, decisions)
  {
    var m := Matching(t, decisions);
    assert Count(t, decisions, m);
    forall signers | Count(t, decisions, signers)
      ensures |signers| <= |m|
    {
      SubsetCard(signers, m);
    }
  }

  /**
   Satisfied means that nobody who may veto rejected, and that somebody who may override approved, or
   that every threshold of the one list and, if there are any, one of the other has enough signers.
   */
  lemma SatisfiedIsExact(r: Requirements, decisions: Decisions)
    ensures Evaluate(r, decisions).Satisfied? <==>
            && (forall o :: o in r.overrides && "reject" in o.permissions ==>
                  !(o.signer in decisions && decisions[o.signer].Reject?))
            && (|| (exists o :: o in r.overrides && "approve" in o.permissions
                                && o.signer in decisions && decisions[o.signer].Approve?)
                || (&& (forall t :: t in r.allOf ==> Enough(t, decisions))
                    && (r.anyOf == [] || exists t :: t in r.anyOf && Enough(t, decisions))))
  {
    hide ThresholdStatus, Enough;
    forall t: Threshold
      ensures ThresholdStatus(t, decisions).Satisfied? <==> Enough(t, decisions)
    {
      EnoughIsSatisfied(t, decisions);
    }
  }

  /** Later decisions only add signers. */
  ghost predicate Extends(decisions: Decisions, later: Decisions) {
    forall d :: d in decisions ==> d in later && later[d] == decisions[d]
  }

  lemma SubsetCard(a: set<Did>, b: set<Did>)
    requires a <= b
    ensures |a| <= |b|
  {
    if a != {} {
      var x :| x in a;
      SubsetCard(a - {x}, b - {x});
    }
  }

  /** More decisions only move a threshold towards a verdict. */
  lemma ThresholdMoves(t: Threshold, decisions: Decisions, later: Decisions)
    requires Extends(decisions, later)
    ensures ThresholdStatus(t, decisions).Satisfied? ==> ThresholdStatus(t, later).Satisfied?
    ensures ThresholdStatus(t, decisions).Unreachable? ==> ThresholdStatus(t, later).Unreachable?
  {
    var m, u := Matching(t, decisions), Undecided(t, decisions);
    var m', u' := Matching(t, later), Undecided(t, later);
    SubsetCard(m, m');
    SubsetCard(m' + u', m + u);
    assert |m + u| == |m| + |u| && |m' + u'| == |m'| + |u'|;
  }

  /** Out of reach is final: no further decisions change it. */
  lemma UnreachableIsFinal(r: Requirements, decisions: Decisions, later: Decisions)
    requires Extends(decisions, later) && Evaluate(r, decisions).Unreachable?
    ensures Evaluate(r, later).Unreachable?
  {
    hide ThresholdStatus;
    forall t | t in r.anyOf || t in r.allOf
      ensures ThresholdStatus(t, decisions).Satisfied? ==> ThresholdStatus(t, later).Satisfied?
      ensures ThresholdStatus(t, decisions).Unreachable? ==> ThresholdStatus(t, later).Unreachable?
    {
      ThresholdMoves(t, decisions, later);
    }
    if Vetoed(r, decisions) {
      assert Vetoed(r, later);
    } else {
      assert Overridden(r, later) ==> Overridden(r, decisions);
      assert OverrideOpen(r, later) ==> OverrideOpen(r, decisions);
      NotReachableLater(r, decisions, later);
    }
  }

  lemma NotReachableLater(r: Requirements, decisions: Decisions, later: Decisions)
    requires Extends(decisions, later) && !Reachable(r, decisions)
    ensures !Reachable(r, later) && !Met(r, later)
  {
    hide ThresholdStatus;
    forall t | t in r.anyOf || t in r.allOf
      ensures ThresholdStatus(t, decisions).Unreachable? ==> ThresholdStatus(t, later).Unreachable?
    {
      ThresholdMoves(t, decisions, later);
    }
    if r.anyOf != [] && forall t :: t in r.anyOf ==> ThresholdStatus(t, decisions).Unreachable? {
    } else {
      var t :| t in r.allOf && ThresholdStatus(t, decisions).Unreachable?;
      assert ThresholdStatus(t, later).Unreachable?;
    }
  }

  /** Satisfied is kept until a signer who may veto rejects. */
  lemma SatisfiedUntilVeto(r: Requirements, decisions: Decisions, later: Decisions)
    requires Extends(decisions, later) && Evaluate(r, decisions).Satisfied?
    ensures Evaluate(r, later) == if Vetoed(r, later) then Unreachable else Satisfied
  {
    hide ThresholdStatus;
    forall t | t in r.anyOf || t in r.allOf
      ensures ThresholdStatus(t, decisions).Satisfied? ==> ThresholdStatus(t, later).Satisfied?
    {
      ThresholdMoves(t, decisions, later);
    }
    if Overridden(r, decisions) {
      assert Overridden(r, later);
    }
  }

  function Thresholds(r: Requirements): seq<Threshold> { r.anyOf + r.allOf }

  function Named(r: Requirements): set<Did> {
    (set t, d | t in Thresholds(r) && d in t.eligible :: d) + (set o | o in r.overrides :: o.signer)
  }

  /** No signer is eligible for two thresholds that ask for different decisions. */
  predicate NoClash(r: Requirements) {
    forall t, u, d :: t in Thresholds(r) && u in Thresholds(r) && d in t.eligible && d in u.eligible ==>
        Expected(t) == Expected(u)
  }

  /** No signer who may veto is asked to reject. */
  predicate NoVetoAsked(r: Requirements) {
    forall t, o :: t in Thresholds(r) && o in r.overrides && "reject" in o.permissions && o.signer in t.eligible ==>
      !Expected(t).Reject?
  }

  /** What the first threshold that lists this signer asks of it. */
  function AskedOf(ts: seq<Threshold>, d: Did): Option<Decision> {
    if ts == [] then None
    else if d in ts[0].eligible then Some(Expected(ts[0]))
    else AskedOf(ts[1..], d)
  }

  /** Every eligible signer who has not decided decides as asked. */
  function AsAsked(r: Requirements, decisions: Decisions): Decisions {
    (map d | d in Named(r) && AskedOf(Thresholds(r), d).Some? :: AskedOf(Thresholds(r), d).value) + decisions
  }

  lemma {:induction false} AskedIsExpected(ts: seq<Threshold>, d: Did)
    ensures AskedOf(ts, d).None? <==> forall t :: t in ts ==> d !in t.eligible
    ensures AskedOf(ts, d).Some? ==> exists t :: t in ts && d in t.eligible && AskedOf(ts, d) == Some(Expected(t))
  {
    if ts != [] && d !in ts[0].eligible {
      AskedIsExpected(ts[1..], d);
    }
  }

  /** In a threshold that is still open, everyone deciding as asked is enough. */
  lemma AskedMeets(r: Requirements, t: Threshold, decisions: Decisions)
    requires NoClash(r) && t in Thresholds(r) && !ThresholdStatus(t, decisions).Unreachable?
    ensures ThresholdStatus(t, AsAsked(r, decisions)).Satisfied?
  {
    var m, u := Matching(t, decisions), Undecided(t, decisions);
    forall d | d in t.eligible
      ensures d in Named(r) && AskedOf(Thresholds(r), d) == Some(Expected(t))
    {
      AskedIsExpected(Thresholds(r), d);
    }
    hide NoClash, AskedOf, Thresholds;
    assert Matching(t, AsAsked(r, decisions)) == m + u;
    assert |m + u| == |m| + |u|;
  }

  /** Nobody is made to veto. */
  lemma AskedVetoesNothing(r: Requirements, decisions: Decisions)
    requires NoVetoAsked(r) && !Vetoed(r, decisions)
    ensures !Vetoed(r, AsAsked(r, decisions))
  {
    var all := AsAsked(r, decisions);
    forall o | o in r.overrides
      ensures !Decided(o, "reject", Reject, all)
    {
      AskedIsExpected(Thresholds(r), o.signer);
      assert !Decided(o, "reject", Reject, decisions);
    }
  }

  /**
   When no signer is asked for two different decisions and none who may veto is asked to reject,
   the expression is still open or met exactly when further decisions of the signers it names
   can meet it.
   */
  lemma OpenMeansAttainable(r: Requirements, decisions: Decisions)
    requires NoClash(r) && NoVetoAsked(r)
    ensures !Evaluate(r, decisions).Unreachable? <==>
            exists later :: Extends(decisions, later) && later.Keys <= decisions.Keys + Named(r) &&
                Evaluate(r, later).Satisfied?
  {
    if Evaluate(r, decisions).Unreachable? {
      forall later | Extends(decisions, later)
        ensures Evaluate(r, later).Unreachable?
      {
        UnreachableIsFinal(r, decisions, later);
      }
    } else {
      var later := OpenIsMet(r, decisions);
    }
  }

  /** The decisions that meet an open expression: everyone as asked, or the one open override. */
  lemma OpenIsMet(r: Requirements, decisions: Decisions) returns (later: Decisions)
    requires NoClash(r) && NoVetoAsked(r) && !Evaluate(r, decisions).Unreachable?
    ensures Extends(decisions, later) && later.Keys <= decisions.Keys + Named(r) && Evaluate(r, later).Satisfied?
  {
    hide ThresholdStatus, NoClash, NoVetoAsked;
    if Evaluate(r, decisions).Satisfied? {
      later := decisions;
    } else if Reachable(r, decisions) {
      later := AsAsked(r, decisions);
      AskedVetoesNothing(r, decisions);
      forall t | t in r.anyOf + r.allOf && !ThresholdStatus(t, decisions).Unreachable?
        ensures ThresholdStatus(t, later).Satisfied?
      {
        assert t in Thresholds(r);
        AskedMeets(r, t, decisions);
      }
      hide AskedOf;
      ReachableIsMet(r, decisions, later);
    } else {
      var o :| o in r.overrides && "approve" in o.permissions && o.signer !in decisions;
      later := decisions[o.signer := Approve];
      assert Decided(o, "approve", Approve, later);
      OneApproval(r, decisions, o.signer);
    }
  }

  /** One more approval vetoes nothing. */
  lemma OneApproval(r: Requirements, decisions: Decisions, signer: Did)
    requires signer !in decisions && !Vetoed(r, decisions)
    ensures !Vetoed(r, decisions[signer := Approve])
  {
    forall o | o in r.overrides
      ensures !Decided(o, "reject", Reject, decisions[signer := Approve])
    {
      assert !Decided(o, "reject", Reject, decisions);
    }
  }

  lemma ReachableIsMet(r: Requirements, decisions: Decisions, all: Decisions)
    requires Reachable(r, decisions)
    requires forall t :: t in r.anyOf + r.allOf && !ThresholdStatus(t, decisions).Unreachable? ==>
               ThresholdStatus(t, all).Satisfied?
    ensures Met(r, all)
  {
    hide ThresholdStatus;
    if r.anyOf != [] {
      var t :| t in r.anyOf && !ThresholdStatus(t, decisions).Unreachable?;
      assert t in r.anyOf + r.allOf;
    }
    forall t | t in r.allOf
      ensures ThresholdStatus(t, all).Satisfied?
    {
      assert t in r.anyOf + r.allOf;
    }
  }

  /** A signer who may veto and is asked to reject: the expression is open and cannot be met. */
  lemma AskedVetoIsStuck(signer: Did)
    ensures var r := Requirements([], [Threshold(1, [signer], Some(Reject))], [Override(signer, {"reject"})]);
            NoClash(r) && Evaluate(r, map[]).Pending? && forall later :: !Evaluate(r, later).Satisfied?
  {
    var t := Threshold(1, [signer], Some(Reject));
    var o := Override(signer, {"reject"});
    var r := Requirements([], [t], [o]);
    assert Thresholds(r) == [t];
    assert Undecided(t, map[]) == {signer} && Matching(t, map[]) == {};
    forall later: Decisions
      ensures !Evaluate(r, later).Satisfied?
    {
      if signer in later && later[signer].Reject? {
        assert o in r.overrides && Decided(o, "reject", Reject, later);
      } else {
        assert Matching(t, later) == {};
        assert t in r.allOf;
      }
    }
  }

  /** With thresholds that ask one signer for two decisions, open does not mean attainable. */
  lemma MixedThresholdsCanBeStuck(signer: Did)
    ensures var r := Requirements([], [Threshold(1, [signer], None), Threshold(1, [signer], Some(Abstain))], []);
            Evaluate(r, map[]).Pending? && forall later :: !Evaluate(r, later).Satisfied?
  {
    var first, second := Threshold(1, [signer], None), Threshold(1, [signer], Some(Abstain));
    var r := Requirements([], [first, second], []);
    forall later: Decisions
      ensures !Evaluate(r, later).Satisfied?
    {
      OneAsksNever(first, second, signer, later);
      assert first in r.allOf && second in r.allOf;
    }
    assert Undecided(first, map[]) == {signer} && Undecided(second, map[]) == {signer};
    assert Matching(first, map[]) == {} && Matching(second, map[]) == {};
    assert first in r.allOf;
  }

  lemma OneAsksNever(first: Threshold, second: Threshold, signer: Did, later: Decisions)
    requires first == Threshold(1, [signer], None) && second == Threshold(1, [signer], Some(Abstain))
    ensures !ThresholdStatus(first, later).Satisfied? || !ThresholdStatus(second, later).Satisfied?
  {
    if signer in later && later[signer].Approve? {
      assert Matching(second, later) == {};
    } else {
      assert Matching(first, later) == {};
    }
  }

  /**
   With overrides and no thresholds there is nothing left to meet: any decision that is no
   veto satisfies the expression, also one that approves nothing.
   */
  lemma OverridesAloneAskForNothing(r: Requirements, decisions: Decisions)
    requires r.anyOf == [] && r.allOf == []
    ensures Evaluate(r, decisions) == if Vetoed(r, decisions) then Unreachable else Satisfied
  {
  }
}
