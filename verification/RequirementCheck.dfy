/**
 The check that refuses a default requirement nobody could meet, against the policy evaluation
 that will decide at run time whether it was met.
 */
module RequirementCheck {
  import opened Wrappers
  import opened Protocol
  import opened ApprovalEvaluator

  datatype Requirement =
    | ProposerOnly
    | SignerThreshold(threshold: int, group: Option<string>, signers: Option<seq<Did>>, decision: Option<Decision>)
    | AllOf(requirements: seq<Requirement>)
    | AnyOf(requirements: seq<Requirement>)

  type Groups = map<string, seq<Did>>

  // ---- profile validation ---------------------------------------------------------------

  predicate Unique(dids: seq<Did>) {
    forall i, j :: 0 <= i < j < |dids| ==> dids[i] != dids[j]
  }

  predicate IsDidArray(dids: seq<Did>) {
    dids != [] && Unique(dids) && forall i :: 0 <= i < |dids| ==> dids[i] != ""
  }

  predicate HasGroup(r: Requirement)
    requires r.SignerThreshold?
  {
    r.group.Some? && r.group.value != ""
  }

  predicate HasSigners(r: Requirement)
    requires r.SignerThreshold?
  {
    r.signers.Some? && IsDidArray(r.signers.value)
  }

  predicate Validated(r: Requirement, groups: Groups) {
    match r
    case ProposerOnly => true
    case SignerThreshold(threshold, group, signers, decision) =>
      && threshold >= 1 && HasGroup(r) != HasSigners(r)
      && (HasGroup(r) ==> group.value in groups)
      && decision != Some(Reject)
    case AllOf(rs) => rs != [] && forall i :: 0 <= i < |rs| ==> Validated(rs[i], groups)
    case AnyOf(rs) => rs != [] && forall i :: 0 <= i < |rs| ==> Validated(rs[i], groups)
  }

  predicate GroupsValidated(groups: Groups) {
    "all" in groups && forall g :: g in groups ==> IsDidArray(groups[g])
  }

  // ---- the check ------------------------------------------------------------------------

  /** The list the check counts; an inline list wins, however it looks. */
  function Listed(r: Requirement, groups: Groups): Option<seq<Did>>
    requires r.SignerThreshold?
  {
    if r.signers.Some? then r.signers
    else if r.group.Some? && r.group.value != "" && r.group.value in groups then Some(groups[r.group.value])
    else None
  }

  /** Every listed signer but the proposer, as often as it is listed. */
  function Others(dids: seq<Did>, proposer: Did): seq<Did> {
    if dids == [] then []
    else (if dids[0] == proposer then [] else [dids[0]]) + Others(dids[1..], proposer)
  }

  function IsSatisfiable(r: Requirement, groups: Groups, proposer: Did): bool {
    match r
    case ProposerOnly => true
    case SignerThreshold(threshold, _, _, _) =>
      threshold >= 1 && Listed(r, groups).Some? && |Others(Listed(r, groups).value, proposer)| >= threshold
    case AllOf(rs) => forall i :: 0 <= i < |rs| ==> IsSatisfiable(rs[i], groups, proposer)
    case AnyOf(rs) => exists i :: 0 <= i < |rs| && IsSatisfiable(rs[i], groups, proposer)
  }

  function Proposers(groups: Groups): seq<Did>
    requires "all" in groups
  {
    if "proposers" in groups then groups["proposers"] else groups["all"]
  }

  /** The first permitted proposer the requirement shuts out, if any. */
  function UnsatisfiedProposer(r: Requirement, groups: Groups, proposers: seq<Did>): Option<Did> {
    if proposers == [] then None
    else if !IsSatisfiable(r, groups, proposers[0]) then Some(proposers[0])
    else UnsatisfiedProposer(r, groups, proposers[1..])
  }

  // ---- policy evaluation ----------------------------------------------------------------

  /** The list evaluation uses: an inline list unless it is empty. */
  function Resolved(r: Requirement, groups: Groups): seq<Did>
    requires r.SignerThreshold?
  {
    if r.signers.Some? && r.signers.value != [] then r.signers.value
    else if r.group.None? || r.group.value == "" then []
    else if r.group.value in groups then groups[r.group.value]
    else []
  }

  function Expects(r: Requirement): Decision
    requires r.SignerThreshold?
  {
    if r.decision.Some? then r.decision.value else Approve
  }

  /** Distinct signers, never the proposer. */
  function FoundFor(r: Requirement, approvals: seq<SignerDecision>, groups: Groups, proposer: Did): set<Did>
    requires r.SignerThreshold?
  {
    set a | a in approvals && a.signer != proposer && a.decision == Expects(r) &&
        a.signer in Resolved(r, groups) :: a.signer
  }

  datatype Unsatisfied = Unsatisfied(threshold: int, found: nat, decision: Decision)

  const UNSATISFIABLE := Unsatisfied(1, 0, Approve)

  /** The thresholds that are not met; of alternatives, the first one's. */
  function EvaluateRequirement(r: Requirement, approvals: seq<SignerDecision>, groups: Groups,
                               proposer: Did): seq<Unsatisfied>
    decreases r, 0
  {
    match r
    case ProposerOnly => []
    case SignerThreshold(threshold, _, _, _) =>
      var found := |FoundFor(r, approvals, groups, proposer)|;
      if threshold == 0 || found >= threshold then [] else [Unsatisfied(threshold, found, Expects(r))]
    case AllOf(rs) => EvaluateAll(r, |rs|, approvals, groups, proposer)
    case AnyOf(rs) =>
      if rs == [] then [UNSATISFIABLE]
      else if exists i :: 0 <= i < |rs| && EvaluateRequirement(rs[i], approvals, groups, proposer) == [] then []
      else EvaluateRequirement(rs[0], approvals, groups, proposer)
  }

  function EvaluateAll(r: Requirement, n: nat, approvals: seq<SignerDecision>, groups: Groups,
                       proposer: Did): seq<Unsatisfied>
    requires r.AllOf? && n <= |r.requirements|
    decreases r, 0, n
  {
    if n == 0 then []
    else
      EvaluateAll(r, n - 1, approvals, groups, proposer) +
      EvaluateRequirement(r.requirements[n - 1], approvals, groups, proposer)
  }

  datatype PolicyStatus = Satisfied | ConflictingDecisions | MoreApprovalsRequired(unsatisfied: seq<Unsatisfied>)

  /** Evaluation of an action no policy entry matches. */
  ghost function EvaluateDefault(r: Requirement, approvals: seq<SignerDecision>, groups: Groups,
                                 proposer: Did): PolicyStatus {
    if !Consistent(approvals) then ConflictingDecisions
    else if EvaluateRequirement(r, approvals, groups, proposer) == [] then PolicyStatus.Satisfied
    else MoreApprovalsRequired(EvaluateRequirement(r, approvals, groups, proposer))
  }

  /** Eligible by the inline list, or by the group if that is empty or missing. */
  ghost predicate MaySign(r: Requirement, did: Did, groups: Groups)
    requires r.SignerThreshold?
  {
    if r.signers.Some? && |r.signers.value| > 0 then did in r.signers.value
    else r.group.Some? && r.group.value != "" && r.group.value in groups && did in groups[r.group.value]
  }

  /** These distinct signers, none of them the proposer, may sign and made the decision asked for. */
  ghost predicate Signed(r: Requirement, approvals: seq<SignerDecision>, groups: Groups, proposer: Did,
                         signers: set<Did>)
    requires r.SignerThreshold?
  {
    forall d :: d in signers ==>
      && d != proposer && MaySign(r, d, groups)
      && SignerDecision(d, match r.decision case Some(decision) => decision case None => Approve) in approvals
  }

  /** What the requirement means, threshold by threshold. */
  ghost predicate Meets(r: Requirement, approvals: seq<SignerDecision>, groups: Groups, proposer: Did) {
    match r
    case ProposerOnly => true
    case SignerThreshold(threshold, _, _, _) =>
      exists signers :: Signed(r, approvals, groups, proposer, signers) && |signers| >= threshold
    case AllOf(rs) => forall i :: 0 <= i < |rs| ==> Meets(rs[i], approvals, groups, proposer)
    case AnyOf(rs) => exists i :: 0 <= i < |rs| && Meets(rs[i], approvals, groups, proposer)
  }

  lemma ThresholdIsMet(r: Requirement, approvals: seq<SignerDecision>, groups: Groups, proposer: Did)
    requires r.SignerThreshold?
    ensures EvaluateRequirement(r, approvals, groups, proposer) == [] <==> Meets(r, approvals, groups, proposer)
  {
    var found := FoundFor(r, approvals, groups, proposer);
    assert Signed(r, approvals, groups, proposer, found);
    forall signers | Signed(r, approvals, groups, proposer, signers)
      ensures |signers| <= |found|
    {
      SubsetCard(signers, found);
    }
    if r.threshold == 0 {
      assert Signed(r, approvals, groups, proposer, {});
    }
  }

  lemma {:induction false} RequirementIsMet(r: Requirement, approvals: seq<SignerDecision>, groups: Groups,
                                            proposer: Did)
    ensures EvaluateRequirement(r, approvals, groups, proposer) == [] <==> Meets(r, approvals, groups, proposer)
    decreases r
  {
    match r
    case ProposerOnly =>
    case SignerThreshold(_, _, _, _) => ThresholdIsMet(r, approvals, groups, proposer);
    case AllOf(rs) =>
      AllMet(r, |rs|, approvals, groups, proposer);
      forall i | 0 <= i < |rs|
        ensures EvaluateRequirement(rs[i], approvals, groups, proposer) == [] <==>
                Meets(rs[i], approvals, groups, proposer)
      {
        RequirementIsMet(rs[i], approvals, groups, proposer);
      }
    case AnyOf(rs) =>
      forall i | 0 <= i < |rs|
        ensures EvaluateRequirement(rs[i], approvals, groups, proposer) == [] <==>
                Meets(rs[i], approvals, groups, proposer)
      {
        RequirementIsMet(rs[i], approvals, groups, proposer);
      }
  }

  /** Evaluation is satisfied exactly if no signer decided twice differently and the tree is met. */
  lemma SatisfiedIsMet(r: Requirement, approvals: seq<SignerDecision>, groups: Groups, proposer: Did)
    ensures EvaluateDefault(r, approvals, groups, proposer).Satisfied? <==>
            && (forall a, b :: a in approvals && b in approvals && a.signer == b.signer ==> a.decision == b.decision)
            && Meets(r, approvals, groups, proposer)
  {
    RequirementIsMet(r, approvals, groups, proposer);
  }

  ghost predicate ByOthers(approvals: seq<SignerDecision>, proposer: Did) {
    forall a :: a in approvals ==> a.signer != proposer
  }

  /** Some approvals of signers other than the proposer meet the requirement. */
  ghost predicate Attainable(r: Requirement, groups: Groups, proposer: Did) {
    exists approvals :: EvaluateDefault(r, approvals, groups, proposer).Satisfied? && ByOthers(approvals, proposer)
  }

  // ---- the check is exact ---------------------------------------------------------------

  /** Every inline list is one the profile would accept on its own. */
  predicate CleanLists(r: Requirement) {
    match r
    case ProposerOnly => true
    case SignerThreshold(_, _, signers, _) => signers.Some? ==> HasSigners(r)
    case AllOf(rs) => forall i :: 0 <= i < |rs| ==> CleanLists(rs[i])
    case AnyOf(rs) => forall i :: 0 <= i < |rs| ==> CleanLists(rs[i])
  }

  /** Every eligible signer but the proposer, with the decision it would be asked for. */
  function Everyone(r: Requirement, groups: Groups, proposer: Did): seq<SignerDecision>
    decreases r, 0
  {
    match r
    case ProposerOnly => []
    case SignerThreshold(_, _, _, _) => Asked(Resolved(r, groups), Expects(r), proposer)
    case AllOf(rs) => EveryoneOf(r, |rs|, groups, proposer)
    case AnyOf(rs) => EveryoneOf(r, |rs|, groups, proposer)
  }

  function EveryoneOf(r: Requirement, n: nat, groups: Groups, proposer: Did): seq<SignerDecision>
    requires (r.AllOf? || r.AnyOf?) && n <= |r.requirements|
    decreases r, 0, n
  {
    if n == 0 then [] else EveryoneOf(r, n - 1, groups, proposer) + Everyone(r.requirements[n - 1], groups, proposer)
  }

  function Asked(dids: seq<Did>, decision: Decision, proposer: Did): seq<SignerDecision> {
    if dids == [] then []
    else
      (if dids[0] == proposer then [] else [SignerDecision(dids[0], decision)]) + Asked(dids[1..], decision, proposer)
  }

  /** No signer is asked for two different decisions. */
  ghost predicate NoClash(r: Requirement, groups: Groups, proposer: Did) {
    Consistent(Everyone(r, groups, proposer))
  }

  function OtherSet(dids: seq<Did>, proposer: Did): set<Did> {
    set d | d in dids && d != proposer
  }

  lemma {:induction false} OthersCount(dids: seq<Did>, proposer: Did)
    ensures |OtherSet(dids, proposer)| <= |Others(dids, proposer)|
    ensures Unique(dids) ==> |OtherSet(dids, proposer)| == |Others(dids, proposer)|
  {
    if dids == [] {
      assert OtherSet(dids, proposer) == {};
    } else {
      OthersCount(dids[1..], proposer);
      var rest := OtherSet(dids[1..], proposer);
      assert dids == [dids[0]] + dids[1..];
      assert OtherSet(dids, proposer) == if dids[0] == proposer then rest else rest + {dids[0]};
    }
  }

  lemma {:induction false} AskedAre(dids: seq<Did>, decision: Decision, proposer: Did)
    ensures forall a :: a in Asked(dids, decision, proposer) <==>
              a.decision == decision && a.signer in dids && a.signer != proposer
  {
    if dids != [] {
      AskedAre(dids[1..], decision, proposer);
      assert dids == [dids[0]] + dids[1..];
    }
  }

  /** Evaluation and check count over the same list. */
  lemma SameList(r: Requirement, groups: Groups)
    requires r.SignerThreshold? && Validated(r, groups) && CleanLists(r)
    ensures Listed(r, groups) == Some(Resolved(r, groups))
    ensures GroupsValidated(groups) ==> Unique(Resolved(r, groups))
  {
  }

  lemma FoundAreOthers(r: Requirement, approvals: seq<SignerDecision>, groups: Groups, proposer: Did)
    requires r.SignerThreshold?
    ensures |FoundFor(r, approvals, groups, proposer)| <= |OtherSet(Resolved(r, groups), proposer)|
    ensures (forall a :: a in Asked(Resolved(r, groups), Expects(r), proposer) ==> a in approvals) ==>
              |FoundFor(r, approvals, groups, proposer)| == |OtherSet(Resolved(r, groups), proposer)|
  {
    var found, others := FoundFor(r, approvals, groups, proposer), OtherSet(Resolved(r, groups), proposer);
    AskedAre(Resolved(r, groups), Expects(r), proposer);
    SubsetCard(found, others);
    if forall a :: a in Asked(Resolved(r, groups), Expects(r), proposer) ==> a in approvals {
      forall d | d in others
        ensures d in found
      {
        assert SignerDecision(d, Expects(r)) in approvals;
      }
      assert found == others;
    }
  }

  lemma {:induction false} AllMet(r: Requirement, n: nat, approvals: seq<SignerDecision>, groups: Groups, proposer: Did)
    requires r.AllOf? && n <= |r.requirements|
    ensures EvaluateAll(r, n, approvals, groups, proposer) == [] <==>
            forall i :: 0 <= i < n ==> EvaluateRequirement(r.requirements[i], approvals, groups, proposer) == []
  {
    if n > 0 {
      AllMet(r, n - 1, approvals, groups, proposer);
    }
  }

  /** The tree counted as evaluation counts it: distinct signers, over the list evaluation uses. */
  predicate Countable(r: Requirement, groups: Groups, proposer: Did) {
    match r
    case ProposerOnly => true
    case SignerThreshold(threshold, _, _, _) => |OtherSet(Resolved(r, groups), proposer)| >= threshold
    case AllOf(rs) => forall i :: 0 <= i < |rs| ==> Countable(rs[i], groups, proposer)
    case AnyOf(rs) => exists i :: 0 <= i < |rs| && Countable(rs[i], groups, proposer)
  }

  /** What some approvals met has the signers for it. */
  lemma {:induction false} MetIsCountable(r: Requirement, approvals: seq<SignerDecision>, groups: Groups, proposer: Did)
    requires Validated(r, groups) && EvaluateRequirement(r, approvals, groups, proposer) == []
    ensures Countable(r, groups, proposer)
    decreases r
  {
    match r
    case ProposerOnly =>
    case SignerThreshold(_, _, _, _) => FoundAreOthers(r, approvals, groups, proposer);
    case AllOf(rs) =>
      AllMet(r, |rs|, approvals, groups, proposer);
      forall i | 0 <= i < |rs|
        ensures Countable(rs[i], groups, proposer)
      {
        MetIsCountable(rs[i], approvals, groups, proposer);
      }
    case AnyOf(rs) =>
      var i :| 0 <= i < |rs| && EvaluateRequirement(rs[i], approvals, groups, proposer) == [];
      MetIsCountable(rs[i], approvals, groups, proposer);
  }

  lemma {:induction false} EveryoneIncludes(r: Requirement, n: nat, groups: Groups, proposer: Did, i: nat)
    requires (r.AllOf? || r.AnyOf?) && i < n <= |r.requirements|
    ensures forall a :: a in Everyone(r.requirements[i], groups, proposer) ==> a in EveryoneOf(r, n, groups, proposer)
  {
    if i < n - 1 {
      EveryoneIncludes(r, n - 1, groups, proposer, i);
    }
  }

  /** When everyone eligible decides as asked, whatever has the signers is met. */
  lemma {:induction false} CountableIsMet(r: Requirement, approvals: seq<SignerDecision>, groups: Groups, proposer: Did)
    requires Validated(r, groups) && Countable(r, groups, proposer)
    requires forall a :: a in Everyone(r, groups, proposer) ==> a in approvals
    ensures EvaluateRequirement(r, approvals, groups, proposer) == []
    decreases r
  {
    match r
    case ProposerOnly =>
    case SignerThreshold(_, _, _, _) => FoundAreOthers(r, approvals, groups, proposer);
    case AllOf(rs) =>
      forall i | 0 <= i < |rs|
        ensures EvaluateRequirement(rs[i], approvals, groups, proposer) == []
      {
        EveryoneIncludes(r, |rs|, groups, proposer, i);
        CountableIsMet(rs[i], approvals, groups, proposer);
      }
      AllMet(r, |rs|, approvals, groups, proposer);
    case AnyOf(rs) =>
      var i :| 0 <= i < |rs| && Countable(rs[i], groups, proposer);
      EveryoneIncludes(r, |rs|, groups, proposer, i);
      CountableIsMet(rs[i], approvals, groups, proposer);
  }

  lemma {:induction false} EveryoneIsOther(r: Requirement, groups: Groups, proposer: Did)
    ensures forall a :: a in Everyone(r, groups, proposer) ==> a.signer != proposer
    decreases r, 0
  {
    match r
    case ProposerOnly =>
    case SignerThreshold(_, _, _, _) => AskedAre(Resolved(r, groups), Expects(r), proposer);
    case AllOf(rs) => EveryoneOfIsOther(r, |rs|, groups, proposer);
    case AnyOf(rs) => EveryoneOfIsOther(r, |rs|, groups, proposer);
  }

  lemma {:induction false} EveryoneOfIsOther(r: Requirement, n: nat, groups: Groups, proposer: Did)
    requires (r.AllOf? || r.AnyOf?) && n <= |r.requirements|
    ensures forall a :: a in EveryoneOf(r, n, groups, proposer) ==> a.signer != proposer
    decreases r, 0, n
  {
    if n > 0 {
      EveryoneOfIsOther(r, n - 1, groups, proposer);
      EveryoneIsOther(r.requirements[n - 1], groups, proposer);
    }
  }

  /**
   Some approvals of others meet a validated tree exactly when it has the distinct signers for
   it, if no signer is asked for two different decisions; without them none ever do.
   */
  lemma {:induction false} AttainableIsCountable(r: Requirement, groups: Groups, proposer: Did)
    requires Validated(r, groups)
    ensures Attainable(r, groups, proposer) ==> Countable(r, groups, proposer)
    ensures NoClash(r, groups, proposer) ==> (Attainable(r, groups, proposer) <==> Countable(r, groups, proposer))
  {
    hide Countable, EvaluateRequirement, Validated, Everyone;
    if Attainable(r, groups, proposer) {
      var approvals :| EvaluateDefault(r, approvals, groups, proposer).Satisfied?;
      MetIsCountable(r, approvals, groups, proposer);
    }
    if Countable(r, groups, proposer) && NoClash(r, groups, proposer) {
      var approvals := Everyone(r, groups, proposer);
      CountableIsMet(r, approvals, groups, proposer);
      EveryoneIsOther(r, groups, proposer);
      assert EvaluateDefault(r, approvals, groups, proposer).Satisfied? && ByOthers(approvals, proposer);
    }
  }

  /** Over clean lists the check counts what evaluation counts. */
  lemma {:induction false} CheckCountsCleanLists(r: Requirement, groups: Groups, proposer: Did)
    requires GroupsValidated(groups) && Validated(r, groups) && CleanLists(r)
    ensures IsSatisfiable(r, groups, proposer) <==> Countable(r, groups, proposer)
    decreases r
  {
    match r
    case ProposerOnly =>
    case SignerThreshold(_, _, _, _) =>
      SameList(r, groups);
      OthersCount(Resolved(r, groups), proposer);
    case AllOf(rs) =>
      forall i | 0 <= i < |rs|
        ensures IsSatisfiable(rs[i], groups, proposer) <==> Countable(rs[i], groups, proposer)
      {
        CheckCountsCleanLists(rs[i], groups, proposer);
      }
    case AnyOf(rs) =>
      forall i | 0 <= i < |rs|
        ensures IsSatisfiable(rs[i], groups, proposer) <==> Countable(rs[i], groups, proposer)
      {
        CheckCountsCleanLists(rs[i], groups, proposer);
      }
  }

  /**
   The check accepts a requirement for a proposer exactly when some approvals of others meet
   it, for every nested requirement whose lists are clean and in which no signer is asked for
   two different decisions.
   */
  lemma {:induction false} CheckIsExact(r: Requirement, groups: Groups, proposer: Did)
    requires GroupsValidated(groups) && Validated(r, groups) && CleanLists(r) && NoClash(r, groups, proposer)
    ensures IsSatisfiable(r, groups, proposer) <==> Attainable(r, groups, proposer)
  {
    hide IsSatisfiable, Countable, Validated, CleanLists, NoClash, GroupsValidated, Attainable;
    AttainableIsCountable(r, groups, proposer);
    CheckCountsCleanLists(r, groups, proposer);
  }

  lemma {:induction false} UnsatisfiedIsFound(r: Requirement, groups: Groups, proposers: seq<Did>)
    ensures UnsatisfiedProposer(r, groups, proposers).None? <==>
            (forall p :: p in proposers ==> IsSatisfiable(r, groups, p))
    ensures var found := UnsatisfiedProposer(r, groups, proposers);
            found.Some? ==> found.value in proposers && !IsSatisfiable(r, groups, found.value)
  {
    hide IsSatisfiable;
    if proposers != [] {
      assert proposers[0] in proposers;
      UnsatisfiedIsFound(r, groups, proposers[1..]);
      assert forall p :: p in proposers <==> p == proposers[0] || p in proposers[1..];
    }
  }

  /** Those in the group of proposers may propose, or everybody if there is no such group. */
  ghost predicate MayPropose(did: Did, groups: Groups) {
    || ("proposers" in groups && did in groups["proposers"])
    || ("proposers" !in groups && "all" in groups && did in groups["all"])
  }

  /**
   An accepted configuration leaves everyone who may propose a way to approval, and only those are
   accepted; a refused one names somebody who may propose and has none.
   */
  lemma AcceptedMeansAttainable(r: Requirement, groups: Groups)
    requires GroupsValidated(groups) && Validated(r, groups) && CleanLists(r)
    requires forall p :: MayPropose(p, groups) ==> NoClash(r, groups, p)
    ensures var found := UnsatisfiedProposer(r, groups, Proposers(groups));
            && (found.None? <==> forall p :: MayPropose(p, groups) ==> Attainable(r, groups, p))
            && (found.Some? ==> MayPropose(found.value, groups) && !Attainable(r, groups, found.value))
  {
    hide Attainable, IsSatisfiable;
    UnsatisfiedIsFound(r, groups, Proposers(groups));
    forall p | p in Proposers(groups)
      ensures IsSatisfiable(r, groups, p) <==> Attainable(r, groups, p)
    {
      CheckIsExact(r, groups, p);
    }
  }

  // ---- where the check is not exact -----------------------------------------------------

  /**
   A validated threshold may name a group and also hold an inline list that is not a proper one.
   An empty one is refused although evaluation falls back to the group.
   */
  lemma EmptyListIsRefused(r: Requirement, groups: Groups, proposer: Did)
    requires r.SignerThreshold? && Validated(r, groups) && HasGroup(r) && r.signers == Some([])
    ensures !IsSatisfiable(r, groups, proposer)
    ensures GroupsValidated(groups) ==>
              (Attainable(r, groups, proposer) <==> |OtherSet(groups[r.group.value], proposer)| >= r.threshold)
  {
    var list := groups[r.group.value];
    AskedAre(list, Expects(r), proposer);
    var approvals := Asked(list, Expects(r), proposer);
    FoundAreOthers(r, approvals, groups, proposer);
    assert Consistent(approvals);
    if Attainable(r, groups, proposer) {
      var given :| EvaluateDefault(r, given, groups, proposer).Satisfied?;
      FoundAreOthers(r, given, groups, proposer);
    }
    if |OtherSet(list, proposer)| >= r.threshold {
      assert EvaluateDefault(r, approvals, groups, proposer).Satisfied? && ByOthers(approvals, proposer);
    }
  }

  /** An inline list with repeats beside a group is counted with its repeats by the check only. */
  lemma RepeatsAreCounted(r: Requirement, groups: Groups, proposer: Did)
    requires r.SignerThreshold? && Validated(r, groups) && r.signers.Some? && r.signers.value != []
    ensures IsSatisfiable(r, groups, proposer) <==> |Others(r.signers.value, proposer)| >= r.threshold
    ensures Attainable(r, groups, proposer) <==> |OtherSet(r.signers.value, proposer)| >= r.threshold
  {
    var list := r.signers.value;
    AskedAre(list, Expects(r), proposer);
    var approvals := Asked(list, Expects(r), proposer);
    FoundAreOthers(r, approvals, groups, proposer);
    assert Consistent(approvals);
    if Attainable(r, groups, proposer) {
      var given :| EvaluateDefault(r, given, groups, proposer).Satisfied?;
      FoundAreOthers(r, given, groups, proposer);
    }
    if |OtherSet(list, proposer)| >= r.threshold {
      assert EvaluateDefault(r, approvals, groups, proposer).Satisfied? && ByOthers(approvals, proposer);
    }
  }

  /** A configuration the daemon starts with although no approvals can ever meet it. */
  lemma RepeatsShutOut(signer: Did, proposer: Did)
    requires signer != proposer && signer != "" && proposer != ""
    ensures var groups: Groups := map["all" := [proposer]];
            var r := SignerThreshold(2, Some("all"), Some([signer, signer]), None);
            && GroupsValidated(groups) && Validated(r, groups)
            && UnsatisfiedProposer(r, groups, Proposers(groups)).None?
            && !Attainable(r, groups, proposer)
  {
    var groups: Groups := map["all" := [proposer]];
    var list := [signer, signer];
    var r := SignerThreshold(2, Some("all"), Some(list), None);
    assert list[0] == list[1];
    assert !Unique(list);
    assert list[1..] == [signer] && list[1..][1..] == [];
    assert Others(list[1..], proposer) == [signer];
    RepeatsAreCounted(r, groups, proposer);
    assert OtherSet(list, proposer) == {signer};
    UnsatisfiedIsFound(r, groups, Proposers(groups));
  }

  /** Two thresholds that ask one signer for different decisions pass the check and are never met. */
  lemma ClashIsAccepted(signer: Did, proposer: Did, groups: Groups)
    requires signer != proposer && signer != ""
    ensures var r :=
              AllOf([SignerThreshold(1, None, Some([signer]), None),
                     SignerThreshold(1, None, Some([signer]), Some(Abstain))]);
            && Validated(r, groups) && CleanLists(r)
            && IsSatisfiable(r, groups, proposer) && !Attainable(r, groups, proposer)
  {
    var first, second :=
      SignerThreshold(1, None, Some([signer]), None), SignerThreshold(1, None, Some([signer]), Some(Abstain));
    var r := AllOf([first, second]);
    assert Others([signer], proposer) == [signer];
    forall approvals | Consistent(approvals)
      ensures EvaluateRequirement(r, approvals, groups, proposer) != []
    {
      ClashNeverMet(r, first, second, approvals, groups, proposer, signer);
    }
  }

  lemma ClashNeverMet(r: Requirement, first: Requirement, second: Requirement, approvals: seq<SignerDecision>,
                      groups: Groups,
                      proposer: Did, signer: Did)
    requires first == SignerThreshold(1, None, Some([signer]), None) &&
               second == SignerThreshold(1, None, Some([signer]), Some(Abstain))
    requires r == AllOf([first, second]) && Consistent(approvals)
    ensures EvaluateRequirement(r, approvals, groups, proposer) != []
  {
    AllMet(r, 2, approvals, groups, proposer);
    assert r.requirements[0] == first && r.requirements[1] == second;
    if SignerDecision(signer, Approve) in approvals {
      assert FoundFor(second, approvals, groups, proposer) == {};
    } else {
      assert FoundFor(first, approvals, groups, proposer) == {};
    }
  }
}
