/**
 What the approval workflow means: stored actions, every operation on them, and what no run of
 operations can undo.  Module CoordinationStore runs the same operations in place.
 */
module WorkflowModel {
  import opened Wrappers
  import opened JsonKey
  import opened Protocol
  import opened ApprovalEvaluator

  /** What an approval's signed text decodes to; an absent signer fails a check. */
  datatype ApprovalPayload = ApprovalPayload(hash: EnvelopeHash, signer: Option<Did>, decision: Decision)

  /** The signed text determines its payload; undecodable text has none. */
  datatype Signature = Signature(payload: Option<ApprovalPayload>, text: string)

  datatype Approval = Approval(hash: EnvelopeHash, decision: Decision, signature: Signature)

  datatype Bundle = Bundle(hash: EnvelopeHash, approvals: seq<Approval>, createdAt: int)

  /** The envelope's content stands for the execution payload its hash binds. */
  datatype Package = Package(envelope: ActionEnvelope, payload: string, bundle: Bundle)

  datatype Authorization =
    Authorization(hash: EnvelopeHash, asksForMore: bool, expiresAt: Option<int>, requirements: Requirements)

  datatype State = AwaitingApprovals | ReadyForSubmission | Rejected | Cancelled | Expired

  datatype StoredApproval = StoredApproval(approval: Approval, signer: Did, decision: Decision)

  datatype Stored = Stored(
    package: Package,
    authorization: Authorization,
    hash: EnvelopeHash,
    state: State,
    approvals: seq<StoredApproval>)

  /** The actions by hash, and by their Action ID's value, in order of creation. */
  datatype Store = Store(byHash: map<EnvelopeHash, Stored>, byId: map<JsString, EnvelopeHash>, order: seq<EnvelopeHash>)

  const EMPTY_STORE := Store(map[], map[], [])

  datatype Error =
    | NotFound | HashMismatch | SignerMissing | DecisionMismatch | SelfApproval | DecisionConflict | NotAwaiting
    | IdConflict | NotProposer | ActionExpired | ActionReady | ActionRejected | InvalidRequest | RequirementsExpired

  datatype Result<T> = Ok(value: T) | Err(error: Error)

  function Proposer(s: Stored): Did { s.package.envelope.proposer }

  function IdValue(envelope: ActionEnvelope): JsString { envelope.actionId.value }

  // ---- expiry ---------------------------------------------------------------------------

  predicate NeverExpires(state: State) { state.Cancelled? || state.Expired? || state.Rejected? }

  function EffectiveState(s: Stored, now: int): State {
    if NeverExpires(s.state) then s.state
    else if s.package.envelope.expiresAt <= now then State.Expired
    else s.state
  }

  function ExpireIfNeeded(s: Stored, now: int): Stored {
    s.(state := EffectiveState(s, now))
  }

  // ---- creating -------------------------------------------------------------------------

  predicate Unique<T(==)>(items: seq<T>) {
    forall i, j :: 0 <= i < j < |items| ==> items[i] != items[j]
  }

  predicate Achievable(t: Threshold) {
    Unique(t.eligible) && 1 <= t.threshold <= |t.eligible|
  }

  function Signers(overrides: seq<Override>): seq<Did> {
    seq(|overrides|, i requires 0 <= i < |overrides| => overrides[i].signer)
  }

  function ValidateAuthorization(a: Authorization, hash: EnvelopeHash, now: int): Option<Error> {
    if !a.asksForMore || a.hash != hash then Some(InvalidRequest)
    else if a.expiresAt.Some? && a.expiresAt.value <= now then Some(RequirementsExpired)
    else if Thresholds(a.requirements) == [] && a.requirements.overrides == [] then Some(InvalidRequest)
    else if exists t :: t in Thresholds(a.requirements) && !Achievable(t) then Some(InvalidRequest)
    else if !Unique(Signers(a.requirements.overrides)) then Some(InvalidRequest)
    else None
  }

  function ValidateCreate(store: Store, package: Package, a: Authorization, now: int): Option<Error> {
    var hash := HashOf(package.envelope);
    if package.payload != package.envelope.content || package.bundle.hash != hash then Some(InvalidRequest)
    else if ValidateAuthorization(a, hash, now).Some? then ValidateAuthorization(a, hash, now)
    else if IdValue(package.envelope) in store.byId &&
        store.byId[IdValue(package.envelope)] != hash then Some(IdConflict)
    else None
  }

  datatype Created = Created(state: State, created: bool)

  /** An action already stored is returned, expired if its time came; a new one is filed twice. */
  function CreateWorkflow(store: Store, package: Package, a: Authorization, now: int): (Store, Result<Created>) {
    var error := ValidateCreate(store, package, a, now);
    var hash := HashOf(package.envelope);
    if error.Some? then (store, Err(error.value))
    else if hash in store.byHash then
      var s := ExpireIfNeeded(store.byHash[hash], now);
      (store.(byHash := store.byHash[hash := s]), Ok(Created(s.state, false)))
    else
      (Store(store.byHash[hash := Stored(package, a, hash, AwaitingApprovals, [])],
             store.byId[IdValue(package.envelope) := hash],
             store.order + [hash]),
       Ok(Created(AwaitingApprovals, true)))
  }

  // ---- approving ------------------------------------------------------------------------

  datatype Preflight = Preflight(signer: Did, decision: Decision, duplicate: bool)

  function PriorDecision(approvals: seq<StoredApproval>, signer: Did): Option<Decision> {
    if approvals == [] then None
    else if approvals[0].signer == signer then Some(approvals[0].decision)
    else PriorDecision(approvals[1..], signer)
  }

  function CheckApproval(s: Stored, approval: Approval, now: int): Result<Preflight> {
    var state := EffectiveState(s, now);
    if state.Cancelled? || state.Expired? then Err(NotFound)
    else if approval.hash != s.hash then Err(HashMismatch)
    else if approval.signature.payload.None? || approval.signature.payload.value.hash != s.hash then Err(HashMismatch)
    else
      var payload := approval.signature.payload.value;
      if payload.signer.None? || payload.signer.value == "" then Err(SignerMissing)
      else if approval.decision != payload.decision then Err(DecisionMismatch)
      else if payload.signer.value == Proposer(s) then Err(SelfApproval)
      else
        var prior := PriorDecision(s.approvals, payload.signer.value);
        if prior.Some? && prior.value != payload.decision then Err(DecisionConflict)
        else if !s.state.AwaitingApprovals? && prior.None? then Err(NotAwaiting)
        else Ok(Preflight(payload.signer.value, payload.decision, prior.Some?))
  }

  /** The decisions counted: the proposer's would be left out. */
  function Counted(approvals: seq<StoredApproval>, proposer: Did): seq<SignerDecision> {
    if approvals == [] then []
    else
      var front, last := approvals[..|approvals| - 1], approvals[|approvals| - 1];
      Counted(front, proposer) + if last.signer == proposer then [] else [SignerDecision(last.signer, last.decision)]
  }

  function DecisionMap(entries: seq<SignerDecision>): Decisions {
    if entries == [] then map[]
    else DecisionMap(entries[..|entries| - 1])[entries[|entries| - 1].signer := entries[|entries| - 1].decision]
  }

  function Verdict(s: Stored): Status {
    Evaluate(s.authorization.requirements, DecisionMap(Counted(s.approvals, Proposer(s))))
  }

  function Judged(s: Stored): Stored {
    if !s.state.AwaitingApprovals? then s
    else match Verdict(s)
      case Satisfied => s.(state := ReadyForSubmission)
      case Unreachable => s.(state := State.Rejected)
      case Pending => s
  }

  function Approved(s: Stored, approval: Approval, p: Preflight): Stored {
    Judged(if p.duplicate then s else s.(approvals := s.approvals + [StoredApproval(approval, p.signer, p.decision)]))
  }

  function SubmitApproval(store: Store, hash: EnvelopeHash, approval: Approval, now: int): (Store, Result<State>) {
    if hash !in store.byHash then (store, Err(NotFound))
    else match CheckApproval(store.byHash[hash], approval, now)
      case Err(error) => (store, Err(error))
      case Ok(p) =>
        var s := Approved(store.byHash[hash], approval, p);
        (store.(byHash := store.byHash[hash := s]), Ok(s.state))
  }

  // ---- cancelling and polling -----------------------------------------------------------

  function ValidateCancel(s: Stored, proposer: Did, now: int): Option<Error> {
    if s.state.Cancelled? then Some(NotFound)
    else if Proposer(s) != proposer then Some(NotProposer)
    else if EffectiveState(s, now).Expired? then Some(ActionExpired)
    else if s.state.ReadyForSubmission? then Some(ActionReady)
    else if s.state.Rejected? then Some(ActionRejected)
    else None
  }

  function CancelAction(store: Store, value: JsString, proposer: Did, now: int): (Store, Result<State>) {
    if value !in store.byId || store.byId[value] !in store.byHash then (store, Err(NotFound))
    else
      var s := store.byHash[store.byId[value]];
      match ValidateCancel(s, proposer, now)
      case Some(error) => (store, Err(error))
      case None => (store.(byHash := store.byHash[s.hash := s.(state := Cancelled)]), Ok(Cancelled))
  }

  /** Polling expires every action whose time came. */
  function ExpireAll(store: Store, now: int): Store {
    store.(byHash := map h | h in store.byHash :: ExpireIfNeeded(store.byHash[h], now))
  }

  ghost predicate OrderFiled(store: Store) {
    forall h :: h in store.order ==> h in store.byHash
  }

  /** A poll that reached the first `n` actions. */
  function ExpireFirst(store: Store, n: nat, now: int): Store
    requires n <= |store.order| && OrderFiled(store)
    ensures ExpireFirst(store, n, now).order == store.order
    ensures ExpireFirst(store, n, now).byHash.Keys == store.byHash.Keys
  {
    if n == 0 then store
    else
      var h := store.order[n - 1];
      var before := ExpireFirst(store, n - 1, now);
      before.(byHash := before.byHash[h := ExpireIfNeeded(before.byHash[h], now)])
  }

  // ---- the completed package ------------------------------------------------------------

  function SignaturesOf(approvals: seq<Approval>): set<Signature> {
    set a | a in approvals :: a.signature
  }

  /** The stored approvals, in order, whose signature is not in `existing`. */
  function Collected(approvals: seq<StoredApproval>, existing: set<Signature>): seq<Approval> {
    if approvals == [] then []
    else
      var a := approvals[0].approval;
      (if a.signature in existing then [] else [a]) + Collected(approvals[1..], existing)
  }

  function CompletedPackage(s: Stored, createdAt: int): Package {
    var original := s.package.bundle.approvals;
    s.package.(bundle := Bundle(s.hash, original + Collected(s.approvals, SignaturesOf(original)), createdAt))
  }

  // ---- what every stored action keeps ---------------------------------------------------

  ghost predicate ApprovalOk(s: Stored, e: StoredApproval) {
    && e.approval.hash == s.hash && e.approval.decision == e.decision
    && e.approval.signature.payload == Some(ApprovalPayload(s.hash, Some(e.signer), e.decision))
    && e.signer != Proposer(s)
  }

  /** One final decision per signer, never the proposer's, each bound to this envelope. */
  ghost predicate ApprovalsOk(s: Stored) {
    && (forall e :: e in s.approvals ==> ApprovalOk(s, e))
    && (forall i, j :: 0 <= i < j < |s.approvals| ==> s.approvals[i].signer != s.approvals[j].signer)
  }

  /** The state is what the evaluator says of the approvals stored. */
  ghost predicate JudgedOk(s: Stored) {
    && (s.state.ReadyForSubmission? ==> Verdict(s).Satisfied?)
    && (s.state.Rejected? ==> Verdict(s).Unreachable?)
    && (s.state.AwaitingApprovals? ==> s.approvals == [] || Verdict(s).Pending?)
  }

  ghost predicate StoredOk(s: Stored) {
    && s.hash == HashOf(s.package.envelope) && s.package.bundle.hash == s.hash
    && ApprovalsOk(s) && JudgedOk(s)
  }

  /** Both maps hold the same actions, each under its own keys. */
  ghost predicate Indexed(store: Store) {
    && (forall h :: h in store.byHash ==> store.byHash[h].hash == h && IdValue(h.envelope) in store.byId
                                          && store.byId[IdValue(h.envelope)] == h)
    && (forall v :: v in store.byId ==> store.byId[v] in store.byHash && IdValue(store.byId[v].envelope) == v)
    && (forall h :: h in store.order <==> h in store.byHash) && Unique(store.order)
  }

  ghost predicate StoreOk(store: Store) {
    Indexed(store) && forall h :: h in store.byHash ==> StoredOk(store.byHash[h])
  }

  predicate Allowed(before: State, after: State) {
    before == after || before.AwaitingApprovals? || (before.ReadyForSubmission? && after.Expired?)
  }

  /** Approvals are only appended, and frozen once the action leaves awaitingApprovals. */
  ghost predicate Evolves(a: Stored, b: Stored) {
    && a.package == b.package && a.authorization == b.authorization && a.hash == b.hash
    && a.approvals <= b.approvals && (!a.state.AwaitingApprovals? ==> a.approvals == b.approvals)
    && Allowed(a.state, b.state)
  }

  ghost predicate AllEvolve(store: Store, later: Store) {
    forall h :: h in store.byHash ==> h in later.byHash && Evolves(store.byHash[h], later.byHash[h])
  }

  // ---- lemmas about one action ----------------------------------------------------------

  lemma {:induction false} PriorIsDecision(approvals: seq<StoredApproval>, signer: Did)
    ensures PriorDecision(approvals, signer).None? <==> forall e :: e in approvals ==> e.signer != signer
    ensures PriorDecision(approvals, signer).Some? ==>
              exists e :: e in approvals && e.signer == signer && e.decision == PriorDecision(approvals, signer).value
  {
    if approvals != [] && approvals[0].signer != signer {
      PriorIsDecision(approvals[1..], signer);
    }
  }

  lemma {:induction false} CountedAre(approvals: seq<StoredApproval>, proposer: Did)
    ensures forall d :: d in Counted(approvals, proposer) <==>
              exists e :: e in approvals && e.signer != proposer && d == SignerDecision(e.signer, e.decision)
  {
    if approvals != [] {
      var front, last := approvals[..|approvals| - 1], approvals[|approvals| - 1];
      CountedAre(front, proposer);
      assert approvals == front + [last];
    }
  }

  lemma {:induction false} DecisionMapRecords(entries: seq<SignerDecision>)
    requires Consistent(entries)
    ensures Records(DecisionMap(entries), entries)
  {
    if entries != [] {
      var front := entries[..|entries| - 1];
      assert entries == front + [entries[|entries| - 1]];
      DecisionMapRecords(front);
    }
  }

  /** The evaluator's error for conflicting decisions cannot arise. */
  lemma CountedConsistent(s: Stored)
    requires ApprovalsOk(s)
    ensures Consistent(Counted(s.approvals, Proposer(s)))
  {
    CountedAre(s.approvals, Proposer(s));
    forall a, b | a in Counted(s.approvals, Proposer(s)) && b in Counted(s.approvals, Proposer(s)) &&
        a.signer == b.signer
      ensures a.decision == b.decision
    {
      var e :| e in s.approvals && a == SignerDecision(e.signer, e.decision);
      var f :| f in s.approvals && b == SignerDecision(f.signer, f.decision);
      var i :| 0 <= i < |s.approvals| && s.approvals[i] == e;
      var j :| 0 <= j < |s.approvals| && s.approvals[j] == f;
      assert i == j;
    }
  }

  lemma ExpireKeeps(s: Stored, now: int)
    requires StoredOk(s)
    ensures StoredOk(ExpireIfNeeded(s, now)) && Evolves(s, ExpireIfNeeded(s, now))
  {
    hide Evaluate;
    assert Verdict(ExpireIfNeeded(s, now)) == Verdict(s);
  }

  /** The signer's decision on this envelope is in its signed text, and in the approval beside it. */
  ghost predicate Signed(s: Stored, approval: Approval, signer: Did, decision: Decision) {
    && approval.hash == s.hash && approval.decision == decision && signer != "" && signer != s.package.envelope.proposer
    && approval.signature.payload == Some(ApprovalPayload(s.hash, Some(signer), decision))
  }

  /** It is the signer's first decision, where one is awaited, or the one the signer made before. */
  ghost predicate FirstOrSame(s: Stored, signer: Did, decision: Decision) {
    if s.state.AwaitingApprovals?
    then forall e :: e in s.approvals && e.signer == signer ==> e.decision == decision
    else exists e :: e in s.approvals && e.signer == signer && e.decision == decision
  }

  /** The action is neither cancelled nor expired, nor would be found expired now. */
  ghost predicate Alive(s: Stored, now: int) {
    && !s.state.Cancelled? && !s.state.Expired? && (s.package.envelope.expiresAt > now || s.state.Rejected?)
  }

  /**
   An approval is taken exactly if the action is alive, somebody other than its proposer signed it,
   and it is that signer's first decision on an action that awaits one, or repeats the signer's own.
   A first one is added, and a repeated one adds nothing.
   */
  lemma ApprovalIsExact(s: Stored, approval: Approval, now: int)
    requires ApprovalsOk(s)
    ensures CheckApproval(s, approval, now).Ok? <==>
            && Alive(s, now)
            && exists signer, decision :: Signed(s, approval, signer, decision) && FirstOrSame(s, signer, decision)
    ensures CheckApproval(s, approval, now).Ok? ==>
              var p := CheckApproval(s, approval, now).value;
              var after := Approved(s, approval, p);
              && Signed(s, approval, p.signer, p.decision)
              && after.approvals == if exists e :: e in s.approvals && e.signer == p.signer then s.approvals
                                    else s.approvals + [StoredApproval(approval, p.signer, p.decision)]
  {
    hide Evaluate, Verdict;
    if approval.signature.payload.Some? && approval.signature.payload.value.signer.Some? {
      var signer := approval.signature.payload.value.signer.value;
      PriorIsDecision(s.approvals, signer);
      OneDecisionEach(s, signer);
      var decision := approval.signature.payload.value.decision;
      var prior := PriorDecision(s.approvals, signer);
      assert FirstOrSame(s, signer, decision) <==>
             (prior.Some? && prior.value == decision) || (prior.None? && s.state.AwaitingApprovals?);
      assert CheckApproval(s, approval, now).Ok? <==>
             Alive(s, now) && Signed(s, approval, signer, decision) && FirstOrSame(s, signer, decision);
    }
  }

  lemma OneDecisionEach(s: Stored, signer: Did)
    requires ApprovalsOk(s)
    ensures forall e, f :: e in s.approvals && f in s.approvals && e.signer == signer && f.signer == signer ==> e == f
  {
    forall e, f | e in s.approvals && f in s.approvals && e.signer == signer && f.signer == signer
      ensures e == f
    {
      var i :| 0 <= i < |s.approvals| && s.approvals[i] == e;
      var j :| 0 <= j < |s.approvals| && s.approvals[j] == f;
      assert i == j;
    }
  }

  lemma ApprovedKeeps(s: Stored, approval: Approval, now: int)
    requires StoredOk(s) && CheckApproval(s, approval, now).Ok?
    ensures var after := Approved(s, approval, CheckApproval(s, approval, now).value);
              StoredOk(after) && Evolves(s, after)
  {
    hide Evaluate, Verdict;
    var p := CheckApproval(s, approval, now).value;
    PriorIsDecision(s.approvals, p.signer);
    if !p.duplicate {
      var pushed := s.(approvals := s.approvals + [StoredApproval(approval, p.signer, p.decision)]);
      assert ApprovalOk(s, StoredApproval(approval, p.signer, p.decision));
      assert ApprovalsOk(pushed);
      JudgedKeeps(pushed);
    } else {
      JudgedKeeps(s);
    }
  }

  lemma JudgedKeeps(s: Stored)
    requires s.state.AwaitingApprovals? || JudgedOk(s)
    ensures JudgedOk(Judged(s)) && Judged(s) == s.(state := Judged(s).state) && Allowed(s.state, Judged(s).state)
    ensures ApprovalsOk(s) ==> ApprovalsOk(Judged(s))
  {
    hide Evaluate;
    assert Verdict(Judged(s)) == Verdict(s);
  }

  lemma CancelKeeps(s: Stored, proposer: Did, now: int)
    requires StoredOk(s) && ValidateCancel(s, proposer, now).None?
    ensures StoredOk(s.(state := Cancelled)) && Evolves(s, s.(state := Cancelled))
  {
    hide Evaluate;
  }

  lemma EvolvesTransitive(a: Stored, b: Stored, c: Stored)
    requires Evolves(a, b) && Evolves(b, c)
    ensures Evolves(a, c)
  {
  }

  // ---- runs -----------------------------------------------------------------------------

  datatype Op =
    | Create(package: Package, authorization: Authorization, now: int)
    | Submit(hash: EnvelopeHash, approval: Approval, now: int)
    | Cancel(value: JsString, proposer: Did, now: int)
    | Poll(now: int)

  function Do(store: Store, op: Op): Store {
    match op
    case Create(package, a, now) => CreateWorkflow(store, package, a, now).0
    case Submit(hash, approval, now) => SubmitApproval(store, hash, approval, now).0
    case Cancel(value, proposer, now) => CancelAction(store, value, proposer, now).0
    case Poll(now) => ExpireAll(store, now)
  }

  function Run(store: Store, ops: seq<Op>): Store {
    if ops == [] then store else Do(Run(store, ops[..|ops| - 1]), ops[|ops| - 1])
  }

  lemma Replaced(store: Store, h: EnvelopeHash, s: Stored)
    requires StoreOk(store) && h in store.byHash && StoredOk(s) && Evolves(store.byHash[h], s)
    ensures var later := store.(byHash := store.byHash[h := s]); StoreOk(later) && AllEvolve(store, later)
  {
    hide StoredOk;
  }

  lemma CreateKeeps(store: Store, package: Package, a: Authorization, now: int)
    requires StoreOk(store)
    ensures var later := CreateWorkflow(store, package, a, now).0; StoreOk(later) && AllEvolve(store, later)
  {
    hide StoredOk, ValidateAuthorization, StoreOk, AllEvolve, EffectiveState;
    SameEvolves(store);
    AllStoredOk(store);
    var hash := HashOf(package.envelope);
    if ValidateCreate(store, package, a, now).None? {
      if hash in store.byHash {
        ExpireKeeps(store.byHash[hash], now);
        Replaced(store, hash, ExpireIfNeeded(store.byHash[hash], now));
      } else {
        NewIsOk(package, a);
        NewIsFiled(store, Stored(package, a, hash, AwaitingApprovals, []));
      }
    }
  }

  /** What a new action's authorization has to be: for this envelope, in time, and possible to meet. */
  ghost predicate Acceptable(a: Authorization, hash: EnvelopeHash, now: int) {
    && a.asksForMore && a.hash == hash && (a.expiresAt.None? || a.expiresAt.value > now)
    && var r := a.requirements;
    && (r.anyOf != [] || r.allOf != [] || r.overrides != [])
    && (forall t :: t in r.anyOf || t in r.allOf ==>
          && 1 <= t.threshold <= |t.eligible|
          && forall i, j :: 0 <= i < j < |t.eligible| ==> t.eligible[i] != t.eligible[j])
    && forall i, j :: 0 <= i < j < |r.overrides| ==> r.overrides[i].signer != r.overrides[j].signer
  }

  lemma AcceptableIsExact(a: Authorization, hash: EnvelopeHash, now: int)
    ensures ValidateAuthorization(a, hash, now).None? <==> Acceptable(a, hash, now)
  {
    var r := a.requirements;
    assert forall t :: t in Thresholds(r) <==> t in r.anyOf || t in r.allOf;
    assert Thresholds(r) == [] <==> r.anyOf == [] && r.allOf == [];
    var signers := Signers(r.overrides);
    assert forall i :: 0 <= i < |signers| ==> signers[i] == r.overrides[i].signer;
  }

  /**
   An action is created exactly when its package and authorization fit its envelope, nothing is filed
   under its hash, and its Action ID is not another's.  It then awaits approvals, last in order; a
   filed one is only brought up to the clock.
   */
  lemma CreateIsExact(store: Store, package: Package, a: Authorization, now: int)
    requires StoreOk(store)
    ensures var hash := HashOf(package.envelope);
            var (later, result) := CreateWorkflow(store, package, a, now);
            var fits :=
              && package.payload == package.envelope.content && package.bundle.hash == hash
              && Acceptable(a, hash, now)
              && forall h :: h in store.byHash && h != hash ==>
                   h.envelope.actionId.value != package.envelope.actionId.value;
            && (result.Ok? <==> fits)
            && (!result.Ok? ==> later == store)
            && (result.Ok? ==>
                  && (result.value.created <==> hash !in store.byHash)
                  && later.byHash.Keys == store.byHash.Keys + {hash}
                  && result.value.state == later.byHash[hash].state
                  && (forall h :: h in store.byHash && h != hash ==> later.byHash[h] == store.byHash[h]))
            && (result.Ok? && hash !in store.byHash ==>
                  && later.byHash[hash] == Stored(package, a, hash, AwaitingApprovals, [])
                  && later.order == store.order + [hash])
            && (result.Ok? && hash in store.byHash ==>
                  && later.order == store.order
                  && later.byHash[hash].(state := store.byHash[hash].state) == store.byHash[hash])
  {
    hide StoredOk, Acceptable, ValidateAuthorization;
    AcceptableIsExact(a, HashOf(package.envelope), now);
  }

  /** A new action takes a hash and an Action ID value nothing is filed under. */
  lemma NewIsFiled(store: Store, s: Stored)
    requires StoreOk(store) && StoredOk(s) && s.hash !in store.byHash
    requires IdValue(s.hash.envelope) in store.byId ==> store.byId[IdValue(s.hash.envelope)] == s.hash
    ensures var later :=
              Store(store.byHash[s.hash := s], store.byId[IdValue(s.hash.envelope) := s.hash], store.order + [s.hash]);
            StoreOk(later) && AllEvolve(store, later)
  {
    hide StoredOk, Evolves;
    SameEvolves(store);
    var h := s.hash;
    assert forall k :: k in store.order + [h] <==> k in store.order || k == h;
  }

  lemma SameEvolves(store: Store)
    ensures AllEvolve(store, store)
  {
  }

  lemma AllStoredOk(store: Store)
    requires StoreOk(store)
    ensures forall h :: h in store.byHash ==> StoredOk(store.byHash[h])
  {
  }

  lemma NewIsOk(package: Package, a: Authorization)
    requires package.bundle.hash == HashOf(package.envelope)
    ensures StoredOk(Stored(package, a, HashOf(package.envelope), AwaitingApprovals, []))
  {
  }

  lemma {:induction false} ExpireFirstIs(store: Store, n: nat, now: int, k: nat)
    requires OrderFiled(store) && Unique(store.order) && n <= |store.order| && k < |store.order|
    ensures var h := store.order[k];
            h in store.byHash && ExpireFirst(store, n, now).byHash[h] ==
            if k < n then ExpireIfNeeded(store.byHash[h], now) else store.byHash[h]
  {
    hide EffectiveState;
    if n > 0 {
      ExpireFirstIs(store, n - 1, now, k);
      OrderDistinct(store.order, k, n - 1);
      hide Unique, OrderFiled;
    }
  }

  lemma OrderDistinct(order: seq<EnvelopeHash>, i: nat, j: nat)
    requires Unique(order) && i < |order| && j < |order|
    ensures i != j <==> order[i] != order[j]
  {
  }

  lemma {:induction false} ExpireFirstIds(store: Store, n: nat, now: int)
    requires OrderFiled(store) && n <= |store.order|
    ensures ExpireFirst(store, n, now).byId == store.byId
  {
    if n > 0 {
      ExpireFirstIds(store, n - 1, now);
    }
  }

  lemma Placed(store: Store, h: EnvelopeHash) returns (k: nat)
    requires Indexed(store) && h in store.byHash
    ensures k < |store.order| && store.order[k] == h
  {
    assert h in store.order;
    k :| 0 <= k < |store.order| && store.order[k] == h;
  }

  lemma OrderIsFiled(store: Store)
    requires Indexed(store)
    ensures OrderFiled(store) && Unique(store.order)
  {
  }

  /** A poll reaches every action. */
  lemma ExpireFirstIsAll(store: Store, now: int)
    requires Indexed(store)
    ensures OrderFiled(store) && OrderFiled(ExpireAll(store, now))
    ensures ExpireFirst(store, |store.order|, now) == ExpireAll(store, now)
  {
    OrderIsFiled(store);
    assert OrderFiled(ExpireAll(store, now));
    hide EffectiveState, Indexed, Unique, OrderFiled;
    var later := ExpireFirst(store, |store.order|, now);
    ExpireFirstIds(store, |store.order|, now);
    forall h | h in store.byHash
      ensures later.byHash[h] == ExpireIfNeeded(store.byHash[h], now)
    {
      var k := Placed(store, h);
      ExpireFirstIs(store, |store.order|, now, k);
    }
    assert later.byHash == ExpireAll(store, now).byHash;
  }

  lemma PollKeeps(store: Store, now: int)
    requires StoreOk(store)
    ensures StoreOk(ExpireAll(store, now)) && AllEvolve(store, ExpireAll(store, now))
  {
    hide StoredOk, EffectiveState, Evolves;
    forall h | h in store.byHash
      ensures StoredOk(ExpireIfNeeded(store.byHash[h], now)) &&
                Evolves(store.byHash[h], ExpireIfNeeded(store.byHash[h], now))
    {
      ExpireKeeps(store.byHash[h], now);
    }
  }

  lemma SubmitKeeps(store: Store, hash: EnvelopeHash, approval: Approval, now: int)
    requires StoreOk(store)
    ensures var later := SubmitApproval(store, hash, approval, now).0; StoreOk(later) && AllEvolve(store, later)
  {
    hide StoredOk, Approved, CheckApproval;
    if hash in store.byHash && CheckApproval(store.byHash[hash], approval, now).Ok? {
      ApprovedKeeps(store.byHash[hash], approval, now);
      Replaced(store, hash,
          Approved(store.byHash[hash], approval, CheckApproval(store.byHash[hash], approval, now).value));
    } else {
      SameEvolves(store);
    }
  }

  /** An action is cancelled exactly by its proposer, while it awaits approvals and has not expired. */
  lemma CancelIsExact(store: Store, value: JsString, proposer: Did, now: int)
    requires StoreOk(store)
    ensures var (later, result) := CancelAction(store, value, proposer, now);
            && (result.Ok? <==>
                  exists h :: h in store.byHash && h.envelope.actionId.value == value && h.envelope.proposer == proposer
                              && store.byHash[h].state.AwaitingApprovals? && h.envelope.expiresAt > now)
            && (result.Ok? ==>
                  && later.byHash.Keys == store.byHash.Keys
                  && forall h :: h in store.byHash ==>
                       later.byHash[h]
                       == if h.envelope.actionId.value == value then store.byHash[h].(state := Cancelled)
                          else store.byHash[h])
            && (!result.Ok? ==> later == store)
  {
    hide JudgedOk, ApprovalsOk;
    forall h | h in store.byHash
      ensures store.byHash[h].hash == h && HashOf(store.byHash[h].package.envelope) == h
    {
      assert StoredOk(store.byHash[h]);
    }
    hide StoredOk;
  }

  lemma CancelStoreKeeps(store: Store, value: JsString, proposer: Did, now: int)
    requires StoreOk(store)
    ensures var later := CancelAction(store, value, proposer, now).0; StoreOk(later) && AllEvolve(store, later)
  {
    hide StoredOk, ValidateCancel;
    if value in store.byId && ValidateCancel(store.byHash[store.byId[value]], proposer, now).None? {
      CancelKeeps(store.byHash[store.byId[value]], proposer, now);
      Replaced(store, store.byId[value], store.byHash[store.byId[value]].(state := Cancelled));
    } else {
      SameEvolves(store);
    }
  }

  lemma DoKeeps(store: Store, op: Op)
    requires StoreOk(store)
    ensures StoreOk(Do(store, op)) && AllEvolve(store, Do(store, op))
  {
    hide StoreOk, AllEvolve, CreateWorkflow, SubmitApproval, CancelAction, ExpireAll;
    match op
    case Create(package, a, now) => CreateKeeps(store, package, a, now);
    case Submit(hash, approval, now) => SubmitKeeps(store, hash, approval, now);
    case Cancel(value, proposer, now) => CancelStoreKeeps(store, value, proposer, now);
    case Poll(now) => PollKeeps(store, now);
  }

  /**
   Over any run: both maps hold the same actions under their own keys; a stored action only
   moves from awaitingApprovals to ready, rejected, cancelled or expired and from ready to
   expired; its approvals are only appended, and frozen once it left awaitingApprovals; and
   ready and rejected are the evaluator's verdict on the approvals stored.
   */
  lemma {:induction false} RunEvolves(store: Store, ops: seq<Op>)
    requires StoreOk(store)
    ensures StoreOk(Run(store, ops)) && AllEvolve(store, Run(store, ops))
  {
    hide StoreOk, Do;
    if ops != [] {
      RunEvolves(store, ops[..|ops| - 1]);
      var mid := Run(store, ops[..|ops| - 1]);
      DoKeeps(mid, ops[|ops| - 1]);
      forall h | h in store.byHash
        ensures h in Do(mid, ops[|ops| - 1]).byHash && Evolves(store.byHash[h], Do(mid, ops[|ops| - 1]).byHash[h])
      {
        EvolvesTransitive(store.byHash[h], mid.byHash[h], Do(mid, ops[|ops| - 1]).byHash[h]);
      }
    }
  }

  /** This call looks at the action's clock: every poll does, and a creation of the same action. */
  ghost predicate LooksAt(store: Store, op: Op, h: EnvelopeHash, now: int) {
    match op
    case Poll(at) => now == at
    case Create(package, a, at) =>
      now == at && HashOf(package.envelope) == h && ValidateCreate(store, package, a, at).None?
    case _ => false
  }

  /** The action is open, and this call, at or after its expiry, looks at its clock. */
  ghost predicate Expires(store: Store, op: Op, h: EnvelopeHash) {
    && h in store.byHash && (store.byHash[h].state.AwaitingApprovals? || store.byHash[h].state.ReadyForSubmission?)
    && exists now :: LooksAt(store, op, h, now) && h.envelope.expiresAt <= now
  }

  ghost predicate ExpiredAt(store: Store, h: EnvelopeHash) {
    h in store.byHash && store.byHash[h].state.Expired?
  }

  lemma PollExpires(store: Store, now: int, h: EnvelopeHash)
    requires StoreOk(store)
    ensures ExpiredAt(Do(store, Poll(now)), h) <==> ExpiredAt(store, h) || Expires(store, Poll(now), h)
  {
    hide Evaluate, Verdict;
    assert h in store.byHash ==> StoredOk(store.byHash[h]);
    assert LooksAt(store, Poll(now), h, now);
  }

  lemma CreateExpires(store: Store, package: Package, a: Authorization, now: int, h: EnvelopeHash)
    requires StoreOk(store)
    ensures ExpiredAt(Do(store, Create(package, a, now)), h) <==>
            ExpiredAt(store, h) || Expires(store, Create(package, a, now), h)
  {
    hide Evaluate, Verdict, ValidateCreate;
    assert h in store.byHash ==> StoredOk(store.byHash[h]);
    assert LooksAt(store, Create(package, a, now), h, now) <==>
           HashOf(package.envelope) == h && ValidateCreate(store, package, a, now).None?;
  }

  lemma OthersExpireNothing(store: Store, op: Op, h: EnvelopeHash)
    requires StoreOk(store) && (op.Submit? || op.Cancel?)
    ensures ExpiredAt(Do(store, op), h) <==> ExpiredAt(store, h)
    ensures !Expires(store, op, h)
  {
    hide Evaluate, Verdict;
    if op.Cancel? && op.value in store.byId {
      assert StoredOk(store.byHash[store.byId[op.value]]);
    }
  }

  lemma StepExpires(store: Store, op: Op, h: EnvelopeHash)
    requires StoreOk(store)
    ensures ExpiredAt(Do(store, op), h) <==> ExpiredAt(store, h) || Expires(store, op, h)
  {
    hide Do, StoreOk, Expires, ExpiredAt;
    match op
    case Poll(now) => PollExpires(store, now, h);
    case Create(package, a, now) => CreateExpires(store, package, a, now, h);
    case _ => OthersExpireNothing(store, op, h);
  }

  lemma EmptyIsOk()
    ensures StoreOk(EMPTY_STORE)
  {
  }

  /** Over every run: an action is expired exactly if a call that looks at its clock found it open past its expiry. */
  lemma {:induction false} ExpiredIsExact(ops: seq<Op>, h: EnvelopeHash)
    ensures ExpiredAt(Run(EMPTY_STORE, ops), h) <==>
            exists i :: 0 <= i < |ops| && Expires(Run(EMPTY_STORE, ops[..i]), ops[i], h)
  {
    hide Do, StoreOk, Expires;
    if ops != [] {
      var front := ops[..|ops| - 1];
      EmptyIsOk();
      RunEvolves(EMPTY_STORE, front);
      StepExpires(Run(EMPTY_STORE, front), ops[|ops| - 1], h);
      ExpiredIsExact(front, h);
      forall i | 0 <= i < |front|
        ensures front[..i] == ops[..i] && front[i] == ops[i]
      {
      }
      assert ops[..|ops| - 1] == front;
    }
  }

  /**
   An action whose authorization names overrides and no thresholds leaves awaitingApprovals on
   the first decision recorded, whatever it is: ready unless that decision is a veto.
   */
  lemma OverridesAloneSettleAtOnce(s: Stored, approval: Approval, now: int)
    requires StoredOk(s) && s.state.AwaitingApprovals? && Thresholds(s.authorization.requirements) == []
    requires CheckApproval(s, approval, now).Ok?
    ensures var after := Approved(s, approval, CheckApproval(s, approval, now).value);
            var decisions := DecisionMap(Counted(after.approvals, Proposer(s)));
            after.state == if Vetoed(s.authorization.requirements, decisions) then State.Rejected
                else ReadyForSubmission
  {
    var r := s.authorization.requirements;
    assert |r.anyOf + r.allOf| == 0;
    assert r.anyOf == [] && r.allOf == [];
    var p := CheckApproval(s, approval, now).value;
    hide CheckApproval, Evaluate, Vetoed, DecisionMap, Counted, StoredOk, Thresholds;
    var x := if p.duplicate then s else s.(approvals := s.approvals + [StoredApproval(approval, p.signer, p.decision)]);
    OverridesAloneAskForNothing(r, DecisionMap(Counted(x.approvals, Proposer(x))));
  }

  // ---- the completed package ------------------------------------------------------------

  lemma {:induction false} CollectedAre(approvals: seq<StoredApproval>, existing: set<Signature>)
    ensures forall a :: a in Collected(approvals, existing) <==>
              a.signature !in existing && exists e :: e in approvals && e.approval == a
  {
    if approvals != [] {
      CollectedAre(approvals[1..], existing);
      assert approvals == [approvals[0]] + approvals[1..];
    }
  }

  lemma {:induction false} CollectedOnce(approvals: seq<StoredApproval>, existing: set<Signature>)
    requires forall i, j :: 0 <= i < j < |approvals| ==>
               approvals[i].approval.signature != approvals[j].approval.signature
    ensures forall i, j :: 0 <= i < j < |Collected(approvals, existing)| ==>
              Collected(approvals, existing)[i].signature != Collected(approvals, existing)[j].signature
  {
    if approvals != [] {
      CollectedOnce(approvals[1..], existing);
      CollectedAre(approvals[1..], existing);
      var rest := Collected(approvals[1..], existing);
      forall k | 0 <= k < |rest|
        ensures rest[k].signature != approvals[0].approval.signature
      {
        assert rest[k] in rest;
        var e :| e in approvals[1..] && e.approval == rest[k];
        var i :| 0 <= i < |approvals[1..]| && approvals[1..][i] == e;
        assert approvals[i + 1] == e;
      }
    }
  }

  /**
   The completed package is the original approvals followed by exactly the stored approvals
   not already there by signature, each signature of which it adds once; every added approval
   is bound to the action's envelope, as the package is.
   */
  lemma CompletedIsExact(s: Stored, createdAt: int)
    requires StoredOk(s)
    ensures var original, done := s.package.bundle.approvals, CompletedPackage(s, createdAt);
            var added := done.bundle.approvals[|original|..];
            && done.envelope == s.package.envelope && done.bundle.hash == HashOf(done.envelope)
            && original <= done.bundle.approvals
            && (forall a :: a in added <==>
                 a.signature !in SignaturesOf(original) && exists e :: e in s.approvals && e.approval == a)
            && (forall e :: e in s.approvals ==> e.approval.signature in SignaturesOf(done.bundle.approvals))
            && (forall i, j :: 0 <= i < j < |added| ==> added[i].signature != added[j].signature)
            && (forall a :: a in added ==> a.hash == done.bundle.hash)
  {
    hide Evaluate, JudgedOk;
    var original := s.package.bundle.approvals;
    var existing := SignaturesOf(original);
    var added := Collected(s.approvals, existing);
    assert CompletedPackage(s, createdAt).bundle.approvals[|original|..] == added;
    CollectedAre(s.approvals, existing);
    SignaturesDiffer(s);
    CollectedOnce(s.approvals, existing);
    forall e | e in s.approvals
      ensures e.approval.signature in SignaturesOf(original + added)
    {
      if e.approval.signature in existing {
        var a :| a in original && a.signature == e.approval.signature;
        assert a in original + added;
      } else {
        assert e.approval in original + added;
      }
    }
  }

  lemma SignaturesDiffer(s: Stored)
    requires ApprovalsOk(s)
    ensures forall i, j :: 0 <= i < j < |s.approvals| ==>
              s.approvals[i].approval.signature != s.approvals[j].approval.signature
  {
    forall i, j | 0 <= i < j < |s.approvals|
      ensures s.approvals[i].approval.signature != s.approvals[j].approval.signature
    {
      assert ApprovalOk(s, s.approvals[i]) && ApprovalOk(s, s.approvals[j]);
    }
  }

  // ---- what a poll reports --------------------------------------------------------------

  /** The first threshold that lists this signer. */
  function ThresholdFor(ts: seq<Threshold>, did: Did): Option<Threshold> {
    if ts == [] then None
    else if did in ts[0].eligible then Some(ts[0])
    else ThresholdFor(ts[1..], did)
  }

  function OverrideFor(os: seq<Override>, did: Did): Option<Override> {
    if os == [] then None
    else if os[0].signer == did then Some(os[0])
    else OverrideFor(os[1..], did)
  }

  /** What the first threshold that lists the signer names, else what its override permits. */
  function RequestedDecision(threshold: Option<Threshold>, override: Option<Override>): Decision {
    if threshold.Some? && threshold.value.decision.Some? then threshold.value.decision.value
    else if override.Some? && "approve" in override.value.permissions then Approve
    else Reject
  }

  /** The decision this signer is asked for, if any. */
  function RequestFor(s: Stored, did: Did): Option<Decision> {
    var threshold := ThresholdFor(Thresholds(s.authorization.requirements), did);
    var override := OverrideFor(s.authorization.requirements.overrides, did);
    if (threshold.None? && override.None?) || PriorDecision(s.approvals, did).Some? then None
    else Some(RequestedDecision(threshold, override))
  }

  /** The request names a decision, or an override with approve stands in for it. */
  predicate RequestsWhatCounts(t: Threshold, override: Option<Override>) {
    t.decision.Some? || (override.Some? && "approve" in override.value.permissions)
  }

  lemma {:induction false} ThresholdForLists(ts: seq<Threshold>, did: Did)
    ensures var t := ThresholdFor(ts, did); t.Some? ==> t.value in ts && did in t.value.eligible
  {
    if ts != [] && did !in ts[0].eligible {
      ThresholdForLists(ts[1..], did);
    }
  }

  /**
   A signer who decides as it is asked is counted by the first threshold that lists it exactly
   when that threshold names its decision or the signer has an override with approve.  Otherwise
   it is asked to reject where the evaluator counts approvals, and its decision is lost to the
   threshold.
   */
  lemma RequestIsCounted(s: Stored, did: Did, decisions: Decisions)
    requires did !in decisions && PriorDecision(s.approvals, did).None?
    requires ThresholdFor(Thresholds(s.authorization.requirements), did).Some?
    ensures var t := ThresholdFor(Thresholds(s.authorization.requirements), did).value;
            var override := OverrideFor(s.authorization.requirements.overrides, did);
            var asked := RequestFor(s, did);
            && asked.Some?
            && (did in Matching(t, decisions[did := asked.value]) <==> RequestsWhatCounts(t, override))
            && (asked.value == Expected(t) <==> RequestsWhatCounts(t, override))
            && did in Undecided(t, decisions) && did !in Undecided(t, decisions[did := asked.value])
  {
    ThresholdForLists(Thresholds(s.authorization.requirements), did);
  }

  /** A workflow that one approval would complete is rejected when its only signer does as asked. */
  lemma FollowedRequestRejects(s: Stored, signer: Did)
    requires s.state.AwaitingApprovals? && s.approvals == [] && signer != Proposer(s)
    requires s.authorization.requirements == Requirements([], [Threshold(1, [signer], None)], [])
    ensures RequestFor(s, signer) == Some(Reject)
    ensures forall approval :: Approved(s, approval, Preflight(signer, Reject, false)).state == State.Rejected
    ensures forall approval :: Approved(s, approval, Preflight(signer, Approve, false)).state == ReadyForSubmission
  {
    assert Thresholds(s.authorization.requirements) == [Threshold(1, [signer], None)];
    forall approval
      ensures Approved(s, approval, Preflight(signer, Reject, false)).state == State.Rejected
      ensures Approved(s, approval, Preflight(signer, Approve, false)).state == ReadyForSubmission
    {
      OneDecisionJudges(s, signer, approval, Reject);
      OneDecisionJudges(s, signer, approval, Approve);
    }
  }

  lemma OneDecisionJudges(s: Stored, signer: Did, approval: Approval, decision: Decision)
    requires s.state.AwaitingApprovals? && s.approvals == [] && signer != Proposer(s)
    requires s.authorization.requirements == Requirements([], [Threshold(1, [signer], None)], [])
    ensures Approved(s, approval, Preflight(signer, decision, false)).state ==
            if decision.Approve? then ReadyForSubmission else State.Rejected
  {
    hide Evaluate;
    var x := s.(approvals := s.approvals + [StoredApproval(approval, signer, decision)]);
    assert x.approvals[..0] == [];
    assert Counted(x.approvals, Proposer(x)) == Counted([], Proposer(x)) + [SignerDecision(signer, decision)];
    OneDecision(signer, decision);
    OneThreshold(Threshold(1, [signer], None), s.authorization.requirements, signer, decision);
  }

  lemma OneDecision(signer: Did, decision: Decision)
    ensures DecisionMap([SignerDecision(signer, decision)]) == map[signer := decision]
  {
    var entries := [SignerDecision(signer, decision)];
    assert entries[..0] == [];
    assert DecisionMap(entries[..0]) == map[];
  }

  lemma OneThreshold(t: Threshold, r: Requirements, signer: Did, decision: Decision)
    requires t == Threshold(1, [signer], None) && r == Requirements([], [t], [])
    ensures Evaluate(r, map[signer := decision]) == if decision.Approve? then Satisfied else Unreachable
  {
    var decisions: Decisions := map[signer := decision];
    assert Undecided(t, decisions) == {};
    assert Matching(t, decisions) == if decision.Approve? then {signer} else {};
    assert t in r.allOf;
  }

  datatype ApprovalRequest = ApprovalRequest(hash: EnvelopeHash, requested: Decision)

  datatype ActionUpdate = ActionUpdate(hash: EnvelopeHash, state: State, completed: Option<Package>)

  function UpdateFor(s: Stored, createdAt: int): ActionUpdate {
    ActionUpdate(s.hash, s.state, if s.state.ReadyForSubmission? then Some(CompletedPackage(s, createdAt)) else None)
  }

  function RequestOf(s: Stored, did: Did): seq<ApprovalRequest> {
    if s.state.AwaitingApprovals? && RequestFor(s, did).Some? then [ApprovalRequest(s.hash, RequestFor(s, did).value)]
        else []
  }

  function UpdateOf(s: Stored, did: Did, createdAt: int): seq<ActionUpdate> {
    if Proposer(s) == did then [UpdateFor(s, createdAt)] else []
  }

  /** The reports on the first `n` actions, in order of creation. */
  function Requests(store: Store, did: Did, n: nat): seq<ApprovalRequest>
    requires n <= |store.order| && OrderFiled(store)
  {
    if n == 0 then [] else Requests(store, did, n - 1) + RequestOf(store.byHash[store.order[n - 1]], did)
  }

  function Updates(store: Store, did: Did, createdAt: int, n: nat): seq<ActionUpdate>
    requires n <= |store.order| && OrderFiled(store)
  {
    if n == 0 then []
    else Updates(store, did, createdAt, n - 1) + UpdateOf(store.byHash[store.order[n - 1]], did, createdAt)
  }

  // ---- what a report says ---------------------------------------------------------------

  lemma {:induction false} RequestsAre(store: Store, did: Did, n: nat)
    requires n <= |store.order| && OrderFiled(store)
    ensures forall q :: q in Requests(store, did, n) <==>
              exists i :: 0 <= i < n && q in RequestOf(store.byHash[store.order[i]], did)
  {
    hide RequestOf;
    if n > 0 {
      RequestsAre(store, did, n - 1);
    }
  }

  lemma {:induction false} UpdatesAre(store: Store, did: Did, createdAt: int, n: nat)
    requires n <= |store.order| && OrderFiled(store)
    ensures forall u :: u in Updates(store, did, createdAt, n) <==>
              exists i :: 0 <= i < n && u in UpdateOf(store.byHash[store.order[i]], did, createdAt)
  {
    hide UpdateOf;
    if n > 0 {
      UpdatesAre(store, did, createdAt, n - 1);
    }
  }

  /** Somebody lists this signer: a threshold as eligible, or an override. */
  ghost predicate Listed(r: Requirements, did: Did) {
    || (exists t :: (t in r.anyOf || t in r.allOf) && did in t.eligible)
    || (exists o :: o in r.overrides && o.signer == did)
  }

  lemma {:induction false} ThresholdForFinds(ts: seq<Threshold>, did: Did)
    ensures ThresholdFor(ts, did).Some? <==> exists t :: t in ts && did in t.eligible
  {
    if ts != [] {
      ThresholdForFinds(ts[1..], did);
      assert ts == [ts[0]] + ts[1..];
    }
  }

  lemma {:induction false} OverrideForFinds(os: seq<Override>, did: Did)
    ensures OverrideFor(os, did).Some? <==> exists o :: o in os && o.signer == did
  {
    if os != [] {
      OverrideForFinds(os[1..], did);
      assert os == [os[0]] + os[1..];
    }
  }

  lemma AsksWhom(s: Stored, did: Did)
    ensures RequestOf(s, did) != [] <==>
            && s.state.AwaitingApprovals? && Listed(s.authorization.requirements, did)
            && forall e :: e in s.approvals ==> e.signer != did
    ensures forall q :: q in RequestOf(s, did) ==> q.hash == s.hash
  {
    PriorIsDecision(s.approvals, did);
    ThresholdForFinds(Thresholds(s.authorization.requirements), did);
    OverrideForFinds(s.authorization.requirements.overrides, did);
    hide PriorDecision, ThresholdFor, OverrideFor;
  }

  lemma FiledUnderHash(store: Store)
    requires StoreOk(store)
    ensures forall h :: h in store.byHash ==>
              store.byHash[h].hash == h && store.byHash[h].package.envelope == h.envelope
  {
    forall h | h in store.byHash
      ensures HashOf(store.byHash[h].package.envelope) == h
    {
      assert StoredOk(store.byHash[h]);
    }
  }

  /**
   A report asks a signer about an action exactly if it awaits approvals, lists the signer, and has
   no decision of the signer's yet.
   */
  lemma RequestIsExact(store: Store, did: Did, h: EnvelopeHash)
    requires StoreOk(store) && OrderFiled(store)
    ensures (exists q :: q in Requests(store, did, |store.order|) && q.hash == h) <==>
            && h in store.byHash && store.byHash[h].state.AwaitingApprovals?
            && Listed(store.byHash[h].authorization.requirements, did)
            && forall e :: e in store.byHash[h].approvals ==> e.signer != did
  {
    RequestsAre(store, did, |store.order|);
    FiledUnderHash(store);
    forall k | k in store.byHash
      ensures forall q :: q in RequestOf(store.byHash[k], did) ==> q.hash == k
    {
      AsksWhom(store.byHash[k], did);
    }
    if h in store.byHash {
      AsksWhom(store.byHash[h], did);
      var i := Placed(store, h);
      hide StoreOk, Requests, Listed, RequestOf;
      var asked := RequestOf(store.byHash[store.order[i]], did);
      assert asked != [] ==> asked[0] in asked && asked[0].hash == h;
    }
  }

  /**
   A report tells its proposer, and nobody else, of each action's state, with the completed package
   just when it is ready.
   */
  lemma UpdateIsExact(store: Store, did: Did, createdAt: int, u: ActionUpdate)
    requires StoreOk(store) && OrderFiled(store)
    ensures u in Updates(store, did, createdAt, |store.order|) <==>
            && u.hash in store.byHash && u.hash.envelope.proposer == did && u.state == store.byHash[u.hash].state
            && (u.completed.Some? <==> u.state.ReadyForSubmission?)
            && (u.completed.Some? ==> u.completed.value == CompletedPackage(store.byHash[u.hash], createdAt))
  {
    UpdatesAre(store, did, createdAt, |store.order|);
    FiledUnderHash(store);
    if u.hash in store.byHash {
      var i := Placed(store, u.hash);
      hide StoreOk, Updates, CompletedPackage;
    }
  }
}
