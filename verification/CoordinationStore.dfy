/**
 The approval workflow as the coordination service holds it: one object per action, filed in
 two maps and updated in place.  Every method is proved to do what module WorkflowModel says.
 */
module CoordinationStore {
  import opened JsonKey
  import opened Protocol
  import opened ApprovalEvaluator
  import opened WorkflowModel

  class StoredAction {
    const package: Package
    const authorization: Authorization
    const hash: EnvelopeHash
    var state: State
    var approvals: seq<StoredApproval>

    constructor (package: Package, authorization: Authorization, hash: EnvelopeHash)
      ensures View() == Stored(package, authorization, hash, AwaitingApprovals, [])
    {
      this.package := package;
      this.authorization := authorization;
      this.hash := hash;
      state := AwaitingApprovals;
      approvals := [];
    }

    /** The object's fields as a value. */
    function View(): Stored
      reads this
    {
      Stored(package, authorization, hash, state, approvals)
    }

    method ExpireIfNeeded(now: int)
      modifies this`state
      ensures View() == WorkflowModel.ExpireIfNeeded(old(View()), now)
    {
      if state.Cancelled? || state.Expired? || state.Rejected? {
        return;
      }
      if package.envelope.expiresAt <= now {
        state := State.Expired;
      }
    }

    /** Records a decision unless it is a repeat, and takes the evaluator's verdict. */
    method Accept(approval: Approval, p: Preflight)
      requires StoredOk(View()) && exists now :: CheckApproval(View(), approval, now) == Ok(p)
      modifies this
      ensures View() == Approved(old(View()), approval, p)
    {
      hide Evaluate, JudgedOk;
      ghost var start := View();
      ghost var now :| CheckApproval(start, approval, now) == Ok(p);
      ApprovedKeeps(start, approval, now);
      JudgedFields(if p.duplicate then start
          else start.(approvals := start.approvals + [StoredApproval(approval, p.signer, p.decision)]));
      if !p.duplicate {
        approvals := approvals + [StoredApproval(approval, p.signer, p.decision)];
      }
      if state.AwaitingApprovals? {
        var entries := Counted(approvals, package.envelope.proposer);
        var decisions := ImmutableDecisionMap(entries);
        CountedConsistent(View());
        DecisionMapRecords(entries);
        RecordsOnce(decisions.value, DecisionMap(entries), entries);
        var status := Evaluate(authorization.requirements, decisions.value);
        if status.Satisfied? {
          state := ReadyForSubmission;
        } else if status.Unreachable? {
          state := State.Rejected;
        }
      }
    }
  }

  lemma JudgedFields(s: Stored)
    ensures Judged(s) == s.(state := Judged(s).state)
  {
    hide Evaluate;
  }

  lemma RecordsOnce(a: Decisions, b: Decisions, entries: seq<SignerDecision>)
    requires Records(a, entries) && Records(b, entries)
    ensures a == b
  {
    assert forall d :: d in a ==> d in b && a[d] == b[d];
  }

  class CoordinationStore {
    var actionsById: map<JsString, StoredAction>
    var actionsByEnvelopeHash: map<EnvelopeHash, StoredAction>
    var order: seq<EnvelopeHash>

    /** The two maps hold the same objects. */
    ghost predicate Aliased()
      reads this
    {
      && (forall h :: h in actionsByEnvelopeHash ==>
            && actionsByEnvelopeHash[h].hash == h && IdValue(h.envelope) in actionsById
            && actionsById[IdValue(h.envelope)] == actionsByEnvelopeHash[h])
      && (forall v :: v in actionsById ==>
            && actionsById[v].hash in actionsByEnvelopeHash
            && actionsByEnvelopeHash[actionsById[v].hash] == actionsById[v])
    }

    ghost function View(): Store
      reads this, actionsByEnvelopeHash.Values
    {
      Store(map h | h in actionsByEnvelopeHash :: actionsByEnvelopeHash[h].View(),
            map v | v in actionsById :: actionsById[v].hash,
            order)
    }

    ghost predicate Valid()
      reads this, actionsByEnvelopeHash.Values
    {
      Aliased() && StoreOk(View())
    }

    constructor ()
      ensures Valid() && View() == EMPTY_STORE
    {
      actionsById := map[];
      actionsByEnvelopeHash := map[];
      order := [];
    }

    /** What the maps hold, seen as a value. */
    lemma Holds()
      requires Valid()
      ensures StoreOk(View()) && Aliased() && View().order == order
      ensures forall h :: h in actionsByEnvelopeHash <==> h in View().byHash
      ensures forall h :: h in actionsByEnvelopeHash ==>
                actionsByEnvelopeHash[h].View() == View().byHash[h] && StoredOk(View().byHash[h]) &&
                    actionsByEnvelopeHash[h].hash == h
      ensures forall v :: v in actionsById <==> v in View().byId
      ensures forall v :: v in actionsById ==>
                && actionsById[v].hash == View().byId[v] && View().byId[v] in View().byHash
                && actionsByEnvelopeHash[View().byId[v]] == actionsById[v]
    {
      hide StoredOk;
    }

    /** What is filed under one hash, seen as a value. */
    lemma FiledAt(hash: EnvelopeHash)
      requires Valid()
      ensures StoreOk(View()) && (hash in actionsByEnvelopeHash <==> hash in View().byHash)
      ensures hash in actionsByEnvelopeHash ==>
                && actionsByEnvelopeHash[hash].View() == View().byHash[hash]
                && StoredOk(View().byHash[hash]) && actionsByEnvelopeHash[hash].hash == hash
    {
      Holds();
    }

    /** What is filed under one Action ID value, seen as a value. */
    lemma NamedAt(value: JsString)
      requires Valid()
      ensures StoreOk(View()) && (value in actionsById <==> value in View().byId)
      ensures value in actionsById ==>
                && var hash := View().byId[value];
                && actionsById[value].hash == hash && hash in View().byHash && hash in actionsByEnvelopeHash
                && actionsById[value] == actionsByEnvelopeHash[hash]
                && actionsById[value].View() == View().byHash[hash]
    {
      Holds();
    }

    /** One action changed, and nothing else. */
    twostate lemma OneChanged(hash: EnvelopeHash)
      requires old(Valid()) && unchanged(this) && hash in actionsByEnvelopeHash
      requires forall h :: h in actionsByEnvelopeHash && h != hash ==> unchanged(actionsByEnvelopeHash[h])
      ensures View() == old(View()).(byHash := old(View()).byHash[hash := actionsByEnvelopeHash[hash].View()])
      ensures Aliased()
    {
      hide StoredOk, StoreOk;
      var later := old(View()).byHash[hash := actionsByEnvelopeHash[hash].View()];
      assert View().byHash == later;
    }

    /** Distinct hashes are filed as distinct objects. */
    lemma Distinct(hash: EnvelopeHash)
      requires Aliased() && hash in actionsByEnvelopeHash
      ensures forall h :: h in actionsByEnvelopeHash && h != hash ==>
                actionsByEnvelopeHash[h] != actionsByEnvelopeHash[hash]
    {
    }

    method CreateWorkflow(package: Package, a: Authorization, now: int) returns (r: Result<Created>)
      requires Valid()
      modifies this, actionsByEnvelopeHash.Values
      ensures Valid() && (View(), r) == WorkflowModel.CreateWorkflow(old(View()), package, a, now)
      ensures forall s :: s in actionsByEnvelopeHash.Values ==> s in old(actionsByEnvelopeHash.Values) || fresh(s)
    {
      ghost var start := View();
      Holds();
      CreateKeeps(start, package, a, now);
      hide StoreOk, StoredOk, ValidateAuthorization, EffectiveState, View, Aliased, AllEvolve;
      var hash := HashOf(package.envelope);
      var value := IdValue(package.envelope);
      if package.payload != package.envelope.content || package.bundle.hash != hash {
        return Err(InvalidRequest);
      }
      var invalid := ValidateAuthorization(a, hash, now);
      if invalid.Some? {
        return Err(invalid.value);
      }
      if value in actionsById && actionsById[value].hash != hash {
        return Err(IdConflict);
      }
      if hash in actionsByEnvelopeHash {
        var existing := actionsByEnvelopeHash[hash];
        Distinct(hash);
        existing.ExpireIfNeeded(now);
        OneChanged(hash);
        return Ok(Created(existing.state, false));
      }
      File(package, a, hash);
      r := Ok(Created(AwaitingApprovals, true));
    }

    /** Files a new action under its hash and its Action ID's value. */
    method File(package: Package, a: Authorization, hash: EnvelopeHash)
      requires Valid() && hash == HashOf(package.envelope) && hash !in actionsByEnvelopeHash
      requires IdValue(hash.envelope) !in actionsById
      modifies this
      ensures Aliased()
      ensures View() == Store(old(View()).byHash[hash := Stored(package, a, hash, AwaitingApprovals, [])],
                              old(View()).byId[IdValue(hash.envelope) := hash], old(View()).order + [hash])
      ensures forall s :: s in actionsByEnvelopeHash.Values ==> s in old(actionsByEnvelopeHash.Values) || fresh(s)
    {
      hide StoreOk, StoredOk, View, Aliased;
      var stored := new StoredAction(package, a, hash);
      actionsById := actionsById[IdValue(hash.envelope) := stored];
      actionsByEnvelopeHash := actionsByEnvelopeHash[hash := stored];
      order := order + [hash];
      OneFiled(hash, stored);
    }

    /** One action was filed, and nothing else changed. */
    twostate lemma OneFiled(hash: EnvelopeHash, new stored: StoredAction)
      requires old(Aliased()) && stored.hash == hash && hash !in old(actionsByEnvelopeHash)
      requires IdValue(hash.envelope) !in old(actionsById)
      requires actionsById == old(actionsById)[IdValue(hash.envelope) := stored]
      requires actionsByEnvelopeHash == old(actionsByEnvelopeHash)[hash := stored]
      requires order == old(order) + [hash]
      requires forall h :: h in old(actionsByEnvelopeHash) ==> unchanged(old(actionsByEnvelopeHash)[h])
      ensures Aliased()
      ensures View() == Store(old(View()).byHash[hash := stored.View()],
                              old(View()).byId[IdValue(hash.envelope) := hash], old(View()).order + [hash])
    {
      assert View().byHash == old(View()).byHash[hash := stored.View()];
      assert View().byId == old(View()).byId[IdValue(hash.envelope) := hash];
    }

    method SubmitApproval(hash: EnvelopeHash, approval: Approval, now: int) returns (r: Result<State>)
      requires Valid()
      modifies actionsByEnvelopeHash.Values
      ensures Valid() && (View(), r) == WorkflowModel.SubmitApproval(old(View()), hash, approval, now)
    {
      ghost var start := View();
      FiledAt(hash);
      SubmitKeeps(start, hash, approval, now);
      hide StoreOk, StoredOk, CheckApproval, Approved, View, Aliased, AllEvolve;
      if hash !in actionsByEnvelopeHash {
        return Err(NotFound);
      }
      var stored := actionsByEnvelopeHash[hash];
      var current := stored.View();
      var checked := CheckApproval(current, approval, now);
      if checked.Err? {
        return Err(checked.error);
      }
      AcceptApproval(hash, approval, checked.value);
      r := Ok(stored.state);
    }

    method AcceptApproval(hash: EnvelopeHash, approval: Approval, p: Preflight)
      requires Valid() && hash in actionsByEnvelopeHash
      requires exists now :: CheckApproval(actionsByEnvelopeHash[hash].View(), approval, now) == Ok(p)
      modifies actionsByEnvelopeHash[hash]
      ensures Aliased()
      ensures actionsByEnvelopeHash[hash].View() == Approved(old(actionsByEnvelopeHash[hash].View()), approval, p)
      ensures View() == old(View()).(byHash := old(View()).byHash[hash := actionsByEnvelopeHash[hash].View()])
    {
      FiledAt(hash);
      hide StoreOk, CheckApproval, Approved, View, Aliased, StoredOk;
      Distinct(hash);
      actionsByEnvelopeHash[hash].Accept(approval, p);
      OneChanged(hash);
    }

    method CancelAction(value: JsString, proposer: Did, now: int) returns (r: Result<State>)
      requires Valid()
      modifies actionsByEnvelopeHash.Values
      ensures Valid() && (View(), r) == WorkflowModel.CancelAction(old(View()), value, proposer, now)
    {
      ghost var start := View();
      NamedAt(value);
      CancelStoreKeeps(start, value, proposer, now);
      hide StoreOk, StoredOk, ValidateCancel, View, Aliased, AllEvolve;
      if value !in actionsById {
        return Err(NotFound);
      }
      var stored := actionsById[value];
      var current := stored.View();
      var error := ValidateCancel(current, proposer, now);
      if error.Some? {
        return Err(error.value);
      }
      SetState(stored.hash, State.Cancelled);
      r := Ok(State.Cancelled);
    }

    method SetState(hash: EnvelopeHash, state: State)
      requires Valid() && hash in actionsByEnvelopeHash
      modifies actionsByEnvelopeHash[hash]
      ensures Aliased()
      ensures actionsByEnvelopeHash[hash].View() == old(actionsByEnvelopeHash[hash].View()).(state := state)
      ensures View() == old(View()).(byHash := old(View()).byHash[hash := actionsByEnvelopeHash[hash].View()])
    {
      hide StoreOk, View, Aliased;
      Distinct(hash);
      actionsByEnvelopeHash[hash].state := state;
      OneChanged(hash);
    }

    /** Expires what is due, then reports the open requests for this signer and the proposer's updates. */
    method Poll(did: Did, now: int, createdAt: int) returns (requests: seq<ApprovalRequest>, updates: seq<ActionUpdate>)
      requires Valid()
      modifies actionsByEnvelopeHash.Values
      ensures Valid() && View() == ExpireAll(old(View()), now)
      ensures OrderFiled(View())
      ensures requests == Requests(View(), did, |View().order|)
      ensures updates == Updates(View(), did, createdAt, |View().order|)
    {
      ghost var start := View();
      ghost var after := ExpireAll(start, now);
      OrderIs();
      ExpireFirstIsAll(start, now);
      NoReports(after, did, createdAt);
      PollStarts(start, now);
      hide StoreOk, RequestOf, UpdateOf, Requests, Updates, Valid, ExpireFirst, ExpireAll, View,
          WorkflowModel.ExpireIfNeeded, OrderFiled;
      requests, updates := [], [];
      for i := 0 to |order|
        invariant Valid() && order == start.order && View() == ExpireFirst(start, i, now)
        invariant requests == Requests(after, did, i) && updates == Updates(after, did, createdAt, i)
      {
        NextReport(after, did, createdAt, i);
        PollNext(start, i, now);
        FiledAt(order[i]);
        var r, u := PollOne(order[i], did, now, createdAt);
        requests, updates := requests + r, updates + u;
      }
    }

    lemma OrderIs()
      requires Valid()
      ensures View().order == order && OrderFiled(View()) && StoreOk(View())
    {
    }

    /** Expires one action if it is due, then reports on it. */
    method PollOne(hash: EnvelopeHash, did: Did, now: int, createdAt: int)
      returns (requests: seq<ApprovalRequest>, updates: seq<ActionUpdate>)
      requires Valid() && hash in actionsByEnvelopeHash
      modifies actionsByEnvelopeHash[hash]
      ensures Valid() && hash in old(View()).byHash
      ensures var s := WorkflowModel.ExpireIfNeeded(old(View()).byHash[hash], now);
              && View() == old(View()).(byHash := old(View()).byHash[hash := s])
              && requests == RequestOf(s, did) && updates == UpdateOf(s, did, createdAt)
    {
      FiledAt(hash);
      ExpireKeeps(View().byHash[hash], now);
      Replaced(View(), hash, WorkflowModel.ExpireIfNeeded(View().byHash[hash], now));
      hide StoreOk, View, Aliased, StoredOk, EffectiveState, AllEvolve, RequestFor, UpdateFor;
      Distinct(hash);
      actionsByEnvelopeHash[hash].ExpireIfNeeded(now);
      OneChanged(hash);
      var current := actionsByEnvelopeHash[hash].View();
      requests, updates := [], [];
      if current.state.AwaitingApprovals? {
        var request := RequestFor(current, did);
        if request.Some? {
          requests := [ApprovalRequest(current.hash, request.value)];
        }
      }
      if current.package.envelope.proposer == did {
        updates := [UpdateFor(current, createdAt)];
      }
    }
  }

  lemma PollStarts(store: Store, now: int)
    requires OrderFiled(store)
    ensures ExpireFirst(store, 0, now) == store
  {
  }

  /** What expiring the next action makes of the store and of the action. */
  lemma PollNext(store: Store, i: nat, now: int)
    requires StoreOk(store) && i < |store.order|
    ensures OrderFiled(store) && store.order[i] in store.byHash
    ensures var h := store.order[i]; var before := ExpireFirst(store, i, now);
            && before.byHash[h] == store.byHash[h]
            && ExpireAll(store, now).byHash[h] == WorkflowModel.ExpireIfNeeded(store.byHash[h], now)
            && ExpireFirst(store, i + 1, now) ==
                 before.(byHash := before.byHash[h := WorkflowModel.ExpireIfNeeded(store.byHash[h], now)])
  {
    hide EffectiveState, StoredOk;
    ExpireFirstIs(store, i, now, i);
  }

  lemma NoReports(store: Store, did: Did, createdAt: int)
    requires OrderFiled(store)
    ensures Requests(store, did, 0) == [] && Updates(store, did, createdAt, 0) == []
  {
  }

  lemma NextReport(store: Store, did: Did, createdAt: int, i: nat)
    requires i < |store.order| && OrderFiled(store)
    ensures store.order[i] in store.byHash
    ensures Requests(store, did, i + 1) == Requests(store, did, i) + RequestOf(store.byHash[store.order[i]], did)
    ensures Updates(store, did, createdAt, i + 1) ==
            Updates(store, did, createdAt, i) + UpdateOf(store.byHash[store.order[i]], did, createdAt)
  {
  }
}
