/**
 What the relay protocol gets done: every accepted action reaches a page of the drain unless it
 expires first, an action its ledger has not seen is transmitted and its response accepted, and
 the relay never refuses a response the worker cached.
 */
module RelayProgress {
  import opened Wrappers
  import opened Protocol
  import opened RelayQueue
  import opened RelayProtocol
  import opened RelayLedger
  import opened RelayCache
  import LedgerModel
  import AdapterServer

  // ---- every accepted action reaches a page ---------------------------------------------

  /** How far the cursor, or the page in hand, has come. */
  function Reached(h: Held): nat {
    if h.page != [] && LastSequence(h.page) > Cursor(h) then LastSequence(h.page) else Cursor(h)
  }

  /** This page came to where the delivery is, and held it unless it was expired by then. */
  predicate Covers(q: PageAnswer, d: StoredDelivery, now: int) {
    && q.page != [] && q.after < d.sequence <= LastSequence(q.page) && q.now <= now
    && (d in q.page || EnvelopeExpired(d.envelope, q.now))
  }

  ghost predicate Covered(polls: seq<PageAnswer>, d: StoredDelivery, now: int) {
    exists q :: q in polls && Covers(q, d, now)
  }

  /** Whatever the worker has come past, some page held, or left out because it was expired. */
  ghost predicate AllCovered(h: Held, did: Did) {
    forall d :: d in h.relay.deliveries && d.recipient == did && d.sequence <= Reached(h) ==>
      Covered(h.polls, d, h.relay.now)
  }

  /** The relay only gained deliveries under new numbers, and the worker came no further. */
  ghost predicate NoFurther(h: Held, k: Held) {
    && h.polls == k.polls && Reached(k) <= Reached(h) && h.relay.now <= k.relay.now
    && forall d :: d in k.relay.deliveries && d !in h.relay.deliveries ==> d.sequence >= h.relay.next
  }

  lemma NoFurtherCovers(h: Held, k: Held, did: Did)
    requires AllCovered(h, did) && NoFurther(h, k) && Reached(h) < h.relay.next
    ensures AllCovered(k, did)
  {
    forall d | d in k.relay.deliveries && d.recipient == did && d.sequence <= Reached(k)
      ensures Covered(k.polls, d, k.relay.now)
    {
      var q :| q in h.polls && Covers(q, d, h.relay.now);
      assert Covers(q, d, k.relay.now);
    }
  }

  lemma ReachedIsQueued(h: Held, did: Did)
    requires HeldOk(h, did)
    ensures Reached(h) < h.relay.next
  {
    hide AllNamed, OneSubmission, AcceptedKept, AllTracked, Filed, Queued;
    if h.page != [] {
      assert h.page[|h.page| - 1] in h.page;
    }
  }

  lemma QuietNoFurther(w: World, x: World)
    requires Quiet(w, x)
    ensures NoFurther(HeldOf(w), HeldOf(x))
  {
    hide Sync;
  }

  lemma DeliverNoFurther(w: World, p: Process, clock: int, handling: Handling, detail: string,
                         fate: LedgerModel.AppendFate, did: Did)
    requires CacheInv(w, did) && w.process == Some(p) && p.phase.AtDelivery? && p.at < |p.page|
    ensures NoFurther(HeldOf(w), HeldOf(DoDeliver(w, p, clock, handling, detail, fate, did)))
  {
    hide HeldOk, ProcessAction, Quiet;
    var x := DoDeliver(w, p, clock, handling, detail, fate, did);
    if AtRequest(p) && did in Current(p).envelope.recipients && !EnvelopeExpired(Current(p).envelope, clock)
       && CurrentFingerprint(p) !in p.state.responses {
      ProcessActionQuiet(w, p, handling, clock, detail, fate, did);
      QuietNoFurther(w, x);
    }
  }

  lemma ReturnedNoFurther(w: World, p: Process, result: AdapterServer.DispatchResult, clock: int, detail: string,
                          fate: LedgerModel.AppendFate, did: Did)
    requires CacheInv(w, did) && w.process == Some(p) && p.phase.Dispatching? && AtRequest(p)
    ensures NoFurther(HeldOf(w), HeldOf(DoReturned(w, p, result, clock, detail, fate, did)))
  {
    hide HeldOk, Record, Quiet;
    var response :=
      ActionResponse(AdapterServer.ClassifyDispatch(result), Some(HashOf(CurrentEnvelope(p))), did, detail);
    RecordQuiet(w, p, response, clock, fate, did);
    QuietNoFurther(w, Record(w, p, response, clock, fate, did));
  }

  lemma SubmitNoFurther(w: World, p: Process, how: SubmitFate, did: Did)
    requires w.process == Some(p) && AtRequest(p) && CurrentFingerprint(p) in p.state.responses
    ensures NoFurther(HeldOf(w), HeldOf(DoSubmit(w, p, how, did)))
  {
    var envelope := p.state.responses[CurrentFingerprint(p)].envelope;
    CopiesAfter(w.relay.next, envelope);
  }

  lemma CopiesAfter(start: nat, envelope: DeliveryEnvelope)
    ensures forall d :: d in Copies(start, envelope) ==> d.sequence >= start
  {
  }

  lemma ArrivalNoFurther(w: World, envelope: DeliveryEnvelope, did: Did)
    requires envelope.payload.RequestPayload?
    ensures NoFurther(HeldOf(w), HeldOf(w.(relay := ReceiveAction(w.relay, envelope, did))))
  {
    CopiesAfter(w.relay.next, envelope);
  }

  /** The page after a finished one is behind its cursor. */
  lemma SaveNoFurther(w: World, p: Process, save: LedgerModel.AppendFate, next: Process, did: Did)
    requires CacheInv(w, did) && w.process == Some(p)
    requires p.state.cursor == w.disk.cursor || (p.phase.Finishing? && p.page != [])
    requires next.page == p.page || next.page == []
    ensures NoFurther(HeldOf(w), HeldOf(DoSave(w, p, save, next)))
  {
    hide HeldOk;
  }

  /** A page that was answered covers all it passes. */
  lemma PollCovers(h: Held, did: Did, page: seq<StoredDelivery>)
    requires AllCovered(h, did) && HeldOk(h, did) && h.page == []
    requires page == FirstPage(Select(h.relay.deliveries, did, Cursor(h), h.relay.now)) && page != []
    ensures AllCovered(Polled(h, page), did)
  {
    hide Select, FirstPage, AllNamed, OneSubmission, AcceptedKept, AllTracked, Filed, Queued;
    var k := Polled(h, page);
    var q := PageAnswer(Cursor(h), h.relay.now, page);
    PageIsPrefix(h.relay.deliveries, did, Cursor(h), h.relay.now);
    forall d | d in k.relay.deliveries && d.recipient == did && d.sequence <= Reached(k)
      ensures Covered(k.polls, d, k.relay.now)
    {
      if d.sequence <= Cursor(h) {
        var earlier :| earlier in h.polls && Covers(earlier, d, h.relay.now);
        assert earlier in k.polls;
      } else {
        assert q in k.polls && Covers(q, d, k.relay.now);
      }
    }
  }

  lemma StepCovers(w: World, step: Step, did: Did)
    requires AllCovered(HeldOf(w), did) && CacheInv(w, did) && Enabled(w, step)
    ensures AllCovered(HeldOf(Do(w, step, did)), did)
  {
    hide AllCovered, HeldOk, DoDeliver, DoReturned, DoSubmit, DoSave, FirstPage, Select, ReceiveAction;
    ReachedIsQueued(HeldOf(w), did);
    var x := Do(w, step, did);
    match step
    case RelayAction(envelope) => ArrivalNoFurther(w, envelope, did); NoFurtherCovers(HeldOf(w), HeldOf(x), did);
    case Poll(lost) =>
      var p := w.process.value;
      var page := FirstPage(Select(w.relay.deliveries, did, After(p.state.cursor), w.relay.now));
      if !lost && page != [] {
        PollCovers(HeldOf(w), did, page);
      }
    case Deliver(clock, handling, detail, fate) =>
      DeliverNoFurther(w, w.process.value, clock, handling, detail, fate, did);
      NoFurtherCovers(HeldOf(w), HeldOf(x), did);
    case Returned(result, clock, detail, fate) =>
      ReturnedNoFurther(w, w.process.value, result, clock, detail, fate, did);
      NoFurtherCovers(HeldOf(w), HeldOf(x), did);
    case Submit(how) =>
      SubmitNoFurther(w, w.process.value, how, did);
      NoFurtherCovers(HeldOf(w), HeldOf(x), did);
    case SaveCached(save) =>
      SaveNoFurther(w, w.process.value, save, w.process.value.(phase := Submitting), did);
      NoFurtherCovers(HeldOf(w), HeldOf(x), did);
    case SaveMark(save) =>
      SaveNoFurther(w, w.process.value, save, w.process.value.(at := w.process.value.at + 1, phase := AtDelivery), did);
      NoFurtherCovers(HeldOf(w), HeldOf(x), did);
    case SaveFinish(save) =>
      SaveNoFurther(w, w.process.value, save, Leave(w.process.value, Idle), did);
      NoFurtherCovers(HeldOf(w), HeldOf(x), did);
    case _ => NoFurtherCovers(HeldOf(w), HeldOf(x), did);
  }

  lemma {:induction false} RunCovers(steps: seq<Step>, did: Did)
    ensures AllCovered(HeldOf(Run(steps, did)), did)
  {
    if steps != [] {
      hide Do, CacheInv;
      RunCovers(steps[..|steps| - 1], did);
      RunCache(steps[..|steps| - 1], did);
      var w := Run(steps[..|steps| - 1], did);
      if Enabled(w, steps[|steps| - 1]) {
        StepCovers(w, steps[|steps| - 1], did);
      }
    }
  }

  lemma StepKeepsDeliveries(w: World, step: Step, did: Did)
    requires Enabled(w, step)
    ensures w.relay.deliveries <= Do(w, step, did).relay.deliveries
  {
    hide Respond, LedgerModel.Check, LedgerModel.Authorize, LedgerModel.Resolve, LedgerModel.RecoveryFor;
    hide LedgerModel.StartUp, FirstPage, Select, RelayAccepts;
  }

  lemma {:induction false} DeliveriesStay(steps: seq<Step>, n: nat, did: Did)
    requires n <= |steps|
    ensures Run(steps[..n], did).relay.deliveries <= Run(steps, did).relay.deliveries
  {
    hide Do;
    if n == |steps| {
      assert steps[..n] == steps;
    } else {
      assert steps[..|steps| - 1][..n] == steps[..n];
      DeliveriesStay(steps[..|steps| - 1], n, did);
      var w := Run(steps[..|steps| - 1], did);
      if Enabled(w, steps[|steps| - 1]) {
        StepKeepsDeliveries(w, steps[|steps| - 1], did);
      }
    }
  }

  lemma AdmittedCopy(relay: Relay, envelope: DeliveryEnvelope, did: Did) returns (d: StoredDelivery)
    requires Admits(relay, envelope, did)
    ensures envelope.payload.RequestPayload?
    ensures d in ReceiveAction(relay, envelope, did).deliveries && d.recipient == did && d.envelope == envelope
  {
    ActionIsQueued(relay, envelope, did);
    var i :| 0 <= i < |envelope.recipients| && envelope.recipients[i] == did;
    d := ReceiveAction(relay, envelope, did).deliveries[|relay.deliveries| + i];
  }

  /** An admitted action is queued for its verifier from then on. */
  lemma AdmittedIsQueued(steps: seq<Step>, n: nat, did: Did, envelope: DeliveryEnvelope) returns (d: StoredDelivery)
    requires n < |steps| && steps[n] == RelayAction(envelope) && DistinctRecipients(envelope)
    requires Admits(Run(steps[..n], did).relay, envelope, did)
    ensures d in Run(steps, did).relay.deliveries && d.recipient == did && d.envelope == envelope
  {
    var w := Run(steps[..n], did);
    d := AdmittedCopy(w.relay, envelope, did);
    hide ReceiveAction, Admits;
    assert steps[..n + 1][..n] == steps[..n];
    assert Enabled(w, steps[n]);
    assert Run(steps[..n + 1], did) == Do(w, steps[n], did);
    hide Run;
    DeliveriesStay(steps, n + 1, did);
  }

  /**
   Over every run: an action the relay let in is on a page the worker was answered with, by the
   time a poll of the drain comes back empty, unless it is expired by then.
   */
  lemma {:induction false} ActionReachesAPage(steps: seq<Step>, n: nat, did: Did, envelope: DeliveryEnvelope)
    requires n < |steps| && steps[n] == RelayAction(envelope) && DistinctRecipients(envelope)
    requires Admits(Run(steps[..n], did).relay, envelope, did)
    requires var w := Run(steps, did);
             && InPhase(w, Idle) && !EnvelopeExpired(envelope, w.relay.now)
             && PollDeliveries(w.relay.deliveries, did, w.process.value.state.cursor, w.relay.now).deliveries == []
    ensures exists q, d :: q in Run(steps, did).polls && d in q.page && d.recipient == did && d.envelope == envelope
  {
    var w := Run(steps, did);
    var d := AdmittedIsQueued(steps, n, did, envelope);
    RunCovers(steps, did);
    RunCache(steps, did);
    hide Run, Admits, HeldOk;
    NothingWanted(w, did, d);
    assert d.sequence <= Reached(HeldOf(w));
    var q :| q in w.polls && Covers(q, d, w.relay.now);
    assert d in q.page;
  }

  /** Nothing is ahead of the cursor once a poll comes back empty. */
  lemma NothingWanted(w: World, did: Did, d: StoredDelivery)
    requires CacheInv(w, did) && InPhase(w, Idle) && d in w.relay.deliveries
    requires PollDeliveries(w.relay.deliveries, did, w.process.value.state.cursor, w.relay.now).deliveries == []
    ensures !Wanted(d, did, Cursor(HeldOf(w)), w.relay.now)
  {
    hide Filed, Queued, PageOk, AllNamed, OneSubmission, AcceptedKept, AllTracked;
    PageIsPrefix(w.relay.deliveries, did, Cursor(HeldOf(w)), w.relay.now);
  }

  // ---- the relay never refuses what the worker cached -----------------------------------

  /** A reply to the sender of the request with this fingerprint, in the verifier's name. */
  ghost predicate ReplyTo(envelope: DeliveryEnvelope, f: DeliveryFingerprint, did: Did) {
    && envelope.sender == did && envelope.recipients == [f.sender] && envelope.payload.ResponsePayload?
    && envelope.payload.response.verifier == did && envelope.payload.response.hash == Some(HashNamed(f))
  }

  ghost predicate RepliesOk(state: WorkerState, did: Did) {
    forall f :: f in state.responses ==> ReplyTo(state.responses[f].envelope, f, did)
  }

  /** Every filed action came from its proposer. */
  ghost predicate SentByProposers(relay: Relay) {
    forall h :: h in relay.byHash ==>
      && relay.byHash[h].envelope.payload.RequestPayload?
      && relay.byHash[h].envelope.sender == EnvelopeIn(relay.byHash[h].envelope).proposer
  }

  ghost predicate ReplyInv(w: World, did: Did) {
    && SentByProposers(w.relay) && RepliesOk(w.disk, did)
    && (w.process.Some? ==> RepliesOk(w.process.value.state, did))
  }

  lemma RespondReplies(p: Process, response: ActionResponse, clock: int, did: Did)
    requires AtRequest(p) && RepliesOk(p.state, did)
    ensures RepliesOk(Respond(p, response, clock, did).state, did)
  {
  }

  lemma RecordReplies(w: World, p: Process, response: ActionResponse, clock: int, fate: LedgerModel.AppendFate,
                      did: Did)
    requires ReplyInv(w, did) && w.process == Some(p) && AtRequest(p)
    ensures ReplyInv(Record(w, p, response, clock, fate, did), did)
  {
    hide Respond, LedgerModel.Resolve, RepliesOk;
    var (ledger, _) := LedgerModel.Resolve(LedgerModel.Ledger(w.journal, p.index), CurrentEnvelope(p).actionId,
                                           response.result, Some(response), fate);
    RespondReplies(p.(index := ledger.index), response, clock, did);
  }

  lemma InjectReplies(w: World, p: Process, handling: Handling, clock: int, detail: string,
                      fate: LedgerModel.AppendFate, did: Did)
    requires ReplyInv(w, did) && w.process == Some(p) && AtRequest(p)
    ensures ReplyInv(Inject(w, p, handling, clock, detail, fate, did), did)
  {
    hide Respond, RepliesOk, SentByProposers, LedgerModel.Check, LedgerModel.Authorize;
    var hash := HashOf(CurrentEnvelope(p));
    forall kind: ResultKind
      ensures RepliesOk(Respond(p, ActionResponse(kind, Some(hash), did, detail), clock, did).state, did)
    {
      RespondReplies(p, ActionResponse(kind, Some(hash), did, detail), clock, did);
    }
  }

  lemma ProcessReplies(w: World, p: Process, handling: Handling, clock: int, detail: string,
                       fate: LedgerModel.AppendFate, did: Did)
    requires ReplyInv(w, did) && w.process == Some(p) && AtRequest(p)
    ensures ReplyInv(ProcessAction(w, p, handling, clock, detail, fate, did), did)
  {
    hide Respond, Record, Inject, RepliesOk, SentByProposers, LedgerModel.RecoveryFor;
    var hash := HashOf(CurrentEnvelope(p));
    match LedgerModel.RecoveryFor(p.index, CurrentEnvelope(p).actionId, hash)
    case Some(Recovery(_, Some(response))) => RespondReplies(p.(index := p.index), response, clock, did);
    case Some(Recovery(Indeterminate, None)) =>
      RecordReplies(w, p, ActionResponse(Indeterminate, Some(hash), did, detail), clock, fate, did);
    case _ => InjectReplies(w, p, handling, clock, detail, fate, did);
  }

  lemma SubmitReplies(w: World, p: Process, how: SubmitFate, did: Did)
    requires ReplyInv(w, did) && w.process == Some(p) && AtRequest(p) && CurrentFingerprint(p) in p.state.responses
    ensures ReplyInv(DoSubmit(w, p, how, did), did)
  {
  }

  lemma StepReplies(w: World, step: Step, did: Did)
    requires ReplyInv(w, did) && Enabled(w, step)
    ensures ReplyInv(Do(w, step, did), did)
  {
    hide ProcessAction, Record, LedgerModel.StartUp, FirstPage, Select, DoSubmit;
    match step
    case Submit(how) => SubmitReplies(w, w.process.value, how, did);
    case Deliver(clock, handling, detail, fate) =>
      if AtRequest(w.process.value) {
        ProcessReplies(w, w.process.value, handling, clock, detail, fate, did);
      }
    case Returned(result, clock, detail, fate) =>
      var hash := HashOf(CurrentEnvelope(w.process.value));
      RecordReplies(w, w.process.value, ActionResponse(AdapterServer.ClassifyDispatch(result), Some(hash), did, detail),
                    clock, fate, did);
    case _ =>
  }

  lemma {:induction false} RunReplies(steps: seq<Step>, did: Did)
    ensures ReplyInv(Run(steps, did), did)
  {
    if steps != [] {
      hide Do, ReplyInv;
      RunReplies(steps[..|steps| - 1], did);
      var w := Run(steps[..|steps| - 1], did);
      if Enabled(w, steps[|steps| - 1]) {
        StepReplies(w, steps[|steps| - 1], did);
      }
    }
  }

  lemma ReplyIsAccepted(w: World, p: Process, did: Did)
    requires Inv(w, did) && ReplyInv(w, did) && w.process == Some(p) && AtRequest(p)
    requires CurrentFingerprint(p) in p.state.responses
    ensures RelayAccepts(w.relay, p.state.responses[CurrentFingerprint(p)].envelope, did)
  {
    hide LedgerOk, BegunAllowed;
    assert Current(p) in p.page;
    assert Addressed(Current(p), did);
  }

  /** Over every run, the relay's rules let in the response the worker is about to submit. */
  lemma {:induction false} SubmissionIsAccepted(steps: seq<Step>, did: Did)
    requires var w := Run(steps, did);
             InPhase(w, Submitting) && AtRequest(w.process.value)
             && CurrentFingerprint(w.process.value) in w.process.value.state.responses
    ensures var w := Run(steps, did);
            RelayAccepts(w.relay, w.process.value.state.responses[CurrentFingerprint(w.process.value)].envelope, did)
  {
    RunInv(steps, did);
    RunReplies(steps, did);
    ReplyIsAccepted(Run(steps, did), Run(steps, did).process.value, did);
  }

  /**
   Over every run, a submission is accepted exactly if it arrives and breaks none of the relay's other
   rules.  The worker then marks it, unless the reply was lost or the relay unreachable, when it drops
   the page to submit the same again; an answer that refuses it is the end of the worker.
   */
  lemma {:induction false} SubmissionEnds(steps: seq<Step>, did: Did, how: SubmitFate)
    requires Enabled(Run(steps, did), Submit(how))
    ensures var w := Run(steps, did); var x := Do(w, Submit(how), did);
            var cached := w.process.value.state.responses[CurrentFingerprint(w.process.value)].envelope;
            && x.disk == w.disk && cached.payload.ResponsePayload?
            && x.accepted == w.accepted
                             + (if how.Arrived? && how.admissible then [cached.payload.response] else [])
            && InPhase(x, if how.Unreachable? || how.replyLost then Idle
                          else if how.admissible then Marking
                          else Stuck(SubmissionRefused))
  {
    SubmissionIsAccepted(steps, did);
    hide Run, SubmitResponseDelivery;
  }

  /** What the relay takes for a response: the verifier's own, to a filed action, for its proposer. */
  lemma AcceptedIsAddressed(relay: Relay, envelope: DeliveryEnvelope, did: Did)
    requires RelayOk(relay, did)
    ensures RelayAccepts(relay, envelope, did) <==>
            exists action, response ::
              && envelope.payload == ResponsePayload(response) && response.hash == Some(HashOf(action))
              && HashOf(action) in relay.byHash && envelope.sender == did && response.verifier == did
              && action.proposer in envelope.recipients
  {
    hide Queued, Sequenced;
    if RelayAccepts(relay, envelope, did) {
      var response := envelope.payload.response;
      assert response.hash == Some(HashOf(response.hash.value.envelope));
    }
  }

  // ---- a new action is transmitted, and its response accepted ---------------------------

  /** The worker is at a delivery it may dispatch: unexpired, allowed, not cached, not in its ledger. */
  ghost predicate AtNewAction(w: World, clock: int) {
    && InPhase(w, AtDelivery) && AtRequest(w.process.value)
    && var p := w.process.value;
    && !EnvelopeExpired(Current(p).envelope, clock) && HashOf(CurrentEnvelope(p)) !in p.refused
    && CurrentFingerprint(p) !in p.state.responses
    && LedgerModel.Pair(CurrentEnvelope(p).actionId) !in p.index.entries
  }

  /** Its dispatch is under way, under its own record. */
  ghost predicate InDispatch(w: World, p: Process) {
    && AtRequest(p)
    && var k := LedgerModel.Pair(CurrentEnvelope(p).actionId);
       var entry :=
         LedgerModel.Entry(k, HashOf(CurrentEnvelope(p)), CurrentEnvelope(p).expiresAt, LedgerModel.InProgress);
    w.process == Some(p.(index := LedgerModel.Put(p.index, k, entry), phase := Dispatching))
  }

  lemma NewActionIsTransmitted(w: World, clock: int, detail: string, did: Did)
    requires Inv(w, did) && AtNewAction(w, clock)
    ensures var step := Deliver(clock, Prepared, detail, LedgerModel.Written);
            && Enabled(w, step)
            && var x := Do(w, step, did);
            && InDispatch(x, w.process.value) && x.relay == w.relay && x.disk == w.disk && x.accepted == w.accepted
            && x.answers == w.answers && x.sent == w.sent + [CurrentEnvelope(w.process.value).actionId]
  {
    hide RelayOk, BegunAllowed;
    var p := w.process.value;
    CurrentIsRelayed(w.relay, did, p);
    FoundByPair(w.relay.byHash.Keys, did, p.index, CurrentEnvelope(p).actionId);
  }

  lemma InjectSendsNothing(w: World, p: Process, handling: Handling, clock: int, detail: string,
                           fate: LedgerModel.AppendFate, did: Did)
    requires AtRequest(p)
    requires var hash := HashOf(CurrentEnvelope(p));
             || hash in p.refused || !LedgerModel.Check(p.index, hash.envelope.actionId, hash).Absent?
             || !handling.Prepared? || !fate.Written?
    ensures Inject(w, p, handling, clock, detail, fate, did).sent == w.sent
  {
    hide Respond, LedgerModel.Check;
  }

  lemma ProcessSendsNothing(w: World, p: Process, handling: Handling, clock: int, detail: string,
                            fate: LedgerModel.AppendFate, did: Did)
    requires AtRequest(p)
    requires var hash := HashOf(CurrentEnvelope(p));
             || hash in p.refused || !LedgerModel.Check(p.index, hash.envelope.actionId, hash).Absent?
             || !handling.Prepared? || !fate.Written?
    ensures ProcessAction(w, p, handling, clock, detail, fate, did).sent == w.sent
  {
    hide Respond, Record, Inject, LedgerModel.Check, LedgerModel.RecoveryFor;
    InjectSendsNothing(w, p, handling, clock, detail, fate, did);
    RecordSendsNothing(w, p, ActionResponse(Indeterminate, Some(HashOf(CurrentEnvelope(p))), did, detail), clock,
                       fate, did);
  }

  lemma OldSendsNothing(w: World, clock: int, handling: Handling, detail: string, fate: LedgerModel.AppendFate,
                        did: Did)
    requires Inv(w, did) && InPhase(w, AtDelivery) && w.process.value.at < |w.process.value.page|
    requires !AtNewAction(w, clock) || !handling.Prepared? || !fate.Written?
    ensures Do(w, Deliver(clock, handling, detail, fate), did).sent == w.sent
  {
    hide RelayOk, BegunAllowed, ProcessAction;
    var p := w.process.value;
    if AtRequest(p) {
      var id := CurrentEnvelope(p).actionId;
      FoundByPair(w.relay.byHash.Keys, did, p.index, id);
      hide LedgerOk;
      if !EnvelopeExpired(Current(p).envelope, clock) && CurrentFingerprint(p) !in p.state.responses {
        ProcessSendsNothing(w, p, handling, clock, detail, fate, did);
      }
    }
  }

  lemma RecordSendsNothing(w: World, p: Process, response: ActionResponse, clock: int, fate: LedgerModel.AppendFate,
                           did: Did)
    requires AtRequest(p)
    ensures Record(w, p, response, clock, fate, did).sent == w.sent
  {
    hide LedgerModel.Resolve, Respond;
  }

  /**
   Over every run, processing a delivery transmits its action exactly if the delivery is unexpired,
   allowed, not cached and not in the ledger, the handler got ready, and the write-ahead record was
   written; no other step transmits anything.
   */
  lemma {:induction false} TransmissionIsExact(steps: seq<Step>, did: Did, step: Step)
    requires Enabled(Run(steps, did), step)
    ensures var w := Run(steps, did);
            if step.Deliver? && AtNewAction(w, step.clock) && step.handling.Prepared? && step.fate.Written?
            then Do(w, step, did).sent == w.sent + [CurrentEnvelope(w.process.value).actionId]
            else Do(w, step, did).sent == w.sent
  {
    RunInv(steps, did);
    var w := Run(steps, did);
    hide Inv, AtNewAction;
    match step
    case Deliver(clock, handling, detail, fate) =>
      hide Do;
      if AtNewAction(w, clock) && handling.Prepared? && fate.Written? {
        NewActionIsTransmitted(w, clock, detail, did);
      } else {
        OldSendsNothing(w, clock, handling, detail, fate, did);
      }
    case Returned(result, clock, detail, fate) =>
      var hash := HashOf(CurrentEnvelope(w.process.value));
      hide Record, AdapterServer.ClassifyDispatch;
      var response := ActionResponse(AdapterServer.ClassifyDispatch(result), Some(hash), did, detail);
      RecordSendsNothing(w, w.process.value, response, clock, fate, did);
    case _ => hide DoDeliver, DoReturned, LedgerModel.StartUp, ReceiveAction, FirstPage, Select;
  }

  /** The response that reports this result of the current delivery's dispatch. */
  ghost predicate Answers(response: ActionResponse, p: Process, result: AdapterServer.DispatchResult, did: Did,
                          detail: string)
  {
    && AtRequest(p) && AdapterServer.Reports(response.result, result)
    && response == ActionResponse(response.result, Some(HashOf(CurrentEnvelope(p))), did, detail)
  }

  lemma ResultIsCached(w: World, p: Process, result: AdapterServer.DispatchResult, clock: int, detail: string, did: Did)
      returns (response: ActionResponse)
    requires InDispatch(w, p)
    ensures Answers(response, p, result, did, detail)
    ensures var step := Returned(result, clock, detail, LedgerModel.Written);
            && Enabled(w, step)
            && var x := Do(w, step, did);
            && InCache(x, p, response, did) && x.relay == w.relay && x.disk == w.disk && x.accepted == w.accepted
            && x.sent == w.sent && x.answers == w.answers + [Answer(HashOf(CurrentEnvelope(p)), response)]
  {
    AdapterServer.ClassifiedIsReported(result);
    hide AdapterServer.Reports, AdapterServer.ClassifyDispatch;
    var hash := HashOf(CurrentEnvelope(p));
    response := ActionResponse(AdapterServer.ClassifyDispatch(result), Some(hash), did, detail);
    var q := w.process.value;
    var k := LedgerModel.Pair(hash.envelope.actionId);
    assert LedgerModel.KnownBy(q.index, hash.envelope.actionId, k);
    LedgerModel.OutcomeIsRecorded(LedgerModel.Ledger(w.journal, q.index), hash.envelope.actionId, k, response,
                                  LedgerModel.Written);
    hide LedgerModel.Resolve;
  }

  /** The response is in the process's cache, about to be saved. */
  ghost predicate InCache(w: World, p: Process, response: ActionResponse, did: Did) {
    && InPhase(w, Caching) && AtRequest(p)
    && var q := w.process.value;
    && q.page == p.page && q.at == p.at
    && CurrentFingerprint(p) in q.state.responses
    && q.state.responses[CurrentFingerprint(p)].envelope.payload == ResponsePayload(response)
  }

  /** Saved, and about to be submitted. */
  ghost predicate ToSubmit(w: World, p: Process, response: ActionResponse) {
    && InPhase(w, Submitting) && AtRequest(p)
    && var q := w.process.value;
    && q.page == p.page && q.at == p.at && q.state == w.disk && CurrentFingerprint(p) in q.state.responses
    && q.state.responses[CurrentFingerprint(p)].envelope.payload == ResponsePayload(response)
  }

  lemma SaveIsSubmitting(w: World, p: Process, response: ActionResponse, did: Did)
    requires InCache(w, p, response, did)
    ensures Enabled(w, SaveCached(LedgerModel.Written))
    ensures var x := Do(w, SaveCached(LedgerModel.Written), did);
            ToSubmit(x, p, response) && x.accepted == w.accepted && x.sent == w.sent
  {
  }

  lemma SubmitIsAccepted(w: World, p: Process, response: ActionResponse, did: Did)
    requires ToSubmit(w, p, response)
    requires RelayAccepts(w.relay, w.process.value.state.responses[CurrentFingerprint(p)].envelope, did)
    ensures var b, c := Submit(Arrived(true, false)), SaveMark(LedgerModel.Written);
            && Enabled(w, b)
            && var y := Do(w, b, did);
            && Enabled(y, c)
            && Replied(Do(y, c, did), p, response) && Do(y, c, did).accepted == w.accepted + [response]
            && Do(y, c, did).sent == w.sent
  {
    hide SubmitResponseDelivery, RelayAccepts;
  }

  /** The response was accepted, is marked delivered on disk, and the worker is at the next delivery. */
  ghost predicate Replied(w: World, p: Process, response: ActionResponse) {
    && InPhase(w, AtDelivery) && AtRequest(p)
    && w.process.value.page == p.page && w.process.value.at == p.at + 1 && w.process.value.state == w.disk
    && CurrentFingerprint(p) in w.disk.responses && w.disk.responses[CurrentFingerprint(p)].delivered
    && w.disk.responses[CurrentFingerprint(p)].envelope.payload == ResponsePayload(response)
  }

  lemma RunNext(steps: seq<Step>, step: Step, did: Did)
    requires Enabled(Run(steps, did), step)
    ensures Run(steps + [step], did) == Do(Run(steps, did), step, did)
  {
    assert (steps + [step])[..|steps|] == steps;
  }

  /** When nothing fails: transmitted, answered, cached, submitted and marked. */
  function Serve(clock: int, later: int, result: AdapterServer.DispatchResult, detail: string): seq<Step> {
    [Deliver(clock, Prepared, detail, LedgerModel.Written)] + [Returned(result, later, detail, LedgerModel.Written)]
    + [SaveCached(LedgerModel.Written)] + [Submit(Arrived(true, false))] + [SaveMark(LedgerModel.Written)]
  }

  /**
   From any run: a delivery that may be dispatched is transmitted, and when nothing fails the relay
   takes the response that reports the target's result, and keeps it as the action's response.
   */
  lemma {:induction false} NewActionIsAnswered(steps: seq<Step>, did: Did, clock: int, later: int,
                                               result: AdapterServer.DispatchResult, detail: string)
      returns (response: ActionResponse)
    requires AtNewAction(Run(steps, did), clock)
    ensures var w := Run(steps, did); var p := w.process.value;
            var x := Run(steps + Serve(clock, later, result, detail), did);
            && Answers(response, p, result, did, detail) && Replied(x, p, response)
            && x.sent == w.sent + [CurrentEnvelope(p).actionId] && x.accepted == w.accepted + [response]
            && HashOf(CurrentEnvelope(p)) in x.relay.byHash
            && x.relay.byHash[HashOf(CurrentEnvelope(p))].response == Some(response)
  {
    var p := Run(steps, did).process.value;
    response := ResultRun(steps, did, clock, later, result, detail);
    var two := steps + [Deliver(clock, Prepared, detail, LedgerModel.Written)]
               + [Returned(result, later, detail, LedgerModel.Written)];
    ReplyIsTaken(two, did, p, response);
    hide Run, InCache, Replied;
    assert steps + Serve(clock, later, result, detail)
        == two + [SaveCached(LedgerModel.Written)] + [Submit(Arrived(true, false))] + [SaveMark(LedgerModel.Written)];
    OneAcceptedResponse(steps + Serve(clock, later, result, detail), did, response);
  }

  lemma ResultRun(steps: seq<Step>, did: Did, clock: int, later: int, result: AdapterServer.DispatchResult,
                  detail: string) returns (response: ActionResponse)
    requires AtNewAction(Run(steps, did), clock)
    ensures var w := Run(steps, did); var p := w.process.value;
            var x := Run(steps + [Deliver(clock, Prepared, detail, LedgerModel.Written)]
                         + [Returned(result, later, detail, LedgerModel.Written)], did);
            && Answers(response, p, result, did, detail) && InCache(x, p, response, did)
            && x.sent == w.sent + [CurrentEnvelope(p).actionId] && x.accepted == w.accepted
  {
    var w := Run(steps, did);
    RunInv(steps, did);
    NewActionIsTransmitted(w, clock, detail, did);
    hide Run, Do, Enabled, Inv, AtNewAction, InDispatch, InCache;
    RunNext(steps, Deliver(clock, Prepared, detail, LedgerModel.Written), did);
    var one := steps + [Deliver(clock, Prepared, detail, LedgerModel.Written)];
    response := ResultIsCached(Run(one, did), w.process.value, result, later, detail, did);
    RunNext(one, Returned(result, later, detail, LedgerModel.Written), did);
  }

  lemma ReplyIsTaken(steps: seq<Step>, did: Did, p: Process, response: ActionResponse)
    requires InCache(Run(steps, did), p, response, did)
    ensures var w := Run(steps, did);
            var x := Run(steps + [SaveCached(LedgerModel.Written)] + [Submit(Arrived(true, false))]
                           + [SaveMark(LedgerModel.Written)], did);
            && Replied(x, p, response) && x.accepted == w.accepted + [response] && x.sent == w.sent
  {
    var w := Run(steps, did);
    var one := steps + [SaveCached(LedgerModel.Written)];
    SaveIsSubmitting(w, p, response, did);
    RunNext(steps, SaveCached(LedgerModel.Written), did);
    RunInv(one, did);
    RunReplies(one, did);
    var x := Run(one, did);
    assert CurrentFingerprint(x.process.value) == CurrentFingerprint(p);
    hide Inv, ReplyInv, InCache, Do, Run, Enabled, RelayAccepts, Replied;
    ReplyIsAccepted(x, x.process.value, did);
    SubmitIsAccepted(x, p, response, did);
    RunNext(one, Submit(Arrived(true, false)), did);
    RunNext(one + [Submit(Arrived(true, false))], SaveMark(LedgerModel.Written), did);
  }

  // ---- a whole run ----------------------------------------------------------------------

  /** A request its proposer sends to this verifier, among others. */
  predicate Sendable(envelope: DeliveryEnvelope, did: Did) {
    && envelope.payload.RequestPayload? && did in envelope.recipients
    && (forall i, j :: 0 <= i < j < |envelope.recipients| ==> envelope.recipients[i] != envelope.recipients[j])
    && envelope.sender == EnvelopeIn(envelope).proposer && !EnvelopeExpired(envelope, 0)
  }

  const OPENING_START := Step.Start(None, map[])

  /** The worker starts, the action arrives, and the worker is answered with it. */
  function Opening(envelope: DeliveryEnvelope): seq<Step> {
    [OPENING_START] + [RelayAction(envelope)] + [Step.Poll(false)]
  }

  /** The first page holds just this verifier's copy. */
  lemma FirstPageIs(envelope: DeliveryEnvelope, did: Did)
    requires Sendable(envelope, did)
    ensures var page := FirstPage(Select(Copies(1, envelope), did, 0, 0));
            |page| == 1 && page[0].envelope == envelope && page[0].recipient == did && page[0] in Copies(1, envelope)
  {
    var copies := Copies(1, envelope);
    var own := OwnCopy(envelope, did);
    CopiesAreOrdered(envelope);
    CopiesOnce(1, envelope);
    CopiesAre(1, envelope);
    hide Copies;
    PageIsPrefix(copies, did, 0, 0);
    hide Select, FirstPage;
    var page := FirstPage(Select(copies, did, 0, 0));
    assert own in page;
    OnlyOne(page, own);
  }

  lemma OwnCopy(envelope: DeliveryEnvelope, did: Did) returns (d: StoredDelivery)
    requires Sendable(envelope, did)
    ensures d in Copies(1, envelope) && d.envelope == envelope && d.recipient == did && Wanted(d, did, 0, 0)
  {
    var i :| 0 <= i < |envelope.recipients| && envelope.recipients[i] == did;
    d := Copies(1, envelope)[i];
  }

  lemma CopiesAreOrdered(envelope: DeliveryEnvelope)
    ensures Ordered(Copies(1, envelope))
  {
    StoredOrdered([], 1, envelope);
    assert Stored([], 1, envelope) == Copies(1, envelope);
  }

  lemma OnlyOne(page: seq<StoredDelivery>, own: StoredDelivery)
    requires Ordered(page) && own in page && forall d :: d in page ==> d == own
    ensures page == [own]
  {
    assert page[0] in page && page[|page| - 1] in page;
  }

  const STARTED := START.(process := Some(Process(LedgerModel.EMPTY, map[], NEW_STATE, [], 0, Idle)))

  lemma StartRun(did: Did)
    ensures Run([OPENING_START], did) == STARTED
  {
    assert Run([], did) == START;
    RunNext([], OPENING_START, did);
    assert [] + [OPENING_START] == [OPENING_START];
  }

  lemma ArrivalIsQueued(envelope: DeliveryEnvelope, did: Did)
    requires Sendable(envelope, did)
    ensures var relay := ReceiveAction(EMPTY_RELAY, envelope, did);
            relay.deliveries == Copies(1, envelope) && relay.now == 0
  {
    assert [] + Copies(1, envelope) == Copies(1, envelope);
  }

  lemma FirstPoll(relay: Relay, page: seq<StoredDelivery>, did: Did)
    requires page == FirstPage(Select(relay.deliveries, did, 0, relay.now)) && page != []
    ensures var w := STARTED.(relay := relay);
            && Enabled(w, Step.Poll(false))
            && Do(w, Step.Poll(false), did)
               == w.(process := Some(STARTED.process.value.(page := page, phase := AtDelivery)),
                     polls := [PageAnswer(0, relay.now, page)])
  {
    hide Select, FirstPage;
  }

  lemma PollIsNew(envelope: DeliveryEnvelope, did: Did)
    requires Sendable(envelope, did)
    ensures var w := STARTED.(relay := ReceiveAction(EMPTY_RELAY, envelope, did));
            Enabled(w, Step.Poll(false)) && AtOnly(Do(w, Step.Poll(false), did), envelope, did)
  {
    FirstPageIs(envelope, did);
    ArrivalIsQueued(envelope, did);
    hide Select, FirstPage, Copies, ReceiveAction, Do, Enabled, Sendable, AtOnly;
    var relay := ReceiveAction(EMPTY_RELAY, envelope, did);
    var page := FirstPage(Select(Copies(1, envelope), did, 0, 0));
    FirstPoll(relay, page, did);
    OnlyIs(relay, page[0], envelope, did);
    assert page == [page[0]];
  }

  lemma OnlyIs(relay: Relay, d: StoredDelivery, envelope: DeliveryEnvelope, did: Did)
    requires Sendable(envelope, did) && d.envelope == envelope && d.recipient == did && d in relay.deliveries
    ensures AtOnly(STARTED.(relay := relay,
                            process := Some(STARTED.process.value.(page := [d], phase := AtDelivery)),
                            polls := [PageAnswer(0, relay.now, [d])]), envelope, did)
  {
  }

  /** The worker has a page of this action alone, and nothing has happened to it. */
  ghost predicate AtOnly(w: World, envelope: DeliveryEnvelope, did: Did) {
    && AtNewAction(w, 0) && w.sent == [] && w.accepted == []
    && var p := w.process.value;
    && |p.page| == 1 && p.at == 0 && p.page[0].envelope == envelope && p.page[0].recipient == did
    && p.page[0] in w.relay.deliveries
  }

  lemma OpeningIsNew(envelope: DeliveryEnvelope, did: Did)
    requires Sendable(envelope, did)
    ensures AtOnly(Run(Opening(envelope), did), envelope, did)
  {
    StartRun(did);
    PollIsNew(envelope, did);
    hide Run, ReceiveAction, AtOnly, DoPoll;
    RunNext([OPENING_START], RelayAction(envelope), did);
    RunNext([OPENING_START] + [RelayAction(envelope)], Step.Poll(false), did);
  }

  /**
   A run for every action and every result: it is transmitted once, the one response accepted
   reports the result, and the worker's cursor is past it.
   */
  lemma {:induction false} ActionIsServed(envelope: DeliveryEnvelope, did: Did, result: AdapterServer.DispatchResult,
                                          detail: string)
      returns (steps: seq<Step>, response: ActionResponse)
    requires Sendable(envelope, did)
    ensures var w := Run(steps, did); var action := EnvelopeIn(envelope);
            && w.sent == [action.actionId] && w.accepted == [response]
            && AdapterServer.Reports(response.result, result) && response.hash == Some(HashOf(action))
            && response.verifier == did && response.detail == detail
            && HashOf(action) in w.relay.byHash && w.relay.byHash[HashOf(action)].response == Some(response)
            && InPhase(w, Idle) && w.disk.cursor.Some?
            && exists d :: d in w.relay.deliveries && d.recipient == did && d.envelope == envelope
                           && d.sequence <= w.disk.cursor.value
  {
    OpeningIsNew(envelope, did);
    hide Run, AtNewAction, Replied, AdapterServer.Reports, Opening, Serve, Sendable;
    var opening := Opening(envelope);
    var p := Run(opening, did).process.value;
    response := NewActionIsAnswered(opening, did, 0, 0, result, detail);
    var served := opening + Serve(0, 0, result, detail);
    steps := served + [Finish] + [SaveFinish(LedgerModel.Written)];
    assert AtRequest(p) && EnvelopeIn(envelope) == CurrentEnvelope(p);
    FinishRun(served, did, p, response);
    assert steps[..|opening|] == opening;
    DeliveriesStay(steps, |opening|, did);
    assert p.page[0] in Run(steps, did).relay.deliveries;
  }

  lemma FinishRun(steps: seq<Step>, did: Did, p: Process, response: ActionResponse)
    requires Replied(Run(steps, did), p, response) && p.at + 1 == |p.page|
    ensures var w := Run(steps, did); var x := Run(steps + [Finish] + [SaveFinish(LedgerModel.Written)], did);
            && InPhase(x, Idle) && x.disk.cursor == Some(LastSequence(p.page))
            && x.sent == w.sent && x.accepted == w.accepted && x.relay == w.relay
  {
    hide Run;
    RunNext(steps, Finish, did);
    CursorAlwaysAdvances(steps + [Finish], did);
    RunNext(steps + [Finish], SaveFinish(LedgerModel.Written), did);
  }

  // ---- one outcome for good -------------------------------------------------------------

  lemma StepKeepsAnswers(w: World, step: Step, did: Did)
    requires Enabled(w, step)
    ensures w.answers <= Do(w, step, did).answers
  {
    hide Respond, LedgerModel.Check, LedgerModel.Authorize, LedgerModel.Resolve, LedgerModel.RecoveryFor;
    hide LedgerModel.StartUp, FirstPage, Select, ReceiveAction;
  }

  lemma {:induction false} AnswersStay(steps: seq<Step>, n: nat, did: Did)
    requires n <= |steps|
    ensures Run(steps[..n], did).answers <= Run(steps, did).answers
  {
    hide Do;
    if n == |steps| {
      assert steps[..n] == steps;
    } else {
      assert steps[..|steps| - 1][..n] == steps[..n];
      AnswersStay(steps[..|steps| - 1], n, did);
      var w := Run(steps[..|steps| - 1], did);
      if Enabled(w, steps[|steps| - 1]) {
        StepKeepsAnswers(w, steps[|steps| - 1], did);
      }
    }
  }

  /** A result that came back and was recorded is an answer the ledger backs. */
  lemma ReturnedIsAnswer(w: World, result: AdapterServer.DispatchResult, clock: int, detail: string, did: Did)
      returns (a: Answer)
    requires Inv(w, did) && InPhase(w, Dispatching) && AtRequest(w.process.value)
    ensures a in Do(w, Returned(result, clock, detail, LedgerModel.Written), did).answers
    ensures a.hash == HashOf(CurrentEnvelope(w.process.value))
    ensures AdapterServer.Reports(a.response.result, result) && a.response.detail == detail
  {
    AdapterServer.ClassifiedIsReported(result);
    hide RelayOk, BegunAllowed, LedgerModel.Replay, AdapterServer.Reports, AdapterServer.ClassifyDispatch, Respond;
    var p := w.process.value;
    var hash := HashOf(CurrentEnvelope(p));
    var response := ActionResponse(AdapterServer.ClassifyDispatch(result), Some(hash), did, detail);
    var k := LedgerModel.Pair(hash.envelope.actionId);
    assert LedgerModel.KnownBy(p.index, hash.envelope.actionId, k);
    LedgerModel.OutcomeIsRecorded(LedgerModel.Ledger(w.journal, p.index), hash.envelope.actionId, k, response,
                                  LedgerModel.Written);
    a := Answer(hash, response);
  }

  /**
   Over every run: once a dispatch's result came back and was recorded, every answer the ledger
   gives for its envelope, in this process or a later one, reports just that result.
   */
  lemma {:induction false} OutcomeIsKept(steps: seq<Step>, n: nat, did: Did, a: Answer)
    requires n < |steps| && steps[n].Returned? && steps[n].fate.Written? && Enabled(Run(steps[..n], did), steps[n])
    requires a in Run(steps, did).answers
    requires a.hash == HashOf(CurrentEnvelope(Run(steps[..n], did).process.value))
    ensures AdapterServer.Reports(a.response.result, steps[n].result) && a.response.detail == steps[n].detail
  {
    var w := Run(steps[..n], did);
    RunInv(steps[..n], did);
    var b := ReturnedIsAnswer(w, steps[n].result, steps[n].clock, steps[n].detail, did);
    assert steps[..n + 1][..n] == steps[..n];
    hide AdapterServer.Reports, Do, Inv;
    assert Run(steps[..n + 1], did) == Do(w, steps[n], did);
    hide Run;
    AnswersStay(steps, n + 1, did);
    AnswersAgree(steps, did, a, b);
  }
}
