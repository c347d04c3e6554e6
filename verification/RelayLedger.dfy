/**
 What every run of the relay protocol keeps about the relay's books and the dispatch ledger:
 an action is transmitted at most once, every answer the ledger backs for one envelope is the
 same response, and the worker never meets a replay or a mismatch it cannot recover from.
 */
module RelayLedger {
  import opened Wrappers
  import opened Protocol
  import opened LedgerModel
  import AdapterServer
  import opened RelayQueue
  import opened RelayProtocol

  // ---- the relay's books ----------------------------------------------------------------

  predicate Addressed(d: StoredDelivery, did: Did) {
    d.recipient == did && d.envelope.payload.RequestPayload?
  }

  function HashIn(d: StoredDelivery): EnvelopeHash
    requires d.envelope.payload.RequestPayload?
  {
    HashOf(EnvelopeIn(d.envelope))
  }

  predicate SameAction(d: StoredDelivery, e: StoredDelivery, did: Did) {
    Addressed(d, did) && Addressed(e, did) && HashIn(d) == HashIn(e)
  }

  /** Every relayed action is filed under its own hash, and its Action ID's value leads to it. */
  ghost predicate Filed(relay: Relay) {
    forall h :: h in relay.byHash ==>
      && relay.byHash[h].envelope.payload.RequestPayload?
      && HashOf(EnvelopeIn(relay.byHash[h].envelope)) == h
      && h.envelope.actionId.value in relay.byValue && relay.byValue[h.envelope.actionId.value] == h
  }

  /** Every queued request was relayed, and is queued for this verifier once. */
  ghost predicate Queued(relay: Relay, did: Did) {
    && (forall d :: d in relay.deliveries ==> d.recipient in d.envelope.recipients)
    && (forall d :: d in relay.deliveries && Addressed(d, did) ==>
          HashIn(d) in relay.byHash && relay.byHash[HashIn(d)].envelope == d.envelope)
    && (forall d, e :: d in relay.deliveries && e in relay.deliveries && SameAction(d, e, did) ==> d == e)
  }

  ghost predicate Sequenced(relay: Relay) {
    && Ordered(relay.deliveries) && relay.next > 0
    && forall d :: d in relay.deliveries ==> d.sequence < relay.next
  }

  ghost predicate RelayOk(relay: Relay, did: Did) {
    Filed(relay) && Queued(relay, did) && Sequenced(relay)
  }

  /** The relay only adds to its queue and its books. */
  ghost predicate Grows(relay: Relay, later: Relay) {
    && relay.deliveries <= later.deliveries && relay.next <= later.next && relay.now <= later.now
    && relay.byHash.Keys <= later.byHash.Keys
  }

  lemma CopiesAre(start: nat, envelope: DeliveryEnvelope)
    ensures forall d :: d in Copies(start, envelope) ==> d.envelope == envelope && d.recipient in envelope.recipients
  {
  }

  lemma CopiesOnce(start: nat, envelope: DeliveryEnvelope)
    requires DistinctRecipients(envelope)
    ensures forall d, e ::
              d in Copies(start, envelope) && e in Copies(start, envelope) && d.recipient == e.recipient ==> d == e
  {
  }

  lemma ActionSequenced(relay: Relay, envelope: DeliveryEnvelope, did: Did)
    requires Sequenced(relay) && envelope.payload.RequestPayload?
    ensures Sequenced(BeginRelayedAction(relay, envelope, did))
  {
    hide Stored;
    StoredOrdered(relay.deliveries, relay.next, envelope);
  }

  lemma ActionQueued(relay: Relay, envelope: DeliveryEnvelope, did: Did)
    requires RelayOk(relay, did) && envelope.payload.RequestPayload? && DistinctRecipients(envelope)
    ensures Queued(BeginRelayedAction(relay, envelope, did), did)
    ensures Grows(relay, BeginRelayedAction(relay, envelope, did))
  {
    hide Copies;
    CopiesAre(relay.next, envelope);
    CopiesOnce(relay.next, envelope);
  }

  lemma ActionRelay(relay: Relay, envelope: DeliveryEnvelope, did: Did)
    requires RelayOk(relay, did) && envelope.payload.RequestPayload? && DistinctRecipients(envelope)
    ensures var later := BeginRelayedAction(relay, envelope, did); RelayOk(later, did) && Grows(relay, later)
  {
    hide Queued, Sequenced, Ordered;
    ActionSequenced(relay, envelope, did);
    ActionQueued(relay, envelope, did);
  }

  /**
   Two deliveries count as one exactly if they agree on sender, recipients in any order, package and
   binding; the idempotency key and the audience do not matter.
   */
  lemma FingerprintIsExact(a: DeliveryEnvelope, b: DeliveryEnvelope)
    requires a.payload.RequestPayload? && b.payload.RequestPayload?
    ensures DeliveryFingerprintOf(a) == DeliveryFingerprintOf(b) <==>
            && a.sender == b.sender && (forall r :: r in a.recipients <==> r in b.recipients)
            && a.payload.request.package == b.payload.request.package
            && a.payload.request.binding == b.payload.request.binding
  {
    var s, t := (set r | r in a.recipients), (set r | r in b.recipients);
    assert forall r :: (r in s <==> r in a.recipients) && (r in t <==> r in b.recipients);
    assert s == t <==> forall r :: r in a.recipients <==> r in b.recipients;
  }

  /** The relay lets this action in: from its proposer, unexpired, for its verifier, new, its ID not taken. */
  ghost predicate Admits(relay: Relay, envelope: DeliveryEnvelope, did: Did) {
    && envelope.payload.RequestPayload?
    && var action := envelope.payload.request.package.envelope;
    && envelope.sender == action.proposer && !EnvelopeExpired(envelope, relay.now)
    && did in envelope.recipients
    && HashOf(action) !in relay.byHash
    && (action.actionId.value in relay.byValue ==> relay.byValue[action.actionId.value] == HashOf(action))
  }

  /** The queue grew by one copy for each recipient in turn, under the next numbers. */
  ghost predicate Queues(relay: Relay, later: Relay, envelope: DeliveryEnvelope) {
    && later.next == relay.next + |envelope.recipients|
    && |later.deliveries| == |relay.deliveries| + |envelope.recipients|
    && relay.deliveries <= later.deliveries
    && forall i :: 0 <= i < |envelope.recipients| ==>
         later.deliveries[|relay.deliveries| + i]
         == StoredDelivery(relay.next + i, envelope.recipients[i], envelope)
  }

  /** An admitted action is filed and queued for each recipient; any other changes nothing. */
  lemma ActionIsQueued(relay: Relay, envelope: DeliveryEnvelope, did: Did)
    requires envelope.payload.RequestPayload?
    ensures var later := ReceiveAction(relay, envelope, did);
            var action := envelope.payload.request.package.envelope;
            && (Admits(relay, envelope, did) ==>
                  && Queues(relay, later, envelope) && later.now == relay.now
                  && later.byHash == relay.byHash[HashOf(action) := Relayed(envelope, None)]
                  && later.byValue == relay.byValue[action.actionId.value := HashOf(action)])
            && (!Admits(relay, envelope, did) ==> later == relay)
  {
  }

  /** An accepted response is queued for each recipient, and is the action's response if it is the first. */
  lemma ResponseIsQueued(relay: Relay, envelope: DeliveryEnvelope, did: Did)
    requires RelayAccepts(relay, envelope, did)
    ensures var later := SubmitResponseDelivery(relay, envelope, did);
            var response := envelope.payload.response; var hash := response.hash.value;
            && Queues(relay, later, envelope) && later.now == relay.now && later.byValue == relay.byValue
            && later.byHash.Keys == relay.byHash.Keys
            && (forall h :: h in relay.byHash && h != hash ==> later.byHash[h] == relay.byHash[h])
            && later.byHash[hash].envelope == relay.byHash[hash].envelope
            && later.byHash[hash].response.Some?
            && later.byHash[hash].response.value
               == (if relay.byHash[hash].response.Some? then relay.byHash[hash].response.value else response)
  {
  }

  lemma ResponseRelay(relay: Relay, envelope: DeliveryEnvelope, did: Did)
    requires RelayOk(relay, did) && RelayAccepts(relay, envelope, did)
    ensures var later := SubmitResponseDelivery(relay, envelope, did); RelayOk(later, did) && Grows(relay, later)
  {
    hide Copies, Ordered;
    StoredOrdered(relay.deliveries, relay.next, envelope);
    CopiesAre(relay.next, envelope);
  }

  // ---- the ledger -----------------------------------------------------------------------

  /** What this adapter leaves in its ledger: a resolved entry lacks a response only if indeterminate. */
  ghost predicate EntryOk(hashes: set<EnvelopeHash>, did: Did, k: LedgerId, entry: Entry) {
    && k.Pair? && entry.id == k && entry.hash in hashes && entry.hash.envelope.actionId == k.actionId
    && (entry.status.Done? ==>
          match entry.status.response
          case None => entry.status.resolution.Indeterminate?
          case Some(r) =>
            Matches(r, entry.status.resolution, entry.hash) && r.verifier == did && IsDispatchResult(r.result))
  }

  ghost predicate IndexOk(hashes: set<EnvelopeHash>, did: Did, index: Index) {
    forall k :: k in index.entries ==> EntryOk(hashes, did, k, index.entries[k])
  }

  /** What this process's configuration refuses, it has not begun. */
  ghost predicate BegunAllowed(index: Index, refused: map<EnvelopeHash, ResultKind>) {
    forall k :: Unfinished(index, k) ==> index.entries[k].hash !in refused
  }

  ghost predicate SentOk(sent: seq<ActionId>, index: Index) {
    forall id :: id in sent ==> Pair(id) in index.entries
  }

  ghost predicate Once(sent: seq<ActionId>) {
    forall i, j :: 0 <= i < j < |sent| ==> sent[i] != sent[j]
  }

  /** The index holds this answer for exactly its envelope. */
  ghost predicate Holds(index: Index, a: Answer) {
    var k := Pair(a.hash.envelope.actionId);
    ResolvedAs(index, k, a.response.result, Some(a.response)) && index.entries[k].hash == a.hash
  }

  ghost predicate AnswersOk(answers: seq<Answer>, index: Index) {
    forall a :: a in answers ==> Holds(index, a)
  }

  /** What an index, replayed or in memory, remembers. */
  ghost predicate Remembers(hashes: set<EnvelopeHash>, did: Did, index: Index, sent: seq<ActionId>,
                            answers: seq<Answer>) {
    IndexOk(hashes, did, index) && SentOk(sent, index) && AnswersOk(answers, index)
  }

  ghost predicate LedgerOk(hashes: set<EnvelopeHash>, did: Did, journal: seq<Event>, index: Option<Index>,
                           sent: seq<ActionId>, answers: seq<Answer>) {
    && Once(sent) && Remembers(hashes, did, Replay(journal), sent, answers)
    && (index.Some? ==> JournalAhead(journal, index.value) && Remembers(hashes, did, index.value, sent, answers))
  }

  /** Two relayed envelopes never share an Action ID value. */
  ghost predicate OneEnvelope(hashes: set<EnvelopeHash>) {
    forall a, b :: a in hashes && b in hashes && a.envelope.actionId.value == b.envelope.actionId.value ==> a == b
  }

  lemma FiledOnce(relay: Relay)
    requires Filed(relay)
    ensures OneEnvelope(relay.byHash.Keys)
  {
  }

  /** A new entry, or a new status, is remembered beside everything before it. */
  lemma PutRemembers(hashes: set<EnvelopeHash>, did: Did, index: Index, sent: seq<ActionId>, answers: seq<Answer>,
                     id: LedgerId, entry: Entry)
    requires Remembers(hashes, did, index, sent, answers) && EntryOk(hashes, did, id, entry)
    requires forall a :: a in answers && Pair(a.hash.envelope.actionId) == id ==>
               entry.status == Done(a.response.result, Some(a.response)) && entry.hash == a.hash
    ensures Remembers(hashes, did, Put(index, id, entry), sent, answers)
  {
  }

  lemma RemembersNext(hashes: set<EnvelopeHash>, did: Did, index: Index, sent: seq<ActionId>, answers: seq<Answer>,
                      id: ActionId)
    requires Remembers(hashes, did, index, sent, answers) && Pair(id) in index.entries
    ensures Remembers(hashes, did, index, sent + [id], answers)
  {
  }

  lemma RemembersAnswer(hashes: set<EnvelopeHash>, did: Did, index: Index, sent: seq<ActionId>, answers: seq<Answer>,
                        a: Answer)
    requires Remembers(hashes, did, index, sent, answers)
    requires Holds(index, a)
    ensures Remembers(hashes, did, index, sent, answers + [a])
  {
  }

  lemma RemembersMore(hashes: set<EnvelopeHash>, more: set<EnvelopeHash>, did: Did, index: Index,
                      sent: seq<ActionId>, answers: seq<Answer>)
    requires Remembers(hashes, did, index, sent, answers) && hashes <= more
    ensures Remembers(more, did, index, sent, answers)
  {
    forall k | k in index.entries
      ensures EntryOk(more, did, k, index.entries[k])
    {
      assert EntryOk(hashes, did, k, index.entries[k]);
    }
  }

  /** The index of this adapter names actions by their pairs only. */
  lemma FoundByPair(hashes: set<EnvelopeHash>, did: Did, index: Index, id: ActionId)
    requires IndexOk(hashes, did, index)
    ensures Lookup(index, id) == if Pair(id) in index.entries then Some(Pair(id)) else None
  {
    var k := Flat(FlatText(id));
    assert k in index.entries ==> EntryOk(hashes, did, k, index.entries[k]);
  }

  /** The gate: a new entry and a transmission, or neither. */
  lemma AuthorizeLedger(hashes: set<EnvelopeHash>, did: Did, ledger: Ledger, sent: seq<ActionId>, answers: seq<Answer>,
                        hash: EnvelopeHash, expiresAt: int, fate: AppendFate)
    requires LedgerOk(hashes, did, ledger.journal, Some(ledger.index), sent, answers) && hash in hashes
    ensures var id := hash.envelope.actionId; var (l, verdict) := Authorize(ledger, id, hash, expiresAt, fate);
            && LedgerOk(hashes, did, l.journal, Some(l.index),
                        if verdict == Some(Absent) then sent + [id] else sent, answers)
            && (verdict == Some(Absent) ==>
                 l.index == Put(ledger.index, Pair(id), Entry(Pair(id), hash, expiresAt, InProgress)))
            && (verdict != Some(Absent) ==> l.index == ledger.index)
  {
    hide Replay, Remembers, JournalAhead, Put;
    var id := hash.envelope.actionId;
    var entry := Entry(Pair(id), hash, expiresAt, InProgress);
    AuthorizeKeepsAhead(ledger, id, hash, expiresAt, fate);
    if Check(ledger.index, id, hash).Absent? {
      var event := Executing(Pair(id), hash, expiresAt);
      ReplayAppend(ledger.journal, event);
      NewEntry(hashes, did, ledger.index, Replay(ledger.journal), ledger.journal, sent, answers, entry);
      var replayed := Put(Replay(ledger.journal), Pair(id), entry);
      RemembersPut(hashes, did, replayed, sent, answers, id, entry, Replay(ledger.journal));
      RemembersPut(hashes, did, Put(ledger.index, Pair(id), entry), sent, answers, id, entry, ledger.index);
    }
  }

  lemma RemembersPut(hashes: set<EnvelopeHash>, did: Did, after: Index, sent: seq<ActionId>, answers: seq<Answer>,
                     id: ActionId, entry: Entry, before: Index)
    requires Remembers(hashes, did, after, sent, answers) && after == Put(before, Pair(id), entry)
    ensures Remembers(hashes, did, after, sent + [id], answers)
  {
    RemembersNext(hashes, did, after, sent, answers, id);
  }

  /** An entry the index does not hold was neither transmitted nor answered. */
  lemma NewEntry(hashes: set<EnvelopeHash>, did: Did, index: Index, replayed: Index, journal: seq<Event>,
                 sent: seq<ActionId>, answers: seq<Answer>, entry: Entry)
    requires Remembers(hashes, did, index, sent, answers) && Remembers(hashes, did, replayed, sent, answers) &&
               Once(sent)
    requires entry.hash in hashes && entry.id == Pair(entry.hash.envelope.actionId) && entry.status.InProgress?
    requires entry.id !in index.entries
    ensures Remembers(hashes, did, Put(index, entry.id, entry), sent, answers)
    ensures Remembers(hashes, did, Put(replayed, entry.id, entry), sent, answers)
    ensures Once(sent + [entry.id.actionId])
  {
    PutRemembers(hashes, did, index, sent, answers, entry.id, entry);
    PutRemembers(hashes, did, replayed, sent, answers, entry.id, entry);
  }

  /** This entry may take this response: it is unfinished, or its outcome is known to be unknown. */
  ghost predicate Open(index: Index, response: ActionResponse, did: Did) {
    && response.hash.Some? && response.verifier == did && IsDispatchResult(response.result)
    && var k := Pair(response.hash.value.envelope.actionId);
    && k in index.entries && index.entries[k].hash == response.hash.value
    && (|| index.entries[k].status.InProgress?
        || (index.entries[k].status == UNKNOWN_OUTCOME && response.result.Indeterminate?))
  }

  lemma OpenIsUnanswered(hashes: set<EnvelopeHash>, did: Did, index: Index, sent: seq<ActionId>, answers: seq<Answer>,
                         response: ActionResponse)
    requires Remembers(hashes, did, index, sent, answers) && Open(index, response, did)
    ensures forall a :: a in answers ==> a.hash.envelope.actionId != response.hash.value.envelope.actionId
    ensures EntryOk(hashes, did, Pair(response.hash.value.envelope.actionId),
                    index.entries[Pair(response.hash.value.envelope.actionId)].(status :=
                        Done(response.result, Some(response))))
    ensures Lookup(index, response.hash.value.envelope.actionId) == Some(Pair(response.hash.value.envelope.actionId))
  {
    FoundByPair(hashes, did, index, response.hash.value.envelope.actionId);
    forall a | a in answers
      ensures a.hash.envelope.actionId != response.hash.value.envelope.actionId
    {
      assert Holds(index, a);
    }
  }

  /** The response is recorded in an index that holds the open entry, and can be an answer. */
  lemma ResolvedRemembers(hashes: set<EnvelopeHash>, did: Did, index: Index, replayed: Index, sent: seq<ActionId>,
                          answers: seq<Answer>, response: ActionResponse)
    requires Remembers(hashes, did, index, sent, answers) && Open(index, response, did)
    requires Remembers(hashes, did, replayed, sent, answers)
    requires var k := Pair(response.hash.value.envelope.actionId);
             k in replayed.entries && Backed(index.entries[k], replayed.entries[k])
    ensures var id := response.hash.value.envelope.actionId;
            var after := WithStatus(replayed, Pair(id), Done(response.result, Some(response)));
            && Remembers(hashes, did, after, sent, answers)
            && Remembers(hashes, did, after, sent, answers + [Answer(response.hash.value, response)])
  {
    hide Remembers;
    var id := response.hash.value.envelope.actionId;
    OpenIsUnanswered(hashes, did, index, sent, answers, response);
    var entry := replayed.entries[Pair(id)].(status := Done(response.result, Some(response)));
    PutRemembers(hashes, did, replayed, sent, answers, Pair(id), entry);
    RemembersAnswer(hashes, did, Put(replayed, Pair(id), entry), sent, answers, Answer(response.hash.value, response));
  }

  /** An outcome is recorded, and becomes the answer, or the append threw. */
  lemma ResolveLedger(hashes: set<EnvelopeHash>, did: Did, ledger: Ledger, sent: seq<ActionId>, answers: seq<Answer>,
                      response: ActionResponse, fate: AppendFate)
    requires LedgerOk(hashes, did, ledger.journal, Some(ledger.index), sent, answers) &&
               Open(ledger.index, response, did)
    ensures var id := response.hash.value.envelope.actionId;
            var (l, ok) := Resolve(ledger, id, response.result, Some(response), fate);
            && ok == fate.Written?
            && LedgerOk(hashes, did, l.journal, Some(l.index), sent,
                        if ok then answers + [Answer(response.hash.value, response)] else answers)
            && l.index == if ok then WithStatus(ledger.index, Pair(id), Done(response.result, Some(response)))
                 else ledger.index
  {
    hide Replay, Remembers, WithStatus, WellFormed;
    var id := response.hash.value.envelope.actionId;
    OpenIsUnanswered(hashes, did, ledger.index, sent, answers, response);
    ResolveKeepsAhead(ledger, id, response.result, Some(response), fate);
    ReplayAppend(ledger.journal, Resolved(Pair(id), response.result, Some(response)));
    ResolvedRemembers(hashes, did, ledger.index, Replay(ledger.journal), sent, answers, response);
    ResolvedRemembers(hashes, did, ledger.index, ledger.index, sent, answers, response);
    hide JournalAhead;
    assert ledger.index.entries[Pair(id)].id == Pair(id);
  }

  /** A response the index holds can be an answer. */
  lemma RecoveredLedger(hashes: set<EnvelopeHash>, did: Did, ledger: Ledger, sent: seq<ActionId>, answers: seq<Answer>,
                        hash: EnvelopeHash, response: ActionResponse)
    requires LedgerOk(hashes, did, ledger.journal, Some(ledger.index), sent, answers)
    requires var found := RecoveryFor(ledger.index, hash.envelope.actionId, hash);
             found.Some? && found.value.response == Some(response)
    ensures LedgerOk(hashes, did, ledger.journal, Some(ledger.index), sent, answers + [Answer(hash, response)])
    ensures response.hash == Some(hash) && response.verifier == did && IsDispatchResult(response.result)
  {
    hide Replay, Remembers, WellFormed;
    FoundInMemory(hashes, did, ledger.index, sent, answers, hash.envelope.actionId);
    var k := Pair(hash.envelope.actionId);
    assert Backed(ledger.index.entries[k], Replay(ledger.journal).entries[k]);
    RemembersAnswer(hashes, did, ledger.index, sent, answers, Answer(hash, response));
    RemembersAnswer(hashes, did, Replay(ledger.journal), sent, answers, Answer(hash, response));
  }

  lemma FoundInMemory(hashes: set<EnvelopeHash>, did: Did, index: Index, sent: seq<ActionId>, answers: seq<Answer>,
                      id: ActionId)
    requires Remembers(hashes, did, index, sent, answers)
    ensures Lookup(index, id) == if Pair(id) in index.entries then Some(Pair(id)) else None
    ensures Pair(id) in index.entries ==> EntryOk(hashes, did, Pair(id), index.entries[Pair(id)])
  {
    FoundByPair(hashes, did, index, id);
  }

  // ---- restart --------------------------------------------------------------------------

  ghost predicate UnknownRecords(index: Index, events: seq<Event>) {
    forall e :: e in events ==>
        e.Resolved? && e.resolution.Indeterminate? && e.response.None? && Unfinished(index, e.id)
  }

  lemma {:induction false} RecordsAreUnknown(index: Index, n: nat)
    requires WellFormed(index) && n <= |index.order|
    ensures UnknownRecords(index, Records(index, n))
  {
    hide Settled;
    if n > 0 {
      RecordsAreUnknown(index, n - 1);
      SettledEntries(index, n - 1);
      SettledWellFormed(index, n - 1);
    }
  }

  /** Each record recovery appends is remembered: nothing unfinished was ever answered. */
  lemma {:induction false} RecoveryRemembers(hashes: set<EnvelopeHash>, did: Did, journal: seq<Event>,
                                             extra: seq<Event>,
                                             sent: seq<ActionId>, answers: seq<Answer>)
    requires Remembers(hashes, did, Replay(journal), sent, answers) && UnknownRecords(Replay(journal), extra)
    ensures Remembers(hashes, did, Replay(journal + extra), sent, answers)
  {
    hide Replay, Remembers;
    if extra == [] {
      assert journal + extra == journal;
    } else {
      var front, last := extra[..|extra| - 1], extra[|extra| - 1];
      RecoveryRemembers(hashes, did, journal, front, sent, answers);
      ReplayAppend(journal + front, last);
      assert journal + extra == (journal + front) + [last];
      UnfinishedUnanswered(hashes, did, Replay(journal), sent, answers, last.id);
      if last.id in Replay(journal + front).entries {
        KnownEntry(hashes, did, Replay(journal + front), sent, answers, last.id);
        PutRemembers(hashes, did, Replay(journal + front), sent, answers, last.id,
                     Replay(journal + front).entries[last.id].(status := UNKNOWN_OUTCOME));
      }
    }
  }

  lemma KnownEntry(hashes: set<EnvelopeHash>, did: Did, index: Index, sent: seq<ActionId>, answers: seq<Answer>,
                   k: LedgerId)
    requires Remembers(hashes, did, index, sent, answers) && k in index.entries
    ensures EntryOk(hashes, did, k, index.entries[k])
  {
  }

  lemma UnfinishedUnanswered(hashes: set<EnvelopeHash>, did: Did, index: Index, sent: seq<ActionId>,
                             answers: seq<Answer>,
                             k: LedgerId)
    requires Remembers(hashes, did, index, sent, answers) && Unfinished(index, k)
    ensures forall a :: a in answers ==> Pair(a.hash.envelope.actionId) != k
  {
  }

  lemma UnknownPrefix(index: Index, events: seq<Event>, n: nat)
    requires UnknownRecords(index, events) && n <= |events|
    ensures UnknownRecords(index, events[..n])
  {
  }

  lemma StartLedger(hashes: set<EnvelopeHash>, did: Did, journal: seq<Event>, stop: Option<nat>,
                    sent: seq<ActionId>, answers: seq<Answer>)
    requires LedgerOk(hashes, did, journal, None, sent, answers)
    ensures var m := StartUp(journal, stop); LedgerOk(hashes, did, m.journal, m.index, sent, answers)
  {
    hide Replay, Remembers, Once, Settled;
    ReplayWellFormed(journal);
    var index := Replay(journal);
    var records := Records(index, |index.order|);
    RecordsAreUnknown(index, |index.order|);
    var kept := match stop case None => |records| case Some(n) => if n <= |records| then n else |records|;
    UnknownPrefix(index, records, kept);
    RecoveryRemembers(hashes, did, journal, records[..kept], sent, answers);
    assert records[..|records|] == records;
    StartIsAhead(journal, stop);
    RestartRefinesJournal(journal);
    hide JournalAhead, Records;
  }

  // ---- every run ------------------------------------------------------------------------

  function IndexOf(w: World): Option<Index> {
    match w.process case None => None case Some(p) => Some(p.index)
  }

  /** The errors that would mean a response was lost or mixed up. */
  predicate Confused(phase: Phase) {
    phase.Stuck? && phase.error in {ReplayFatal, MismatchFatal, WrongVerifier, WrongHash, NotAddressed}
  }

  /** The current delivery's dispatch is recorded as executing. */
  ghost predicate DispatchBegun(p: Process) {
    && AtRequest(p)
    && var envelope := CurrentEnvelope(p);
    && Pair(envelope.actionId) in p.index.entries
    && p.index.entries[Pair(envelope.actionId)].hash == HashOf(envelope)
    && p.index.entries[Pair(envelope.actionId)].status.InProgress?
  }

  ghost predicate ProcessOk(relay: Relay, did: Did, p: Process) {
    && BegunAllowed(p.index, p.refused)
    && (forall d :: d in p.page ==> d in relay.deliveries && d.recipient == did)
    && (p.phase.Dispatching? ==> DispatchBegun(p))
    && !Confused(p.phase)
  }

  ghost predicate Inv(w: World, did: Did) {
    && RelayOk(w.relay, did)
    && LedgerOk(w.relay.byHash.Keys, did, w.journal, IndexOf(w), w.sent, w.answers)
    && (w.process.Some? ==> ProcessOk(w.relay, did, w.process.value))
  }

  lemma LedgerMore(hashes: set<EnvelopeHash>, more: set<EnvelopeHash>, did: Did, journal: seq<Event>,
                   index: Option<Index>,
                   sent: seq<ActionId>, answers: seq<Answer>)
    requires LedgerOk(hashes, did, journal, index, sent, answers) && hashes <= more
    ensures LedgerOk(more, did, journal, index, sent, answers)
  {
    hide Remembers, Replay, JournalAhead, Once;
    RemembersMore(hashes, more, did, Replay(journal), sent, answers);
    if index.Some? {
      RemembersMore(hashes, more, did, index.value, sent, answers);
    }
  }

  /** A relay that grew keeps everything known of the ledger and the process. */
  lemma RelayStepInv(w: World, relay: Relay, did: Did)
    requires Inv(w, did) && RelayOk(relay, did) && Grows(w.relay, relay)
    ensures Inv(w.(relay := relay), did)
  {
    hide RelayOk, LedgerOk, BegunAllowed, DispatchBegun, Confused;
    LedgerMore(w.relay.byHash.Keys, relay.byHash.Keys, did, w.journal, IndexOf(w), w.sent, w.answers);
  }

  /** What the current delivery's request is known by. */
  lemma CurrentIsRelayed(relay: Relay, did: Did, p: Process)
    requires RelayOk(relay, did) && ProcessOk(relay, did, p) && AtRequest(p)
    ensures HashOf(CurrentEnvelope(p)) in relay.byHash && did in Current(p).envelope.recipients
    ensures OneEnvelope(relay.byHash.Keys)
  {
    FiledOnce(relay);
    assert Current(p) in p.page;
    assert Addressed(Current(p), did);
  }

  /** A relayed action is never held under another hash, and what is resolved can be recovered. */
  lemma Recoverable(hashes: set<EnvelopeHash>, did: Did, index: Index, sent: seq<ActionId>, answers: seq<Answer>,
                    hash: EnvelopeHash)
    requires Remembers(hashes, did, index, sent, answers) && OneEnvelope(hashes) && hash in hashes
    ensures var id := hash.envelope.actionId; var found := RecoveryFor(index, id, hash);
            && !Check(index, id, hash).HashMismatch?
            && (Check(index, id, hash).ReplayDetected? <==> found.Some?)
            && (found.Some? && found.value.response.None? ==>
                  && found.value.resolution.Indeterminate?
                  && forall detail :: Open(index, ActionResponse(Indeterminate, Some(hash), did, detail), did))
  {
    FoundInMemory(hashes, did, index, sent, answers, hash.envelope.actionId);
  }

  ghost predicate Good(p: Process, response: ActionResponse, did: Did) {
    AtRequest(p) && response.hash == Some(HashOf(CurrentEnvelope(p))) && response.verifier == did
  }

  lemma RespondOk(relay: Relay, did: Did, p: Process, response: ActionResponse, clock: int)
    requires ProcessOk(relay, did, p) && Good(p, response, did)
    ensures ProcessOk(relay, did, Respond(p, response, clock, did))
    ensures Respond(p, response, clock, did).index == p.index
  {
    hide BegunAllowed, DispatchBegun;
  }

  lemma StatelessInv(w: World, p: Process, response: ActionResponse, clock: int, did: Did)
    requires Inv(w, did) && w.process == Some(p) && Good(p, response, did)
    ensures Inv(w.(process := Some(Respond(p, response, clock, did))), did)
  {
    hide RelayOk, LedgerOk, ProcessOk, Respond, Good;
    RespondOk(w.relay, did, p, response, clock);
  }

  lemma LeaveInv(w: World, p: Process, phase: Phase, did: Did)
    requires Inv(w, did) && w.process == Some(p) && !Confused(phase) && !phase.Dispatching?
    ensures Inv(w.(process := Some(Leave(p, phase))), did)
  {
    hide RelayOk, LedgerOk, BegunAllowed;
  }

  lemma BackedInv(w: World, p: Process, ledger: Ledger, response: ActionResponse, clock: int, did: Did)
    requires Inv(w, did) && w.process == Some(p) && Good(p, response, did)
    requires LedgerOk(w.relay.byHash.Keys, did, ledger.journal, Some(ledger.index), w.sent,
                      w.answers + [Answer(HashOf(CurrentEnvelope(p)), response)])
    requires BegunAllowed(ledger.index, p.refused)
    ensures Inv(RespondBacked(w, p, ledger, response, clock, did), did)
  {
    hide RelayOk, LedgerOk, BegunAllowed, Respond;
    var q := p.(index := ledger.index, phase := AtDelivery);
    RespondOk(w.relay, did, q, response, clock);
    RespondPhase(p.(index := ledger.index), response, clock, did);
  }

  /** The phase a response is returned in does not matter. */
  lemma RespondPhase(p: Process, response: ActionResponse, clock: int, did: Did)
    requires AtRequest(p)
    ensures Respond(p, response, clock, did) == Respond(p.(phase := AtDelivery), response, clock, did)
  {
  }

  lemma RecordInv(w: World, p: Process, response: ActionResponse, clock: int, fate: AppendFate, did: Did)
    requires Inv(w, did) && w.process == Some(p) && Good(p, response, did) && Open(p.index, response, did)
    ensures Inv(Record(w, p, response, clock, fate, did), did)
  {
    hide RelayOk, LedgerOk, Respond, RespondBacked;
    ResolveLedger(w.relay.byHash.Keys, did, Ledger(w.journal, p.index), w.sent, w.answers, response, fate);
    var (l, ok) :=
      Resolve(Ledger(w.journal, p.index), CurrentEnvelope(p).actionId, response.result, Some(response), fate);
    assert BegunAllowed(l.index, p.refused);
    if ok {
      BackedInv(w, p, l, response, clock, did);
    }
  }

  lemma HandleInv(w: World, p: Process, handling: Handling, clock: int, detail: string, fate: AppendFate, did: Did)
    requires Inv(w, did) && w.process == Some(p) && AtRequest(p) && p.phase.AtDelivery?
    requires HashOf(CurrentEnvelope(p)) !in p.refused
    ensures Inv(Handle(w, p, handling, clock, detail, fate, did), did)
  {
    hide RelayOk, LedgerOk, Respond, Authorize;
    CurrentIsRelayed(w.relay, did, p);
    match handling
    case AnswerStateless(kind) =>
      LeaveInv(w, p, Idle, did);
      StatelessInv(w, p, ActionResponse(kind, Some(HashOf(CurrentEnvelope(p))), did, detail), clock, did);
    case Unavailable => LeaveInv(w, p, Idle, did);
    case Refuse => LeaveInv(w, p, Stuck(HttpRejected), did);
    case Prepared =>
      AuthorizeLedger(w.relay.byHash.Keys, did, Ledger(w.journal, p.index), w.sent, w.answers,
                      HashOf(CurrentEnvelope(p)), CurrentEnvelope(p).expiresAt, fate);
  }

  lemma ProcessActionInv(w: World, p: Process, handling: Handling, clock: int, detail: string, fate: AppendFate,
                         did: Did)
    requires Inv(w, did) && w.process == Some(p) && AtRequest(p) && p.phase.AtDelivery?
    ensures Inv(ProcessAction(w, p, handling, clock, detail, fate, did), did)
  {
    hide RelayOk, Respond, Remembers, JournalAhead, ProcessOk, Inject, Record, RespondBacked, Replay, Open, Once,
        OneEnvelope;
    CurrentIsRelayed(w.relay, did, p);
    var hash := HashOf(CurrentEnvelope(p));
    Recoverable(w.relay.byHash.Keys, did, p.index, w.sent, w.answers, hash);
    var found := RecoveryFor(p.index, hash.envelope.actionId, hash);
    if found.None? {
      InjectInv(w, p, handling, clock, detail, fate, did);
    } else if found.value.response.Some? {
      hide LedgerOk;
      var response := found.value.response.value;
      RecoveredLedger(w.relay.byHash.Keys, did, Ledger(w.journal, p.index), w.sent, w.answers, hash, response);
      BackedRecovered(w, p, response, clock, did);
    } else {
      RecordInv(w, p, ActionResponse(Indeterminate, Some(hash), did, detail), clock, fate, did);
    }
  }

  /** The handler is asked: the configuration refuses, or the ledger holds nothing resolved. */
  lemma InjectInv(w: World, p: Process, handling: Handling, clock: int, detail: string, fate: AppendFate, did: Did)
    requires Inv(w, did) && w.process == Some(p) && AtRequest(p) && p.phase.AtDelivery?
    requires var hash := HashOf(CurrentEnvelope(p));
             var verdict := Check(p.index, hash.envelope.actionId, hash);
             !verdict.ReplayDetected? && !verdict.HashMismatch?
    ensures Inv(Inject(w, p, handling, clock, detail, fate, did), did)
  {
    hide RelayOk, Respond, LedgerOk, ProcessOk, Handle, Check;
    var hash := HashOf(CurrentEnvelope(p));
    if hash in p.refused {
      StatelessInv(w, p, ActionResponse(p.refused[hash], Some(hash), did, detail), clock, did);
    } else {
      LeaveInv(w, p, Idle, did);
      HandleInv(w, p, handling, clock, detail, fate, did);
    }
  }

  lemma BackedRecovered(w: World, p: Process, response: ActionResponse, clock: int, did: Did)
    requires Inv(w, did) && w.process == Some(p) && Good(p, response, did)
    requires LedgerOk(w.relay.byHash.Keys, did, w.journal, Some(p.index), w.sent,
                      w.answers + [Answer(HashOf(CurrentEnvelope(p)), response)])
    ensures Inv(RespondBacked(w, p, Ledger(w.journal, p.index), response, clock, did), did)
  {
    hide RelayOk, LedgerOk, BegunAllowed, RespondBacked;
    BackedInv(w, p, Ledger(w.journal, p.index), response, clock, did);
  }

  lemma DeliverInv(w: World, p: Process, clock: int, handling: Handling, detail: string, fate: AppendFate, did: Did)
    requires Inv(w, did) && w.process == Some(p) && p.phase.AtDelivery? && p.at < |p.page|
    ensures Inv(DoDeliver(w, p, clock, handling, detail, fate, did), did)
  {
    hide RelayOk, LedgerOk, BegunAllowed, DispatchBegun, ProcessAction;
    LeaveInv(w, p, Stuck(UnsupportedPayload), did);
    if AtRequest(p) {
      CurrentIsRelayed(w.relay, did, p);
      ProcessActionInv(w, p, handling, clock, detail, fate, did);
    }
  }

  lemma PollInv(w: World, p: Process, did: Did)
    requires Inv(w, did) && w.process == Some(p)
    ensures Inv(DoPoll(w, p, did), did)
  {
    hide LedgerOk, BegunAllowed, FirstPage, Select, Filed, Queued;
    PageIsPrefix(w.relay.deliveries, did, After(p.state.cursor), w.relay.now);
  }

  lemma ReturnedInv(w: World, p: Process, result: AdapterServer.DispatchResult, clock: int, detail: string,
                    fate: AppendFate, did: Did)
    requires Inv(w, did) && w.process == Some(p) && p.phase.Dispatching? && AtRequest(p)
    ensures Inv(DoReturned(w, p, result, clock, detail, fate, did), did)
  {
    hide RelayOk, LedgerOk, BegunAllowed, Record;
    var hash := HashOf(CurrentEnvelope(p));
    RecordInv(w, p, ActionResponse(AdapterServer.ClassifyDispatch(result), Some(hash), did, detail), clock, fate, did);
  }

  lemma SubmitInv(w: World, p: Process, how: SubmitFate, did: Did)
    requires Inv(w, did) && w.process == Some(p) && AtRequest(p) && CurrentFingerprint(p) in p.state.responses
    ensures Inv(DoSubmit(w, p, how, did), did)
  {
    hide RelayOk, LedgerOk, BegunAllowed, DispatchBegun, Grows, RelayAccepts, SubmitResponseDelivery;
    var cached := p.state.responses[CurrentFingerprint(p)];
    if how.Arrived? && how.admissible && RelayAccepts(w.relay, cached.envelope, did) {
      ResponseRelay(w.relay, cached.envelope, did);
      RelayStepInv(w, SubmitResponseDelivery(w.relay, cached.envelope, did), did);
    }
  }

  lemma StartInv(w: World, stop: Option<nat>, refused: map<EnvelopeHash, ResultKind>, did: Did)
    requires Inv(w, did) && w.process.None?
    ensures Inv(DoStart(w, stop, refused), did)
  {
    hide RelayOk, LedgerOk, Replay, Records, Settled;
    StartLedger(w.relay.byHash.Keys, did, w.journal, stop, w.sent, w.answers);
    RestartSettlesOnlyUnfinished(w.journal);
  }

  lemma StepInv(w: World, step: Step, did: Did)
    requires Inv(w, did) && Enabled(w, step)
    ensures Inv(Do(w, step, did), did)
  {
    hide RelayOk, BegunAllowed, DispatchBegun;
    hide DoDeliver, DoPoll, DoSubmit, DoReturned, DoStart, BeginRelayedAction, Remembers, Replay, JournalAhead, Once;
    match step
    case RelayAction(envelope) =>
      ActionRelay(w.relay, envelope, did);
      RelayStepInv(w, BeginRelayedAction(w.relay, envelope, did), did);
    case Tick(time) =>
      TickRelay(w.relay, time, did);
      RelayStepInv(w, w.relay.(now := time), did);
    case Poll(lost) => PollInv(w, w.process.value, did);
    case Deliver(clock, handling, detail, fate) => DeliverInv(w, w.process.value, clock, handling, detail, fate, did);
    case Returned(result, clock, detail, fate) => ReturnedInv(w, w.process.value, result, clock, detail, fate, did);
    case Submit(how) => SubmitInv(w, w.process.value, how, did);
    case Start(stop, refused) => StartInv(w, stop, refused, did);
    case _ =>
  }

  lemma TickRelay(relay: Relay, time: int, did: Did)
    requires RelayOk(relay, did) && time >= relay.now
    ensures RelayOk(relay.(now := time), did) && Grows(relay, relay.(now := time))
  {
  }

  lemma {:induction false} RunInv(steps: seq<Step>, did: Did)
    ensures Inv(RelayProtocol.Run(steps, did), did)
  {
    hide Do;
    if steps != [] {
      RunInv(steps[..|steps| - 1], did);
      var w := RelayProtocol.Run(steps[..|steps| - 1], did);
      if Enabled(w, steps[|steps| - 1]) {
        hide Inv;
        StepInv(w, steps[|steps| - 1], did);
      }
    }
  }

  /** Over every run, each relayed action is transmitted at most once. */
  lemma {:induction false} TransmittedOnce(steps: seq<Step>, did: Did)
    ensures Once(RelayProtocol.Run(steps, did).sent)
  {
    RunInv(steps, did);
  }

  /** Over every run, all answers the ledger backs for one envelope are the same terminal response. */
  lemma {:induction false} AnswersAgree(steps: seq<Step>, did: Did, a: Answer, b: Answer)
    requires a in RelayProtocol.Run(steps, did).answers && b in RelayProtocol.Run(steps, did).answers &&
               a.hash == b.hash
    ensures a == b && IsDispatchResult(a.response.result) && a.response.hash == Some(a.hash)
  {
    RunInv(steps, did);
    AnswersOfOne(RelayProtocol.Run(steps, did), did, a, b);
  }

  lemma AnswersOfOne(w: World, did: Did, a: Answer, b: Answer)
    requires Inv(w, did) && a in w.answers && b in w.answers && a.hash == b.hash
    ensures a == b && IsDispatchResult(a.response.result) && a.response.hash == Some(a.hash)
  {
    hide Replay, RelayOk;
    assert Holds(Replay(w.journal), a) && Holds(Replay(w.journal), b);
  }

  /** No run leaves the worker stuck on a replay, a mismatch, or a response that is not its own. */
  lemma {:induction false} NeverConfused(steps: seq<Step>, did: Did)
    ensures var w := RelayProtocol.Run(steps, did); w.process.Some? ==> !Confused(w.process.value.phase)
  {
    RunInv(steps, did);
  }

  /**
   In every journal this adapter writes, a resolved action lacks a response only if its
   resolution is indeterminate, and a response it has reports that resolution.
   */
  lemma {:induction false} UnansweredOnlyIfUnknown(steps: seq<Step>, did: Did, k: LedgerId)
    requires var index := Replay(RelayProtocol.Run(steps, did).journal);
               k in index.entries && index.entries[k].status.Done?
    ensures var entry := Replay(RelayProtocol.Run(steps, did).journal).entries[k];
            match entry.status.response
            case None => entry.status.resolution.Indeterminate?
            case Some(r) => Matches(r, entry.status.resolution, entry.hash)
  {
    RunInv(steps, did);
    var w := RelayProtocol.Run(steps, did);
    assert EntryOk(w.relay.byHash.Keys, did, k, Replay(w.journal).entries[k]);
  }

  // ---- redelivery after a crash ---------------------------------------------------------

  /** The executing record is durable, and no process still believes the action is unresolved. */
  ghost predicate Durable(w: World, id: ActionId) {
    && Pair(id) in Replay(w.journal).entries
    && (w.process.Some? ==> Pair(id) in w.process.value.index.entries
                            && w.process.value.index.entries[Pair(id)].status.Done?)
  }

  /** A crash with the record on disk is enough. */
  lemma CrashMakesDurable(w: World, id: ActionId, did: Did)
    requires Pair(id) in Replay(w.journal).entries
    ensures Durable(Do(w, RelayProtocol.Crash, did), id)
  {
  }

  lemma StartDurable(w: World, stop: Option<nat>, refused: map<EnvelopeHash, ResultKind>, id: ActionId)
    requires Durable(w, id) && w.process.None?
    ensures Durable(DoStart(w, stop, refused), id)
  {
    hide Replay, Records, Settled;
    var records := Records(Replay(w.journal), |Replay(w.journal).order|);
    RestartSettlesOnlyUnfinished(w.journal);
    match stop
    case None => AdapterServer.ReplayKeysGrow(w.journal, records);
    case Some(n) => AdapterServer.ReplayKeysGrow(w.journal, records[..if n <= |records| then n else |records|]);
  }

  /** Whatever one append and one change of the index do, an entry once resolved stays resolved. */
  ghost predicate Advances(journal: seq<Event>, index: Index, l: Ledger) {
    && (l.journal == journal || exists e :: l.journal == journal + [e])
    && forall k :: k in index.entries && index.entries[k].status.Done? ==>
         k in l.index.entries && l.index.entries[k].status.Done?
  }

  lemma RecordAdvances(w: World, p: Process, response: ActionResponse, clock: int, fate: AppendFate, did: Did)
    requires AtRequest(p)
    ensures var x := Record(w, p, response, clock, fate, did);
            x.process.Some? && Advances(w.journal, p.index, Ledger(x.journal, x.process.value.index))
  {
  }

  lemma NothingAdvances(journal: seq<Event>, index: Index)
    ensures Advances(journal, index, Ledger(journal, index))
  {
  }

  lemma HandleAdvances(w: World, p: Process, handling: Handling, clock: int, detail: string, fate: AppendFate, did: Did)
    requires AtRequest(p) && w.process == Some(p)
    ensures var x := Handle(w, p, handling, clock, detail, fate, did);
            x.process.Some? && Advances(w.journal, p.index, Ledger(x.journal, x.process.value.index))
  {
  }

  lemma ProcessActionAdvances(w: World, p: Process, handling: Handling, clock: int, detail: string, fate: AppendFate,
                              did: Did)
    requires AtRequest(p) && w.process == Some(p)
    ensures var x := ProcessAction(w, p, handling, clock, detail, fate, did);
            x.process.Some? && Advances(w.journal, p.index, Ledger(x.journal, x.process.value.index))
  {
    hide Handle, Record, Advances, Check, RecoveryFor;
    NothingAdvances(w.journal, p.index);
    HandleAdvances(w, p, handling, clock, detail, fate, did);
    var hash := HashOf(CurrentEnvelope(p));
    RecordAdvances(w, p, ActionResponse(Indeterminate, Some(hash), did, detail), clock, fate, did);
  }

  lemma DurableAdvances(w: World, x: World, id: ActionId)
    requires Durable(w, id) && w.process.Some? && x.process.Some?
    requires Advances(w.journal, w.process.value.index, Ledger(x.journal, x.process.value.index))
    ensures Durable(x, id)
  {
    hide Replay;
    if x.journal != w.journal {
      var e :| x.journal == w.journal + [e];
      AdapterServer.ReplayKeysGrow(w.journal, [e]);
    }
  }

  lemma StepDurable(w: World, step: Step, did: Did, id: ActionId)
    requires Durable(w, id) && Enabled(w, step)
    ensures Durable(Do(w, step, did), id)
  {
    hide Replay, ProcessAction, Record, DoStart, Advances;
    match step
    case Deliver(clock, handling, detail, fate) =>
      if AtRequest(w.process.value) {
        ProcessActionAdvances(w, w.process.value, handling, clock, detail, fate, did);
        DurableAdvances(w, ProcessAction(w, w.process.value, handling, clock, detail, fate, did), id);
      }
    case Returned(result, clock, detail, fate) =>
      var hash := HashOf(CurrentEnvelope(w.process.value));
      var response := ActionResponse(AdapterServer.ClassifyDispatch(result), Some(hash), did, detail);
      RecordAdvances(w, w.process.value, response, clock, fate, did);
      DurableAdvances(w, Record(w, w.process.value, response, clock, fate, did), id);
    case Start(stop, refused) => StartDurable(w, stop, refused, id);
    case _ =>
  }

  /** Once durable, durable in every continuation of the run. */
  lemma {:induction false} DurableStays(steps: seq<Step>, n: nat, did: Did, id: ActionId)
    requires n <= |steps| && Durable(RelayProtocol.Run(steps[..n], did), id)
    ensures Durable(RelayProtocol.Run(steps, did), id)
  {
    hide Do, Durable;
    if n == |steps| {
      assert steps[..n] == steps;
    } else {
      assert steps[..|steps| - 1][..n] == steps[..n];
      DurableStays(steps[..|steps| - 1], n, did, id);
      var w := RelayProtocol.Run(steps[..|steps| - 1], did);
      if Enabled(w, steps[|steps| - 1]) {
        StepDurable(w, steps[|steps| - 1], did, id);
      }
    }
  }

  /** This answer was returned for the current delivery and cached; nothing was transmitted. */
  ghost predicate AnsweredWith(w: World, p: Process, x: World, a: Answer)
    requires AtRequest(p)
  {
    && InPhase(x, Caching) && x.sent == w.sent && x.answers == w.answers + [a]
    && a.hash == HashOf(CurrentEnvelope(p)) && IsDispatchResult(a.response.result)
    && CurrentFingerprint(p) in x.process.value.state.responses
    && x.process.value.state.responses[CurrentFingerprint(p)].envelope.payload == ResponsePayload(a.response)
  }

  /**
   Redelivery of an action whose executing record is durable, in any run: it is answered at
   once with a terminal response, the one it was answered with before if it ever was, and
   nothing is transmitted.
   */
  lemma {:induction false} RedeliveryAnswers(steps: seq<Step>, did: Did, clock: int, handling: Handling, detail: string)
    requires var w := RelayProtocol.Run(steps, did);
             && InPhase(w, AtDelivery) && AtRequest(w.process.value)
             && Durable(w, CurrentEnvelope(w.process.value).actionId)
             && !EnvelopeExpired(Current(w.process.value).envelope, clock)
             && CurrentFingerprint(w.process.value) !in w.process.value.state.responses
    ensures var w := RelayProtocol.Run(steps, did);
            var x := Do(w, Deliver(clock, handling, detail, Written), did);
            exists a :: AnsweredWith(w, w.process.value, x, a) && forall b :: b in w.answers && b.hash == a.hash ==>
                b == a
  {
    var w := RelayProtocol.Run(steps, did);
    var p := w.process.value;
    RunInv(steps, did);
    var x := Do(w, Deliver(clock, handling, detail, Written), did);
    CurrentIsRelayed(w.relay, did, p);
    var a := RedeliveryStep(w, p, clock, handling, detail, did);
    StepInv(w, Deliver(clock, handling, detail, Written), did);
    hide Do, Inv, Durable;
    forall b | b in w.answers && b.hash == a.hash
      ensures b == a
    {
      AnswersOfOne(x, did, a, b);
    }
  }

  lemma RedeliveryStep(w: World, p: Process, clock: int, handling: Handling, detail: string, did: Did)
      returns (a: Answer)
    requires w.process == Some(p) && p.phase.AtDelivery? && AtRequest(p) && did in Current(p).envelope.recipients
    requires HashOf(CurrentEnvelope(p)) in w.relay.byHash && OneEnvelope(w.relay.byHash.Keys)
    requires LedgerOk(w.relay.byHash.Keys, did, w.journal, Some(p.index), w.sent, w.answers)
    requires Durable(w, CurrentEnvelope(p).actionId)
    requires !EnvelopeExpired(Current(p).envelope, clock) && CurrentFingerprint(p) !in p.state.responses
    ensures AnsweredWith(w, p, Do(w, Deliver(clock, handling, detail, Written), did), a)
  {
    hide RelayOk, Remembers, JournalAhead, Replay, OneEnvelope, Once, Inject, WithStatus, BegunAllowed;
    var hash := HashOf(CurrentEnvelope(p));
    var ledger := Ledger(w.journal, p.index);
    Recoverable(w.relay.byHash.Keys, did, p.index, w.sent, w.answers, hash);
    FoundInMemory(w.relay.byHash.Keys, did, p.index, w.sent, w.answers, hash.envelope.actionId);
    var found := RecoveryFor(p.index, hash.envelope.actionId, hash);
    assert found.Some?;
    if found.value.response.Some? {
      RecoveredLedger(w.relay.byHash.Keys, did, ledger, w.sent, w.answers, hash, found.value.response.value);
      a := Answer(hash, found.value.response.value);
    } else {
      a := Answer(hash, ActionResponse(Indeterminate, Some(hash), did, detail));
      ResolveLedger(w.relay.byHash.Keys, did, ledger, w.sent, w.answers, a.response, Written);
    }
  }
}
