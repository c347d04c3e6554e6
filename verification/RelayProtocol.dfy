/**
 The relay, the verifier's relay worker and its adapter as one protocol over two durable
 stores: the worker's state file and the dispatch journal.  One step is the code between two
 awaits.  A crash drops everything but the stores and the relay.  The worker is the only
 submitter, and takes no step after a fatal error until it is restarted.
 */
module RelayProtocol {
  import opened Wrappers
  import opened JsonKey
  import opened Protocol
  import opened LedgerModel
  import AdapterServer
  import opened RelayQueue

  // ---- the relay ------------------------------------------------------------------------

  datatype Relayed = Relayed(envelope: DeliveryEnvelope, response: Option<ActionResponse>)

  /** `byValue` is keyed by the Action ID's value alone, as the relay keys it. */
  datatype Relay = Relay(
    deliveries: seq<StoredDelivery>,
    next: nat,
    byValue: map<JsString, EnvelopeHash>,
    byHash: map<EnvelopeHash, Relayed>,
    now: int)

  const EMPTY_RELAY := Relay([], 1, map[], map[], 0)

  function EnvelopeIn(envelope: DeliveryEnvelope): ActionEnvelope
    requires envelope.payload.RequestPayload?
  {
    envelope.payload.request.package.envelope
  }

  predicate DistinctRecipients(envelope: DeliveryEnvelope) {
    forall i, j :: 0 <= i < j < |envelope.recipients| ==> envelope.recipients[i] != envelope.recipients[j]
  }

  function StoreEnvelope(relay: Relay, envelope: DeliveryEnvelope): Relay {
    relay.(deliveries := Stored(relay.deliveries, relay.next, envelope), next := relay.next + |envelope.recipients|)
  }

  /** A relayed action is queued once; an Action ID's value is bound to one envelope. */
  function BeginRelayedAction(relay: Relay, envelope: DeliveryEnvelope, verifier: Did): Relay
    requires envelope.payload.RequestPayload?
  {
    var hash := HashOf(EnvelopeIn(envelope));
    var value := EnvelopeIn(envelope).actionId.value;
    if value in relay.byValue && relay.byValue[value] != hash then relay
    else if verifier !in envelope.recipients then relay
    else if hash in relay.byHash then relay
    else
      StoreEnvelope(relay.(byValue := relay.byValue[value := hash],
                           byHash := relay.byHash[hash := Relayed(envelope, None)]), envelope)
  }

  /** At the relay's door: an action comes from its proposer, and is not expired. */
  function ReceiveAction(relay: Relay, envelope: DeliveryEnvelope, verifier: Did): Relay
    requires envelope.payload.RequestPayload?
  {
    if envelope.sender != EnvelopeIn(envelope).proposer || EnvelopeExpired(envelope, relay.now) then relay
    else BeginRelayedAction(relay, envelope, verifier)
  }

  /** The recipient and sender rules for a response; the other rules are the environment's say. */
  predicate RelayAccepts(relay: Relay, envelope: DeliveryEnvelope, verifier: Did) {
    && envelope.payload.ResponsePayload?
    && var response := envelope.payload.response;
    && response.hash.Some? && response.hash.value in relay.byHash
    && envelope.sender == verifier && response.verifier == verifier
    && var request := relay.byHash[response.hash.value].envelope;
    && request.payload.RequestPayload? && EnvelopeIn(request).proposer in envelope.recipients
  }

  /** Every accepted response is queued; only the first is the action's response. */
  function SubmitResponseDelivery(relay: Relay, envelope: DeliveryEnvelope, verifier: Did): Relay
    requires RelayAccepts(relay, envelope, verifier)
  {
    var response := envelope.payload.response;
    var stored := relay.byHash[response.hash.value];
    var answered := if stored.response.None? then stored.(response := Some(response)) else stored;
    StoreEnvelope(relay.(byHash := relay.byHash[response.hash.value := answered]), envelope)
  }

  // ---- the worker -----------------------------------------------------------------------

  /** The recipients count as a set, and the request without its key and audience. */
  datatype DeliveryFingerprint = DeliveryFingerprint(sender: Did, recipients: set<Did>, request: RequestFingerprint)

  function DeliveryFingerprintOf(envelope: DeliveryEnvelope): DeliveryFingerprint
    requires envelope.payload.RequestPayload?
  {
    DeliveryFingerprint(envelope.sender, (set r | r in envelope.recipients), FingerprintOf(envelope.payload.request))
  }

  datatype Cached = Cached(envelope: DeliveryEnvelope, delivered: bool)

  datatype WorkerState = WorkerState(cursor: Option<nat>, responses: map<DeliveryFingerprint, Cached>)

  const NEW_STATE := WorkerState(None, map[])

  datatype FatalError =
    | UnsupportedPayload | NotAddressed | WrongVerifier | WrongHash | ReplayFatal | MismatchFatal
    | HttpRejected | SaveFailed | SubmissionRefused | CursorNotAdvancing

  datatype Phase =
    Idle | AtDelivery | Dispatching | Caching | Submitting | Marking | Finishing | Stuck(error: FatalError)

  /** `refused` is what this process rejects, or finds malformed, before it asks its ledger,
      by what it is set up with. */
  datatype Process = Process(
    index: Index,
    refused: map<EnvelopeHash, ResultKind>,
    state: WorkerState,
    page: seq<StoredDelivery>,
    at: nat,
    phase: Phase)

  datatype Submitted = Submitted(fingerprint: DeliveryFingerprint, envelope: DeliveryEnvelope)

  datatype Answer = Answer(hash: EnvelopeHash, response: ActionResponse)

  /** A page the relay answered with: the cursor it was asked for, and the relay's clock then. */
  datatype PageAnswer = PageAnswer(after: nat, now: int, page: seq<StoredDelivery>)

  /**
   The relay, the two stores and the process; then what has happened: transmissions, responses
   sent to the relay, responses it accepted, answers the ledger backs, deliveries that were
   expired when the worker reached them, and the pages the relay answered with.
   */
  datatype World = World(
    relay: Relay,
    disk: WorkerState,
    journal: seq<Event>,
    process: Option<Process>,
    sent: seq<ActionId>,
    submitted: seq<Submitted>,
    accepted: seq<ActionResponse>,
    answers: seq<Answer>,
    missed: set<nat>,
    polls: seq<PageAnswer>)

  const START := World(EMPTY_RELAY, NEW_STATE, [], None, [], [], [], [], {}, [])

  /** What the handler makes of a request its ledger does not hold; a stateless answer is no dispatch result. */
  datatype Handling = AnswerStateless(kind: ResultKind) | Unavailable | Refuse | Prepared

  datatype SubmitFate = Unreachable | Arrived(admissible: bool, replyLost: bool)

  datatype Step =
    | RelayAction(envelope: DeliveryEnvelope)
    | Tick(time: int)
    | Poll(lost: bool)
    | Deliver(clock: int, handling: Handling, detail: string, fate: AppendFate)
    | Returned(result: AdapterServer.DispatchResult, clock: int, detail: string, fate: AppendFate)
    | Threw
    | SaveCached(save: AppendFate)
    | Submit(how: SubmitFate)
    | SaveMark(save: AppendFate)
    | Finish
    | SaveFinish(save: AppendFate)
    | Crash
    | Start(stoppedAfter: Option<nat>, refused: map<EnvelopeHash, ResultKind>)

  /** The error left the drain: the page is dropped. */
  function Leave(p: Process, phase: Phase): Process {
    p.(page := [], at := 0, phase := phase)
  }

  function Fatal(p: Process, error: FatalError): Process {
    Leave(p, Stuck(error))
  }

  function Current(p: Process): StoredDelivery
    requires p.at < |p.page|
  {
    p.page[p.at]
  }

  predicate AtRequest(p: Process) {
    p.at < |p.page| && Current(p).envelope.payload.RequestPayload?
  }

  function CurrentFingerprint(p: Process): DeliveryFingerprint
    requires AtRequest(p)
  {
    DeliveryFingerprintOf(Current(p).envelope)
  }

  function CurrentEnvelope(p: Process): ActionEnvelope
    requires AtRequest(p)
  {
    EnvelopeIn(Current(p).envelope)
  }

  /** A response came back for the current delivery: check it, and put it in the cache. */
  function Respond(p: Process, response: ActionResponse, clock: int, did: Did): Process
    requires AtRequest(p)
  {
    if response.result.Pending? then Leave(p, Idle)
    else if response.verifier != did then Fatal(p, WrongVerifier)
    else if response.hash != Some(HashOf(CurrentEnvelope(p))) then Fatal(p, WrongHash)
    else
      var envelope := DeliveryEnvelope(did, [Current(p).envelope.sender], clock, None, ResponsePayload(response));
      p.(state := p.state.(responses := p.state.responses[CurrentFingerprint(p) := Cached(envelope, false)]),
         phase := Caching)
  }

  /** A response the ledger holds. */
  function RespondBacked(w: World, p: Process, ledger: Ledger, response: ActionResponse, clock: int, did: Did): World
    requires AtRequest(p)
  {
    w.(journal := ledger.journal,
       process := Some(Respond(p.(index := ledger.index), response, clock, did)),
       answers := w.answers + [Answer(HashOf(CurrentEnvelope(p)), response)])
  }

  /** The adapter's handler, for a request no response can be recovered for. */
  function Inject(w: World, p: Process, handling: Handling, clock: int, detail: string, fate: AppendFate,
                  did: Did): World
    requires AtRequest(p)
  {
    var envelope := CurrentEnvelope(p);
    var hash := HashOf(envelope);
    if hash in p.refused then
      w.(process := Some(Respond(p, ActionResponse(p.refused[hash], Some(hash), did, detail), clock, did)))
    else match Check(p.index, envelope.actionId, hash)
      case InFlight => w.(process := Some(Leave(p, Idle)))
      case ReplayDetected => w.(process := Some(Fatal(p, ReplayFatal)))
      case HashMismatch => w.(process := Some(Fatal(p, MismatchFatal)))
      case Absent => Handle(w, p, handling, clock, detail, fate, did)
  }

  function Handle(w: World, p: Process, handling: Handling, clock: int, detail: string, fate: AppendFate,
                  did: Did): World
    requires AtRequest(p)
  {
    var envelope := CurrentEnvelope(p);
    match handling
    case AnswerStateless(kind) =>
      if IsDispatchResult(kind) then w.(process := Some(Leave(p, Idle)))
      else w.(process := Some(Respond(p, ActionResponse(kind, Some(HashOf(envelope)), did, detail), clock, did)))
    case Unavailable => w.(process := Some(Leave(p, Idle)))
    case Refuse => w.(process := Some(Fatal(p, HttpRejected)))
    case Prepared =>
      var (ledger, verdict) :=
        Authorize(Ledger(w.journal, p.index), envelope.actionId, HashOf(envelope), envelope.expiresAt, fate);
      if verdict == Some(Absent) then
        w.(journal := ledger.journal,
           process := Some(p.(index := ledger.index, phase := Dispatching)),
           sent := w.sent + [envelope.actionId])
      else w.(journal := ledger.journal, process := Some(Leave(p.(index := ledger.index), Idle)))
  }

  /** Recovery from the ledger, then the handler. */
  function ProcessAction(w: World, p: Process, handling: Handling, clock: int, detail: string, fate: AppendFate,
                         did: Did): World
    requires AtRequest(p)
  {
    var envelope := CurrentEnvelope(p);
    var hash := HashOf(envelope);
    match RecoveryFor(p.index, envelope.actionId, hash)
    case Some(Recovery(_, Some(response))) =>
      RespondBacked(w, p, Ledger(w.journal, p.index), response, clock, did)
    case Some(Recovery(Indeterminate, None)) =>
      var response := ActionResponse(Indeterminate, Some(hash), did, detail);
      Record(w, p, response, clock, fate, did)
    case _ => Inject(w, p, handling, clock, detail, fate, did)
  }

  /** Resolves the ledger entry with this response, then returns it. */
  function Record(w: World, p: Process, response: ActionResponse, clock: int, fate: AppendFate, did: Did): World
    requires AtRequest(p)
  {
    var (ledger, ok) :=
      Resolve(Ledger(w.journal, p.index), CurrentEnvelope(p).actionId, response.result, Some(response), fate);
    if ok then RespondBacked(w, p, ledger, response, clock, did)
    else w.(journal := ledger.journal, process := Some(Leave(p.(index := ledger.index), Idle)))
  }

  function DoDeliver(w: World, p: Process, clock: int, handling: Handling, detail: string, fate: AppendFate,
                     did: Did): World
    requires p.at < |p.page|
  {
    var d := Current(p);
    if !AtRequest(p) then w.(process := Some(Fatal(p, UnsupportedPayload)))
    else if did !in d.envelope.recipients then w.(process := Some(Fatal(p, NotAddressed)))
    else if EnvelopeExpired(d.envelope, clock) then
      w.(process := Some(p.(at := p.at + 1)), missed := w.missed + {d.sequence})
    else if CurrentFingerprint(p) in p.state.responses then
      if p.state.responses[CurrentFingerprint(p)].delivered then w.(process := Some(p.(at := p.at + 1)))
      else w.(process := Some(p.(phase := Submitting)))
    else ProcessAction(w, p, handling, clock, detail, fate, did)
  }

  function DoPoll(w: World, p: Process, did: Did): World {
    var page := PollDeliveries(w.relay.deliveries, did, p.state.cursor, w.relay.now).deliveries;
    if page == [] then w
    else
      w.(process := Some(p.(page := page, at := 0, phase := AtDelivery)),
         polls := w.polls + [PageAnswer(After(p.state.cursor), w.relay.now, page)])
  }

  function DoSubmit(w: World, p: Process, how: SubmitFate, did: Did): World
    requires AtRequest(p) && CurrentFingerprint(p) in p.state.responses
  {
    var fingerprint := CurrentFingerprint(p);
    var cached := p.state.responses[fingerprint];
    var x := w.(submitted := w.submitted + [Submitted(fingerprint, cached.envelope)]);
    match how
    case Unreachable => x.(process := Some(Leave(p, Idle)))
    case Arrived(admissible, replyLost) =>
      if !admissible || !RelayAccepts(w.relay, cached.envelope, did) then
        x.(process := Some(if replyLost then Leave(p, Idle) else Fatal(p, SubmissionRefused)))
      else
        var marked := p.state.(responses := p.state.responses[fingerprint := cached.(delivered := true)]);
        x.(relay := SubmitResponseDelivery(w.relay, cached.envelope, did),
           accepted := w.accepted + [cached.envelope.payload.response],
           process := Some(if replyLost then Leave(p, Idle) else p.(state := marked, phase := Marking)))
  }

  /** The cursor moves to the page's end, and the delivered responses are forgotten. */
  function Finished(state: WorkerState, cursor: nat): WorkerState {
    WorkerState(Some(cursor), map f | f in state.responses && !state.responses[f].delivered :: state.responses[f])
  }

  function DoFinish(p: Process): Process
    requires p.page != []
  {
    var cursor := LastSequence(p.page);
    if p.state.cursor == Some(cursor) then Fatal(p, CursorNotAdvancing)
    else p.(state := Finished(p.state, cursor), phase := Finishing)
  }

  /** A save replaces the state file, or fails before or after replacing it. */
  function DoSave(w: World, p: Process, save: AppendFate, next: Process): World {
    w.(disk := if save.LostBefore? then w.disk else p.state,
       process := Some(if save.Written? then next else Fatal(p, SaveFailed)))
  }

  predicate InPhase(w: World, phase: Phase) {
    w.process.Some? && w.process.value.phase == phase
  }

  predicate Enabled(w: World, step: Step) {
    match step
    case RelayAction(envelope) => envelope.payload.RequestPayload? && DistinctRecipients(envelope)
    case Tick(time) => time >= w.relay.now
    case Poll(_) => InPhase(w, Idle)
    case Deliver(_, _, _, _) => InPhase(w, AtDelivery) && w.process.value.at < |w.process.value.page|
    case Returned(_, _, _, _) => InPhase(w, Dispatching) && AtRequest(w.process.value)
    case Threw => InPhase(w, Dispatching)
    case SaveCached(_) => InPhase(w, Caching)
    case Submit(_) =>
      InPhase(w, Submitting) && AtRequest(w.process.value)
      && CurrentFingerprint(w.process.value) in w.process.value.state.responses
    case SaveMark(_) => InPhase(w, Marking)
    case Finish => InPhase(w, AtDelivery) && w.process.value.page != [] && w.process.value.at == |w.process.value.page|
    case SaveFinish(_) => InPhase(w, Finishing)
    case Crash => true
    case Start(_, refused) => w.process.None? && forall h :: h in refused ==>
      refused[h].Rejected? || refused[h].Malformed?
  }

  function DoReturned(w: World, p: Process, result: AdapterServer.DispatchResult, clock: int, detail: string,
                      fate: AppendFate, did: Did): World
    requires AtRequest(p)
  {
    var hash := HashOf(CurrentEnvelope(p));
    Record(w, p, ActionResponse(AdapterServer.ClassifyDispatch(result), Some(hash), did, detail), clock, fate, did)
  }

  function DoStart(w: World, stop: Option<nat>, refused: map<EnvelopeHash, ResultKind>): World {
    var m := StartUp(w.journal, stop);
    w.(journal := m.journal,
       process := match m.index case None => None case Some(index) =>
           Some(Process(index, refused, w.disk, [], 0, Idle)))
  }

  function Do(w: World, step: Step, did: Did): World
    requires Enabled(w, step)
  {
    match step
    case RelayAction(envelope) => w.(relay := ReceiveAction(w.relay, envelope, did))
    case Tick(time) => w.(relay := w.relay.(now := time))
    case Poll(lost) => if lost then w else DoPoll(w, w.process.value, did)
    case Deliver(clock, handling, detail, fate) => DoDeliver(w, w.process.value, clock, handling, detail, fate, did)
    case Returned(result, clock, detail, fate) => DoReturned(w, w.process.value, result, clock, detail, fate, did)
    case Threw => w.(process := Some(Leave(w.process.value, Idle)))
    case SaveCached(save) => DoSave(w, w.process.value, save, w.process.value.(phase := Submitting))
    case Submit(how) => DoSubmit(w, w.process.value, how, did)
    case SaveMark(save) =>
      DoSave(w, w.process.value, save, w.process.value.(at := w.process.value.at + 1, phase := AtDelivery))
    case Finish => w.(process := Some(DoFinish(w.process.value)))
    case SaveFinish(save) => DoSave(w, w.process.value, save, Leave(w.process.value, Idle))
    case Crash => w.(process := None)
    case Start(stop, refused) => DoStart(w, stop, refused)
  }

  function Run(steps: seq<Step>, did: Did): World {
    if steps == [] then START
    else
      var w := Run(steps[..|steps| - 1], did);
      if Enabled(w, steps[|steps| - 1]) then Do(w, steps[|steps| - 1], did) else w
  }
}
