/**
 The adapter's submission handler as a transition system.  One step is the code between two
 awaits, so any interleaving of any number of submissions is a sequence of steps.  A crash
 drops everything but the journal.  A step that is not enabled leaves the world unchanged.
 */
module AdapterServer {
  import opened Wrappers
  import opened Protocol
  import opened LedgerModel

  // ---- classification of a dispatch ---------------------------------------------------

  datatype DispatchResult = ToolResult(isError: bool) | DispatchError(code: string)

  const UNKNOWN_OUTCOME_CODES :=
    {"DISPATCH_TIMEOUT", "PROCESS_EXITED", "TRANSPORT_ERROR", "OAUTH_SCOPE_CHANGE_REQUIRED"}

  predicate StartsWith(s: string, prefix: string) {
    |prefix| <= |s| && s[..|prefix|] == prefix
  }

  function ClassifyDispatch(result: DispatchResult): (kind: ResultKind)
    ensures IsDispatchResult(kind)
  {
    match result
    case ToolResult(isError) => if isError then Failed else Executed
    case DispatchError(code) =>
      if code in UNKNOWN_OUTCOME_CODES then Indeterminate
      else if StartsWith(code, "OAUTH_") then Indeterminate
      else Failed
  }

  // ---- state --------------------------------------------------------------------------

  datatype Reply =
    | Outcome(response: ActionResponse)
    | Stateless(response: ActionResponse)
    | LedgerRejected(code: Verdict)
    | StillExecuting
    | Conflict
    | ServerError

  datatype Phase =
    | Preparing
    | Transmitting
    | Recorded(response: ActionResponse)
    | Thrown
    | Replied(reply: Reply)
      /** A joiner that captured what it joined and is closing its own unused session. */
    | Releasing(captured: Option<nat>, sameRequest: bool)
    | Waiting(leader: nat)
    | JoinReplied(joined: Option<nat>, answer: Reply, end: JoinEnd)

  /** Why a joiner was answered. */
  datatype JoinEnd = NothingInFlight | RequestDiffers | ReleaseThrew | WaitExpired | DispatchSettled

  datatype Submission = Submission(request: ActionRequest, phase: Phase)

  datatype Flight = Flight(fingerprint: RequestFingerprint, leader: nat)

  type DispatchKey = (ActionId, EnvelopeHash)

  /** `settled` is each finished dispatch's promise; `threw` says whether any dispatch threw. */
  datatype Process = Process(
    index: Index,
    subs: map<nat, Submission>,
    inFlight: map<DispatchKey, Flight>,
    settled: map<nat, Option<ActionResponse>>,
    threw: bool)

  datatype Transmission = Transmission(sub: nat, actionId: ActionId)

  datatype World = World(journal: seq<Event>, process: Option<Process>, sent: seq<Transmission>, nextSub: nat)

  datatype Step =
    | Arrive(request: ActionRequest, screened: Option<ActionResponse>)
    | AnswerStateless(sub: nat, verdict: ActionResponse)
      /** `closes` is false when closing the session of a refused submission throws. */
    | AuthorizeStep(sub: nat, fate: AppendFate, closes: bool)
    | TransmitReturned(sub: nat, result: DispatchResult, detail: string, fate: AppendFate)
    | TransmitThrew(sub: nat)
    | Settle(sub: nat)
    | JoinReleased(sub: nat)
    | JoinReleaseThrew(sub: nat)
    | JoinSettled(sub: nat)
    | JoinTimedOut(sub: nat)
    | CrashStep
    | StartStep(stoppedAfter: Option<nat>)

  function IdOf(request: ActionRequest): ActionId { request.package.envelope.actionId }

  function HashIn(request: ActionRequest): EnvelopeHash { HashOf(request.package.envelope) }

  function KeyOf(request: ActionRequest): DispatchKey { (IdOf(request), HashIn(request)) }

  // ---- steps --------------------------------------------------------------------------

  function WithPhase(p: Process, sub: nat, phase: Phase): Process
    requires sub in p.subs
  {
    p.(subs := p.subs[sub := p.subs[sub].(phase := phase)])
  }

  /** What a submission that must not transmit captures before anything is awaited. */
  function Capture(p: Process, request: ActionRequest): Phase {
    if KeyOf(request) in p.inFlight then
      var flight := p.inFlight[KeyOf(request)];
      Releasing(Some(flight.leader), FingerprintOf(request) == flight.fingerprint)
    else Releasing(None, false)
  }

  function ArrivalPhase(p: Process, request: ActionRequest, screened: Option<ActionResponse>): Phase {
    if screened.Some? then Replied(Stateless(screened.value))
    else match Check(p.index, IdOf(request), HashIn(request))
      case Absent => Preparing
      case InFlight => Capture(p, request)
      case code => Replied(LedgerRejected(code))
  }

  function DoArrive(w: World, p: Process, request: ActionRequest, screened: Option<ActionResponse>): World {
    var sub := Submission(request, ArrivalPhase(p, request, screened));
    w.(process := Some(p.(subs := p.subs[w.nextSub := sub])), nextSub := w.nextSub + 1)
  }

  /** The dispatch is entered in the map of dispatches in flight, and transmission begins. */
  function Launch(p: Process, sub: nat): Process
    requires sub in p.subs
  {
    var request := p.subs[sub].request;
    WithPhase(p.(inFlight := p.inFlight[KeyOf(request) := Flight(FingerprintOf(request), sub)]), sub, Transmitting)
  }

  /** A dispatch that returned, or threw; `index` is the ledger's index by then. */
  function Land(p: Process, index: Index, sub: nat, phase: Phase): Process
    requires sub in p.subs
  {
    WithPhase(p.(index := index, threw := p.threw || phase.Thrown?), sub, phase)
  }

  /** A refused submission's unused session is closed before it is told so. */
  function Refusal(code: Verdict, closes: bool): Reply { if closes then LedgerRejected(code) else ServerError }

  function DoAuthorize(w: World, p: Process, sub: nat, fate: AppendFate, closes: bool): World
    requires sub in p.subs
  {
    var request := p.subs[sub].request;
    var (ledger, verdict) :=
      Authorize(Ledger(w.journal, p.index), IdOf(request), HashIn(request), request.package.envelope.expiresAt, fate);
    var q := p.(index := ledger.index);
    match verdict
    case None => w.(journal := ledger.journal, process := Some(WithPhase(q, sub, Replied(ServerError))))
    case Some(InFlight) => w.(journal := ledger.journal, process := Some(WithPhase(q, sub, Capture(q, request))))
    case Some(Absent) =>
      w.(journal := ledger.journal,
         process := Some(Launch(q, sub)),
         sent := w.sent + [Transmission(sub, IdOf(request))])
    case Some(code) => w.(journal := ledger.journal, process := Some(WithPhase(q, sub, Replied(Refusal(code, closes)))))
  }

  function DoTransmitReturned(w: World, p: Process, sub: nat, response: ActionResponse, fate: AppendFate): World
    requires sub in p.subs
  {
    var (ledger, ok) :=
      Resolve(Ledger(w.journal, p.index), IdOf(p.subs[sub].request), response.result, Some(response), fate);
    w.(journal := ledger.journal, process :=
        Some(Land(p, ledger.index, sub, if ok then Recorded(response) else Thrown)))
  }

  /** Settles the promise, answers the submission, and leaves the map of dispatches in flight. */
  function DoSettle(p: Process, sub: nat): Process
    requires sub in p.subs
  {
    var phase := p.subs[sub].phase;
    var outcome := if phase.Recorded? then Some(phase.response) else None;
    var q := p.(settled := p.settled[sub := outcome], inFlight := p.inFlight - {KeyOf(p.subs[sub].request)});
    WithPhase(q, sub, Replied(if phase.Recorded? then Outcome(phase.response) else ServerError))
  }

  function DoJoinReleased(p: Process, sub: nat): Process
    requires sub in p.subs && p.subs[sub].phase.Releasing?
  {
    match p.subs[sub].phase.captured
    case None => WithPhase(p, sub, JoinReplied(None, StillExecuting, NothingInFlight))
    case Some(leader) =>
      WithPhase(p, sub, if p.subs[sub].phase.sameRequest then Waiting(leader)
          else JoinReplied(Some(leader), Conflict, RequestDiffers))
  }

  function DoJoinSettled(p: Process, sub: nat): Process
    requires sub in p.subs && p.subs[sub].phase.Waiting? && p.subs[sub].phase.leader in p.settled
  {
    var leader := p.subs[sub].phase.leader;
    var answer := match p.settled[leader] case Some(r) => Outcome(r) case None => StillExecuting;
    WithPhase(p, sub, JoinReplied(Some(leader), answer, DispatchSettled))
  }

  predicate InPhase(w: World, sub: nat, test: Phase -> bool) {
    w.process.Some? && sub in w.process.value.subs && test(w.process.value.subs[sub].phase)
  }

  predicate Enabled(w: World, step: Step) {
    match step
    case Arrive(_, _) => w.process.Some?
    case AnswerStateless(sub, _) => InPhase(w, sub, (x: Phase) => x.Preparing?)
    case AuthorizeStep(sub, _, _) => InPhase(w, sub, (x: Phase) => x.Preparing?)
    case TransmitReturned(sub, _, _, _) => InPhase(w, sub, (x: Phase) => x.Transmitting?)
    case TransmitThrew(sub) => InPhase(w, sub, (x: Phase) => x.Transmitting?)
    case Settle(sub) => InPhase(w, sub, (x: Phase) => x.Recorded? || x.Thrown?)
    case JoinReleased(sub) => InPhase(w, sub, (x: Phase) => x.Releasing?)
    case JoinReleaseThrew(sub) => InPhase(w, sub, (x: Phase) => x.Releasing?)
    case JoinSettled(sub) =>
      InPhase(w, sub, (x: Phase) => x.Waiting?) && w.process.value.subs[sub].phase.leader in w.process.value.settled
    case JoinTimedOut(sub) => InPhase(w, sub, (x: Phase) => x.Waiting?)
    case CrashStep => true
    case StartStep(_) => w.process.None?
  }

  function Do(w: World, step: Step, did: Did): World
    requires Enabled(w, step)
  {
    match step
    case Arrive(request, screened) => DoArrive(w, w.process.value, request, screened)
    case AnswerStateless(sub, verdict) =>
      w.(process := Some(WithPhase(w.process.value, sub, Replied(Stateless(verdict)))))
    case AuthorizeStep(sub, fate, closes) => DoAuthorize(w, w.process.value, sub, fate, closes)
    case TransmitReturned(sub, result, detail, fate) =>
      var hash := HashIn(w.process.value.subs[sub].request);
      DoTransmitReturned(w, w.process.value, sub, ActionResponse(ClassifyDispatch(result), Some(hash), did, detail),
          fate)
    case TransmitThrew(sub) => w.(process := Some(Land(w.process.value, w.process.value.index, sub, Thrown)))
    case Settle(sub) => w.(process := Some(DoSettle(w.process.value, sub)))
    case JoinReleased(sub) => w.(process := Some(DoJoinReleased(w.process.value, sub)))
    case JoinReleaseThrew(sub) =>
      w.(process :=
           Some(WithPhase(w.process.value, sub,
                          JoinReplied(w.process.value.subs[sub].phase.captured, ServerError, ReleaseThrew))))
    case JoinSettled(sub) => w.(process := Some(DoJoinSettled(w.process.value, sub)))
    case JoinTimedOut(sub) =>
      w.(process :=
           Some(WithPhase(w.process.value, sub,
                          JoinReplied(Some(w.process.value.subs[sub].phase.leader), StillExecuting, WaitExpired))))
    case CrashStep => w.(process := None)
    case StartStep(stop) =>
      var m := StartUp(w.journal, stop);
      w.(journal := m.journal,
         process := match m.index case None => None case Some(index) =>
             Some(Process(index, map[], map[], map[], false)))
  }

  function Initial(journal: seq<Event>): World { World(journal, None, [], 0) }

  function Run(journal: seq<Event>, steps: seq<Step>, did: Did): World {
    if steps == [] then Initial(journal)
    else
      var w := Run(journal, steps[..|steps| - 1], did);
      var step := steps[|steps| - 1];
      if Enabled(w, step) then Do(w, step, did) else w
  }

  // ---- at most once -------------------------------------------------------------------

  /** Everything the journal was opened with, and every transmission, is in the ledger. */
  ghost predicate Remembered(journal0: seq<Event>, sent: seq<Transmission>, keys: set<LedgerId>) {
    && Replay(journal0).entries.Keys <= keys
    && forall t :: t in sent ==> Pair(t.actionId) in keys
  }

  /** No Action ID was transmitted twice, or was already in the journal in either form. */
  ghost predicate SentOnce(journal0: seq<Event>, sent: seq<Transmission>) {
    && (forall i, j :: 0 <= i < j < |sent| ==> sent[i].actionId != sent[j].actionId)
    && (forall t :: t in sent ==> Lookup(Replay(journal0), t.actionId).None?)
  }

  ghost predicate Safe(journal0: seq<Event>, w: World) {
    && SentOnce(journal0, w.sent)
    && Remembered(journal0, w.sent, Replay(w.journal).entries.Keys)
    && (w.process.Some? ==> Remembered(journal0, w.sent, w.process.value.index.entries.Keys))
  }

  lemma {:induction false} ReplayKeysGrow(journal: seq<Event>, extra: seq<Event>)
    ensures Replay(journal).entries.Keys <= Replay(journal + extra).entries.Keys
  {
    if extra == [] {
      assert journal + extra == journal;
    } else {
      ReplayKeysGrow(journal, extra[..|extra| - 1]);
      ReplayAppend(journal + extra[..|extra| - 1], extra[|extra| - 1]);
      assert journal + extra == (journal + extra[..|extra| - 1]) + [extra[|extra| - 1]];
    }
  }

  lemma AuthorizeSafe(journal0: seq<Event>, w: World, p: Process, sub: nat, fate: AppendFate, closes: bool)
    requires Safe(journal0, w) && w.process == Some(p) && sub in p.subs
    ensures Safe(journal0, DoAuthorize(w, p, sub, fate, closes))
  {
    hide Replay;
    var request := p.subs[sub].request;
    var event := Executing(Pair(IdOf(request)), HashIn(request), request.package.envelope.expiresAt);
    ReplayAppend(w.journal, event);
    ReplayKeysGrow(w.journal, [event]);
  }

  lemma TransmitReturnedSafe(journal0: seq<Event>, w: World, p: Process, sub: nat, response: ActionResponse,
                             fate: AppendFate)
    requires Safe(journal0, w) && w.process == Some(p) && sub in p.subs
    ensures Safe(journal0, DoTransmitReturned(w, p, sub, response, fate))
  {
    hide Replay;
    var found := Lookup(p.index, IdOf(p.subs[sub].request));
    if found.Some? {
      ReplayKeysGrow(w.journal, [Resolved(p.index.entries[found.value].id, response.result, Some(response))]);
    }
  }

  lemma StartSafe(journal0: seq<Event>, w: World, stop: Option<nat>, did: Did)
    requires Safe(journal0, w) && w.process.None?
    ensures Safe(journal0, Do(w, StartStep(stop), did))
  {
    hide Replay;
    var records := Records(Replay(w.journal), |Replay(w.journal).order|);
    match stop
    case None =>
      ReplayKeysGrow(w.journal, records);
      RestartSettlesOnlyUnfinished(w.journal);
    case Some(n) =>
      ReplayKeysGrow(w.journal, records[..if n <= |records| then n else |records|]);
  }

  lemma StepSafe(journal0: seq<Event>, w: World, step: Step, did: Did)
    requires Safe(journal0, w) && Enabled(w, step)
    ensures Safe(journal0, Do(w, step, did))
  {
    hide Replay, SentOnce, Remembered, DoAuthorize, DoTransmitReturned, StartUp;
    match step
    case AuthorizeStep(sub, fate, closes) => AuthorizeSafe(journal0, w, w.process.value, sub, fate, closes);
    case TransmitReturned(sub, result, detail, fate) =>
      TransmitReturnedSafe(journal0, w, w.process.value, sub,
        ActionResponse(ClassifyDispatch(result), Some(HashIn(w.process.value.subs[sub].request)), did, detail), fate);
    case StartStep(stop) => StartSafe(journal0, w, stop, did);
    case _ =>
  }

  /**
   Over every interleaving of submissions, failing appends, crashes and restarts, from any
   journal: an Action ID reaches transmission at most once, and never if the journal already
   held it under its pair or under its old flattened text.
   */
  lemma {:induction false} AtMostOnce(journal: seq<Event>, steps: seq<Step>, did: Did)
    ensures var sent := Run(journal, steps, did).sent;
            && (forall i, j :: 0 <= i < j < |sent| ==> sent[i].actionId != sent[j].actionId)
            && (forall t, k :: t in sent && k in Replay(journal).entries ==> !Names(k, t.actionId))
  {
    hide Replay;
    RunSafe(journal, steps, did);
    forall t, k | t in Run(journal, steps, did).sent && k in Replay(journal).entries
      ensures !Names(k, t.actionId)
    {
      LookupIsKnown(Replay(journal), t.actionId);
    }
  }

  lemma {:induction false} RunSafe(journal: seq<Event>, steps: seq<Step>, did: Did)
    ensures Safe(journal, Run(journal, steps, did))
  {
    if steps == [] {
      hide Replay;
    } else {
      RunSafe(journal, steps[..|steps| - 1], did);
      var w := Run(journal, steps[..|steps| - 1], did);
      if Enabled(w, steps[|steps| - 1]) {
        StepSafe(journal, w, steps[|steps| - 1], did);
      }
    }
  }

  // ---- joining ------------------------------------------------------------------------

  predicate Leading(phase: Phase) { phase.Transmitting? || phase.Recorded? || phase.Thrown? }

  predicate Joining(phase: Phase) { phase.Releasing? || phase.Waiting? || phase.JoinReplied? }

  /** A dispatch in flight belongs to a live submission of the same envelope. */
  ghost predicate FlightsLed(p: Process) {
    forall key :: key in p.inFlight ==>
      var f := p.inFlight[key];
      && f.leader in p.subs && Leading(p.subs[f.leader].phase)
      && KeyOf(p.subs[f.leader].request) == key && FingerprintOf(p.subs[f.leader].request) == f.fingerprint
  }

  /** Every leading submission is in flight, and its entry is unfinished while it transmits. */
  ghost predicate LeadersFly(p: Process) {
    forall sub :: sub in p.subs && Leading(p.subs[sub].phase) ==>
      var key := KeyOf(p.subs[sub].request);
      && key in p.inFlight && p.inFlight[key].leader == sub
      && Pair(key.0) in p.index.entries && p.index.entries[Pair(key.0)].hash == key.1
      && (p.subs[sub].phase.Transmitting? ==> p.index.entries[Pair(key.0)].status.InProgress?)
      && (p.subs[sub].phase.Recorded? ==> p.index.entries[Pair(key.0)].status.Done?)
      && (p.subs[sub].phase.Thrown? ==> p.threw)
  }

  /** While no dispatch threw, every unfinished entry is a dispatch in flight. */
  ghost predicate UnfinishedFly(p: Process) {
    && WellFormed(p.index)
    && (!p.threw ==> forall k :: Unfinished(p.index, k) ==>
         k.Pair? && (k.actionId, p.index.entries[k].hash) in p.inFlight)
  }

  /** A dispatch that is settled was answered with what it settled to; without a response it threw. */
  ghost predicate SettledAnswered(p: Process) {
    forall l :: l in p.settled ==>
      && l in p.subs && (p.settled[l].None? ==> p.threw)
      && p.subs[l].phase == Replied(match p.settled[l] case Some(r) => Outcome(r) case None => ServerError)
  }

  /** `leader` dispatched, or is dispatching, the envelope of this request. */
  ghost predicate Led(p: Process, leader: nat, request: ActionRequest) {
    && leader in p.subs && KeyOf(p.subs[leader].request) == KeyOf(request)
    && (leader in p.settled || Leading(p.subs[leader].phase))
  }

  /** `leader` dispatched this very request, up to its idempotency key and audience. */
  ghost predicate LedSame(p: Process, leader: nat, request: ActionRequest) {
    Led(p, leader, request) && FingerprintOf(p.subs[leader].request) == FingerprintOf(request)
  }

  /** A joiner captured its dispatch, unless some dispatch of this process threw. */
  ghost predicate Captured(p: Process, request: ActionRequest, captured: Option<nat>, same: bool) {
    if captured.Some? then Led(p, captured.value, request) && same == LedSame(p, captured.value, request) else p.threw
  }

  /**
   When each answer is given: 409 when the request differs from the one dispatched, 500 when
   closing the joiner's own session threw, and 503 when the wait expired, or when a dispatch
   threw and left nothing in flight or nothing to answer with.
   */
  ghost predicate JoinEnded(p: Process, request: ActionRequest, joined: Option<nat>, answer: Reply, end: JoinEnd) {
    match end
    case NothingInFlight => joined.None? && answer == StillExecuting && p.threw
    case RequestDiffers =>
      joined.Some? && answer == Conflict && Led(p, joined.value, request) && !LedSame(p, joined.value, request)
    case ReleaseThrew =>
      answer == ServerError && (joined.Some? ==> Led(p, joined.value, request)) && (joined.None? ==> p.threw)
    case WaitExpired => joined.Some? && answer == StillExecuting && LedSame(p, joined.value, request)
    case DispatchSettled =>
      && joined.Some? && LedSame(p, joined.value, request) && joined.value in p.settled
      && match p.settled[joined.value]
         case Some(response) => answer == Outcome(response)
         case None => answer == StillExecuting && p.threw
  }

  /** What a joiner may know, and what it may be answered. */
  ghost predicate JoinerOk(p: Process, sub: Submission) {
    match sub.phase
    case Releasing(captured, same) => Captured(p, sub.request, captured, same)
    case Waiting(leader) => LedSame(p, leader, sub.request)
    case JoinReplied(joined, answer, end) => JoinEnded(p, sub.request, joined, answer, end)
    case _ => true
  }

  ghost predicate JoinersOk(p: Process) {
    forall sub :: sub in p.subs ==> JoinerOk(p, p.subs[sub])
  }

  /** Every transmission is by a submission that led, never by one that joined or still prepares. */
  ghost predicate SendersLed(w: World) {
    && (forall t :: t in w.sent ==> t.sub < w.nextSub)
    && (w.process.Some? ==>
          && (forall sub :: sub in w.process.value.subs ==> sub < w.nextSub)
          && (forall t :: t in w.sent && t.sub in w.process.value.subs ==>
                !Joining(w.process.value.subs[t.sub].phase) && !w.process.value.subs[t.sub].phase.Preparing?))
  }

  ghost predicate DispatchesOk(p: Process) {
    FlightsLed(p) && LeadersFly(p) && UnfinishedFly(p) && SettledAnswered(p)
  }

  ghost predicate JoinInv(w: World) {
    SendersLed(w) && (w.process.Some? ==> DispatchesOk(w.process.value) && JoinersOk(w.process.value))
  }

  /** Requests never change, a leader stays one until it settles, and settled stays settled. */
  ghost predicate Continues(p: Process, q: Process) {
    && (forall l :: l in p.subs ==> l in q.subs && q.subs[l].request == p.subs[l].request)
    && (forall l :: l in p.subs && Leading(p.subs[l].phase) ==> l in q.settled || Leading(q.subs[l].phase))
    && (forall l :: l in p.settled ==> l in q.settled && q.settled[l] == p.settled[l])
    && (p.threw ==> q.threw)
  }

  lemma JoinerStable(p: Process, q: Process, sub: Submission)
    requires Continues(p, q) && JoinerOk(p, sub)
    ensures JoinerOk(q, sub)
  {
  }

  /** Only submission `sub` moved, so only it has to be looked at. */
  lemma JoinersFrom(p: Process, q: Process, sub: nat)
    requires JoinersOk(p) && Continues(p, q) && sub in q.subs && JoinerOk(q, q.subs[sub])
    requires forall s :: s in q.subs ==> s == sub || (s in p.subs && q.subs[s] == p.subs[s])
    ensures JoinersOk(q)
  {
    forall s | s in q.subs && s != sub
      ensures JoinerOk(q, q.subs[s])
    {
      JoinerStable(p, q, q.subs[s]);
    }
  }

  /** A submission that is neither joining nor preparing may lead or be answered. */
  lemma SendersFrom(w: World, p: Process, q: Process, sub: nat, moved: Submission)
    requires SendersLed(w) && w.process == Some(p) && sub in p.subs && q.subs == p.subs[sub := moved]
    requires (Joining(moved.phase) || moved.phase.Preparing?) ==>
               Joining(p.subs[sub].phase) || p.subs[sub].phase.Preparing?
    ensures SendersLed(w.(process := Some(q)))
  {
  }

  /** A step that moves one submission that does not lead keeps every dispatch as it is. */
  lemma FollowerKeepsDispatches(p: Process, sub: nat, phase: Phase)
    requires DispatchesOk(p) && sub in p.subs && !Leading(p.subs[sub].phase) && !Leading(phase) && sub !in p.settled
    ensures DispatchesOk(WithPhase(p, sub, phase))
  {
    var q := WithPhase(p, sub, phase);
    assert forall s :: s in p.subs && s != sub ==> q.subs[s] == p.subs[s];
  }

  lemma FollowerKeepsJoiners(p: Process, sub: nat, phase: Phase)
    requires JoinersOk(p) && SettledAnswered(p) && sub in p.subs
    requires p.subs[sub].phase.Preparing? || Joining(p.subs[sub].phase)
    requires JoinerOk(p, Submission(p.subs[sub].request, phase))
    ensures JoinersOk(WithPhase(p, sub, phase)) && sub !in p.settled
  {
    var q := WithPhase(p, sub, phase);
    JoinerStable(p, q, q.subs[sub]);
    JoinersFrom(p, q, sub);
  }

  lemma MoveFollower(w: World, p: Process, sub: nat, phase: Phase)
    requires JoinInv(w) && w.process == Some(p) && sub in p.subs
    requires p.subs[sub].phase.Preparing? || Joining(p.subs[sub].phase)
    requires !Leading(phase) && !phase.Preparing?
    requires JoinerOk(p, Submission(p.subs[sub].request, phase))
    ensures JoinInv(w.(process := Some(WithPhase(p, sub, phase))))
  {
    hide FlightsLed, LeadersFly, UnfinishedFly, SettledAnswered, JoinersOk, SendersLed, JoinerOk;
    FollowerKeepsJoiners(p, sub, phase);
    FollowerKeepsDispatches(p, sub, phase);
    SendersFrom(w, p, WithPhase(p, sub, phase), sub, p.subs[sub].(phase := phase));
  }

  lemma CaptureOk(p: Process, request: ActionRequest)
    requires FlightsLed(p) && UnfinishedFly(p) && Check(p.index, IdOf(request), HashIn(request)).InFlight?
    ensures JoinerOk(p, Submission(request, Capture(p, request)))
  {
    var k := Lookup(p.index, IdOf(request)).value;
    assert Unfinished(p.index, k);
  }

  lemma ArriveDispatches(p: Process, next: nat, sub: Submission)
    requires DispatchesOk(p) && next !in p.subs && !Leading(sub.phase)
    ensures DispatchesOk(p.(subs := p.subs[next := sub]))
  {
    var q := p.(subs := p.subs[next := sub]);
    assert forall s :: s in p.subs ==> q.subs[s] == p.subs[s];
  }

  lemma ArriveJoiners(p: Process, next: nat, sub: Submission)
    requires JoinersOk(p) && next !in p.subs && JoinerOk(p, sub)
    ensures JoinersOk(p.(subs := p.subs[next := sub]))
  {
    var q := p.(subs := p.subs[next := sub]);
    assert Continues(p, q);
    JoinerStable(p, q, sub);
    JoinersFrom(p, q, next);
  }

  lemma ArriveJoin(w: World, p: Process, request: ActionRequest, screened: Option<ActionResponse>)
    requires JoinInv(w) && w.process == Some(p)
    ensures JoinInv(DoArrive(w, p, request, screened))
  {
    hide FlightsLed, LeadersFly, UnfinishedFly, SettledAnswered, JoinersOk;
    var sub := Submission(request, ArrivalPhase(p, request, screened));
    if Check(p.index, IdOf(request), HashIn(request)).InFlight? {
      CaptureOk(p, request);
    }
    assert w.nextSub !in p.subs;
    ArriveDispatches(p, w.nextSub, sub);
    ArriveJoiners(p, w.nextSub, sub);
  }

  // ---- a dispatch from authorization to settlement --------------------------------------

  /** The ledger's gate opened for this submission: its Action ID was absent, and is now held. */
  ghost predicate Gate(p: Process, q: Process, sub: nat) {
    && sub in p.subs && p.subs[sub].phase.Preparing? && Pair(IdOf(p.subs[sub].request)) !in p.index.entries
    && var request := p.subs[sub].request;
       var id := Pair(IdOf(request));
       q == p.(index := Put(p.index, id, Entry(id, HashIn(request), request.package.envelope.expiresAt, InProgress)))
  }

  lemma LaunchFlights(p: Process, q: Process, sub: nat)
    requires FlightsLed(p) && SettledAnswered(p) && Gate(p, q, sub)
    ensures FlightsLed(Launch(q, sub)) && SettledAnswered(Launch(q, sub))
  {
    var r := Launch(q, sub);
    assert forall s :: s in p.subs && s != sub ==> r.subs[s] == p.subs[s];
  }

  lemma LaunchLeaders(p: Process, q: Process, sub: nat)
    requires LeadersFly(p) && Gate(p, q, sub)
    ensures LeadersFly(Launch(q, sub))
  {
    var r := Launch(q, sub);
    forall s | s in r.subs && Leading(r.subs[s].phase) && s != sub
      ensures KeyOf(r.subs[s].request).0 != IdOf(p.subs[sub].request) && r.subs[s] == p.subs[s]
    {
      assert Pair(KeyOf(p.subs[s].request).0) in p.index.entries;
    }
  }

  lemma LaunchUnfinished(p: Process, q: Process, sub: nat)
    requires UnfinishedFly(p) && Gate(p, q, sub)
    ensures UnfinishedFly(Launch(q, sub))
  {
    var request := p.subs[sub].request;
    var id := Pair(IdOf(request));
    PutWellFormed(p.index, id, Entry(id, HashIn(request), request.package.envelope.expiresAt, InProgress));
  }

  lemma LaunchJoiners(p: Process, q: Process, sub: nat)
    requires JoinersOk(p) && Gate(p, q, sub)
    ensures JoinersOk(Launch(q, sub))
  {
    assert Continues(p, Launch(q, sub));
    JoinersFrom(p, Launch(q, sub), sub);
  }

  /** An authorized submission leads: its fresh entry is in flight under its own key. */
  lemma LaunchJoin(w: World, p: Process, q: Process, sub: nat, journal: seq<Event>)
    requires JoinInv(w) && w.process == Some(p) && Gate(p, q, sub)
    ensures JoinInv(w.(journal := journal, process := Some(Launch(q, sub)),
                       sent := w.sent + [Transmission(sub, IdOf(p.subs[sub].request))]))
  {
    hide FlightsLed, LeadersFly, UnfinishedFly, SettledAnswered, JoinersOk;
    LaunchFlights(p, q, sub);
    LaunchLeaders(p, q, sub);
    LaunchUnfinished(p, q, sub);
    LaunchJoiners(p, q, sub);
  }

  lemma AuthorizeJoin(w: World, p: Process, sub: nat, fate: AppendFate, closes: bool)
    requires JoinInv(w) && w.process == Some(p) && sub in p.subs && p.subs[sub].phase.Preparing?
    ensures JoinInv(DoAuthorize(w, p, sub, fate, closes))
  {
    hide FlightsLed, LeadersFly, UnfinishedFly, SettledAnswered, JoinersOk, SendersLed, Put;
    var request := p.subs[sub].request;
    var id := Pair(IdOf(request));
    var journal := Append(w.journal, Executing(id, HashIn(request), request.package.envelope.expiresAt), fate);
    match Check(p.index, IdOf(request), HashIn(request))
    case Absent =>
      if fate.Written? {
        var q := p.(index :=
          Put(p.index, id, Entry(id, HashIn(request), request.package.envelope.expiresAt, InProgress)));
        LaunchJoin(w, p, q, sub, journal);
      } else {
        JournalIsNotRead(w, journal);
        MoveFollower(w.(journal := journal), p, sub, Replied(ServerError));
      }
    case InFlight =>
      CaptureOk(p, request);
      MoveFollower(w, p, sub, Capture(p, request));
    case code =>
      MoveFollower(w, p, sub, Replied(Refusal(code, closes)));
  }

  lemma JournalIsNotRead(w: World, journal: seq<Event>)
    requires JoinInv(w)
    ensures JoinInv(w.(journal := journal))
  {
  }

  /** The index after an outcome was recorded for `id`, or after the append threw. */
  ghost predicate Recording(p: Process, index: Index, sub: nat, phase: Phase) {
    && sub in p.subs && p.subs[sub].phase.Transmitting? && (phase.Recorded? || phase.Thrown?)
    && WellFormed(index)
    && var id := Pair(IdOf(p.subs[sub].request));
       if phase.Thrown? then index == p.index
       else id in p.index.entries && exists status: Status :: status.Done? && index == WithStatus(p.index, id, status)
  }

  lemma LandFlights(p: Process, index: Index, sub: nat, phase: Phase)
    requires FlightsLed(p) && SettledAnswered(p) && Recording(p, index, sub, phase)
    ensures FlightsLed(Land(p, index, sub, phase)) && SettledAnswered(Land(p, index, sub, phase))
  {
    var q := Land(p, index, sub, phase);
    assert forall s :: s in p.subs && s != sub ==> q.subs[s] == p.subs[s];
  }

  lemma LandLeaders(p: Process, index: Index, sub: nat, phase: Phase)
    requires LeadersFly(p) && Recording(p, index, sub, phase)
    ensures LeadersFly(Land(p, index, sub, phase))
  {
    var q := Land(p, index, sub, phase);
    var key := KeyOf(p.subs[sub].request);
    forall s | s in q.subs && Leading(q.subs[s].phase) && s != sub
      ensures KeyOf(q.subs[s].request).0 != key.0 && q.subs[s] == p.subs[s]
    {
      var other := KeyOf(p.subs[s].request);
      assert p.inFlight[other].leader == s && p.index.entries[Pair(other.0)].hash == other.1;
      assert p.inFlight[key].leader == sub && p.index.entries[Pair(key.0)].hash == key.1;
    }
  }

  lemma LandUnfinished(p: Process, index: Index, sub: nat, phase: Phase)
    requires UnfinishedFly(p) && Recording(p, index, sub, phase)
    ensures UnfinishedFly(Land(p, index, sub, phase))
  {
  }

  lemma LandJoiners(p: Process, index: Index, sub: nat, phase: Phase)
    requires JoinersOk(p) && Recording(p, index, sub, phase)
    ensures JoinersOk(Land(p, index, sub, phase))
  {
    assert Continues(p, Land(p, index, sub, phase));
    JoinersFrom(p, Land(p, index, sub, phase), sub);
  }

  lemma LandJoin(w: World, p: Process, journal: seq<Event>, index: Index, sub: nat, phase: Phase)
    requires JoinInv(w) && w.process == Some(p) && Recording(p, index, sub, phase)
    ensures JoinInv(w.(journal := journal, process := Some(Land(p, index, sub, phase))))
  {
    hide FlightsLed, LeadersFly, UnfinishedFly, SettledAnswered, JoinersOk;
    LandFlights(p, index, sub, phase);
    LandLeaders(p, index, sub, phase);
    LandUnfinished(p, index, sub, phase);
    LandJoiners(p, index, sub, phase);
    SendersFrom(w, p, Land(p, index, sub, phase), sub, p.subs[sub].(phase := phase));
  }

  /** The outcome of a dispatch is recorded under the entry it was authorized with. */
  lemma TransmitReturnedJoin(w: World, p: Process, sub: nat, response: ActionResponse, fate: AppendFate)
    requires JoinInv(w) && w.process == Some(p) && sub in p.subs && p.subs[sub].phase.Transmitting?
    ensures JoinInv(DoTransmitReturned(w, p, sub, response, fate))
  {
    hide JoinersOk, SendersLed, FlightsLed, SettledAnswered;
    var id := Pair(IdOf(p.subs[sub].request));
    assert Lookup(p.index, IdOf(p.subs[sub].request)) == Some(id);
    var (ledger, ok) :=
      Resolve(Ledger(w.journal, p.index), IdOf(p.subs[sub].request), response.result, Some(response), fate);
    var status := Done(response.result, Some(response));
    PutWellFormed(p.index, id, p.index.entries[id].(status := status));
    assert ok ==> ledger.index == WithStatus(p.index, id, status);
    LandJoin(w, p, ledger.journal, ledger.index, sub, if ok then Recorded(response) else Thrown);
  }

  lemma SettleFlights(p: Process, sub: nat)
    requires FlightsLed(p) && SettledAnswered(p) && LeadersFly(p)
    requires sub in p.subs && (p.subs[sub].phase.Recorded? || p.subs[sub].phase.Thrown?)
    ensures FlightsLed(DoSettle(p, sub)) && SettledAnswered(DoSettle(p, sub))
  {
    var q := DoSettle(p, sub);
    assert forall s :: s in p.subs && s != sub ==> q.subs[s] == p.subs[s];
    forall key | key in q.inFlight
      ensures q.inFlight[key].leader != sub
    {
      assert KeyOf(p.subs[p.inFlight[key].leader].request) == key;
    }
  }

  lemma SettleLeaders(p: Process, sub: nat)
    requires LeadersFly(p) && UnfinishedFly(p)
    requires sub in p.subs && (p.subs[sub].phase.Recorded? || p.subs[sub].phase.Thrown?)
    ensures LeadersFly(DoSettle(p, sub)) && UnfinishedFly(DoSettle(p, sub))
  {
    var q := DoSettle(p, sub);
    var key := KeyOf(p.subs[sub].request);
    assert p.inFlight[key].leader == sub;
    forall s | s in q.subs && Leading(q.subs[s].phase)
      ensures KeyOf(q.subs[s].request) != key && q.subs[s] == p.subs[s]
    {
      assert p.inFlight[KeyOf(p.subs[s].request)].leader == s;
    }
  }

  lemma SettleJoiners(p: Process, sub: nat)
    requires JoinersOk(p) && SettledAnswered(p)
    requires sub in p.subs && (p.subs[sub].phase.Recorded? || p.subs[sub].phase.Thrown?)
    ensures JoinersOk(DoSettle(p, sub))
  {
    assert sub !in p.settled;
    assert Continues(p, DoSettle(p, sub));
    JoinersFrom(p, DoSettle(p, sub), sub);
  }

  /** Only a settled dispatch's own key leaves the map of dispatches in flight. */
  lemma SettleJoin(w: World, p: Process, sub: nat)
    requires JoinInv(w) && w.process == Some(p) && sub in p.subs
    requires p.subs[sub].phase.Recorded? || p.subs[sub].phase.Thrown?
    ensures JoinInv(w.(process := Some(DoSettle(p, sub))))
  {
    hide FlightsLed, SettledAnswered, LeadersFly, UnfinishedFly, JoinersOk, SendersLed;
    SettleFlights(p, sub);
    SettleLeaders(p, sub);
    SettleJoiners(p, sub);
    SendersFrom(w, p, DoSettle(p, sub), sub, DoSettle(p, sub).subs[sub]);
  }

  /** What each end of a join may answer. */
  lemma JoinEnds(p: Process, sub: nat, step: Step)
    requires SettledAnswered(p) && sub in p.subs && JoinerOk(p, p.subs[sub])
    requires match step
             case JoinReleased(s) => s == sub && p.subs[sub].phase.Releasing?
             case JoinReleaseThrew(s) => s == sub && p.subs[sub].phase.Releasing?
             case JoinSettled(s) => s == sub && p.subs[sub].phase.Waiting? && p.subs[sub].phase.leader in p.settled
             case JoinTimedOut(s) => s == sub && p.subs[sub].phase.Waiting?
             case _ => false
    ensures JoinerOk(p, Submission(p.subs[sub].request, JoinedPhase(p, sub, step)))
  {
    hide Led;
  }

  /** Where a join step leaves its submission. */
  function JoinedPhase(p: Process, sub: nat, step: Step): Phase
    requires sub in p.subs
  {
    match (step, p.subs[sub].phase)
    case (JoinReleased(_), Releasing(_, _)) => DoJoinReleased(p, sub).subs[sub].phase
    case (JoinReleaseThrew(_), Releasing(captured, _)) => JoinReplied(captured, ServerError, ReleaseThrew)
    case (JoinSettled(_), Waiting(leader)) =>
      if leader in p.settled then DoJoinSettled(p, sub).subs[sub].phase else Waiting(leader)
    case (_, Waiting(leader)) => JoinReplied(Some(leader), StillExecuting, WaitExpired)
    case (_, phase) => phase
  }

  lemma JoinedJoin(w: World, p: Process, sub: nat, step: Step, did: Did)
    requires JoinInv(w) && w.process == Some(p) && Enabled(w, step)
    requires step == JoinReleased(sub) || step == JoinReleaseThrew(sub) || step == JoinSettled(sub) ||
               step == JoinTimedOut(sub)
    ensures JoinInv(Do(w, step, did))
  {
    hide FlightsLed, LeadersFly, UnfinishedFly, SettledAnswered, SendersLed, JoinerOk;
    JoinEnds(p, sub, step);
    MoveFollower(w, p, sub, JoinedPhase(p, sub, step));
  }

  lemma StartJoin(w: World, stop: Option<nat>, did: Did)
    requires JoinInv(w) && w.process.None?
    ensures JoinInv(Do(w, StartStep(stop), did))
  {
    hide Replay, Records, Settled;
    RestartRefinesJournal(w.journal);
    RestartSettlesOnlyUnfinished(w.journal);
  }

  lemma StepJoin(w: World, step: Step, did: Did)
    requires JoinInv(w) && Enabled(w, step)
    ensures JoinInv(Do(w, step, did))
  {
    hide FlightsLed, LeadersFly, UnfinishedFly, SettledAnswered, JoinersOk, SendersLed;
    hide StartUp, DoAuthorize, DoTransmitReturned, DoArrive, DoSettle, DoJoinReleased, DoJoinSettled;
    match step
    case Arrive(request, screened) => ArriveJoin(w, w.process.value, request, screened);
    case AnswerStateless(sub, verdict) => MoveFollower(w, w.process.value, sub, Replied(Stateless(verdict)));
    case AuthorizeStep(sub, fate, closes) => AuthorizeJoin(w, w.process.value, sub, fate, closes);
    case TransmitReturned(sub, result, detail, fate) =>
      TransmitReturnedJoin(w, w.process.value, sub,
        ActionResponse(ClassifyDispatch(result), Some(HashIn(w.process.value.subs[sub].request)), did, detail), fate);
    case TransmitThrew(sub) =>
      UnfinishedIsWellFormed(w.process.value);
      LandJoin(w, w.process.value, w.journal, w.process.value.index, sub, Thrown);
    case Settle(sub) => SettleJoin(w, w.process.value, sub);
    case CrashStep => DownJoin(w);
    case StartStep(stop) => StartJoin(w, stop, did);
    case JoinReleased(sub) => JoinedJoin(w, w.process.value, sub, step, did);
    case JoinReleaseThrew(sub) => JoinedJoin(w, w.process.value, sub, step, did);
    case JoinSettled(sub) => JoinedJoin(w, w.process.value, sub, step, did);
    case JoinTimedOut(sub) => JoinedJoin(w, w.process.value, sub, step, did);
  }

  lemma UnfinishedIsWellFormed(p: Process)
    requires UnfinishedFly(p)
    ensures WellFormed(p.index)
  {
  }

  lemma DownJoin(w: World)
    requires JoinInv(w)
    ensures JoinInv(w.(process := None))
  {
  }

  lemma {:induction false} RunJoin(journal: seq<Event>, steps: seq<Step>, did: Did)
    ensures JoinInv(Run(journal, steps, did))
  {
    if steps != [] {
      RunJoin(journal, steps[..|steps| - 1], did);
      var w := Run(journal, steps[..|steps| - 1], did);
      if Enabled(w, steps[|steps| - 1]) {
        StepJoin(w, steps[|steps| - 1], did);
      }
    }
  }

  /**
   In any run, while no dispatch of the running process threw: a submission the ledger calls
   executing finds that dispatch in flight, led by a submission of the same envelope.
   */
  lemma {:induction false} ExecutingIsInFlight(journal: seq<Event>, steps: seq<Step>, did: Did, request: ActionRequest)
    requires var w := Run(journal, steps, did);
             w.process.Some? && !w.process.value.threw
             && Check(w.process.value.index, IdOf(request), HashIn(request)).InFlight?
    ensures var p := Run(journal, steps, did).process.value;
            && KeyOf(request) in p.inFlight
            && Led(p, p.inFlight[KeyOf(request)].leader, request)
  {
    RunJoin(journal, steps, did);
    var p := Run(journal, steps, did).process.value;
    var k := Lookup(p.index, IdOf(request)).value;
    assert Unfinished(p.index, k);
  }

  /**
   In any run, no transmission is a joiner's, and a joiner was answered with what the dispatch it
   joined was answered with, or with a conflict, 503 or 500 exactly as `JoinEnded` says.
   */
  lemma {:induction false} JoinersAreAnswered(journal: seq<Event>, steps: seq<Step>, did: Did, sub: nat)
    requires var w := Run(journal, steps, did);
             w.process.Some? && sub in w.process.value.subs && w.process.value.subs[sub].phase.JoinReplied?
    ensures var w := Run(journal, steps, did); var p := w.process.value; var phase := p.subs[sub].phase;
            && (forall t :: t in w.sent ==> t.sub != sub)
            && JoinEnded(p, p.subs[sub].request, phase.joined, phase.answer, phase.end)
            && (phase.answer.Outcome? ==>
                 phase.end.DispatchSettled? && p.subs[phase.joined.value].phase == Replied(phase.answer))
            && (!p.threw ==>
                  && phase.joined.Some? && Led(p, phase.joined.value, p.subs[sub].request)
                  && (phase.answer == StillExecuting <==> phase.end.WaitExpired?)
                  && (phase.answer == ServerError <==> phase.end.ReleaseThrew?)
                  && (phase.answer == Conflict <==> phase.end.RequestDiffers?)
                  && (phase.answer.Outcome? <==> phase.end.DispatchSettled?))
  {
    RunJoin(journal, steps, did);
    var p := Run(journal, steps, did).process.value;
    assert JoinerOk(p, p.subs[sub]);
  }

  /** A submission whose record is resolved, or holds another envelope, is told so and changes nothing. */
  lemma KnownIsRefused(w: World, did: Did, request: ActionRequest, k: LedgerId)
    requires w.process.Some? && KnownBy(w.process.value.index, IdOf(request), k)
    requires w.process.value.index.entries[k].status.Done? || w.process.value.index.entries[k].hash != HashIn(request)
    ensures var x := Do(w, Arrive(request, None), did);
            var resolved := w.process.value.index.entries[k].status.Done?;
            && x.sent == w.sent && x.journal == w.journal && x.process.Some? && w.nextSub in x.process.value.subs
            && x.process.value.index == w.process.value.index
            && x.process.value.subs[w.nextSub].phase
               == Replied(LedgerRejected(if resolved then ReplayDetected else HashMismatch))
  {
    LookupIsKnown(w.process.value.index, IdOf(request));
  }

  /** The gate tells a submission the same, or that the server failed if its unused session would not close. */
  lemma KnownIsRefusedAtGate(w: World, did: Did, sub: nat, k: LedgerId, fate: AppendFate, closes: bool)
    requires Enabled(w, AuthorizeStep(sub, fate, closes))
    requires var p := w.process.value; var request := p.subs[sub].request;
             && KnownBy(p.index, IdOf(request), k)
             && (p.index.entries[k].status.Done? || p.index.entries[k].hash != HashIn(request))
    ensures var x := Do(w, AuthorizeStep(sub, fate, closes), did);
            var resolved := w.process.value.index.entries[k].status.Done?;
            && x.sent == w.sent && x.journal == w.journal && x.process.Some? && sub in x.process.value.subs
            && x.process.value.index == w.process.value.index
            && x.process.value.subs[sub].phase
               == Replied(if closes then LedgerRejected(if resolved then ReplayDetected else HashMismatch)
                          else ServerError)
  {
    LookupIsKnown(w.process.value.index, IdOf(w.process.value.subs[sub].request));
  }

  // ---- what a dispatch is reported as -------------------------------------------------

  /** These codes leave open whether the target acted. */
  ghost predicate LeavesOpen(code: string) {
    || code == "DISPATCH_TIMEOUT" || code == "PROCESS_EXITED" || code == "TRANSPORT_ERROR"
    || code == "OAUTH_SCOPE_CHANGE_REQUIRED" || exists rest :: code == "OAUTH_" + rest
  }

  /** Executed only if the tool answered without an error, and unknown only if the error leaves it open. */
  ghost predicate Reports(kind: ResultKind, result: DispatchResult) {
    && (kind.Executed? <==> result == ToolResult(false))
    && (kind.Indeterminate? <==> result.DispatchError? && LeavesOpen(result.code))
    && (kind.Failed? <==> result == ToolResult(true) || (result.DispatchError? && !LeavesOpen(result.code)))
  }

  lemma ClassifiedIsReported(result: DispatchResult)
    ensures Reports(ClassifyDispatch(result), result)
  {
    if result.DispatchError? && StartsWith(result.code, "OAUTH_") {
      assert result.code == "OAUTH_" + result.code[6..];
    }
  }

  /** What a submission's dispatch came to: this response if it was recorded, and else nothing. */
  predicate Ended(phase: Phase, response: ActionResponse, recorded: bool) {
    match phase
    case Recorded(r) => recorded && r == response
    case Replied(Outcome(r)) => recorded && r == response
    case Thrown => !recorded
    case Replied(ServerError) => !recorded
    case _ => false
  }

  /** Everyone whom `sub`'s dispatch answers is told this. */
  ghost predicate Told(w: World, sub: nat, response: ActionResponse, recorded: bool) {
    && sub < w.nextSub
    && (w.process.Some? ==>
          var p := w.process.value;
          && (sub in p.subs ==> Ended(p.subs[sub].phase, response, recorded))
          && (sub in p.settled ==> p.settled[sub] == if recorded then Some(response) else None)
          && (forall j, answer :: j in p.subs && p.subs[j].phase == JoinReplied(Some(sub), answer, DispatchSettled) ==>
                answer == if recorded then Outcome(response) else StillExecuting))
  }

  /** A dispatch that came back is recorded under its own entry, exactly when the append succeeds. */
  lemma ReturnedIsRecorded(w: World, p: Process, sub: nat, response: ActionResponse, fate: AppendFate)
    requires JoinInv(w) && w.process == Some(p) && sub in p.subs && p.subs[sub].phase.Transmitting?
    requires response.hash == Some(HashIn(p.subs[sub].request))
    ensures var x := DoTransmitReturned(w, p, sub, response, fate);
            && Told(x, sub, response, fate.Written?)
            && var k := Pair(IdOf(p.subs[sub].request));
            && (fate.Written? ==>
                  && x.journal == w.journal + [Resolved(k, response.result, Some(response))]
                  && k in x.process.value.index.entries
                  && x.process.value.index.entries[k].status == Done(response.result, Some(response)))
  {
    hide JoinersOk, FlightsLed;
    var k := Pair(IdOf(p.subs[sub].request));
    assert KnownBy(p.index, IdOf(p.subs[sub].request), k);
    assert p.index.entries[k].id == k;
    OutcomeIsRecorded(Ledger(w.journal, p.index), IdOf(p.subs[sub].request), k, response, fate);
    NoneAnswered(p, sub);
  }

  lemma NoneAnswered(p: Process, sub: nat)
    requires JoinersOk(p) && SettledAnswered(p) && sub in p.subs && p.subs[sub].phase.Transmitting?
    ensures sub !in p.settled
    ensures forall j, answer :: j in p.subs ==> p.subs[j].phase != JoinReplied(Some(sub), answer, DispatchSettled)
  {
    forall j, answer | j in p.subs
      ensures p.subs[j].phase != JoinReplied(Some(sub), answer, DispatchSettled)
    {
      assert JoinerOk(p, p.subs[j]);
    }
  }

  lemma StepTold(w: World, step: Step, did: Did, sub: nat, response: ActionResponse, recorded: bool)
    requires Told(w, sub, response, recorded) && Enabled(w, step)
    ensures Told(Do(w, step, did), sub, response, recorded)
  {
    hide StartUp, Check, ClassifyDispatch, DoAuthorize, DoTransmitReturned;
    match step
    case AuthorizeStep(s, fate, closes) => AuthorizeTold(w, w.process.value, s, fate, closes, sub, response, recorded);
    case TransmitReturned(s, result, detail, fate) =>
      var hash := HashIn(w.process.value.subs[s].request);
      var given := ActionResponse(ClassifyDispatch(result), Some(hash), did, detail);
      ReturnedTold(w, w.process.value, s, given, fate, sub, response, recorded);
    case _ =>
  }

  lemma AuthorizeTold(w: World, p: Process, s: nat, fate: AppendFate, closes: bool, sub: nat,
                      response: ActionResponse, recorded: bool)
    requires Told(w, sub, response, recorded) && w.process == Some(p) && s in p.subs && p.subs[s].phase.Preparing?
    ensures Told(DoAuthorize(w, p, s, fate, closes), sub, response, recorded)
  {
    hide Authorize;
  }

  lemma ReturnedTold(w: World, p: Process, s: nat, given: ActionResponse, fate: AppendFate, sub: nat,
                     response: ActionResponse, recorded: bool)
    requires Told(w, sub, response, recorded) && w.process == Some(p) && s in p.subs && p.subs[s].phase.Transmitting?
    ensures Told(DoTransmitReturned(w, p, s, given, fate), sub, response, recorded)
  {
    hide Resolve;
  }

  lemma {:induction false} StaysTold(journal: seq<Event>, steps: seq<Step>, n: nat, did: Did, sub: nat,
                                     response: ActionResponse, recorded: bool)
    requires n <= |steps| && Told(Run(journal, steps[..n], did), sub, response, recorded)
    ensures Told(Run(journal, steps, did), sub, response, recorded)
  {
    hide Do, Told;
    if n == |steps| {
      assert steps[..n] == steps;
    } else {
      assert steps[..|steps| - 1][..n] == steps[..n];
      StaysTold(journal, steps[..|steps| - 1], n, did, sub, response, recorded);
      var w := Run(journal, steps[..|steps| - 1], did);
      if Enabled(w, steps[|steps| - 1]) {
        StepTold(w, steps[|steps| - 1], did, sub, response, recorded);
      }
    }
  }

  /**
   Over every run: when a dispatch came back and its record was written, its submission and every
   joiner it answers are told one response that reports just that result; if the record could not be
   written they are told nothing of it, only that the dispatch failed or is still executing.
   */
  lemma {:induction false} OutcomeIsTold(journal: seq<Event>, steps: seq<Step>, n: nat, did: Did)
    requires n < |steps| && steps[n].TransmitReturned? && Enabled(Run(journal, steps[..n], did), steps[n])
    ensures var step := steps[n]; var before := Run(journal, steps[..n], did);
            var hash := HashIn(before.process.value.subs[step.sub].request);
            exists kind ::
              && Reports(kind, step.result)
              && Told(Run(journal, steps, did), step.sub, ActionResponse(kind, Some(hash), did, step.detail),
                      step.fate.Written?)
  {
    var step, before := steps[n], Run(journal, steps[..n], did);
    var p := before.process.value;
    var kind := ClassifyDispatch(step.result);
    var response := ActionResponse(kind, Some(HashIn(p.subs[step.sub].request)), did, step.detail);
    RunJoin(journal, steps[..n], did);
    ClassifiedIsReported(step.result);
    hide JoinInv, Told, Reports, DoTransmitReturned;
    ReturnedIsRecorded(before, p, step.sub, response, step.fate);
    assert steps[..n + 1][..n] == steps[..n];
    StaysTold(journal, steps, n + 1, did, step.sub, response, step.fate.Written?);
  }

  lemma RunNext(journal: seq<Event>, steps: seq<Step>, step: Step, did: Did)
    requires Enabled(Run(journal, steps, did), step)
    ensures Run(journal, steps + [step], did) == Do(Run(journal, steps, did), step, did)
  {
    assert (steps + [step])[..|steps|] == steps;
  }

  lemma RunTwo(journal: seq<Event>, steps: seq<Step>, a: Step, b: Step, did: Did)
    requires var w := Run(journal, steps, did); Enabled(w, a) && Enabled(Do(w, a, did), b)
    ensures Run(journal, steps + [a, b], did) == Do(Do(Run(journal, steps, did), a, did), b, did)
  {
    hide Do, Run, Enabled;
    RunNext(journal, steps, a, did);
    RunNext(journal, steps + [a], b, did);
    assert steps + [a] + [b] == steps + [a, b];
  }

  /** A process is up, and its ledger holds the action under no name. */
  ghost predicate Unheard(w: World, request: ActionRequest) {
    w.process.Some? && forall k :: k in w.process.value.index.entries ==> !Names(k, IdOf(request))
  }

  lemma TransmittedRun(journal: seq<Event>, steps: seq<Step>, did: Did, request: ActionRequest)
    requires Unheard(Run(journal, steps, did), request)
    ensures var w := Run(journal, steps, did); var sub := w.nextSub;
            var x := Run(journal, steps + [Arrive(request, None), AuthorizeStep(sub, Written, true)], did);
            UnderWay(x, sub, request) && x.sent == w.sent + [Transmission(sub, IdOf(request))]
  {
    var w := Run(journal, steps, did);
    NewIsTransmitted(w, did, request);
    hide Run, Do, Enabled, UnderWay, Unheard;
    RunTwo(journal, steps, Arrive(request, None), AuthorizeStep(w.nextSub, Written, true), did);
  }

  /** A second submission of the same request arrives before the target answers. */
  function Joined(sub: nat, again: ActionRequest, result: DispatchResult, detail: string): seq<Step> {
    [Arrive(again, None), TransmitReturned(sub, result, detail, Written)] + [JoinReleased(sub + 1)]
  }

  lemma JoinedRun(journal: seq<Event>, steps: seq<Step>, did: Did, sub: nat, request: ActionRequest,
                  again: ActionRequest, result: DispatchResult, detail: string)
    requires UnderWay(Run(journal, steps, did), sub, request) && FingerprintOf(again) == FingerprintOf(request)
    ensures var x := Run(journal, steps + Joined(sub, again, result, detail), did);
            var response := ActionResponse(ClassifyDispatch(result), Some(HashIn(request)), did, detail);
            && x.sent == Run(journal, steps, did).sent && Waits(x, sub, response)
            && Resolved(Pair(IdOf(request)), response.result, Some(response)) in x.journal
  {
    ResubmissionJoins(Run(journal, steps, did), did, sub, request, again, result, detail);
    hide Run, Do, Enabled, FingerprintOf, UnderWay, Waits, ClassifyDispatch;
    RunTwo(journal, steps, Arrive(again, None), TransmitReturned(sub, result, detail, Written), did);
    var two := steps + [Arrive(again, None), TransmitReturned(sub, result, detail, Written)];
    RunNext(journal, two, JoinReleased(sub + 1), did);
    assert steps + Joined(sub, again, result, detail) == two + [JoinReleased(sub + 1)];
  }

  /** Both submissions were answered with this response. */
  ghost predicate Answered(w: World, sub: nat, response: ActionResponse) {
    && w.process.Some?
    && var p := w.process.value;
    && sub in p.subs && p.subs[sub].phase == Replied(Outcome(response))
    && sub + 1 in p.subs && p.subs[sub + 1].phase == JoinReplied(Some(sub), Outcome(response), DispatchSettled)
  }

  /** One response that reports this result answered both, and is in the journal. */
  ghost predicate Served(w: World, sub: nat, request: ActionRequest, result: DispatchResult, did: Did, detail: string) {
    exists kind ::
      && Reports(kind, result)
      && var response := ActionResponse(kind, Some(HashIn(request)), did, detail);
      && Answered(w, sub, response) && Resolved(Pair(IdOf(request)), kind, Some(response)) in w.journal
  }

  lemma AnsweredIsServed(w: World, sub: nat, request: ActionRequest, result: DispatchResult, did: Did, detail: string)
    requires var response := ActionResponse(ClassifyDispatch(result), Some(HashIn(request)), did, detail);
             Answered(w, sub, response) && Resolved(Pair(IdOf(request)), response.result, Some(response)) in w.journal
    ensures Served(w, sub, request, result, did, detail)
  {
    ClassifiedIsReported(result);
  }

  lemma ServedRun(journal: seq<Event>, steps: seq<Step>, did: Did, sub: nat, request: ActionRequest,
                  result: DispatchResult, detail: string)
    requires var w := Run(journal, steps, did);
             var response := ActionResponse(ClassifyDispatch(result), Some(HashIn(request)), did, detail);
             Waits(w, sub, response) && Resolved(Pair(IdOf(request)), response.result, Some(response)) in w.journal
    ensures var x := Run(journal, steps + [Settle(sub), JoinSettled(sub + 1)], did);
            x.sent == Run(journal, steps, did).sent && Served(x, sub, request, result, did, detail)
  {
    hide Run, Do, Enabled, Waits, Served, Answered, ClassifyDispatch;
    var response := ActionResponse(ClassifyDispatch(result), Some(HashIn(request)), did, detail);
    BothAreAnswered(Run(journal, steps, did), did, sub, response);
    RunTwo(journal, steps, Settle(sub), JoinSettled(sub + 1), did);
    AnsweredIsServed(Run(journal, steps + [Settle(sub), JoinSettled(sub + 1)], did), sub, request, result, did, detail);
  }

  /**
   From any run with a live process: a submission no record names is transmitted, and it and a
   second submission of the request that arrives meanwhile are both answered with the one response
   that reports the target's result, which the journal then holds.
   */
  lemma {:induction false} NewSubmissionIsServed(journal: seq<Event>, steps: seq<Step>, did: Did,
                                                 request: ActionRequest, again: ActionRequest, result: DispatchResult,
                                                 detail: string)
    requires Unheard(Run(journal, steps, did), request)
    requires FingerprintOf(again) == FingerprintOf(request)
    ensures var w := Run(journal, steps, did); var sub := w.nextSub;
            var x := Run(journal, steps + [Arrive(request, None), AuthorizeStep(sub, Written, true)]
                                  + Joined(sub, again, result, detail) + [Settle(sub), JoinSettled(sub + 1)], did);
            && x.sent == w.sent + [Transmission(sub, IdOf(request))]
            && Served(x, sub, request, result, did, detail)
  {
    var sub := Run(journal, steps, did).nextSub;
    TransmittedRun(journal, steps, did, request);
    hide Run, FingerprintOf, Waits, Unheard, Joined, UnderWay, Served, ClassifyDispatch;
    var two := steps + [Arrive(request, None), AuthorizeStep(sub, Written, true)];
    JoinedRun(journal, two, did, sub, request, again, result, detail);
    ServedRun(journal, two + Joined(sub, again, result, detail), did, sub, request, result, detail);
  }

  /** This submission's dispatch is under way, under its own record. */
  ghost predicate UnderWay(w: World, sub: nat, request: ActionRequest) {
    && w.process.Some? && w.nextSub == sub + 1
    && var p := w.process.value;
    && sub in p.subs && p.subs[sub] == Submission(request, Transmitting)
    && KeyOf(request) in p.inFlight && p.inFlight[KeyOf(request)] == Flight(FingerprintOf(request), sub)
    && var k := Pair(IdOf(request));
    && k in p.index.entries && p.index.entries[k].id == k && p.index.entries[k].hash == HashIn(request)
    && p.index.entries[k].status.InProgress?
  }

  lemma NewIsTransmitted(w: World, did: Did, request: ActionRequest)
    requires Unheard(w, request)
    ensures var first := Arrive(request, None); var w1 := Do(w, first, did);
            var second := AuthorizeStep(w.nextSub, Written, true);
            && Enabled(w, first) && Enabled(w1, second)
            && UnderWay(Do(w1, second, did), w.nextSub, request)
            && Do(w1, second, did).sent == w.sent + [Transmission(w.nextSub, IdOf(request))]
  {
    LookupIsKnown(w.process.value.index, IdOf(request));
  }

  /** A second submission of a request in flight waits for it, and the outcome is recorded. */
  lemma ResubmissionJoins(w: World, did: Did, sub: nat, request: ActionRequest, again: ActionRequest,
                          result: DispatchResult, detail: string)
    requires UnderWay(w, sub, request) && FingerprintOf(again) == FingerprintOf(request)
    ensures var response := ActionResponse(ClassifyDispatch(result), Some(HashIn(request)), did, detail);
            var w1 := Do(w, Arrive(again, None), did);
            var second := TransmitReturned(sub, result, detail, Written);
            var third := JoinReleased(sub + 1);
            && Enabled(w, Arrive(again, None)) && Enabled(w1, second) && Enabled(Do(w1, second, did), third)
            && var x := Do(Do(w1, second, did), third, did);
            && Waits(x, sub, response) && x.sent == w.sent
            && Resolved(Pair(IdOf(request)), response.result, Some(response)) in x.journal
  {
    hide ClassifyDispatch;
    var w1 := Do(w, Arrive(again, None), did);
    assert KeyOf(again) == KeyOf(request);
    assert UnderWay(w1.(nextSub := sub + 1), sub, request);
    assert w1.process.value.subs[sub + 1].phase == Releasing(Some(sub), true);
    var k := Pair(IdOf(request));
    assert KnownBy(w1.process.value.index, IdOf(request), k);
    OutcomeIsRecorded(Ledger(w1.journal, w1.process.value.index), IdOf(request), k,
                      ActionResponse(ClassifyDispatch(result), Some(HashIn(request)), did, detail), Written);
    hide Resolve;
  }

  /** The dispatch has its outcome, and the next submission waits for it. */
  ghost predicate Waits(w: World, sub: nat, response: ActionResponse) {
    && w.process.Some?
    && var p := w.process.value;
    && sub in p.subs && p.subs[sub].phase == Recorded(response)
    && sub + 1 in p.subs && p.subs[sub + 1].phase == Waiting(sub)
  }

  lemma BothAreAnswered(w: World, did: Did, sub: nat, response: ActionResponse)
    requires Waits(w, sub, response)
    ensures Enabled(w, Settle(sub)) && Enabled(Do(w, Settle(sub), did), JoinSettled(sub + 1))
    ensures var x := Do(Do(w, Settle(sub), did), JoinSettled(sub + 1), did);
            && x.sent == w.sent && x.journal == w.journal
            && Answered(x, sub, response)
  {
  }
}
