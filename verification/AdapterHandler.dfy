/**
 The adapter's handler as its process holds it: the submissions, the map of dispatches in
 flight and the settled dispatches, updated in place, and the ledger object.  Each method is the
 code between two awaits, and is proved to be that step of module AdapterServer.
 */
module AdapterHandler {
  import opened Wrappers
  import opened Protocol
  import opened AdapterServer
  import LedgerModel
  import L = DispatchLedger

  class AdapterHandler {
    const did: Did
    const ledger: L.DispatchLedger
    var subs: map<nat, Submission>
    var inFlight: map<DispatchKey, Flight>
    var settled: map<nat, Option<ActionResponse>>
    var threw: bool
    var sent: seq<Transmission>
    var nextSub: nat

    constructor (did: Did, ledger: L.DispatchLedger, sent: seq<Transmission>, nextSub: nat)
      requires ledger.Valid()
      ensures ledger.Valid() && this.ledger == ledger && this.did == did
      ensures View() ==
                World(ledger.journal.events, Some(Process(ledger.Contents(), map[], map[], map[], false)), sent,
                nextSub)
    {
      this.did := did;
      this.ledger := ledger;
      subs, inFlight, settled := map[], map[], map[];
      threw := false;
      this.sent := sent;
      this.nextSub := nextSub;
    }

    ghost function Memory(): Process
      reads this, ledger
    {
      Process(ledger.Contents(), subs, inFlight, settled, threw)
    }

    ghost function View(): World
      reads this, ledger, ledger.journal
    {
      World(ledger.journal.events, Some(Memory()), sent, nextSub)
    }

    method SetPhase(sub: nat, phase: Phase)
      requires sub in subs
      modifies this`subs
      ensures subs == old(subs)[sub := old(subs)[sub].(phase := phase)]
    {
      subs := subs[sub := subs[sub].(phase := phase)];
    }

    /** What a submission that must not transmit captures before anything is awaited. */
    method CaptureDispatch(request: ActionRequest) returns (phase: Phase)
      ensures phase == Capture(Memory(), request)
    {
      if KeyOf(request) !in inFlight {
        return Releasing(None, false);
      }
      var flight := inFlight[KeyOf(request)];
      phase := Releasing(Some(flight.leader), FingerprintOf(request) == flight.fingerprint);
    }

    /** A submission arrives; the ledger is asked before any stateless rejection. */
    method Receive(request: ActionRequest, screened: Option<ActionResponse>)
      requires ledger.Valid()
      modifies this`subs, this`nextSub
      ensures View() == Do(old(View()), Arrive(request, screened), did)
    {
      hide LedgerModel.Check;
      var phase := Preparing;
      if screened.Some? {
        phase := Replied(Stateless(screened.value));
      } else {
        var verdict := ledger.CheckSubmission(IdOf(request), HashIn(request));
        if verdict.InFlight? {
          phase := CaptureDispatch(request);
        } else if !verdict.Absent? {
          phase := Replied(LedgerRejected(verdict));
        }
      }
      subs := subs[nextSub := Submission(request, phase)];
      nextSub := nextSub + 1;
    }

    /** The gate: transmit and register the dispatch, join the one in flight, or refuse. */
    method Gate(sub: nat, fate: LedgerModel.AppendFate, closes: bool)
      requires ledger.Valid() && Enabled(View(), AuthorizeStep(sub, fate, closes))
      modifies this, ledger, ledger.journal
      ensures ledger.Valid() && View() == Do(old(View()), AuthorizeStep(sub, fate, closes), did)
    {
      hide LedgerModel.Authorize;
      var request := subs[sub].request;
      var verdict := ledger.AuthorizeDispatch(IdOf(request), HashIn(request), request.package.envelope.expiresAt, fate);
      if verdict.None? {
        SetPhase(sub, Replied(ServerError));
      } else if verdict.value.InFlight? {
        var phase := CaptureDispatch(request);
        SetPhase(sub, phase);
      } else if verdict.value.Absent? {
        inFlight := inFlight[KeyOf(request) := Flight(FingerprintOf(request), sub)];
        SetPhase(sub, Transmitting);
        sent := sent + [Transmission(sub, IdOf(request))];
      } else {
        SetPhase(sub, Replied(if closes then LedgerRejected(verdict.value) else ServerError));
      }
    }

    /** The target answered: the exact terminal response is recorded before it is returned. */
    method RecordOutcome(sub: nat, result: DispatchResult, detail: string, fate: LedgerModel.AppendFate)
      requires ledger.Valid() && Enabled(View(), TransmitReturned(sub, result, detail, fate))
      modifies this, ledger, ledger.journal
      ensures ledger.Valid() && View() == Do(old(View()), TransmitReturned(sub, result, detail, fate), did)
    {
      hide LedgerModel.Resolve;
      var request := subs[sub].request;
      var kind := ClassifyDispatch(result);
      var response := ActionResponse(kind, Some(HashIn(request)), did, detail);
      var ok := ledger.ResolveDispatch(IdOf(request), kind, Some(response), fate);
      SetPhase(sub, if ok then Recorded(response) else Thrown);
      threw := threw || !ok;
    }

    /** The dispatch settles, answers its submission, and leaves the map. */
    method SettleDispatch(sub: nat)
      requires Enabled(View(), Settle(sub))
      modifies this`subs, this`settled, this`inFlight
      ensures View() == Do(old(View()), Settle(sub), did)
    {
      var phase := subs[sub].phase;
      if phase.Recorded? {
        settled := settled[sub := Some(phase.response)];
      } else {
        settled := settled[sub := None];
      }
      inFlight := inFlight - {KeyOf(subs[sub].request)};
      SetPhase(sub, Replied(if phase.Recorded? then Outcome(phase.response) else ServerError));
    }

    /** The joiner's own session is closed: it waits, or is told why it cannot. */
    method Join(sub: nat)
      requires Enabled(View(), JoinReleased(sub))
      modifies this`subs
      ensures View() == Do(old(View()), JoinReleased(sub), did)
    {
      var phase := subs[sub].phase;
      if phase.captured.None? {
        SetPhase(sub, JoinReplied(None, StillExecuting, NothingInFlight));
      } else if !phase.sameRequest {
        SetPhase(sub, JoinReplied(phase.captured, Conflict, RequestDiffers));
      } else {
        SetPhase(sub, Waiting(phase.captured.value));
      }
    }

    /** The dispatch joined is settled: its response answers the joiner, a failure does not. */
    method AnswerJoiner(sub: nat)
      requires Enabled(View(), JoinSettled(sub))
      modifies this`subs
      ensures View() == Do(old(View()), JoinSettled(sub), did)
    {
      var leader := subs[sub].phase.leader;
      var outcome := settled[leader];
      SetPhase(sub,
          JoinReplied(Some(leader), if outcome.Some? then Outcome(outcome.value) else StillExecuting, DispatchSettled));
    }

    /** A stateless rejection found after the ledger was asked; nothing is recorded. */
    method RejectStateless(sub: nat, answer: ActionResponse)
      requires Enabled(View(), AnswerStateless(sub, answer))
      modifies this`subs
      ensures View() == Do(old(View()), AnswerStateless(sub, answer), did)
    {
      SetPhase(sub, Replied(Stateless(answer)));
    }

    /** Transmission threw: the entry stays executing, and joiners are told to come back. */
    method FailDispatch(sub: nat)
      requires Enabled(View(), TransmitThrew(sub))
      modifies this`subs, this`threw
      ensures View() == Do(old(View()), TransmitThrew(sub), did)
    {
      SetPhase(sub, Thrown);
      threw := true;
    }

    /** The bounded wait is over, or closing the joiner's session threw. */
    method GiveUpJoiner(sub: nat, releaseThrew: bool)
      requires Enabled(View(), if releaseThrew then JoinReleaseThrew(sub) else JoinTimedOut(sub))
      modifies this`subs
      ensures View() == Do(old(View()), if releaseThrew then JoinReleaseThrew(sub) else JoinTimedOut(sub), did)
    {
      if releaseThrew {
        SetPhase(sub, JoinReplied(subs[sub].phase.captured, ServerError, ReleaseThrew));
      } else {
        SetPhase(sub, JoinReplied(Some(subs[sub].phase.leader), StillExecuting, WaitExpired));
      }
    }
  }
}
