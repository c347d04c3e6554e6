/**
 The relay worker as a process runs it: loops over pages and deliveries, a state object updated
 in place and saved to its file, and the dispatch ledger.  Every method is proved to perform
 steps of module RelayProtocol, so what holds of all its runs holds of this code.
 */
module VerifierRelayWorker {
  import opened Wrappers
  import opened Protocol
  import LedgerModel
  import AdapterServer
  import opened RelayQueue
  import opened RelayProtocol
  import L = DispatchLedger

  /** The worker's state file; the caller says what the disk does with each save. */
  class StateFile {
    var saved: WorkerState

    constructor ()
      ensures saved == NEW_STATE
    {
      saved := NEW_STATE;
    }

    method Save(state: WorkerState, fate: LedgerModel.AppendFate) returns (ok: bool)
      modifies this
      ensures saved == if fate.LostBefore? then old(saved) else state
      ensures ok == fate.Written?
    {
      if !fate.LostBefore? {
        saved := state;
      }
      ok := fate.Written?;
    }
  }

  /** The relay this worker talks to. */
  class RelayService {
    var relay: Relay

    constructor ()
      ensures relay == EMPTY_RELAY
    {
      relay := EMPTY_RELAY;
    }

    /** The reply says whether the response was accepted. */
    method Submit(envelope: DeliveryEnvelope, admissible: bool, verifier: Did) returns (accepted: bool)
      modifies this
      ensures accepted == (admissible && RelayAccepts(old(relay), envelope, verifier))
      ensures relay == if accepted then SubmitResponseDelivery(old(relay), envelope, verifier) else old(relay)
    {
      accepted := admissible && RelayAccepts(relay, envelope, verifier);
      if accepted {
        relay := SubmitResponseDelivery(relay, envelope, verifier);
      }
    }
  }

  /** What the outside decides each time the worker awaits something. */
  datatype Choice = Choice(
    lost: bool,
    clock: int,
    handling: Handling,
    detail: string,
    fate: LedgerModel.AppendFate,
    result: Option<AdapterServer.DispatchResult>,
    save: LedgerModel.AppendFate,
    how: SubmitFate)

  /** What the adapter made of the current delivery. */
  datatype Answered = Got(response: ActionResponse) | Begun | Unanswered | Refused(error: FatalError)

  datatype Outcome = Done | Dropped | Broken(error: FatalError)

  /** These steps, one after the other; one that is not enabled changes nothing. */
  ghost function Perform(w: World, steps: seq<Step>, did: Did): World {
    if steps == [] then w
    else
      var before := Perform(w, steps[..|steps| - 1], did);
      if Enabled(before, steps[|steps| - 1]) then Do(before, steps[|steps| - 1], did) else before
  }

  lemma PerformNext(w: World, steps: seq<Step>, step: Step, did: Did)
    requires Enabled(Perform(w, steps, did), step)
    ensures Perform(w, steps + [step], did) == Do(Perform(w, steps, did), step, did)
  {
    assert (steps + [step])[..|steps|] == steps;
  }

  lemma {:induction false} PerformMore(w: World, first: seq<Step>, second: seq<Step>, did: Did)
    ensures Perform(w, first + second, did) == Perform(Perform(w, first, did), second, did)
  {
    if second == [] {
      assert first + second == first;
    } else {
      var front := second[..|second| - 1];
      PerformMore(w, first, front, did);
      assert (first + second)[..|first + second| - 1] == first + front;
    }
  }

  /** Performing steps after a run is a longer run. */
  lemma {:induction false} PerformIsRun(steps: seq<Step>, more: seq<Step>, did: Did)
    ensures Perform(Run(steps, did), more, did) == Run(steps + more, did)
  {
    if more == [] {
      assert steps + more == steps;
    } else {
      PerformIsRun(steps, more[..|more| - 1], did);
      assert (steps + more)[..|steps + more| - 1] == steps + more[..|more| - 1];
    }
  }

  lemma OnlyPollsAnswer(w: World, step: Step, did: Did)
    requires Enabled(w, step)
    ensures !step.Poll? ==> Do(w, step, did).polls == w.polls
  {
    hide Respond, LedgerModel.Check, LedgerModel.Authorize, LedgerModel.Resolve, LedgerModel.RecoveryFor;
    hide LedgerModel.StartUp, FirstPage, Select, ReceiveAction;
  }

  /** The last of these steps is one that can drop the page in hand, or a poll that was lost. */
  predicate GivesUp(steps: seq<Step>) {
    steps != []
    && match steps[|steps| - 1]
       case Poll(lost) => lost
       case Deliver(_, _, _, _) => true
       case Returned(_, _, _, _) => true
       case Threw => true
       case Submit(_) => true
       case _ => false
  }

  class VerifierRelayWorker {
    const did: Did
    const service: RelayService
    const file: StateFile
    const ledger: L.DispatchLedger
    const refused: map<EnvelopeHash, ResultKind>
    const choices: nat -> Choice
    var awaits: nat
    var state: WorkerState
    ghost var world: World

    /** The worker stands in the protocol where its world says it does. */
    ghost predicate Mirrors(page: seq<StoredDelivery>, at: nat, phase: Phase)
      reads this, service, file, ledger, ledger.journal
    {
      && ledger.Valid()
      && world.relay == service.relay && world.disk == file.saved && world.journal == ledger.journal.events
      && world.process == Some(Process(ledger.Contents(), refused, state, page, at, phase))
    }

    /** Loads the state file beside an opened ledger. */
    constructor (did: Did, service: RelayService, file: StateFile, ledger: L.DispatchLedger,
                 refused: map<EnvelopeHash, ResultKind>,
                 choices: nat -> Choice, ghost world: World)
      requires ledger.Valid() && world.relay == service.relay && world.disk == file.saved
      requires world.journal == ledger.journal.events
      requires world.process == Some(Process(ledger.Contents(), refused, file.saved, [], 0, Idle))
      ensures Mirrors([], 0, Idle) && this.world == world && this.did == did
      ensures this.service == service && this.file == file && this.ledger == ledger
    {
      this.did := did;
      this.service := service;
      this.file := file;
      this.ledger := ledger;
      this.refused := refused;
      this.choices := choices;
      this.world := world;
      awaits := 0;
      state := file.saved;
    }

    method Await() returns (c: Choice)
      modifies this`awaits
    {
      c := choices(awaits);
      awaits := awaits + 1;
    }

    /** Where the ledger's answer leaves the process. */
    ghost function After(p: Process, a: Answered, clock: int): Process
      requires AtRequest(p)
    {
      match a
      case Got(response) => Respond(p, response, clock, did)
      case Begun => p.(phase := Dispatching)
      case Unanswered => Leave(p, Idle)
      case Refused(error) => Fatal(p, error)
    }

    /** What this call did to the ledger and the process is what the world `x` says. */
    ghost predicate Left(x: World, p: Process, a: Answered, clock: int)
      reads this, ledger, ledger.journal
    {
      && ledger.Valid() && AtRequest(p)
      && x.journal == ledger.journal.events && x.relay == world.relay && x.disk == world.disk
      && x.process == Some(After(p.(index := ledger.Contents()), a, clock))
    }

    /** Recovery from the ledger, then the adapter's handler up to transmission. */
    method ProcessAction(d: StoredDelivery, c: Choice, ghost p: Process) returns (a: Answered)
      requires ledger.Valid() && world.journal == ledger.journal.events && world.process == Some(p)
      requires p.index == ledger.Contents() && p.refused == refused && AtRequest(p) && Current(p) == d
      modifies ledger, ledger.journal
      ensures Left(RelayProtocol.ProcessAction(world, p, c.handling, c.clock, c.detail, c.fate, did), p, a, c.clock)
    {
      hide Respond, LedgerModel.Resolve, LedgerModel.Check, LedgerModel.Authorize, LedgerModel.RecoveryFor;
      var envelope := EnvelopeIn(d.envelope);
      var hash := HashOf(envelope);
      var recovery := ledger.RecoverResponse(envelope.actionId, hash);
      if recovery.Some? && recovery.value.response.Some? {
        return Got(recovery.value.response.value);
      }
      if recovery.Some? && recovery.value.resolution.Indeterminate? {
        a := Record(d, ActionResponse(Indeterminate, Some(hash), did, c.detail), c, p);
        return;
      }
      a := Inject(d, c, p);
    }

    method Inject(d: StoredDelivery, c: Choice, ghost p: Process) returns (a: Answered)
      requires ledger.Valid() && world.journal == ledger.journal.events && world.process == Some(p)
      requires p.index == ledger.Contents() && p.refused == refused && AtRequest(p) && Current(p) == d
      modifies ledger, ledger.journal
      ensures Left(RelayProtocol.Inject(world, p, c.handling, c.clock, c.detail, c.fate, did), p, a, c.clock)
    {
      hide Respond, LedgerModel.Check, LedgerModel.Authorize;
      var envelope := EnvelopeIn(d.envelope);
      var hash := HashOf(envelope);
      if hash in refused {
        return Got(ActionResponse(refused[hash], Some(hash), did, c.detail));
      }
      var verdict := ledger.CheckSubmission(envelope.actionId, hash);
      match verdict {
        case InFlight => return Unanswered;
        case ReplayDetected => return Refused(ReplayFatal);
        case HashMismatch => return Refused(MismatchFatal);
        case Absent =>
      }
      match c.handling {
        case AnswerStateless(kind) =>
          a := if IsDispatchResult(kind) then Unanswered else Got(ActionResponse(kind, Some(hash), did, c.detail));
        case Unavailable => return Unanswered;
        case Refuse => return Refused(HttpRejected);
        case Prepared =>
          var gate := ledger.AuthorizeDispatch(envelope.actionId, hash, envelope.expiresAt, c.fate);
          a := if gate == Some(LedgerModel.Absent) then Begun else Unanswered;
      }
    }

    /** Resolves the ledger entry with this response; without a record there is no answer. */
    method Record(d: StoredDelivery, response: ActionResponse, c: Choice, ghost p: Process) returns (a: Answered)
      requires ledger.Valid() && world.journal == ledger.journal.events && world.process == Some(p)
      requires p.index == ledger.Contents() && AtRequest(p) && Current(p) == d
      modifies ledger, ledger.journal
      ensures Left(RelayProtocol.Record(world, p, response, c.clock, c.fate, did), p, a, c.clock) && !a.Begun?
    {
      hide Respond, LedgerModel.Resolve;
      var ok := ledger.ResolveDispatch(EnvelopeIn(d.envelope).actionId, response.result, Some(response), c.fate);
      a := if ok then Got(response) else Unanswered;
    }

    /** The world takes the step the code just took. */
    ghost method Take(step: Step, start: World, steps: seq<Step>) returns (more: seq<Step>)
      requires world == Perform(start, steps, did) && Enabled(world, step)
      modifies this`world
      ensures world == Do(old(world), step, did) && more == steps + [step] && world == Perform(start, more, did)
      ensures !step.Poll? ==> world.polls == old(world).polls
    {
      OnlyPollsAnswer(world, step, did);
      PerformNext(start, steps, step, did);
      world := Do(world, step, did);
      more := steps + [step];
    }

    /** How processing one delivery ends: with the next one, with the page dropped, or for good. */
    ghost predicate Ends(o: Outcome, page: seq<StoredDelivery>, at: nat)
      reads this, service, file, ledger, ledger.journal
    {
      match o
      case Done => Mirrors(page, at + 1, AtDelivery)
      case Dropped => Mirrors([], 0, Idle)
      case Broken(error) => Mirrors([], 0, Stuck(error))
    }

    /** The state is written to its file, or the worker is stuck. */
    method SaveState(page: seq<StoredDelivery>, at: nat, phase: Phase, step: Step, ghost next: Process,
                     ghost start: World,
                     ghost steps: seq<Step>)
      returns (ok: bool, ghost more: seq<Step>)
      requires Mirrors(page, at, phase) && world == Perform(start, steps, did)
      requires Enabled(world, step) && (step.SaveCached? || step.SaveMark? || step.SaveFinish?)
      requires Do(world, step, did) == DoSave(world, world.process.value, step.save, next)
      requires next.index == ledger.Contents() && next.refused == refused && next.state == state
      modifies this`world, file
      ensures world.polls == old(world).polls
      ensures world == Perform(start, more, did)
      ensures ok ==> Mirrors(next.page, next.at, next.phase)
      ensures !ok ==> Mirrors([], 0, Stuck(SaveFailed))
    {
      ok := file.Save(state, step.save);
      more := Take(step, start, steps);
    }

    /** Checks the response, caches it, and saves the cache before anything is sent. */
    method Cache(page: seq<StoredDelivery>, i: nat, response: ActionResponse, clock: int, ghost p: Process,
                 ghost start: World,
                 ghost steps: seq<Step>)
      returns (o: Outcome, ghost more: seq<Step>)
      requires i < |page| && page[i].envelope.payload.RequestPayload?
      requires GivesUp(steps)
      requires p.page == page && p.at == i && p.state == state && p.index == ledger.Contents() && p.refused == refused
      requires ledger.Valid() && world.relay == service.relay && world.disk == file.saved &&
                 world.journal == ledger.journal.events
      requires world.process == Some(Respond(p, response, clock, did)) && world == Perform(start, steps, did)
      modifies this, file
      ensures world.polls == old(world).polls
      ensures world == Perform(start, more, did)
      ensures if o.Done? then Mirrors(page, i, Submitting) && DeliveryFingerprintOf(page[i].envelope) in state.responses
              else Ends(o, page, i)
      ensures o.Dropped? ==> GivesUp(more)
    {
      hide Perform;
      more := steps;
      var envelope := page[i].envelope;
      if response.result.Pending? {
        return Dropped, more;
      }
      if response.verifier != did {
        return Broken(WrongVerifier), more;
      }
      if response.hash != Some(HashOf(EnvelopeIn(envelope))) {
        return Broken(WrongHash), more;
      }
      var reply := DeliveryEnvelope(did, [envelope.sender], clock, None, ResponsePayload(response));
      state := state.(responses := state.responses[DeliveryFingerprintOf(envelope) := Cached(reply, false)]);
      var c := Await();
      ghost var q := world.process.value.(phase := Submitting);
      var ok;
      ok, more := SaveState(page, i, Caching, SaveCached(c.save), q, start, steps);
      o := if ok then Done else Broken(SaveFailed);
    }

    /** Sends the cached response and records its acceptance. */
    method SubmitCached(page: seq<StoredDelivery>, i: nat, ghost start: World, ghost steps: seq<Step>)
      returns (o: Outcome, ghost more: seq<Step>)
      requires Mirrors(page, i, Submitting) && i < |page| && page[i].envelope.payload.RequestPayload?
      requires DeliveryFingerprintOf(page[i].envelope) in state.responses && world == Perform(start, steps, did)
      modifies this, service, file
      ensures world.polls == old(world).polls
      ensures Ends(o, page, i) && world == Perform(start, more, did)
      ensures o.Dropped? ==> GivesUp(more)
    {
      hide RelayAccepts, SubmitResponseDelivery, Perform;
      var fingerprint := DeliveryFingerprintOf(page[i].envelope);
      var cached := state.responses[fingerprint];
      var c := Await();
      if c.how.Unreachable? {
        more := Take(Submit(c.how), start, steps);
        return Dropped, more;
      }
      var accepted := service.Submit(cached.envelope, c.how.admissible, did);
      more := Take(Submit(c.how), start, steps);
      if c.how.replyLost {
        return Dropped, more;
      }
      if !accepted {
        return Broken(SubmissionRefused), more;
      }
      state := state.(responses := state.responses[fingerprint := cached.(delivered := true)]);
      var saving := Await();
      var ok;
      ghost var q := world.process.value.(at := i + 1, phase := AtDelivery);
      ok, more := SaveState(page, i, Marking, SaveMark(saving.save), q, start, more);
      o := if ok then Done else Broken(SaveFailed);
    }

    /** Asks the adapter, which may transmit and record the outcome. */
    method Ask(page: seq<StoredDelivery>, i: nat, c: Choice, ghost start: World, ghost steps: seq<Step>)
      returns (a: Answered, clock: int, ghost p: Process, ghost more: seq<Step>)
      requires Mirrors(page, i, AtDelivery) && i < |page| && page[i].envelope.payload.RequestPayload?
      requires did in page[i].envelope.recipients && !EnvelopeExpired(page[i].envelope, c.clock)
      requires DeliveryFingerprintOf(page[i].envelope) !in state.responses && world == Perform(start, steps, did)
      modifies this`world, this`awaits, ledger, ledger.journal
      ensures world.polls == old(world).polls
      ensures world == Perform(start, more, did) && !a.Begun?
      ensures GivesUp(more)
      ensures ledger.Valid() && world.relay == service.relay && world.disk == file.saved &&
                world.journal == ledger.journal.events
      ensures p.page == page && p.at == i && p.state == state && p.index == ledger.Contents() && p.refused == refused
      ensures AtRequest(p) && world.process == Some(After(p, a, clock))
    {
      hide Respond, RelayProtocol.ProcessAction, RelayProtocol.Record, Perform;
      ghost var was := world.process.value;
      a := ProcessAction(page[i], c, was);
      more := Take(Deliver(c.clock, c.handling, c.detail, c.fate), start, steps);
      clock := c.clock;
      p := was.(index := ledger.Contents());
      if a.Begun? {
        var sent := Await();
        p := p.(phase := Dispatching);
        if sent.result.None? {
          a := Unanswered;
          more := Take(Threw, start, more);
        } else {
          var kind := AdapterServer.ClassifyDispatch(sent.result.value);
          var response := ActionResponse(kind, Some(HashOf(EnvelopeIn(page[i].envelope))), did, sent.detail);
          a := Record(page[i], response, sent, p);
          more := Take(Returned(sent.result.value, sent.clock, sent.detail, sent.fate), start, more);
          clock := sent.clock;
          p := p.(index := ledger.Contents());
        }
      }
    }

    method ProcessDelivery(page: seq<StoredDelivery>, i: nat, ghost start: World, ghost steps: seq<Step>)
      returns (o: Outcome, ghost more: seq<Step>)
      requires Mirrors(page, i, AtDelivery) && i < |page| && world == Perform(start, steps, did)
      modifies this, service, file, ledger, ledger.journal
      ensures world.polls == old(world).polls
      ensures Ends(o, page, i) && world == Perform(start, more, did)
      ensures o.Dropped? ==> GivesUp(more)
    {
      hide Perform, RelayProtocol.ProcessAction, Respond;
      var d := page[i];
      var c := Await();
      ghost var step := Deliver(c.clock, c.handling, c.detail, c.fate);
      if !d.envelope.payload.RequestPayload? {
        more := Take(step, start, steps);
        return Broken(UnsupportedPayload), more;
      }
      if did !in d.envelope.recipients {
        more := Take(step, start, steps);
        return Broken(NotAddressed), more;
      }
      if EnvelopeExpired(d.envelope, c.clock) {
        more := Take(step, start, steps);
        return Done, more;
      }
      var fingerprint := DeliveryFingerprintOf(d.envelope);
      if fingerprint in state.responses {
        more := Take(step, start, steps);
        if state.responses[fingerprint].delivered {
          return Done, more;
        }
        o, more := SubmitCached(page, i, start, more);
        return;
      }
      o, more := AnswerNew(page, i, c, start, steps);
    }

    /** A delivery without a cached response: ask, cache, submit. */
    method AnswerNew(page: seq<StoredDelivery>, i: nat, c: Choice, ghost start: World, ghost steps: seq<Step>)
      returns (o: Outcome, ghost more: seq<Step>)
      requires Mirrors(page, i, AtDelivery) && i < |page| && page[i].envelope.payload.RequestPayload?
      requires did in page[i].envelope.recipients && !EnvelopeExpired(page[i].envelope, c.clock)
      requires DeliveryFingerprintOf(page[i].envelope) !in state.responses && world == Perform(start, steps, did)
      modifies this, service, file, ledger, ledger.journal
      ensures world.polls == old(world).polls
      ensures Ends(o, page, i) && world == Perform(start, more, did)
      ensures o.Dropped? ==> GivesUp(more)
    {
      hide Perform, Respond;
      var a, clock;
      ghost var p;
      a, clock, p, more := Ask(page, i, c, start, steps);
      match a {
        case Unanswered => return Dropped, more;
        case Refused(error) => return Broken(error), more;
        case Got(response) =>
          o, more := Cache(page, i, response, clock, p, start, more);
          if !o.Done? {
            return;
          }
      }
      o, more := SubmitCached(page, i, start, more);
    }

    /** Moves the cursor and deletes every delivered response, one entry after the other. */
    method Complete(cursor: nat)
      modifies this`state
      ensures state == Finished(old(state), cursor)
      ensures state.cursor == Some(cursor)
      ensures forall f :: f in state.responses <==> f in old(state).responses && !old(state).responses[f].delivered
      ensures forall f :: f in state.responses ==> state.responses[f] == old(state).responses[f]
    {
      var responses := state.responses;
      var rest := responses.Keys;
      while rest != {}
        invariant rest <= old(state).responses.Keys
        invariant forall f :: f in responses <==>
                    f in old(state).responses && (f in rest || !old(state).responses[f].delivered)
        invariant forall f :: f in responses ==> responses[f] == old(state).responses[f]
        decreases rest
      {
        var f :| f in rest;
        rest := rest - {f};
        if responses[f].delivered {
          responses := responses - {f};
        }
      }
      state := WorkerState(Some(cursor), responses);
      assert state.responses == Finished(old(state), cursor).responses;
    }

    /** The deliveries of one page, in order, until one does not get done. */
    method ProcessPage(page: seq<StoredDelivery>, ghost start: World, ghost steps: seq<Step>)
      returns (o: Outcome, ghost more: seq<Step>)
      requires Mirrors(page, 0, AtDelivery) && page != [] && world == Perform(start, steps, did)
      modifies this, service, file, ledger, ledger.journal
      ensures world.polls == old(world).polls
      ensures world == Perform(start, more, did)
      ensures o.Dropped? ==> GivesUp(more)
      ensures match o
              case Done => Mirrors(page, |page|, AtDelivery)
              case Dropped => Mirrors([], 0, Idle)
              case Broken(error) => Mirrors([], 0, Stuck(error))
    {
      hide Perform, Mirrors;
      more := steps;
      for i := 0 to |page|
        invariant Mirrors(page, i, AtDelivery) && world == Perform(start, more, did)
        invariant world.polls == old(world).polls
      {
        o, more := ProcessDelivery(page, i, start, more);
        if !o.Done? {
          return;
        }
      }
      o := Done;
    }

    /** The page is done: the cursor moves past it, and that is saved. */
    method FinishPage(page: seq<StoredDelivery>, ghost start: World, ghost steps: seq<Step>)
      returns (o: Outcome, ghost more: seq<Step>)
      requires Mirrors(page, |page|, AtDelivery) && page != [] && world == Perform(start, steps, did)
      modifies this, file
      ensures world.polls == old(world).polls
      ensures world == Perform(start, more, did)
      ensures match o
              case Done => Mirrors([], 0, Idle)
              case Dropped => false
              case Broken(error) => Mirrors([], 0, Stuck(error))
    {
      hide Perform, Finished;
      var cursor := LastSequence(page);
      if state.cursor == Some(cursor) {
        more := Take(Finish, start, steps);
        return Broken(CursorNotAdvancing), more;
      }
      Complete(cursor);
      more := Take(Finish, start, steps);
      var c := Await();
      var ok;
      ok, more := SaveState(page, |page|, Finishing, SaveFinish(c.save), Leave(world.process.value, Idle), start, more);
      o := if ok then Done else Broken(SaveFailed);
    }

    /**
     Polls and drains until an empty page, an error, or an abort after `polls` polls.  What it
     did is a continuation of any run that led here.
     */
    method DrainAvailableWork(polls: nat) returns (o: Outcome, ghost steps: seq<Step>)
      requires Mirrors([], 0, Idle)
      modifies this, service, file, ledger, ledger.journal
      ensures match o
              case Broken(error) => Mirrors([], 0, Stuck(error))
              case _ => Mirrors([], 0, Idle)
      ensures forall history :: old(world) == Run(history, did) ==> world == Run(history + steps, did)
      ensures match o
              case Broken(error) => true
              case Dropped => GivesUp(steps)
              case Done =>
                || PollDeliveries(service.relay.deliveries, did, state.cursor, service.relay.now).deliveries == []
                || |world.polls| == |old(world).polls| + polls
    {
      hide Perform, PollDeliveries;
      ghost var start := world;
      steps := [];
      PerformNothing(start);
      o := Done;
      for n := 0 to polls
        invariant Mirrors([], 0, Idle) && world == Perform(start, steps, did) && o.Done?
        invariant |world.polls| == |start.polls| + n
      {
        var c := Await();
        if c.lost {
          steps := Take(Step.Poll(true), start, steps);
          o := Dropped;
          break;
        }
        var page := PollDeliveries(service.relay.deliveries, did, state.cursor, service.relay.now).deliveries;
        steps := Take(Step.Poll(false), start, steps);
        if page == [] {
          break;
        }
        o, steps := ProcessPage(page, start, steps);
        if !o.Done? {
          break;
        }
        o, steps := FinishPage(page, start, steps);
        if !o.Done? {
          break;
        }
      }
      forall history | start == Run(history, did)
        ensures world == Run(history + steps, did)
      {
        PerformIsRun(history, steps, did);
      }
    }

    lemma PerformNothing(w: World)
      ensures Perform(w, [], did) == w
    {
    }
  }
}
