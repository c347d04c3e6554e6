/**
 The stored OAuth session and the refresh transaction as the process runs them: session fields
 updated in place and written to their file at every turn.  The transaction is proved to
 perform steps of module OAuthRefresh.
 */
module OAuthSession {
  import opened Wrappers
  import opened HardenedFetch
  import opened OAuthRefresh

  /** The session file; the caller says what the disk does with each write. */
  class SessionFile {
    var stored: Option<Session>

    constructor ()
      ensures stored.None?
    {
      stored := None;
    }

    method Write(s: Session, write: Write) returns (ok: bool)
      modifies this
      ensures stored == Put(old(stored), s, write) && ok == write.Written?
    {
      if !write.LostBefore? {
        stored := Some(s);
      }
      ok := write.Written?;
    }
  }

  /** The token endpoint, as far as the transaction sees it: a new refresh token is a fresh one. */
  class TokenEndpoint {
    var nextToken: Token

    constructor ()
      ensures nextToken == 0
    {
      nextToken := 0;
    }

    method Answer(d: Decision) returns (answer: Decision)
      modifies this
      ensures answer ==
                if d.body.UsableTokens? && d.body.refreshToken.Some?
                then d.(body := UsableTokens(Some(old(nextToken))))
                else d
      ensures nextToken == old(nextToken) + 1
    {
      answer := d;
      if d.body.UsableTokens? && d.body.refreshToken.Some? {
        answer := d.(body := UsableTokens(Some(nextToken)));
      }
      nextToken := nextToken + 1;
    }
  }

  /** A session object: every holder of it sees its fields change. */
  class StoredSession {
    const file: SessionFile
    var token: Option<Token>
    var state: RefreshState
    var reauthorize: bool

    constructor (file: SessionFile, s: Session)
      ensures this.file == file && Value() == s
    {
      this.file := file;
      token, state, reauthorize := s.token, s.state, s.reauthorize;
    }

    function Value(): Session
      reads this
    {
      Session(token, state, reauthorize)
    }

    /** The fence is up in memory even if the write fails; nothing is sent then. */
    method MarkRefreshInFlight(write: Write) returns (ok: bool)
      modifies this, file
      ensures Value() == OAuthRefresh.MarkRefreshInFlight(old(Value()))
      ensures file.stored == Put(old(file.stored), Value(), write) && ok == write.Written?
    {
      state := Uncertain;
      ok := file.Write(Value(), write);
    }

    /** Keeps the old refresh token when none was returned; lifts the fence in the same write. */
    method SaveTokens(refreshToken: Option<Token>, write: Write) returns (ok: bool)
      modifies this, file
      ensures Value() == OAuthRefresh.SaveTokens(old(Value()), refreshToken)
      ensures file.stored == Put(old(file.stored), Value(), write) && ok == write.Written?
    {
      if refreshToken.Some? {
        token := refreshToken;
      }
      reauthorize := false;
      state := Settled;
      ok := file.Write(Value(), write);
    }

    method RequireLogin(write: Write) returns (ok: bool)
      modifies this, file
      ensures Value() == old(Value()).(reauthorize := true)
      ensures file.stored == Put(old(file.stored), Value(), write) && ok == write.Written?
    {
      reauthorize := true;
      ok := file.Write(Value(), write);
    }

    /** Records what a failure proves; a definite one takes the marker back. */
    method PersistTokenFailure(failure: Failure, write: Write)
      modifies this, file
      ensures match OAuthRefresh.PersistTokenFailure(old(Value()), failure)
              case Some(s) => Value() == s && file.stored == Put(old(file.stored), s, write)
              case None => Value() == old(Value()) && file.stored == old(file.stored)
      ensures token == old(token)
      ensures reauthorize <==> old(reauthorize) || (!failure.ambiguous && failure.code.InvalidGrant?)
      ensures failure.ambiguous ==> state.Uncertain?
      ensures !failure.ambiguous && failure.code.InvalidGrant? && !write.LostBefore? ==> file.stored == Some(Value())
    {
      if failure.ambiguous {
        state := Uncertain;
        var _ := file.Write(Value(), write);
        return;
      }
      var cleared := state.Uncertain?;
      if cleared {
        state := Settled;
      }
      if failure.code.InvalidGrant? {
        var _ := RequireLogin(write);
      } else if failure.code.RateLimited? {
        state := Deferred;
        var _ := file.Write(Value(), write);
      } else if cleared {
        var _ := file.Write(Value(), write);
      }
    }
  }

  // ---- the transaction ------------------------------------------------------------------

  /** How one attempt came back; `used` is false when its success could not be turned into tokens. */
  datatype Arrival = Failed(a: Attempt) | Replied(decision: Decision, used: bool)

  /** A failed attempt tells the truth, and the server keeps its word. */
  predicate Honest(arrival: Arrival) {
    match arrival
    case Failed(a) => a.Rejected? && Truthful(a)
    case Replied(decision, _) => KeepsItsWord(decision)
  }

  /** What the outside decides in one transaction; `managed` and `wraps` describe the transport. */
  datatype Choice = Choice(
    due: bool, early: EarlyEnd, mark: Write, first: Arrival, second: Arrival, managed: bool, wraps: bool,
    save: Write, audited: bool, persist: Write)

  /** The last attempt: the transport's second one if it tries again. */
  function LastArrival(c: Choice): Arrival
    requires c.first.Failed? ==> c.first.a.Rejected?
  {
    if c.first.Failed? && Retries(c.managed, TOKEN_REQUEST, c.first.a) then c.second else c.first
  }

  /** The server answered with tokens that can be used, and they were stored and audited. */
  predicate Stores(arrival: Arrival, c: Choice) {
    && arrival.Replied? && 200 <= arrival.decision.status < 300 && arrival.decision.body.UsableTokens? && arrival.used
    && c.save.Written? && c.audited
  }

  datatype EarlyEnd = Proceeds | GivesUp | NeedsLogin | FailsEarly

  ghost function Perform(w: World, steps: seq<Step>): World {
    if steps == [] then w
    else
      var before := Perform(w, steps[..|steps| - 1]);
      if Enabled(before, steps[|steps| - 1]) then Do(before, steps[|steps| - 1]) else before
  }

  lemma PerformNext(w: World, steps: seq<Step>, step: Step)
    requires Enabled(Perform(w, steps), step)
    ensures Perform(w, steps + [step]) == Do(Perform(w, steps), step)
  {
    assert (steps + [step])[..|steps|] == steps;
  }

  lemma {:induction false} PerformIsRun(steps: seq<Step>, more: seq<Step>)
    ensures Perform(Run(steps), more) == Run(steps + more)
  {
    if more == [] {
      assert steps + more == steps;
    } else {
      PerformIsRun(steps, more[..|more| - 1]);
      assert (steps + more)[..|steps + more| - 1] == steps + more[..|more| - 1];
    }
  }

  class Refresher {
    const file: SessionFile
    const endpoint: TokenEndpoint
    ghost var world: World

    ghost predicate Mirrors(tx: Option<Tx>)
      reads this, file, endpoint
    {
      world.disk == file.stored && world.nextToken == endpoint.nextToken && world.tx == tx
    }

    constructor (file: SessionFile, endpoint: TokenEndpoint, ghost world: World)
      requires world.disk == file.stored && world.nextToken == endpoint.nextToken
      ensures Mirrors(world.tx) && this.world == world && this.file == file && this.endpoint == endpoint
    {
      this.file := file;
      this.endpoint := endpoint;
      this.world := world;
    }

    /** The world takes the step the code just took. */
    ghost method Take(step: Step, start: World, steps: seq<Step>) returns (more: seq<Step>)
      requires world == Perform(start, steps) && Enabled(world, step)
      modifies this`world
      ensures world == Do(old(world), step) && more == steps + [step] && world == Perform(start, more)
    {
      PerformNext(start, steps, step);
      world := Do(world, step);
      more := steps + [step];
    }

    /** One refresh, from reading the session to recording what came of it. */
    method RefreshOAuthSession(c: Choice) returns (refreshed: bool, ghost steps: seq<Step>)
      requires Mirrors(Some(Loading)) && Honest(c.first) && Honest(c.second)
      modifies this, file, endpoint
      ensures Mirrors(None)
      ensures forall history :: old(world) == Run(history) ==> world == Run(history + steps)
      ensures var stored := old(file.stored);
              && (refreshed <==>
                    && stored.Some? && !Fenced(stored.value) && c.due && stored.value.token.Some?
                    && c.early.Proceeds? && c.mark.Written? && Stores(LastArrival(c), c))
              && (refreshed ==>
                    file.stored == Some(Refreshed(stored.value, LastArrival(c).decision, old(endpoint.nextToken))))
    {
      hide Perform, ProvesUnsent;
      ghost var start := world;
      PerformNothing(start);
      steps := Take(TxLoads(c.due), start, []);
      refreshed := false;
      if file.stored.Some? && !Fenced(file.stored.value) && c.due && file.stored.value.token.Some? {
        var session := new StoredSession(file, file.stored.value);
        match c.early {
          case GivesUp =>
            steps := Take(TxGivesUp, start, steps);
          case NeedsLogin =>
            var _ := session.RequireLogin(c.persist);
            steps := Take(TxRequiresLogin(c.persist), start, steps);
          case FailsEarly =>
            steps := Take(TxFailsEarly, start, steps);
            steps := Fail(session, Failure(UnknownError, false), c.persist, start, steps);
          case Proceeds =>
            refreshed, steps := MarkAndSend(session, c, start, steps);
        }
      }
      forall history | start == Run(history)
        ensures world == Run(history + steps)
      {
        PerformIsRun(history, steps);
      }
    }

    lemma PerformNothing(w: World)
      ensures Perform(w, []) == w
    {
    }

    /** The marker is durable before anything is sent. */
    method MarkAndSend(session: StoredSession, c: Choice, ghost start: World, ghost before: seq<Step>)
      returns (refreshed: bool, ghost steps: seq<Step>)
      requires session.file == file && session.token.Some? && Mirrors(Some(Loaded(session.Value())))
      requires Honest(c.first) && Honest(c.second) && world == Perform(start, before)
      modifies this, file, endpoint, session
      ensures Mirrors(None) && world == Perform(start, steps)
      ensures refreshed <==> c.mark.Written? && Stores(LastArrival(c), c)
      ensures refreshed ==>
                file.stored == Some(Refreshed(old(session.Value()), LastArrival(c).decision, old(endpoint.nextToken)))
    {
      hide Perform, ProvesUnsent, Surfaced, ConnectFailureCode;
      refreshed := false;
      var marked := session.MarkRefreshInFlight(c.mark);
      steps := Take(TxMarks(c.mark), start, before);
      if !marked {
        steps := Fail(session, Failure(UnknownError, false), c.persist, start, steps);
        return;
      }
      steps := Take(TxSends, start, steps);
      var arrival, resent := c.first, false;
      if arrival.Failed? && Retries(c.managed, TOKEN_REQUEST, arrival.a) {
        steps := Take(TxAttemptFails(arrival.a, c.managed, c.wraps), start, steps);
        arrival, resent := c.second, true;
      }
      refreshed, steps := Receive(session, arrival, resent, c, start, steps);
    }

    /** The last attempt came back: its failure is what the request proves, or its answer is read. */
    method Receive(session: StoredSession, arrival: Arrival, resent: bool, c: Choice, ghost start: World,
                   ghost before: seq<Step>)
      returns (refreshed: bool, ghost steps: seq<Step>)
      requires session.file == file && session.token.Some? && Honest(arrival) && world == Perform(start, before)
      requires world.tx.Some? && world.tx.value.Waiting? &&
                 Mirrors(Some(Waiting(session.Value(), world.tx.value.request, resent)))
      requires world.tx.value.request in world.pending
      requires arrival.Failed? ==> resent || !Retries(c.managed, TOKEN_REQUEST, arrival.a)
      modifies this, file, endpoint, session
      ensures Mirrors(None) && world == Perform(start, steps)
      ensures refreshed <==> Stores(arrival, c)
      ensures refreshed ==>
                file.stored == Some(Refreshed(old(session.Value()), arrival.decision, old(endpoint.nextToken)))
    {
      hide Perform, ProvesUnsent, Retries, Surfaced;
      match arrival {
        case Failed(a) =>
          steps := Take(TxAttemptFails(a, c.managed, c.wraps), start, before);
          var failure := TokenTransportFailure(PolicyError(Surfaced(a), c.wraps), RefreshGrant);
          steps := Fail(session, failure, c.persist, start, steps);
          refreshed := false;
        case Replied(decision, used) =>
          ghost var request := world.tx.value.request;
          var answer := endpoint.Answer(decision);
          steps := Take(ServerAnswers(request, decision), start, before);
          refreshed, steps := Read(session, answer, used, c, start, steps);
      }
    }

    /** A usable success is saved; anything else is what it proves. */
    method Read(session: StoredSession, answer: Decision, used: bool, c: Choice, ghost start: World,
                ghost before: seq<Step>)
      returns (refreshed: bool, ghost steps: seq<Step>)
      requires session.file == file && Mirrors(Some(Tx.Answered(session.Value(), answer))) &&
                 world == Perform(start, before)
      modifies this, file, session
      ensures Mirrors(None) && world == Perform(start, steps)
      ensures refreshed <==> Stores(Replied(answer, used), c)
      ensures refreshed ==>
                file.stored == Some(Session(if answer.body.refreshToken.Some? then answer.body.refreshToken
                                            else old(session.token), Settled, false))
    {
      hide Perform;
      refreshed := false;
      steps := Take(TxReads(used), start, before);
      var proves := AnswerFailure(answer);
      if proves.Some? {
        steps := Fail(session, proves.value, c.persist, start, steps);
        return;
      }
      if !used {
        steps := Fail(session, Failure(TokenRefreshFailed, true), c.persist, start, steps);
        return;
      }
      var saved := session.SaveTokens(answer.body.refreshToken, c.save);
      steps := Take(TxSaves(c.save, c.audited), start, steps);
      if saved && c.audited {
        refreshed := true;
        return;
      }
      steps := Fail(session, Failure(TokenRefreshFailed, true), c.persist, start, steps);
    }

    method Fail(session: StoredSession, failure: Failure, write: Write, ghost start: World, ghost before: seq<Step>)
      returns (ghost steps: seq<Step>)
      requires session.file == file && Mirrors(Some(Failing(session.Value(), failure))) &&
                 world == Perform(start, before)
      modifies this`world, file, session
      ensures Mirrors(None) && world == Perform(start, steps)
    {
      hide Perform;
      session.PersistTokenFailure(failure, write);
      steps := Take(TxPersists(write), start, before);
    }
  }
}
