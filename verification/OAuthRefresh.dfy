/**
 The refresh of an OAuth session before a dispatch, against an authorization server that may
 rotate the refresh token.  One step is the code between two awaits, so any interleaving of
 concurrent prepares, one refresh transaction, the server, failing writes, operator logins and
 crashes is a sequence of steps.
 */
module OAuthRefresh {
  import opened Wrappers
  import opened HardenedFetch

  type Token = nat

  // ---- classification -------------------------------------------------------------------

  datatype ErrorCode =
    | TokenRefreshFailed | UnknownError | TemporarilyUnavailable | ClientAuthenticationFailed
    | RateLimited | InvalidGrant | InsufficientScope

  /** An ambiguous failure leaves open whether the server processed the request. */
  datatype Failure = Failure(code: ErrorCode, ambiguous: bool)

  datatype Grant = RefreshGrant | CodeGrant

  function TokenErrorFromResponse(status: int, error: Option<string>, grant: Grant): Failure {
    if error == Some("invalid_client") then Failure(ClientAuthenticationFailed, false)
    else if status == 429 then Failure(RateLimited, false)
    else if status >= 500 then
      if grant.RefreshGrant? then Failure(TokenRefreshFailed, true) else Failure(TemporarilyUnavailable, false)
    else if error == Some("invalid_grant") then Failure(InvalidGrant, false)
    else if error == Some("invalid_scope") then Failure(InsufficientScope, false)
    else if error == Some("temporarily_unavailable") then Failure(TemporarilyUnavailable, false)
    else Failure(UnknownError, false)
  }

  function TokenTransportFailure(error: ErrorValue, grant: Grant): Failure {
    if ProvesUnsent(error) then Failure(TemporarilyUnavailable, false)
    else if grant.RefreshGrant? then Failure(TokenRefreshFailed, true)
    else Failure(TemporarilyUnavailable, false)
  }

  // ---- the server -----------------------------------------------------------------------

  datatype Body = UsableTokens(refreshToken: Option<Token>) | Unusable

  /** What the server answers, and whether it may have rotated the token it was sent. */
  datatype Decision = Decision(status: int, error: Option<string>, body: Body, rotates: bool)

  predicate Succeeds(d: Decision) { 200 <= d.status < 300 }

  predicate Redirects(d: Decision) { 300 <= d.status < 400 }

  /**
   The authorization server's side: a client error, a rate limit or an invalid client means no
   rotation, and a usable success without a refresh token keeps the old one valid.
   */
  predicate KeepsItsWord(d: Decision) {
    && (400 <= d.status < 500 ==> !d.rotates)
    && (!Succeeds(d) && !Redirects(d) && d.error == Some("invalid_client") ==> !d.rotates)
    && (Succeeds(d) && d.body == UsableTokens(None) ==> !d.rotates)
    && d.status >= 200
  }

  /** What the answer proves: none when it is a usable success. */
  function AnswerFailure(d: Decision): Option<Failure> {
    if Redirects(d) then Some(Failure(TokenRefreshFailed, true))
    else if Succeeds(d) then
      if d.body.UsableTokens? then None else Some(Failure(TokenRefreshFailed, true))
    else Some(TokenErrorFromResponse(d.status, d.error, RefreshGrant))
  }

  /** Only an ambiguous failure can come from an answer that may have rotated the token. */
  lemma DefiniteMeansNotRotated(d: Decision)
    requires KeepsItsWord(d) && AnswerFailure(d).Some? && !AnswerFailure(d).value.ambiguous
    ensures !d.rotates
  {
  }

  // ---- the session ----------------------------------------------------------------------

  datatype RefreshState = Settled | Uncertain | Deferred

  datatype Session = Session(token: Option<Token>, state: RefreshState, reauthorize: bool)

  /** A fenced session is refused before anything is sent. */
  predicate Fenced(s: Session) { s.reauthorize || s.state.Uncertain? }

  function MarkRefreshInFlight(s: Session): Session { s.(state := Uncertain) }

  function SaveTokens(s: Session, refreshToken: Option<Token>): Session {
    Session(if refreshToken.Some? then refreshToken else s.token, Settled, false)
  }

  /** What a failure makes of the session; absent when nothing is written. */
  function PersistTokenFailure(s: Session, failure: Failure): Option<Session> {
    if failure.ambiguous then Some(s.(state := Uncertain))
    else
      var cleared := s.state.Uncertain?;
      var open := if cleared then s.(state := Settled) else s;
      if failure.code.InvalidGrant? then Some(open.(reauthorize := true))
      else if failure.code.RateLimited? then Some(open.(state := Deferred))
      else if cleared then Some(open)
      else None
  }

  /** A definite failure other than a revoked grant lifts the fence its own marker put up. */
  lemma DefiniteFailureReopens(s: Session, failure: Failure)
    requires !failure.ambiguous && !failure.code.InvalidGrant? && !s.reauthorize
    ensures match PersistTokenFailure(MarkRefreshInFlight(s), failure)
            case Some(x) => !Fenced(x) && x.token == s.token
            case None => false
  {
  }

  // ---- state ----------------------------------------------------------------------------

  datatype Prepare = Arrived | Read(session: Option<Session>) | Awaiting | Refused | Ready(provided: Session)

  datatype Tx =
    | Loading
    | Loaded(s: Session)
    | Marked(s: Session)
      /** A request is on its way; `retried` says that it is the transport's second attempt. */
    | Waiting(s: Session, request: nat, retried: bool)
    | Answered(s: Session, decision: Decision)
    | Saving(s: Session)
    | Failing(s: Session, failure: Failure)

  /** `rotated` holds the tokens the server may have rotated; `pending` the requests on their way. */
  datatype World = World(
    disk: Option<Session>,
    prepares: map<nat, Prepare>,
    tx: Option<Tx>,
    rotated: set<Token>,
    pending: map<nat, Token>,
    nextToken: Token,
    nextRequest: nat)

  /** What one write of the session file did. */
  datatype Write = Written | LostBefore | LostAfter

  datatype Step =
    | PrepareArrives(id: nat)
    | PrepareReads(id: nat)
    | PrepareDecides(id: nat, matches: bool, due: bool, deferred: bool, expired: bool, write: Write)
    | PrepareRereads(id: nat)
    | TxLoads(due: bool)
    | TxGivesUp
    | TxRequiresLogin(write: Write)
    | TxFailsEarly
    | TxMarks(write: Write)
    | TxSends
    | ServerAnswers(request: nat, decision: Decision)
    | TxAttemptFails(a: Attempt, managed: bool, wraps: bool)
    | TxReads(used: bool)
    | TxSaves(write: Write, audited: bool)
    | TxPersists(write: Write)
    | Login
    | Crash

  function Put(disk: Option<Session>, s: Session, write: Write): Option<Session> {
    if write.LostBefore? then disk else Some(s)
  }

  function WithPrepare(w: World, id: nat, p: Prepare): World {
    w.(prepares := w.prepares[id := p])
  }

  /** What a prepare makes of the session it read. */
  function DoPrepareDecides(w: World, id: nat, read: Option<Session>, matches: bool, due: bool, deferred: bool,
                            expired: bool, write: Write): World {
    if read.None? then WithPrepare(w, id, Refused)
    else
      var s := read.value;
      if s.reauthorize || s.state.Uncertain? then WithPrepare(w, id, Refused)
      else if !matches then WithPrepare(w, id, Refused).(disk := Put(w.disk, s.(reauthorize := true), write))
      else if due && s.token.None? then WithPrepare(w, id, if expired then Refused else Awaiting)
      else if due && s.state.Deferred? && deferred then WithPrepare(w, id, Refused)
      else if due then WithPrepare(w, id, Awaiting).(tx := if w.tx.None? then Some(Loading) else w.tx)
      else WithPrepare(w, id, Awaiting)
  }

  function DoTxLoads(w: World, due: bool): World {
    match w.disk
    case Some(s) => if !Fenced(s) && due && s.token.Some? then w.(tx := Some(Loaded(s))) else w.(tx := None)
    case None => w.(tx := None)
  }

  /** Nothing is sent unless the marker was written. */
  function DoTxMarks(w: World, s: Session, write: Write): World {
    var marked := MarkRefreshInFlight(s);
    w.(disk := Put(w.disk, marked, write),
       tx := Some(if write.Written? then Marked(marked) else Failing(marked, Failure(UnknownError, false))))
  }

  function DoTxSends(w: World, s: Session): World
    requires s.token.Some?
  {
    w.(pending := w.pending[w.nextRequest := s.token.value],
       nextRequest := w.nextRequest + 1,
       tx := Some(Waiting(s, w.nextRequest, false)))
  }

  /** A success that returns a refresh token returns a new one. */
  function Issued(w: World, d: Decision): Decision {
    if d.body.UsableTokens? && d.body.refreshToken.Some? then d.(body := UsableTokens(Some(w.nextToken))) else d
  }

  /** The server handles a request whether or not anyone still waits for the answer. */
  function DoServerAnswers(w: World, request: nat, decision: Decision): World
    requires request in w.pending
  {
    var d := Issued(w, decision);
    var x := w.(pending := w.pending - {request},
                rotated := if d.rotates then w.rotated + {w.pending[request]} else w.rotated,
                nextToken := w.nextToken + 1);
    match w.tx
    case Some(Waiting(s, awaited, _)) => if awaited == request then x.(tx := Some(Answered(s, d))) else x
    case _ => x
  }

  /** A token request can be replayed, and does more than read. */
  const TOKEN_REQUEST := Request(true, false)

  /** The fetch policy presents a hardened transport's error as its own. */
  function PolicyError(e: ErrorValue, wraps: bool): ErrorValue { if wraps then Wrap(e) else e }

  /** The transport sends the same request again. */
  predicate SendsAgain(tx: Tx, a: Attempt, managed: bool) {
    tx.Waiting? && !tx.retried && tx.s.token.Some? && a.Rejected? && Retries(managed, TOKEN_REQUEST, a)
  }

  /** One attempt failed: the transport tries once more, or its error is what the request proves. */
  function DoTxAttemptFails(w: World, tx: Tx, a: Attempt, managed: bool, wraps: bool): World
    requires (tx.Waiting? || tx.Answered?) && a.Rejected?
  {
    var x := if a.reached || !tx.Waiting? then w else w.(pending := w.pending - {tx.request});
    if SendsAgain(tx, a, managed) then
      x.(pending := x.pending[w.nextRequest := tx.s.token.value],
         nextRequest := w.nextRequest + 1,
         tx := Some(Waiting(tx.s, w.nextRequest, true)))
    else x.(tx := Some(Failing(tx.s, TokenTransportFailure(PolicyError(Surfaced(a), wraps), RefreshGrant))))
  }

  /** `used` is false when a usable success could still not be turned into tokens. */
  function DoTxReads(w: World, s: Session, d: Decision, used: bool): World {
    match AnswerFailure(d)
    case Some(failure) => w.(tx := Some(Failing(s, failure)))
    case None =>
      if used then w.(tx := Some(Saving(SaveTokens(s, d.body.refreshToken))))
      else w.(tx := Some(Failing(s, Failure(TokenRefreshFailed, true))))
  }

  /** A write or audit record that fails after the server answered is ambiguous. */
  function DoTxSaves(w: World, s: Session, write: Write, audited: bool): World {
    w.(disk := Put(w.disk, s, write),
       tx := if write.Written? && audited then None else Some(Failing(s, Failure(TokenRefreshFailed, true))))
  }

  function DoTxPersists(w: World, s: Session, failure: Failure, write: Write): World {
    match PersistTokenFailure(s, failure)
    case Some(x) => w.(disk := Put(w.disk, x, write), tx := None)
    case None => w.(tx := None)
  }

  predicate TxIn(w: World, test: Tx -> bool) {
    w.tx.Some? && test(w.tx.value)
  }

  predicate Enabled(w: World, step: Step) {
    match step
    case PrepareArrives(id) => id !in w.prepares
    case PrepareReads(id) => id in w.prepares && w.prepares[id].Arrived?
    case PrepareDecides(id, _, _, _, _, _) => id in w.prepares && w.prepares[id].Read?
    case PrepareRereads(id) => id in w.prepares && w.prepares[id].Awaiting?
    case TxLoads(_) => TxIn(w, (x: Tx) => x.Loading?)
    case TxGivesUp => TxIn(w, (x: Tx) => x.Loaded?)
    case TxRequiresLogin(_) => TxIn(w, (x: Tx) => x.Loaded?)
    case TxFailsEarly => TxIn(w, (x: Tx) => x.Loaded?)
    case TxMarks(_) => TxIn(w, (x: Tx) => x.Loaded?)
    case TxSends => TxIn(w, (x: Tx) => x.Marked? && x.s.token.Some?)
    case ServerAnswers(request, decision) => request in w.pending && KeepsItsWord(decision)
    case TxAttemptFails(a, _, _) =>
      && TxIn(w, (x: Tx) => x.Waiting? || x.Answered?)
      && a.Rejected? && Truthful(a) && (!a.reached ==> w.tx.value.Waiting?)
    case TxReads(_) => TxIn(w, (x: Tx) => x.Answered?)
    case TxSaves(_, _) => TxIn(w, (x: Tx) => x.Saving?)
    case TxPersists(_) => TxIn(w, (x: Tx) => x.Failing?)
    case Login => true
    case Crash => true
  }

  function Do(w: World, step: Step): World
    requires Enabled(w, step)
  {
    match step
    case PrepareArrives(id) => WithPrepare(w, id, Arrived)
    case PrepareReads(id) => WithPrepare(w, id, Read(w.disk))
    case PrepareDecides(id, matches, due, deferred, expired, write) =>
      DoPrepareDecides(w, id, w.prepares[id].session, matches, due, deferred, expired, write)
    case PrepareRereads(id) =>
      WithPrepare(w, id, if w.disk.Some? && !w.disk.value.reauthorize then Ready(w.disk.value) else Refused)
    case TxLoads(due) => DoTxLoads(w, due)
    case TxGivesUp => w.(tx := None)
    case TxRequiresLogin(write) => w.(disk := Put(w.disk, w.tx.value.s.(reauthorize := true), write), tx := None)
    case TxFailsEarly => w.(tx := Some(Failing(w.tx.value.s, Failure(UnknownError, false))))
    case TxMarks(write) => DoTxMarks(w, w.tx.value.s, write)
    case TxSends => DoTxSends(w, w.tx.value.s)
    case ServerAnswers(request, decision) => DoServerAnswers(w, request, decision)
    case TxAttemptFails(a, managed, wraps) => DoTxAttemptFails(w, w.tx.value, a, managed, wraps)
    case TxReads(used) => DoTxReads(w, w.tx.value.s, w.tx.value.decision, used)
    case TxSaves(write, audited) => DoTxSaves(w, w.tx.value.s, write, audited)
    case TxPersists(write) => DoTxPersists(w, w.tx.value.s, w.tx.value.failure, write)
    case Login => w.(disk := Some(Session(Some(w.nextToken), Settled, false)), nextToken := w.nextToken + 1)
    case Crash => w.(prepares := map[], tx := None)
  }

  const START := World(None, map[], None, {}, map[], 0, 0)

  function Run(steps: seq<Step>): World {
    if steps == [] then START
    else
      var w := Run(steps[..|steps| - 1]);
      if Enabled(w, steps[|steps| - 1]) then Do(w, steps[|steps| - 1]) else w
  }

  // ---- what is kept ---------------------------------------------------------------------

  /** The server may have rotated this token, or still may. */
  ghost predicate Doubtful(w: World, t: Token) {
    t in w.rotated || t in w.pending.Values
  }

  ghost predicate Sound(w: World, token: Option<Token>) {
    token.Some? && token.value < w.nextToken && !Doubtful(w, token.value)
  }

  /** The stored token is doubtful only behind a fence. */
  ghost predicate DiskOk(w: World) {
    w.disk.Some? && w.disk.value.token.Some? ==>
      w.disk.value.token.value < w.nextToken && (Doubtful(w, w.disk.value.token.value) ==> Fenced(w.disk.value))
  }

  ghost predicate StoredBehindFence(w: World, token: Option<Token>) {
    w.disk.Some? && w.disk.value.token == token ==> Fenced(w.disk.value)
  }

  /** Only this request carries the token, and the server has not handled it. */
  ghost predicate OnlyPending(w: World, token: Token, request: nat) {
    && request in w.pending && w.pending[request] == token && token !in w.rotated
    && forall r :: r in w.pending && w.pending[r] == token ==> r == request
  }

  ghost predicate TxOk(w: World) {
    match w.tx
    case None => true
    case Some(Loading) => true
    case Some(Loaded(s)) => Sound(w, s.token)
    case Some(Marked(s)) => Sound(w, s.token) && StoredBehindFence(w, s.token)
    case Some(Waiting(s, request, _)) =>
      s.token.Some? && s.token.value < w.nextToken && OnlyPending(w, s.token.value, request)
    case Some(Answered(s, d)) =>
      && KeepsItsWord(d) && s.token.Some? && s.token.value < w.nextToken
      && (Doubtful(w, s.token.value) ==> d.rotates)
      && (d.body.UsableTokens? && d.body.refreshToken.Some? ==> Sound(w, d.body.refreshToken))
    case Some(Saving(s)) => Sound(w, s.token)
    case Some(Failing(s, failure)) =>
      s.token.Some? && s.token.value < w.nextToken && (!failure.ambiguous ==> !Doubtful(w, s.token.value))
  }

  /** The server has only seen tokens it issued, and request numbers are used once. */
  ghost predicate ServerOk(w: World) {
    && (forall t :: t in w.rotated ==> t < w.nextToken)
    && (forall r :: r in w.pending ==> r < w.nextRequest && w.pending[r] < w.nextToken)
  }

  ghost predicate Inv(w: World) {
    ServerOk(w) && DiskOk(w) && TxOk(w)
  }

  /** A write behind a fence is safe whatever token it writes. */
  lemma FencedWriteInv(w: World, s: Session, write: Write)
    requires Inv(w) && Fenced(s) && Known(Some(s), w.nextToken)
    ensures Inv(w.(disk := Put(w.disk, s, write)))
  {
    hide KeepsItsWord;
  }

  lemma PreparesAside(w: World, id: nat, p: Prepare)
    requires Inv(w)
    ensures Inv(WithPrepare(w, id, p)) && (w.tx.None? ==> Inv(WithPrepare(w, id, p).(tx := Some(Loading))))
  {
    hide KeepsItsWord;
  }

  /** A session read earlier is only ever written back behind a fence. */
  lemma PrepareInv(w: World, id: nat, read: Option<Session>, matches: bool, due: bool, deferred: bool, expired: bool,
                   write: Write)
    requires Inv(w)
    requires Known(read, w.nextToken)
    ensures Inv(DoPrepareDecides(w, id, read, matches, due, deferred, expired, write))
  {
    hide Inv, Put;
    PreparesAside(w, id, Refused);
    PreparesAside(w, id, Awaiting);
    if read.Some? {
      FencedWriteInv(WithPrepare(w, id, Refused), read.value.(reauthorize := true), write);
    }
  }

  lemma MarksInv(w: World, s: Session, write: Write)
    requires Inv(w) && w.tx == Some(Loaded(s))
    ensures Inv(DoTxMarks(w, s, write))
  {
  }

  lemma SendsInv(w: World, s: Session)
    requires Inv(w) && w.tx == Some(Marked(s)) && s.token.Some?
    ensures Inv(DoTxSends(w, s))
  {
    var x := DoTxSends(w, s);
    assert forall r :: r in w.pending ==> x.pending[r] == w.pending[r];
    forall t | Doubtful(x, t) && t != s.token.value
      ensures Doubtful(w, t)
    {
      if t in x.pending.Values {
        var r :| r in x.pending && x.pending[r] == t;
        assert r in w.pending;
      }
    }
  }

  /** Handling a request makes no new token doubtful. */
  lemma AnswerDoubts(w: World, request: nat, decision: Decision, t: Token)
    requires request in w.pending && Doubtful(DoServerAnswers(w, request, decision), t)
    ensures Doubtful(w, t)
  {
    var x := DoServerAnswers(w, request, decision);
    if t in x.pending.Values {
      var r :| r in x.pending && x.pending[r] == t;
      assert w.pending[r] == t;
    }
  }

  lemma AnswerServer(w: World, request: nat, decision: Decision)
    requires ServerOk(w) && request in w.pending
    ensures ServerOk(DoServerAnswers(w, request, decision))
  {
  }

  /** A token the server issues now is known to nobody else. */
  lemma FreshIsSound(w: World, request: nat, decision: Decision)
    requires ServerOk(w) && request in w.pending
    ensures Sound(DoServerAnswers(w, request, decision), Some(w.nextToken))
  {
    if Doubtful(DoServerAnswers(w, request, decision), w.nextToken) {
      AnswerDoubts(w, request, decision, w.nextToken);
    }
  }

  lemma AnswerDisk(w: World, request: nat, decision: Decision)
    requires DiskOk(w) && request in w.pending
    ensures DiskOk(DoServerAnswers(w, request, decision))
  {
    var x := DoServerAnswers(w, request, decision);
    if w.disk.Some? && w.disk.value.token.Some? && Doubtful(x, w.disk.value.token.value) {
      AnswerDoubts(w, request, decision, w.disk.value.token.value);
    }
  }

  lemma AnswerOwnTx(w: World, s: Session, request: nat, decision: Decision)
    requires Inv(w) && w.tx.Some? && w.tx.value.Waiting? && w.tx.value.s == s && w.tx.value.request == request
    requires request in w.pending && KeepsItsWord(decision)
    ensures TxOk(DoServerAnswers(w, request, decision))
  {
    FreshIsSound(w, request, decision);
    var x := DoServerAnswers(w, request, decision);
    var t := s.token.value;
    forall r | r in x.pending
      ensures x.pending[r] != t
    {
      assert w.pending[r] == x.pending[r];
    }
  }

  lemma AnswerOtherTx(w: World, request: nat, decision: Decision)
    requires Inv(w) && request in w.pending
    requires w.tx.Some? && w.tx.value.Waiting? ==> w.tx.value.request != request
    ensures TxOk(DoServerAnswers(w, request, decision))
  {
    var x := DoServerAnswers(w, request, decision);
    forall t | Doubtful(x, t)
      ensures Doubtful(w, t)
    {
      AnswerDoubts(w, request, decision, t);
    }
  }

  lemma AnswersInv(w: World, request: nat, decision: Decision)
    requires Inv(w) && request in w.pending && KeepsItsWord(decision)
    ensures Inv(DoServerAnswers(w, request, decision))
  {
    hide ServerOk, DiskOk, TxOk, KeepsItsWord, DoServerAnswers;
    AnswerServer(w, request, decision);
    AnswerDisk(w, request, decision);
    if w.tx.Some? && w.tx.value.Waiting? && w.tx.value.request == request {
      AnswerOwnTx(w, w.tx.value.s, request, decision);
    } else {
      AnswerOtherTx(w, request, decision);
    }
  }

  /** Whatever surfaces of a failed attempt proves no more than the attempt's own error. */
  lemma PolicyProvesNoMore(a: Attempt, wraps: bool)
    requires a.Rejected? && ProvesUnsent(PolicyError(Surfaced(a), wraps))
    ensures ProvesUnsent(a.error)
  {
    if wraps {
      WrapProvesNoMore(Surfaced(a));
    }
    SurfacedProvesNoMore(a);
  }

  /** Only a request that was not received is sent again. */
  lemma RetryMeansUnsent(tx: Tx, a: Attempt, managed: bool)
    requires SendsAgain(tx, a, managed) && Truthful(a)
    ensures !a.reached
  {
  }

  lemma AttemptFailsInv(w: World, tx: Tx, a: Attempt, managed: bool, wraps: bool)
    requires Inv(w) && w.tx == Some(tx) && (tx.Waiting? || tx.Answered?)
    requires a.Rejected? && Truthful(a) && (!a.reached ==> tx.Waiting?)
    ensures Inv(DoTxAttemptFails(w, tx, a, managed, wraps))
  {
    var t := tx.s.token.value;
    if SendsAgain(tx, a, managed) {
      RetryMeansUnsent(tx, a, managed);
      hide Truthful, SendsAgain, PolicyError;
      ResentInv(w, tx, t);
    } else {
      var failure := TokenTransportFailure(PolicyError(Surfaced(a), wraps), RefreshGrant);
      if !failure.ambiguous {
        PolicyProvesNoMore(a, wraps);
      }
      hide ProvesUnsent, PolicyError, SendsAgain, Surfaced;
      FailedInv(w, tx, a.reached, failure);
    }
  }

  /** The first request was not received, and the second carries the token alone. */
  lemma ResentInv(w: World, tx: Tx, t: Token)
    requires Inv(w) && w.tx == Some(tx) && tx.Waiting? && tx.s.token == Some(t)
    ensures Inv(w.(pending := (w.pending - {tx.request})[w.nextRequest := t], nextRequest := w.nextRequest + 1,
                   tx := Some(Waiting(tx.s, w.nextRequest, true))))
  {
    var x := w.(pending := (w.pending - {tx.request})[w.nextRequest := t]);
    forall u | u in x.pending.Values
      ensures u in w.pending.Values
    {
      var r :| r in x.pending && x.pending[r] == u;
      if r != w.nextRequest {
        assert w.pending[r] == u;
      } else {
        assert w.pending[tx.request] == u;
      }
    }
  }

  lemma FailedInv(w: World, tx: Tx, reached: bool, failure: Failure)
    requires Inv(w) && w.tx == Some(tx) && (tx.Waiting? || tx.Answered?)
    requires !failure.ambiguous ==> !reached && tx.Waiting?
    ensures var answered := if reached || !tx.Waiting? then w else w.(pending := w.pending - {tx.request});
            Inv(answered.(tx := Some(Failing(tx.s, failure))))
  {
    var x := if reached || !tx.Waiting? then w else w.(pending := w.pending - {tx.request});
    forall u | u in x.pending.Values
      ensures u in w.pending.Values && (!failure.ambiguous ==> u != tx.s.token.value)
    {
      var r :| r in x.pending && x.pending[r] == u;
      assert w.pending[r] == u;
    }
  }

  lemma ReadsInv(w: World, s: Session, d: Decision, used: bool)
    requires Inv(w) && w.tx == Some(Answered(s, d))
    ensures Inv(DoTxReads(w, s, d, used))
  {
    if AnswerFailure(d).Some? && !AnswerFailure(d).value.ambiguous {
      DefiniteMeansNotRotated(d);
    }
  }

  lemma StepInv(w: World, step: Step)
    requires Inv(w) && ReadsOk(w) && Enabled(w, step)
    ensures Inv(Do(w, step))
  {
    hide DoPrepareDecides, DoTxMarks, DoTxSends, DoServerAnswers, DoTxAttemptFails, DoTxReads, KeepsItsWord, Truthful;
    match step
    case PrepareDecides(id, matches, due, deferred, expired, write) =>
      PrepareInv(w, id, w.prepares[id].session, matches, due, deferred, expired, write);
    case TxMarks(write) => MarksInv(w, w.tx.value.s, write);
    case TxSends => SendsInv(w, w.tx.value.s);
    case ServerAnswers(request, decision) => AnswersInv(w, request, decision);
    case TxAttemptFails(a, managed, wraps) => AttemptFailsInv(w, w.tx.value, a, managed, wraps);
    case TxReads(used) => ReadsInv(w, w.tx.value.s, w.tx.value.decision, used);
    case _ =>
  }

  /** Every session a prepare read holds a token the server issued. */
  ghost predicate ReadsOk(w: World) {
    forall id :: id in w.prepares && w.prepares[id].Read? ==> Known(w.prepares[id].session, w.nextToken)
  }

  ghost predicate Known(read: Option<Session>, next: Token) {
    read.Some? && read.value.token.Some? ==> read.value.token.value < next
  }

  lemma StepReads(w: World, step: Step)
    requires Inv(w) && ReadsOk(w) && Enabled(w, step)
    ensures ReadsOk(Do(w, step))
  {
    hide TxOk, Doubtful, ServerOk;
  }

  lemma {:induction false} RunInv(steps: seq<Step>)
    ensures Inv(Run(steps)) && ReadsOk(Run(steps))
  {
    if steps != [] {
      RunInv(steps[..|steps| - 1]);
      var w := Run(steps[..|steps| - 1]);
      if Enabled(w, steps[|steps| - 1]) {
        hide Do, Inv, ReadsOk;
        StepInv(w, steps[|steps| - 1]);
        StepReads(w, steps[|steps| - 1]);
      }
    }
  }

  // ---- over every run -------------------------------------------------------------------

  /** The refresh token this step sends, in a first attempt or in the transport's retry. */
  function SentBy(w: World, step: Step): Option<Token>
    requires Enabled(w, step)
  {
    match step
    case TxSends => w.tx.value.s.token
    case TxAttemptFails(a, managed, _) => if SendsAgain(w.tx.value, a, managed) then w.tx.value.s.token else None
    case _ => None
  }

  /**
   A refresh token the server may have rotated is never sent, by the transaction or by the
   transport's retry, and once sent no other request that may still be received carries it.
   */
  lemma {:induction false} NeverResent(steps: seq<Step>, step: Step, t: Token)
    requires Enabled(Run(steps), step) && SentBy(Run(steps), step) == Some(t)
    ensures var w := Run(steps); var x := Do(w, step);
            && t !in w.rotated && t !in x.rotated
            && w.nextRequest in x.pending && x.pending[w.nextRequest] == t
            && (forall r :: r in x.pending && x.pending[r] == t ==> r == w.nextRequest)
  {
    RunInv(steps);
    var w := Run(steps);
    if step.TxAttemptFails? {
      RetryMeansUnsent(w.tx.value, step.a, step.managed);
    }
    SentAlone(w, step, t);
  }

  lemma SentAlone(w: World, step: Step, t: Token)
    requires Inv(w) && Enabled(w, step) && SentBy(w, step) == Some(t)
    requires step.TxAttemptFails? ==> !step.a.reached
    ensures var x := Do(w, step);
            && t !in w.rotated && t !in x.rotated
            && w.nextRequest in x.pending && x.pending[w.nextRequest] == t
            && (forall r :: r in x.pending && x.pending[r] == t ==> r == w.nextRequest)
  {
    hide Truthful, Retries, DiskOk, Surfaced;
    var x := Do(w, step);
    forall r | r in x.pending && r != w.nextRequest
      ensures x.pending[r] != t
    {
      assert r in w.pending && w.pending[r] == x.pending[r];
    }
  }

  /** The attempts of one request, step by step, are the hardened fetch of it. */
  lemma AttemptsAreFetch(w: World, s: Session, request: nat, first: Attempt, retry: Attempt, managed: bool, wraps: bool)
    requires w.tx == Some(Waiting(s, request, false)) && s.token.Some?
    requires first.Rejected? && retry.Rejected?
    ensures var fetched := Fetch(managed, TOKEN_REQUEST, first, retry);
            var once := DoTxAttemptFails(w, w.tx.value, first, managed, wraps);
            var x := if once.tx.value.Waiting? then DoTxAttemptFails(once, once.tx.value, retry, managed, wraps)
              else once;
            && (once.tx.value.Waiting? <==> |fetched.attempts| == 2)
            && x.tx == Some(Failing(s, TokenTransportFailure(PolicyError(fetched.failure.value, wraps), RefreshGrant)))
  {
    hide Surfaced, ProvesUnsent, PolicyError;
  }

  /** While the stored token may have been rotated, the stored session is refused. */
  lemma {:induction false} DoubtIsFenced(steps: seq<Step>)
    requires var w := Run(steps);
             w.disk.Some? && w.disk.value.token.Some? && Doubtful(w, w.disk.value.token.value)
    ensures Fenced(Run(steps).disk.value)
  {
    RunInv(steps);
  }

  /** A prepare that reads a fenced session is refused and starts nothing. */
  lemma FencedIsRefused(w: World, id: nat, s: Session, matches: bool, due: bool, deferred: bool, expired: bool,
                        write: Write)
    requires Fenced(s)
    ensures DoPrepareDecides(w, id, Some(s), matches, due, deferred, expired, write) == WithPrepare(w, id, Refused)
  {
  }

  // ---- what a refresh is good for -------------------------------------------------------

  /** What an answer comes to, by its status, its error and its body: saved, or a failure of one kind. */
  lemma AnswersAreClassified(w: World, s: Session, d: Decision, used: bool)
    requires d.status >= 200
    ensures var x := DoTxReads(w, s, d, used);
            && x.tx.Some? && x.disk == w.disk
            && (x.tx.value.Saving? <==> d.status < 300 && d.body.UsableTokens? && used)
            && (!x.tx.value.Saving? ==>
                  && x.tx.value.Failing? && x.tx.value.s == s
                  && var failure := x.tx.value.failure;
                  && (failure.ambiguous <==>
                        d.status < 400 || (d.status >= 500 && d.error != Some("invalid_client")))
                  && (!failure.ambiguous && failure.code.InvalidGrant? <==>
                        400 <= d.status < 500 && d.status != 429 && d.error == Some("invalid_grant"))
                  && (!failure.ambiguous && failure.code.RateLimited? <==>
                        d.status == 429 && d.error != Some("invalid_client"))
                  && (failure.code.ClientAuthenticationFailed? <==>
                        d.status >= 400 && d.error == Some("invalid_client"))
                  && (failure.code.InsufficientScope? <==>
                        400 <= d.status < 500 && d.status != 429 && d.error == Some("invalid_scope"))
                  && (failure.code.TemporarilyUnavailable? <==>
                        400 <= d.status < 500 && d.status != 429 && d.error == Some("temporarily_unavailable")))
  {
  }

  /** This prepare, deciding on what is stored, is refused; or it starts a refresh. */
  predicate RefusedOn(w: World, id: nat, s: Session, deferred: bool) {
    DoPrepareDecides(w, id, Some(s), true, true, deferred, false, Written) == WithPrepare(w, id, Refused)
  }

  predicate RefreshesOn(w: World, id: nat, s: Session, deferred: bool) {
    DoPrepareDecides(w, id, Some(s), true, true, deferred, false, Written)
    == WithPrepare(w, id, Awaiting).(tx := Some(Loading))
  }

  /**
   What is stored after a refresh failed keeps the token.  The next refresh is refused for good if
   the outcome is in doubt or the grant was refused, and until the time the server named if it
   limits the rate; any other failure leaves the way free.
   */
  lemma FailureDecidesNext(w: World, s: Session, failure: Failure, write: Write, id: nat, deferred: bool)
    requires !Fenced(s) && s.token.Some? && !write.LostBefore?
    requires w.tx == Some(Failing(MarkRefreshInFlight(s), failure))
    ensures Enabled(w, TxPersists(write))
    ensures var x := Do(w, TxPersists(write));
            && x.tx.None? && x.disk.Some? && x.disk.value.token == s.token
            && (RefusedOn(x, id, x.disk.value, deferred) <==>
                  failure.ambiguous || failure.code.InvalidGrant? || (failure.code.RateLimited? && deferred))
            && (RefreshesOn(x, id, x.disk.value, deferred) <==> !RefusedOn(x, id, x.disk.value, deferred))
            && (x.disk.value.reauthorize <==> !failure.ambiguous && failure.code.InvalidGrant?)
  {
    var x := Do(w, TxPersists(write));
    assert WithPrepare(x, id, Refused).prepares[id] == Refused;
    assert WithPrepare(x, id, Awaiting).prepares[id] == Awaiting;
  }

  /** A request the transport gives up on leaves doubt exactly when what surfaces proves nothing. */
  lemma LostRequestLeavesDoubt(w: World, tx: Tx, a: Attempt, managed: bool, wraps: bool)
    requires w.tx == Some(tx) && tx.Waiting? && a.Rejected? && Truthful(a) && !SendsAgain(tx, a, managed)
    ensures Enabled(w, TxAttemptFails(a, managed, wraps))
    ensures var x := Do(w, TxAttemptFails(a, managed, wraps));
            var surfaced := if wraps then ErrorObject(None, [], Surfaced(a)) else Surfaced(a);
            && x.tx.Some? && x.tx.value.Failing? && x.tx.value.s == tx.s
            && (x.tx.value.failure.ambiguous <==> !ProvesUnsent(surfaced))
            && !x.tx.value.failure.code.InvalidGrant? && !x.tx.value.failure.code.RateLimited?
  {
    hide ProvesUnsent, Surfaced, Truthful;
  }

  /**
   What a prepare makes of the session it read: it is refused if there is none, if it is fenced or
   bound to something else, or if it is due and cannot be refreshed now; otherwise it goes on, with a
   refresh if that is due.  Only a changed binding is written down, as a demand for a login.
   */
  lemma PrepareIsExact(w: World, id: nat, read: Option<Session>, matches: bool, due: bool, deferred: bool,
                       expired: bool, write: Write)
    ensures var x := DoPrepareDecides(w, id, read, matches, due, deferred, expired, write);
            var refused :=
              || read.None? || read.value.reauthorize || read.value.state.Uncertain? || !matches
              || (due && (if read.value.token.None? then expired else read.value.state.Deferred? && deferred));
            && x.prepares == w.prepares[id := if refused then Refused else Awaiting]
            && x.pending == w.pending && x.rotated == w.rotated
            && (x.tx == if !refused && due && read.value.token.Some? && w.tx.None? then Some(Loading) else w.tx)
            && (x.disk == if read.Some? && !read.value.reauthorize && !read.value.state.Uncertain? && !matches
                             && !write.LostBefore?
                          then Some(Session(read.value.token, read.value.state, true)) else w.disk)
  {
  }

  /** A refresh in which nothing fails. */
  function Refreshing(id: nat, request: nat, decision: Decision): seq<Step> {
    [PrepareDecides(id, true, true, false, false, Written), TxLoads(true), TxMarks(Written), TxSends]
    + [ServerAnswers(request, decision), TxReads(true), TxSaves(Written, true), PrepareRereads(id)]
  }

  /** These steps, one after the other, each of them enabled. */
  predicate AllEnabled(w: World, steps: seq<Step>)
    decreases |steps|
  {
    steps == [] || (Enabled(w, steps[0]) && AllEnabled(Do(w, steps[0]), steps[1..]))
  }

  function After(w: World, steps: seq<Step>): World
    requires AllEnabled(w, steps)
    decreases |steps|
  {
    if steps == [] then w else After(Do(w, steps[0]), steps[1..])
  }

  lemma AfterOne(w: World, step: Step, rest: seq<Step>)
    requires Enabled(w, step) && AllEnabled(Do(w, step), rest)
    ensures AllEnabled(w, [step] + rest) && After(w, [step] + rest) == After(Do(w, step), rest)
  {
    assert ([step] + rest)[1..] == rest;
  }

  lemma AfterFour(w: World, a: Step, b: Step, c: Step, d: Step, rest: seq<Step>)
    requires Enabled(w, a) && Enabled(Do(w, a), b) && Enabled(Do(Do(w, a), b), c)
    requires var x := Do(Do(Do(w, a), b), c); Enabled(x, d) && AllEnabled(Do(x, d), rest)
    ensures var x := Do(Do(Do(w, a), b), c);
            AllEnabled(w, [a, b, c, d] + rest) && After(w, [a, b, c, d] + rest) == After(Do(x, d), rest)
  {
    hide AllEnabled, After, Do, Enabled;
    var x := Do(Do(w, a), b);
    AfterOne(Do(x, c), d, rest);
    AfterOne(x, c, [d] + rest);
    AfterOne(Do(w, a), b, [c] + ([d] + rest));
    AfterOne(w, a, [b] + ([c] + ([d] + rest)));
    assert [a] + ([b] + ([c] + ([d] + rest))) == [a, b, c, d] + rest;
  }

  /** A due refresh sends the stored token. */
  lemma DueIsSent(w: World, id: nat, s: Session)
    requires w.disk == Some(s) && !Fenced(s) && s.token.Some? && w.tx.None?
    requires id in w.prepares && w.prepares[id] == Read(Some(s))
    ensures var a := PrepareDecides(id, true, true, false, false, Written);
            && Enabled(w, a)
            && Enabled(Do(w, a), TxLoads(true))
            && var x := Do(Do(w, a), TxLoads(true));
            && Enabled(x, TxMarks(Written))
            && Enabled(Do(x, TxMarks(Written)), TxSends)
            && Sends(Do(Do(x, TxMarks(Written)), TxSends), id, s, w.nextRequest, w.nextToken)
  {
  }

  /** The stored token is on its way behind its marker, and this prepare waits. */
  ghost predicate Sends(w: World, id: nat, s: Session, request: nat, next: Token) {
    && w.tx == Some(Waiting(MarkRefreshInFlight(s), request, false)) && w.nextToken == next
    && request in w.pending && id in w.prepares && w.prepares[id] == Awaiting
  }

  /** What is stored when nothing fails: the server's new token, or the old one if it sent none. */
  function Refreshed(s: Session, decision: Decision, next: Token): Session
    requires decision.body.UsableTokens?
  {
    Session(if decision.body.refreshToken.Some? then Some(next) else s.token, Settled, false)
  }

  lemma AnswerIsStored(w: World, id: nat, s: Session, request: nat, next: Token, decision: Decision)
    requires Sends(w, id, s, request, next)
    requires KeepsItsWord(decision) && decision.status < 300 && decision.body.UsableTokens?
    ensures var a, b, c, d :=
              ServerAnswers(request, decision), TxReads(true), TxSaves(Written, true), PrepareRereads(id);
            && Enabled(w, a)
            && Enabled(Do(w, a), b)
            && Enabled(Do(Do(w, a), b), c)
            && var x := Do(Do(Do(w, a), b), c);
            && Enabled(x, d)
            && var y := Do(x, d);
            && y.disk == Some(Refreshed(s, decision, next)) && y.tx.None?
            && id in y.prepares && y.prepares[id] == Ready(Refreshed(s, decision, next))
  {
  }

  /**
   From any state with an unfenced session: a prepare that finds it due refreshes it, and when
   nothing fails goes ahead with the server's new token, or with the old one if it sent none.
   */
  lemma RefreshSucceeds(w: World, id: nat, s: Session, decision: Decision)
    requires w.disk == Some(s) && !Fenced(s) && s.token.Some? && w.tx.None?
    requires id in w.prepares && w.prepares[id] == Read(Some(s))
    requires KeepsItsWord(decision) && decision.status < 300 && decision.body.UsableTokens?
    ensures var steps := Refreshing(id, w.nextRequest, decision);
            && AllEnabled(w, steps)
            && var x := After(w, steps);
            && x.disk == Some(Refreshed(s, decision, w.nextToken)) && x.tx.None?
            && id in x.prepares && x.prepares[id] == Ready(Refreshed(s, decision, w.nextToken))
  {
    DueIsSent(w, id, s);
    hide Do, Enabled, Sends, Refreshed, KeepsItsWord;
    var first, load, mark := PrepareDecides(id, true, true, false, false, Written), TxLoads(true), TxMarks(Written);
    var x := Do(Do(Do(Do(w, first), load), mark), TxSends);
    AnswerIsStored(x, id, s, w.nextRequest, w.nextToken, decision);
    var answer := ServerAnswers(w.nextRequest, decision);
    AfterFour(x, answer, TxReads(true), TxSaves(Written, true), PrepareRereads(id), []);
    var rest := [answer, TxReads(true), TxSaves(Written, true), PrepareRereads(id)] + [];
    AfterFour(w, first, load, mark, TxSends, rest);
    assert Refreshing(id, w.nextRequest, decision) == [first, load, mark, TxSends] + rest;
  }

  // ---- a refused grant ------------------------------------------------------------------

  /** Nothing carries this token any more, and it is stored only behind the demand for a login. */
  ghost predicate Dead(w: World, t: Token) {
    && t < w.nextToken && t !in w.pending.Values
    && (w.disk.Some? && w.disk.value.token == Some(t) ==> w.disk.value.reauthorize)
    && (w.tx.Some? && !w.tx.value.Loading? ==> TxToken(w.tx.value) != Some(t))
    && (w.tx.Some? && w.tx.value.Answered? && w.tx.value.decision.body.UsableTokens? ==>
          w.tx.value.decision.body.refreshToken != Some(t))
  }

  /** The token a transaction holds, once it has loaded the session. */
  function TxToken(tx: Tx): Option<Token>
    requires !tx.Loading?
  {
    match tx
    case Loaded(s) => s.token
    case Marked(s) => s.token
    case Waiting(s, _, _) => s.token
    case Answered(s, _) => s.token
    case Saving(s) => s.token
    case Failing(s, _) => s.token
  }

  /** Until somebody logs in, the stored session demands it, no refresh gets further than reading
      the file, and nobody who had not been served yet is. */
  ghost predicate Barred(w: World, served: set<nat>) {
    && w.disk.Some? && w.disk.value.reauthorize
    && (w.tx.Some? ==> w.tx.value.Loading?)
    && forall id :: id in w.prepares && w.prepares[id].Ready? ==> id in served
  }

  function ServedIn(w: World): set<nat> { set id | id in w.prepares && w.prepares[id].Ready? }

  lemma StepDead(w: World, step: Step, t: Token)
    requires Dead(w, t) && Inv(w) && Enabled(w, step)
    ensures Dead(Do(w, step), t) && SentBy(w, step) != Some(t)
  {
    hide KeepsItsWord, Truthful, Retries, Surfaced, ProvesUnsent, DoServerAnswers, DoTxAttemptFails, Inv;
    hide DoPrepareDecides, DoTxReads;
    match step
    case PrepareDecides(id, matches, due, deferred, expired, write) =>
      DecidesDead(w, id, w.prepares[id].session, matches, due, deferred, expired, write, t);
    case TxReads(used) => ReadsDead(w, w.tx.value.s, w.tx.value.decision, used, t);
    case ServerAnswers(request, decision) => AnswersDead(w, request, decision, t);
    case TxAttemptFails(a, managed, wraps) => AttemptDead(w, w.tx.value, a, managed, wraps, t);
    case _ =>
  }

  lemma DecidesDead(w: World, id: nat, read: Option<Session>, matches: bool, due: bool, deferred: bool, expired: bool,
                    write: Write, t: Token)
    requires Dead(w, t)
    ensures Dead(DoPrepareDecides(w, id, read, matches, due, deferred, expired, write), t)
  {
  }

  lemma ReadsDead(w: World, s: Session, d: Decision, used: bool, t: Token)
    requires Dead(w, t) && w.tx == Some(Answered(s, d))
    ensures Dead(DoTxReads(w, s, d, used), t)
  {
  }

  lemma AnswersDead(w: World, request: nat, decision: Decision, t: Token)
    requires Dead(w, t) && request in w.pending
    ensures Dead(DoServerAnswers(w, request, decision), t)
  {
  }

  lemma AttemptDead(w: World, tx: Tx, a: Attempt, managed: bool, wraps: bool, t: Token)
    requires Dead(w, t) && w.tx == Some(tx) && (tx.Waiting? || tx.Answered?) && a.Rejected?
    ensures Dead(DoTxAttemptFails(w, tx, a, managed, wraps), t)
  {
    hide Retries, Surfaced, ProvesUnsent;
  }

  lemma StepBarred(w: World, step: Step, served: set<nat>)
    requires Barred(w, served) && Enabled(w, step) && !step.Login?
    ensures Barred(Do(w, step), served)
  {
    hide KeepsItsWord, Truthful, Retries, Surfaced, ProvesUnsent;
  }

  /** The steps after the `n`-th, one by one. */
  lemma {:induction false} StaysDead(steps: seq<Step>, n: nat, t: Token)
    requires n <= |steps| && Dead(Run(steps[..n]), t)
    ensures Dead(Run(steps), t)
  {
    hide Do, Dead, Inv, Enabled;
    if n == |steps| {
      assert steps[..n] == steps;
    } else {
      assert steps[..|steps| - 1][..n] == steps[..n];
      StaysDead(steps[..|steps| - 1], n, t);
      RunInv(steps[..|steps| - 1]);
      var w := Run(steps[..|steps| - 1]);
      if Enabled(w, steps[|steps| - 1]) {
        StepDead(w, steps[|steps| - 1], t);
      }
    }
  }

  lemma {:induction false} StaysBarred(steps: seq<Step>, n: nat, served: set<nat>)
    requires n <= |steps| && Barred(Run(steps[..n]), served)
    requires forall i :: n <= i < |steps| ==> !steps[i].Login?
    ensures Barred(Run(steps), served)
  {
    hide Do, Barred, Enabled;
    if n == |steps| {
      assert steps[..n] == steps;
    } else {
      assert steps[..|steps| - 1][..n] == steps[..n];
      StaysBarred(steps[..|steps| - 1], n, served);
      var w := Run(steps[..|steps| - 1]);
      if Enabled(w, steps[|steps| - 1]) {
        StepBarred(w, steps[|steps| - 1], served);
      }
    }
  }

  /** Step `n` wrote down that the server refused the grant of this token. */
  ghost predicate RefusalWritten(steps: seq<Step>, n: nat, t: Token) {
    && n < |steps| && steps[n].TxPersists? && !steps[n].write.LostBefore?
    && var w := Run(steps[..n]);
    && w.tx.Some? && w.tx.value.Failing? && w.tx.value.s.token == Some(t)
    && !w.tx.value.failure.ambiguous && w.tx.value.failure.code.InvalidGrant?
  }

  lemma RefusalBars(steps: seq<Step>, n: nat, t: Token)
    requires RefusalWritten(steps, n, t)
    ensures Dead(Run(steps[..n + 1]), t) && Barred(Run(steps[..n + 1]), ServedIn(Run(steps[..n])))
  {
    assert steps[..n + 1][..n] == steps[..n];
    RunInv(steps[..n]);
    var w := Run(steps[..n]);
    assert Enabled(w, steps[n]);
    PersistBars(w, steps[n].write, t);
  }

  lemma PersistBars(w: World, write: Write, t: Token)
    requires Inv(w) && w.tx.Some? && w.tx.value.Failing? && w.tx.value.s.token == Some(t)
    requires !w.tx.value.failure.ambiguous && w.tx.value.failure.code.InvalidGrant? && !write.LostBefore?
    ensures Dead(Do(w, TxPersists(write)), t) && Barred(Do(w, TxPersists(write)), ServedIn(w))
  {
  }

  /**
   Over every run: once it is written down that the server refused a grant, no request ever carries
   its token again, even after a login; and until a login, whatever else happens, the stored session
   demands one, nothing at all is sent, and no prepare that had not been served before is.
   */
  lemma {:induction false} RefusedGrantIsDead(steps: seq<Step>, n: nat, t: Token)
    requires RefusalWritten(steps, n, t)
    ensures var w := Run(steps);
            && t !in w.pending.Values
            && (forall step :: Enabled(w, step) ==> SentBy(w, step) != Some(t))
            && ((forall i :: n < i < |steps| ==> !steps[i].Login?) ==>
                  && w.disk.Some? && w.disk.value.reauthorize
                  && (forall step :: Enabled(w, step) ==> SentBy(w, step).None?)
                  && (forall id :: id in w.prepares && w.prepares[id].Ready? ==>
                        id in Run(steps[..n]).prepares && Run(steps[..n]).prepares[id].Ready?))
  {
    RefusalBars(steps, n, t);
    StaysDead(steps, n + 1, t);
    RunInv(steps);
    var w := Run(steps);
    forall step | Enabled(w, step)
      ensures SentBy(w, step) != Some(t)
    {
      StepDead(w, step, t);
    }
    if forall i :: n < i < |steps| ==> !steps[i].Login? {
      StaysBarred(steps, n + 1, ServedIn(Run(steps[..n])));
    }
  }
}
