/**
 The transport under the token requests: at most one retry, and only when the failure proves
 that no request bytes reached the server, or when the request merely reads.
 */
module HardenedFetch {
  import opened Wrappers

  /** A thrown value; `errors` are an aggregate's parts, and an absent cause is not an object. */
  datatype ErrorValue = NotAnObject | ErrorObject(code: Option<string>, errors: seq<ErrorValue>, cause: ErrorValue)

  const CONNECT_FAILURE_CODES := {"UND_ERR_CONNECT_TIMEOUT", "ECONNREFUSED", "EHOSTUNREACH", "ENETUNREACH", "ENETDOWN"}
  const DNS_CODES := {"ENOTFOUND", "EAI_AGAIN"}
  const MAX_DEPTH: nat := 4

  /** Depth-first over an error's parts, then its cause, to a bounded depth. */
  function ConnectFailureCode(e: ErrorValue, depth: nat): Option<string>
    decreases e, 0
  {
    if depth > MAX_DEPTH || e.NotAnObject? then None
    else if e.code.Some? && e.code.value in CONNECT_FAILURE_CODES then e.code
    else
      var nested := FirstCode(e, |e.errors|, depth + 1);
      if nested.Some? then nested else ConnectFailureCode(e.cause, depth + 1)
  }

  /** The first code among the last `n` parts of an aggregate. */
  function FirstCode(e: ErrorValue, n: nat, depth: nat): Option<string>
    requires e.ErrorObject? && n <= |e.errors|
    decreases e, 0, n
  {
    if n == 0 then None
    else
      var code := ConnectFailureCode(e.errors[|e.errors| - n], depth);
      if code.Some? then code else FirstCode(e, n - 1, depth)
  }

  function IsDnsFailure(e: ErrorValue, depth: nat): bool {
    if depth > MAX_DEPTH || e.NotAnObject? then false
    else (e.code.Some? && e.code.value in DNS_CODES) || IsDnsFailure(e.cause, depth + 1)
  }

  /** `code` sits on this value or within `reach` steps into parts and causes. */
  ghost predicate Within(e: ErrorValue, reach: int, code: string)
    decreases e
  {
    && e.ErrorObject? && reach >= 0
    && (|| e.code == Some(code)
        || (exists i :: 0 <= i < |e.errors| && Within(e.errors[i], reach - 1, code))
        || Within(e.cause, reach - 1, code))
  }

  /** The search finds a connect failure exactly when one lies within four steps. */
  lemma {:induction false} CodeIsWithin(e: ErrorValue, depth: nat)
    ensures match ConnectFailureCode(e, depth)
            case Some(code) => code in CONNECT_FAILURE_CODES && Within(e, MAX_DEPTH - depth, code)
            case None => forall code :: code in CONNECT_FAILURE_CODES ==> !Within(e, MAX_DEPTH - depth, code)
    decreases e, 0
  {
    if depth <= MAX_DEPTH && e.ErrorObject? {
      FirstIsWithin(e, |e.errors|, depth + 1);
      CodeIsWithin(e.cause, depth + 1);
    }
  }

  lemma {:induction false} FirstIsWithin(e: ErrorValue, n: nat, depth: nat)
    requires e.ErrorObject? && n <= |e.errors|
    ensures match FirstCode(e, n, depth)
            case Some(code) =>
              code in CONNECT_FAILURE_CODES
              && exists i :: |e.errors| - n <= i < |e.errors| && Within(e.errors[i], MAX_DEPTH - depth, code)
            case None =>
              forall code, i :: code in CONNECT_FAILURE_CODES && |e.errors| - n <= i < |e.errors| ==>
                !Within(e.errors[i], MAX_DEPTH - depth, code)
    decreases e, 0, n
  {
    if n > 0 {
      CodeIsWithin(e.errors[|e.errors| - n], depth);
      FirstIsWithin(e, n - 1, depth);
    }
  }

  lemma {:induction false} WithinFarther(e: ErrorValue, near: int, far: int, code: string)
    requires Within(e, near, code) && near <= far
    ensures Within(e, far, code)
    decreases e
  {
    if e.code == Some(code) {
    } else if Within(e.cause, near - 1, code) {
      WithinFarther(e.cause, near - 1, far - 1, code);
    } else {
      var i :| 0 <= i < |e.errors| && Within(e.errors[i], near - 1, code);
      WithinFarther(e.errors[i], near - 1, far - 1, code);
    }
  }

  lemma {:induction false} DnsFarther(e: ErrorValue, near: nat, far: nat)
    requires IsDnsFailure(e, far) && near <= far
    ensures IsDnsFailure(e, near)
    decreases e
  {
    if !(e.code.Some? && e.code.value in DNS_CODES) {
      DnsFarther(e.cause, near + 1, far + 1);
    }
  }

  /** The failure proves that the request was not sent. */
  predicate ProvesUnsent(e: ErrorValue) {
    ConnectFailureCode(e, 0).Some? || IsDnsFailure(e, 0)
  }

  /** A connect failure lies within four steps of this error. */
  ghost predicate ConnectFailed(e: ErrorValue) {
    || Within(e, 4, "ECONNREFUSED") || Within(e, 4, "EHOSTUNREACH") || Within(e, 4, "ENETUNREACH")
    || Within(e, 4, "ENETDOWN") || Within(e, 4, "UND_ERR_CONNECT_TIMEOUT")
  }

  /** The `n`-th cause under this error, if there is one. */
  function CauseAt(e: ErrorValue, n: nat): ErrorValue {
    if n == 0 || e.NotAnObject? then e else CauseAt(e.cause, n - 1)
  }

  predicate NoName(e: ErrorValue) {
    e.ErrorObject? && (e.code == Some("ENOTFOUND") || e.code == Some("EAI_AGAIN"))
  }

  /** A name could not be resolved: this error, or one of its first four causes in turn, says so. */
  ghost predicate NameFailed(e: ErrorValue) {
    exists n :: 0 <= n <= 4 && NoName(CauseAt(e, n))
  }

  lemma {:induction false} DnsIsCause(e: ErrorValue, depth: nat)
    requires IsDnsFailure(e, depth)
    ensures exists n :: 0 <= n <= MAX_DEPTH - depth && NoName(CauseAt(e, n))
    decreases e
  {
    if NoName(e) {
      assert CauseAt(e, 0) == e;
    } else {
      DnsIsCause(e.cause, depth + 1);
      var n :| 0 <= n <= MAX_DEPTH - (depth + 1) && NoName(CauseAt(e.cause, n));
      assert CauseAt(e, n + 1) == CauseAt(e.cause, n);
    }
  }

  lemma {:induction false} CauseIsDns(e: ErrorValue, depth: nat, n: nat)
    requires depth + n <= MAX_DEPTH && NoName(CauseAt(e, n))
    ensures IsDnsFailure(e, depth)
    decreases n
  {
    if n > 0 && e.ErrorObject? {
      CauseIsDns(e.cause, depth + 1, n - 1);
    }
  }

  /** The request is known not to have been sent exactly when it never got a connection, or a name. */
  lemma UnsentIsExact(e: ErrorValue)
    ensures ProvesUnsent(e) <==> ConnectFailed(e) || NameFailed(e)
    ensures ConnectFailureCode(e, 0).Some? <==> ConnectFailed(e)
  {
    hide Within, CauseAt, NoName, IsDnsFailure, ConnectFailureCode;
    CodeIsWithin(e, 0);
    if IsDnsFailure(e, 0) {
      DnsIsCause(e, 0);
    }
    if NameFailed(e) {
      var n :| 0 <= n <= 4 && NoName(CauseAt(e, n));
      CauseIsDns(e, 0, n);
    }
  }

  function Wrap(e: ErrorValue): ErrorValue { ErrorObject(None, [], e) }

  /** Wrapping an error never makes it prove more than it did. */
  lemma WrapProvesNoMore(e: ErrorValue)
    requires ProvesUnsent(Wrap(e))
    ensures ProvesUnsent(e)
  {
    CodeIsWithin(Wrap(e), 0);
    CodeIsWithin(e, 0);
    var found := ConnectFailureCode(Wrap(e), 0);
    if found.Some? {
      assert Within(e, MAX_DEPTH - 1, found.value);
      WithinFarther(e, MAX_DEPTH - 1, MAX_DEPTH, found.value);
    } else {
      DnsFarther(e, 0, 1);
    }
  }

  // ---- one request ----------------------------------------------------------------------

  /** How one attempt ended; `reached` says whether the request reached the server. */
  datatype Attempt =
    | Responded
    | Rejected(error: ErrorValue, timedOut: bool, aborted: bool, expired: bool, reached: bool)

  /** The request: whether its body can be replayed, and whether its method only reads. */
  datatype Request = Request(replayable: bool, readOnly: bool)

  datatype Fetched = Fetched(attempts: seq<Attempt>, failure: Option<ErrorValue>)

  function IsRetryable(code: Option<string>, timedOut: bool, request: Request): bool {
    request.replayable && (code.Some? || (timedOut && request.readOnly))
  }

  function TransportFailure(error: ErrorValue, code: Option<string>, timedOut: bool): ErrorValue {
    if code.Some? || timedOut then Wrap(error) else error
  }

  /** What a failed attempt surfaces when it is the last one. */
  function Surfaced(a: Attempt): ErrorValue
    requires a.Rejected?
  {
    if a.aborted then a.error
    else if a.expired then Wrap(a.error)
    else TransportFailure(a.error, ConnectFailureCode(a.error, 0), a.timedOut)
  }

  /** `managed` is false for a caller-supplied transport, which is never retried. */
  predicate Retries(managed: bool, request: Request, first: Attempt)
    requires first.Rejected?
  {
    !first.aborted && !first.expired && managed &&
        IsRetryable(ConnectFailureCode(first.error, 0), first.timedOut, request)
  }

  function Fetch(managed: bool, request: Request, first: Attempt, retry: Attempt): Fetched {
    if first.Responded? then Fetched([first], None)
    else if !Retries(managed, request, first) then Fetched([first], Some(Surfaced(first)))
    else Fetched([first, retry], if retry.Responded? then None else Some(Surfaced(retry)))
  }

  /**
   One attempt, and a second one exactly when the first failed without being aborted or out of time,
   on a managed transport, with a body that can be sent again, and either never got a connection or
   timed out while only reading.  What surfaces is the last attempt's failure, wrapped unless it was
   aborted or is none of these.
   */
  lemma FetchIsExact(managed: bool, request: Request, first: Attempt, retry: Attempt)
    ensures var sent := Fetch(managed, request, first, retry).attempts;
            && 1 <= |sent| <= 2 && sent[0] == first && (|sent| == 2 ==> sent[1] == retry)
            && (|sent| == 2 <==>
                  && first.Rejected? && !first.aborted && !first.expired && managed && request.replayable
                  && (ConnectFailed(first.error) || (first.timedOut && request.readOnly)))
    ensures var fetched := Fetch(managed, request, first, retry);
            var last := fetched.attempts[|fetched.attempts| - 1];
            && (fetched.failure.None? <==> last.Responded?)
            && (last.Rejected? ==>
                  fetched.failure.value
                  == if !last.aborted && (last.expired || last.timedOut || ConnectFailed(last.error))
                     then ErrorObject(None, [], last.error) else last.error)
  {
    hide ConnectFailed, ConnectFailureCode;
    if first.Rejected? {
      UnsentIsExact(first.error);
    }
    if retry.Rejected? {
      UnsentIsExact(retry.error);
    }
  }

  predicate Reached(a: Attempt) { a.Responded? || a.reached }

  /** A connect or name-resolution failure means the request was not sent. */
  predicate Truthful(a: Attempt) {
    a.Rejected? && ProvesUnsent(a.error) ==> !a.reached
  }

  lemma SurfacedProvesNoMore(a: Attempt)
    requires a.Rejected? && ProvesUnsent(Surfaced(a))
    ensures ProvesUnsent(a.error)
  {
    if Surfaced(a) == Wrap(a.error) && Surfaced(a) != a.error {
      WrapProvesNoMore(a.error);
    }
  }

  /** A request that does more than read reaches the server at most once. */
  lemma WritesReachOnce(managed: bool, request: Request, first: Attempt, retry: Attempt)
    requires Truthful(first) && Truthful(retry) && !request.readOnly
    ensures var sent := Fetch(managed, request, first, retry).attempts;
            forall i, j :: 0 <= i < j < |sent| ==> !(Reached(sent[i]) && Reached(sent[j]))
  {
  }

  /**
   When what surfaces proves the request unsent, also after one more layer of wrapping, no
   attempt of a request that does more than read reached the server.
   */
  lemma UnsentMeansUnsent(managed: bool, request: Request, first: Attempt, retry: Attempt)
    requires Truthful(first) && Truthful(retry) && !request.readOnly
    requires var failure := Fetch(managed, request, first, retry).failure;
             failure.Some? && (ProvesUnsent(failure.value) || ProvesUnsent(Wrap(failure.value)))
    ensures forall a :: a in Fetch(managed, request, first, retry).attempts ==> !Reached(a)
  {
    var fetched := Fetch(managed, request, first, retry);
    if ProvesUnsent(Wrap(fetched.failure.value)) {
      WrapProvesNoMore(fetched.failure.value);
    }
    SurfacedProvesNoMore(fetched.attempts[|fetched.attempts| - 1]);
  }

  /** A timed-out read may reach the server twice. */
  lemma ReadsMayReachTwice()
    ensures var lost := Rejected(ErrorObject(None, [], NotAnObject), true, false, false, true);
            var sent := Fetch(true, Request(true, true), lost, Responded).attempts;
            Truthful(lost) && |sent| == 2 && Reached(sent[0]) && Reached(sent[1])
  {
  }
}
