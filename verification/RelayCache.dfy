/**
 What every run of the relay protocol keeps about the worker's cursor and response cache: no
 delivery is passed over unanswered, and one delivery is only ever answered with one envelope.
 */
module RelayCache {
  import opened Wrappers
  import opened Protocol
  import opened RelayQueue
  import opened RelayProtocol
  import opened RelayLedger
  import LedgerModel
  import AdapterServer

  // ---- pages over time ------------------------------------------------------------------

  lemma {:induction false} SelectSplits(a: seq<StoredDelivery>, b: seq<StoredDelivery>, did: Did, after: nat, now: int)
    ensures Select(a + b, did, after, now) == Select(a, did, after, now) + Select(b, did, after, now)
  {
    if b == [] {
      assert a + b == a;
    } else {
      SelectSplits(a, b[..|b| - 1], did, after, now);
      assert (a + b)[..|a + b| - 1] == a + b[..|b| - 1];
    }
  }

  lemma {:induction false} SelectShrinks(deliveries: seq<StoredDelivery>, did: Did, after: nat, now: int, after': nat,
                                         now': int)
    requires after <= after' && now <= now'
    ensures |Select(deliveries, did, after', now')| <= |Select(deliveries, did, after, now)|
  {
    if deliveries != [] {
      SelectShrinks(deliveries[..|deliveries| - 1], did, after, now, after', now');
    }
  }

  ghost predicate InWindow(deliveries: seq<StoredDelivery>, did: Did, after: nat, now: int, d: StoredDelivery) {
    d in FirstPage(Select(deliveries, did, after, now))
  }

  /** A delivery is on the first page when no more than a page of deliveries are wanted up to it. */
  lemma WindowIsRank(deliveries: seq<StoredDelivery>, did: Did, after: nat, now: int, i: nat)
    requires Ordered(deliveries) && i < |deliveries| && Wanted(deliveries[i], did, after, now)
    ensures InWindow(deliveries, did, after, now, deliveries[i]) <==>
            |Select(deliveries[..i + 1], did, after, now)| <= PAGE_SIZE
  {
    hide Select, FirstPage, Ordered;
    var upTo := Select(deliveries[..i + 1], did, after, now);
    SelectEnds(deliveries, did, after, now, i);
    var selected := Select(deliveries, did, after, now);
    SelectIsExact(deliveries, did, after, now);
    SelectSplits(deliveries[..i + 1], deliveries[i + 1..], did, after, now);
    assert deliveries[..i + 1] + deliveries[i + 1..] == deliveries;
    RankOfLast(selected, upTo, Select(deliveries[i + 1..], did, after, now));
  }

  lemma SelectEnds(deliveries: seq<StoredDelivery>, did: Did, after: nat, now: int, i: nat)
    requires i < |deliveries| && Wanted(deliveries[i], did, after, now)
    ensures Select(deliveries[..i + 1], did, after, now) == Select(deliveries[..i], did, after, now) + [deliveries[i]]
  {
    assert deliveries[..i + 1][..i] == deliveries[..i];
  }

  lemma RankOfLast(selected: seq<StoredDelivery>, upTo: seq<StoredDelivery>, rest: seq<StoredDelivery>)
    requires Ordered(selected) && selected == upTo + rest && upTo != []
    ensures upTo[|upTo| - 1] in FirstPage(selected) <==> |upTo| <= PAGE_SIZE
  {
    var d := upTo[|upTo| - 1];
    assert selected[|upTo| - 1] == d;
    var page := FirstPage(selected);
    if d in page {
      var j :| 0 <= j < |page| && page[j] == d;
      assert selected[j] == d;
      assert !(j < |upTo| - 1);
    }
    if |upTo| <= PAGE_SIZE {
      assert page[|upTo| - 1] == d;
    }
  }

  /** A delivery on the first page stays there while it is wanted: later polls only reach further. */
  lemma WindowKept(deliveries: seq<StoredDelivery>, later: seq<StoredDelivery>, did: Did, after: nat, now: int,
                   after': nat, now': int, d: StoredDelivery)
    requires Ordered(deliveries) && Ordered(later) && deliveries <= later && after <= after' && now <= now'
    requires InWindow(deliveries, did, after, now, d) && Wanted(d, did, after', now')
    ensures InWindow(later, did, after', now', d)
  {
    hide InWindow, Select;
    HeldInWindow(deliveries, did, after, now, d);
    var i :| 0 <= i < |deliveries| && deliveries[i] == d;
    WindowIsRank(deliveries, did, after, now, i);
    WindowIsRank(later, did, after', now', i);
    assert later[..i + 1] == deliveries[..i + 1];
    SelectShrinks(deliveries[..i + 1], did, after, now, after', now');
  }

  lemma HeldInWindow(deliveries: seq<StoredDelivery>, did: Did, after: nat, now: int, d: StoredDelivery)
    requires Ordered(deliveries) && InWindow(deliveries, did, after, now, d)
    ensures d in deliveries && Wanted(d, did, after, now)
  {
    PageIsPrefix(deliveries, did, after, now);
  }

  // ---- what is kept ---------------------------------------------------------------------

  /** The relay, the state file, the page in hand, and what has happened. */
  datatype Held = Held(
    relay: Relay,
    disk: WorkerState,
    page: seq<StoredDelivery>,
    at: nat,
    submitted: seq<Submitted>,
    accepted: seq<ActionResponse>,
    missed: set<nat>,
    polls: seq<PageAnswer>)

  function HeldOf(w: World): Held {
    match w.process
    case None => Held(w.relay, w.disk, [], 0, w.submitted, w.accepted, w.missed, w.polls)
    case Some(p) => Held(w.relay, w.disk, p.page, p.at, w.submitted, w.accepted, w.missed, w.polls)
  }

  function Cursor(h: Held): nat { After(h.disk.cursor) }

  function FingerprintIn(d: StoredDelivery): DeliveryFingerprint
    requires d.envelope.payload.RequestPayload?
  {
    DeliveryFingerprintOf(d.envelope)
  }

  function HashNamed(f: DeliveryFingerprint): EnvelopeHash { HashOf(f.request.package.envelope) }

  ghost predicate Accepted(accepted: seq<ActionResponse>, hash: EnvelopeHash) {
    exists r :: r in accepted && r.hash == Some(hash)
  }

  /** The relay will never deliver it to this worker again. */
  ghost predicate Past(h: Held, d: StoredDelivery) {
    d.sequence <= Cursor(h) || (EnvelopeExpired(d.envelope, h.relay.now) && d !in h.page)
  }

  /** A page from before this delivery to behind it left it out because it was expired at that poll. */
  ghost predicate PassedExpired(polls: seq<PageAnswer>, d: StoredDelivery) {
    exists q :: q in polls && PassesOver(q, d) && EnvelopeExpired(d.envelope, q.now)
  }

  predicate PassesOver(q: PageAnswer, d: StoredDelivery) {
    q.page != [] && q.after < d.sequence <= LastSequence(q.page) && d !in q.page
  }

  /** It was expired when the worker reached it, its response was accepted, or a page passed it expired. */
  ghost predicate Closed(h: Held, d: StoredDelivery)
    requires d.envelope.payload.RequestPayload?
  {
    d.sequence in h.missed || Accepted(h.accepted, HashIn(d)) || PassedExpired(h.polls, d)
  }

  ghost predicate ResponseFor(envelope: DeliveryEnvelope, hash: EnvelopeHash) {
    envelope.payload.ResponsePayload? && envelope.payload.response.hash == Some(hash)
  }

  /** A cached response's delivery is still ahead, or never comes again. */
  ghost predicate CacheReached(h: Held, did: Did, d: StoredDelivery)
    requires d.envelope.payload.RequestPayload?
  {
    FingerprintIn(d) in h.disk.responses ==>
      Past(h, d) || d in h.page || (h.page == [] && InWindow(h.relay.deliveries, did, Cursor(h), h.relay.now, d))
  }

  /** A delivery on the page in hand would be delivered again if the page were dropped. */
  ghost predicate PageReached(h: Held, did: Did, d: StoredDelivery) {
    d in h.page ==>
      && d.sequence > Cursor(h)
      && (EnvelopeExpired(d.envelope, h.relay.now) || InWindow(h.relay.deliveries, did, Cursor(h), h.relay.now, d))
  }

  /** What was submitted is still cached as it was, until its delivery never comes again. */
  ghost predicate StillCached(h: Held, d: StoredDelivery)
    requires d.envelope.payload.RequestPayload?
  {
    forall s :: s in h.submitted && s.fingerprint == FingerprintIn(d) ==>
      || Past(h, d)
      || (s.fingerprint in h.disk.responses && h.disk.responses[s.fingerprint].envelope == s.envelope)
  }

  /** Nothing is passed over: not by the cursor, nor by the page so far. */
  ghost predicate Answered(h: Held, d: StoredDelivery)
    requires d.envelope.payload.RequestPayload?
  {
    && (d.sequence <= Cursor(h) ==> Closed(h, d))
    && (forall i :: 0 <= i < h.at <= |h.page| && h.page[i] == d ==> Closed(h, d))
    && (h.page != [] && d !in h.page && d.sequence <= LastSequence(h.page) ==> Closed(h, d))
  }

  ghost predicate CachedOk(h: Held, d: StoredDelivery)
    requires d.envelope.payload.RequestPayload?
  {
    var f := FingerprintIn(d);
    f in h.disk.responses ==>
      && ResponseFor(h.disk.responses[f].envelope, HashIn(d))
      && (h.disk.responses[f].delivered ==> Accepted(h.accepted, HashIn(d)))
  }

  ghost predicate Tracked(h: Held, did: Did, d: StoredDelivery)
    requires d.envelope.payload.RequestPayload?
  {
    CacheReached(h, did, d) && PageReached(h, did, d) && StillCached(h, d) && Answered(h, d) && CachedOk(h, d)
  }

  /** A fingerprint names a relayed action, and is the one its delivery has. */
  ghost predicate Named(relay: Relay, f: DeliveryFingerprint) {
    && HashNamed(f) in relay.byHash && relay.byHash[HashNamed(f)].envelope.payload.RequestPayload?
    && f == DeliveryFingerprintOf(relay.byHash[HashNamed(f)].envelope)
  }

  ghost predicate AllNamed(h: Held) {
    && (forall f :: f in h.disk.responses ==> Named(h.relay, f))
    && (forall s :: s in h.submitted ==>
         Named(h.relay, s.fingerprint) && ResponseFor(s.envelope, HashNamed(s.fingerprint)))
  }

  ghost predicate OneSubmission(submitted: seq<Submitted>) {
    forall s, t :: s in submitted && t in submitted && s.fingerprint == t.fingerprint ==> s == t
  }

  ghost predicate FromSubmission(submitted: seq<Submitted>, r: ActionResponse) {
    exists s :: s in submitted && s.envelope.payload == ResponsePayload(r)
  }

  /** What was accepted was submitted, and the relay keeps what it accepted. */
  ghost predicate AcceptedKept(h: Held) {
    && (forall r :: r in h.accepted ==>
          FromSubmission(h.submitted, r) && r.hash.Some? && r.hash.value in h.relay.byHash &&
              h.relay.byHash[r.hash.value].response.Some?)
    && (forall k :: k in h.relay.byHash && h.relay.byHash[k].response.Some? ==>
          h.relay.byHash[k].response.value in h.accepted && h.relay.byHash[k].response.value.hash == Some(k))
  }

  ghost predicate PageOk(h: Held, did: Did) {
    && Ordered(h.page) && Cursor(h) < h.relay.next
    && forall d :: d in h.page ==> d in h.relay.deliveries && d.recipient == did && d.sequence > Cursor(h)
  }

  ghost predicate AllTracked(h: Held, did: Did) {
    forall d :: d in h.relay.deliveries && Addressed(d, did) ==> Tracked(h, did, d)
  }

  ghost predicate HeldOk(h: Held, did: Did) {
    && RelayOk(h.relay, did)
    && PageOk(h, did) && AllNamed(h) && OneSubmission(h.submitted) && AcceptedKept(h)
    && AllTracked(h, did)
  }

  /** How the process's copy of the state differs from the file, phase by phase. */
  ghost predicate Sync(h: Held, p: Process) {
    match p.phase
    case Idle => p.page == [] && p.state == h.disk
    case AtDelivery => p.page != [] && p.at <= |p.page| && p.state == h.disk
    case Dispatching => AtRequest(p) && p.state == h.disk && CurrentFingerprint(p) !in h.disk.responses
    case Caching =>
      && AtRequest(p) && CurrentFingerprint(p) !in h.disk.responses
      && CurrentFingerprint(p) in p.state.responses
      && var cached := p.state.responses[CurrentFingerprint(p)];
      && !cached.delivered && ResponseFor(cached.envelope, HashIn(Current(p)))
      && p.state == h.disk.(responses := h.disk.responses[CurrentFingerprint(p) := cached])
    case Submitting => AtRequest(p) && p.state == h.disk && CurrentFingerprint(p) in h.disk.responses
    case Marking =>
      && AtRequest(p) && CurrentFingerprint(p) in h.disk.responses && Accepted(h.accepted, HashIn(Current(p)))
      && var marked := h.disk.responses[CurrentFingerprint(p)].(delivered := true);
      && p.state == h.disk.(responses := h.disk.responses[CurrentFingerprint(p) := marked])
    case Finishing => p.page != [] && p.at == |p.page| && p.state == Finished(h.disk, LastSequence(p.page))
    case Stuck(error) => p.page == [] && !error.CursorNotAdvancing?
  }

  ghost predicate CacheInv(w: World, did: Did) {
    && HeldOk(HeldOf(w), did)
    && (w.process.Some? ==> Sync(HeldOf(w), w.process.value))
  }

  // ---- the relay moves ------------------------------------------------------------------

  lemma RelayReached(h: Held, relay: Relay, did: Did, d: StoredDelivery)
    requires Addressed(d, did) && CacheReached(h, did, d) && PageReached(h, did, d)
    requires Ordered(h.relay.deliveries) && Ordered(relay.deliveries) && Grows(h.relay, relay)
    ensures CacheReached(h.(relay := relay), did, d) && PageReached(h.(relay := relay), did, d)
  {
    hide InWindow, Ordered;
    if InWindow(h.relay.deliveries, did, Cursor(h), h.relay.now, d) && !EnvelopeExpired(d.envelope, relay.now) {
      HeldInWindow(h.relay.deliveries, did, Cursor(h), h.relay.now, d);
      WindowKept(h.relay.deliveries, relay.deliveries, did, Cursor(h), h.relay.now, Cursor(h), relay.now, d);
    }
  }

  lemma RelayTracked(h: Held, relay: Relay, did: Did, d: StoredDelivery)
    requires Addressed(d, did) && Tracked(h, did, d)
    requires Ordered(h.relay.deliveries) && Ordered(relay.deliveries) && Grows(h.relay, relay)
    ensures Tracked(h.(relay := relay), did, d)
  {
    hide CacheReached, PageReached, Ordered;
    RelayReached(h, relay, did, d);
  }

  /** A delivery of an action never relayed before: nothing was cached or submitted for it. */
  lemma NewTracked(h: Held, relay: Relay, did: Did, d: StoredDelivery)
    requires HeldOk(h, did) && Grows(h.relay, relay) && Addressed(d, did)
    requires HashIn(d) !in h.relay.byHash && d.sequence >= h.relay.next && d !in h.relay.deliveries
    ensures Tracked(h.(relay := relay), did, d)
  {
    hide Tracked, Ordered, OneSubmission, AcceptedKept, Filed, Queued;
    assert HashNamed(FingerprintIn(d)) == HashIn(d);
    if h.page != [] {
      assert h.page[|h.page| - 1] in h.page;
    }
    NewTrackedParts(h, relay, did, d);
  }

  lemma NewTrackedParts(h: Held, relay: Relay, did: Did, d: StoredDelivery)
    requires d.envelope.payload.RequestPayload?
    requires FingerprintIn(d) !in h.disk.responses && d !in h.page && d.sequence > Cursor(h)
    requires forall s :: s in h.submitted ==> s.fingerprint != FingerprintIn(d)
    requires h.page != [] ==> LastSequence(h.page) < d.sequence
    ensures Tracked(h.(relay := relay), did, d)
  {
  }

  /** The relay's books keep what they hold; a response may be added to one entry. */
  ghost predicate KeepsBooks(relay: Relay, later: Relay) {
    forall k :: k in relay.byHash ==>
      && k in later.byHash && later.byHash[k].envelope == relay.byHash[k].envelope
  }

  lemma NamedKept(h: Held, relay: Relay)
    requires AllNamed(h) && KeepsBooks(h.relay, relay)
    ensures AllNamed(h.(relay := relay))
  {
  }

  lemma ActionBooks(h: Held, envelope: DeliveryEnvelope, did: Did)
    requires AcceptedKept(h) && envelope.payload.RequestPayload?
    ensures var relay := BeginRelayedAction(h.relay, envelope, did);
            KeepsBooks(h.relay, relay) && AcceptedKept(h.(relay := relay))
  {
  }

  lemma ActionDeliveries(relay: Relay, envelope: DeliveryEnvelope, did: Did, d: StoredDelivery)
    requires envelope.payload.RequestPayload? && Sequenced(relay)
    requires d in BeginRelayedAction(relay, envelope, did).deliveries && d !in relay.deliveries
    ensures d.envelope == envelope && HashOf(EnvelopeIn(envelope)) !in relay.byHash && d.sequence >= relay.next
  {
    CopiesAre(relay.next, envelope);
  }

  lemma ActionHeld(h: Held, envelope: DeliveryEnvelope, did: Did)
    requires HeldOk(h, did) && envelope.payload.RequestPayload? && DistinctRecipients(envelope)
    ensures HeldOk(h.(relay := BeginRelayedAction(h.relay, envelope, did)), did)
  {
    hide Tracked, Filed, Queued, AllNamed, AcceptedKept, OneSubmission, BeginRelayedAction, Ordered;
    var relay := BeginRelayedAction(h.relay, envelope, did);
    ActionRelay(h.relay, envelope, did);
    ActionBooks(h, envelope, did);
    NamedKept(h, relay);
    PageKept(h, relay, did);
    forall d | d in relay.deliveries && Addressed(d, did)
      ensures Tracked(h.(relay := relay), did, d)
    {
      if d in h.relay.deliveries {
        RelayTracked(h, relay, did, d);
      } else {
        ActionDeliveries(h.relay, envelope, did, d);
        NewTracked(h, relay, did, d);
      }
    }
  }

  lemma PageKept(h: Held, relay: Relay, did: Did)
    requires PageOk(h, did) && Grows(h.relay, relay)
    ensures PageOk(h.(relay := relay), did)
  {
  }

  lemma TickHeld(h: Held, time: int, did: Did)
    requires HeldOk(h, did) && time >= h.relay.now
    ensures HeldOk(h.(relay := h.relay.(now := time)), did)
  {
    hide Tracked, Filed, Queued, Ordered;
    var relay := h.relay.(now := time);
    TickRelay(h.relay, time, did);
    forall d | d in relay.deliveries && Addressed(d, did)
      ensures Tracked(h.(relay := relay), did, d)
    {
      RelayTracked(h, relay, did, d);
    }
  }

  // ---- the worker moves -----------------------------------------------------------------

  /** The relay answered a poll with this page. */
  function Polled(h: Held, page: seq<StoredDelivery>): Held {
    h.(page := page, at := 0, polls := h.polls + [PageAnswer(Cursor(h), h.relay.now, page)])
  }

  /** A poll: everything cached and still ahead is on the page. */
  lemma PollTracked(h: Held, did: Did, d: StoredDelivery, page: seq<StoredDelivery>)
    requires Addressed(d, did) && d in h.relay.deliveries && Tracked(h, did, d) && h.page == [] &&
               Ordered(h.relay.deliveries)
    requires page == FirstPage(Select(h.relay.deliveries, did, Cursor(h), h.relay.now)) && page != []
    ensures Tracked(Polled(h, page), did, d)
  {
    hide Select, FirstPage;
    PageIsPrefix(h.relay.deliveries, did, Cursor(h), h.relay.now);
    PollAnswers(h, did, d, page);
  }

  /** What the page passes over was expired at this poll. */
  lemma PollAnswers(h: Held, did: Did, d: StoredDelivery, page: seq<StoredDelivery>)
    requires Addressed(d, did) && d in h.relay.deliveries && Answered(h, d) && h.page == [] && page != []
    requires forall e ::
               e in h.relay.deliveries && Wanted(e, did, Cursor(h), h.relay.now) && e.sequence <= LastSequence(page) ==>
                 e in page
    ensures Answered(Polled(h, page), d)
  {
    var x := Polled(h, page);
    var answer := PageAnswer(Cursor(h), h.relay.now, page);
    PollsGrow(h.polls, answer, d);
    if d.sequence > Cursor(h) && d !in page && d.sequence <= LastSequence(page) {
      assert answer in x.polls && PassesOver(answer, d) && EnvelopeExpired(d.envelope, answer.now);
    }
  }

  lemma PollsGrow(polls: seq<PageAnswer>, answer: PageAnswer, d: StoredDelivery)
    ensures PassedExpired(polls, d) ==> PassedExpired(polls + [answer], d)
  {
    if PassedExpired(polls, d) {
      var q :| q in polls && PassesOver(q, d) && EnvelopeExpired(d.envelope, q.now);
      assert q in polls + [answer];
    }
  }

  lemma PollHeld(h: Held, did: Did, page: seq<StoredDelivery>)
    requires HeldOk(h, did) && h.page == []
    requires page == FirstPage(Select(h.relay.deliveries, did, Cursor(h), h.relay.now)) && page != []
    ensures HeldOk(Polled(h, page), did)
  {
    hide Tracked, Filed, Queued, Select, FirstPage, Ordered, OneSubmission;
    PageIsPrefix(h.relay.deliveries, did, Cursor(h), h.relay.now);
    forall d | d in h.relay.deliveries && Addressed(d, did)
      ensures Tracked(Polled(h, page), did, d)
    {
      PollTracked(h, did, d, page);
    }
  }

  /** The page is dropped: what was on it is polled again, or is expired. */
  lemma LeaveTracked(h: Held, did: Did, d: StoredDelivery)
    requires Addressed(d, did) && Tracked(h, did, d)
    ensures Tracked(h.(page := [], at := 0), did, d)
  {
    hide InWindow;
  }

  lemma LeaveHeld(h: Held, did: Did)
    requires HeldOk(h, did)
    ensures HeldOk(h.(page := [], at := 0), did)
  {
    hide Tracked, RelayOk, OneSubmission;
    forall d | d in h.relay.deliveries && Addressed(d, did)
      ensures Tracked(h.(page := [], at := 0), did, d)
    {
      LeaveTracked(h, did, d);
    }
  }

  /** The current delivery is closed: it was expired, or its response was accepted. */
  lemma AdvanceTracked(h: Held, missed: set<nat>, did: Did, d: StoredDelivery)
    requires Addressed(d, did) && Tracked(h, did, d) && h.at < |h.page| && h.missed <= missed
    requires h.page[h.at] == d ==> Closed(h.(missed := missed), d)
    ensures Tracked(h.(at := h.at + 1, missed := missed), did, d)
  {
    hide InWindow;
  }

  lemma AdvanceHeld(h: Held, missed: set<nat>, did: Did)
    requires HeldOk(h, did) && h.at < |h.page| && h.missed <= missed
    requires h.page[h.at].envelope.payload.RequestPayload? && Closed(h.(missed := missed), h.page[h.at])
    ensures HeldOk(h.(at := h.at + 1, missed := missed), did)
  {
    hide Tracked, RelayOk, OneSubmission, Closed;
    forall d | d in h.relay.deliveries && Addressed(d, did)
      ensures Tracked(h.(at := h.at + 1, missed := missed), did, d)
    {
      AdvanceTracked(h, missed, did, d);
    }
  }

  /** Two deliveries to this verifier with one fingerprint are one delivery. */
  lemma OneFingerprint(relay: Relay, did: Did, d: StoredDelivery, e: StoredDelivery)
    requires RelayOk(relay, did) && d in relay.deliveries && e in relay.deliveries && Addressed(d, did) &&
               Addressed(e, did)
    requires FingerprintIn(d) == FingerprintIn(e)
    ensures d == e
  {
    assert SameAction(d, e, did);
  }

  function Recached(h: Held, f: DeliveryFingerprint, cached: Cached): Held {
    h.(disk := h.disk.(responses := h.disk.responses[f := cached]))
  }

  /** The current delivery's response enters the file, or is marked delivered there. */
  ghost predicate Recaches(h: Held, d: StoredDelivery, cached: Cached) {
    && h.at < |h.page| && h.page[h.at] == d && d.envelope.payload.RequestPayload?
    && ResponseFor(cached.envelope, HashIn(d))
    && (cached.delivered ==> Accepted(h.accepted, HashIn(d)))
    && (FingerprintIn(d) in h.disk.responses ==> h.disk.responses[FingerprintIn(d)].envelope == cached.envelope)
  }

  lemma RecachedTracked(h: Held, cached: Cached, did: Did, d: StoredDelivery, e: StoredDelivery)
    requires Recaches(h, d, cached) && Addressed(e, did) && Tracked(h, did, e)
    requires FingerprintIn(d) == FingerprintIn(e) ==> d == e
    ensures Tracked(Recached(h, FingerprintIn(d), cached), did, e)
  {
    hide InWindow;
  }

  lemma RecachedHeld(h: Held, cached: Cached, did: Did, d: StoredDelivery)
    requires HeldOk(h, did) && Recaches(h, d, cached)
    ensures HeldOk(Recached(h, FingerprintIn(d), cached), did)
  {
    hide Tracked, Recaches, Filed, Sequenced, AllNamed, AcceptedKept, OneSubmission;
    CurrentNamed(h, did, d, cached);
    var f := FingerprintIn(d);
    forall e | e in h.relay.deliveries && Addressed(e, did)
      ensures Tracked(Recached(h, f, cached), did, e)
    {
      if FingerprintIn(d) == FingerprintIn(e) {
        OneFingerprint(h.relay, did, d, e);
      }
      RecachedTracked(h, cached, did, d, e);
    }
    RecachedNamed(h, f, cached);
  }

  lemma CurrentNamed(h: Held, did: Did, d: StoredDelivery, cached: Cached)
    requires RelayOk(h.relay, did) && PageOk(h, did) && Recaches(h, d, cached)
    ensures d in h.relay.deliveries && Addressed(d, did) && Named(h.relay, FingerprintIn(d))
  {
    assert d in h.page;
  }

  lemma RecachedNamed(h: Held, f: DeliveryFingerprint, cached: Cached)
    requires AllNamed(h) && AcceptedKept(h) && Named(h.relay, f)
    ensures AllNamed(Recached(h, f, cached)) && AcceptedKept(Recached(h, f, cached))
  {
  }

  /** The current delivery's cached response is sent. */
  function Sent(h: Held, d: StoredDelivery): Held
    requires d.envelope.payload.RequestPayload? && FingerprintIn(d) in h.disk.responses
  {
    h.(submitted := h.submitted + [Submitted(FingerprintIn(d), h.disk.responses[FingerprintIn(d)].envelope)])
  }

  ghost predicate Sends(h: Held, d: StoredDelivery) {
    h.at < |h.page| && h.page[h.at] == d && d.envelope.payload.RequestPayload? && FingerprintIn(d) in h.disk.responses
  }

  lemma SentTracked(h: Held, did: Did, d: StoredDelivery, e: StoredDelivery)
    requires Sends(h, d) && Addressed(e, did) && Tracked(h, did, e)
    ensures Tracked(Sent(h, d), did, e)
  {
    hide InWindow;
  }

  lemma SentOnce(h: Held, did: Did, d: StoredDelivery)
    requires HeldOk(h, did) && Sends(h, d)
    ensures OneSubmission(Sent(h, d).submitted) && AllNamed(Sent(h, d)) && AcceptedKept(Sent(h, d))
  {
    hide InWindow, Filed, Sequenced;
    assert d in h.page;
    assert Tracked(h, did, d);
    assert !Past(h, d);
  }

  lemma SentHeld(h: Held, did: Did, d: StoredDelivery)
    requires HeldOk(h, did) && Sends(h, d)
    ensures HeldOk(Sent(h, d), did)
  {
    SentOnce(h, did, d);
    hide Tracked, RelayOk, AllNamed, AcceptedKept, OneSubmission, Sent, Sends;
    SentFrame(h, d);
    forall e | e in h.relay.deliveries && Addressed(e, did)
      ensures Tracked(Sent(h, d), did, e)
    {
      SentTracked(h, did, d, e);
    }
  }

  lemma SentFrame(h: Held, d: StoredDelivery)
    requires Sends(h, d)
    ensures Sent(h, d) == h.(submitted := Sent(h, d).submitted)
  {
  }

  /** The relay accepts a response that was submitted. */
  function Taken(h: Held, envelope: DeliveryEnvelope, did: Did): Held
    requires RelayAccepts(h.relay, envelope, did)
  {
    h.(relay := SubmitResponseDelivery(h.relay, envelope, did), accepted := h.accepted + [envelope.payload.response])
  }

  lemma TakenBooks(h: Held, envelope: DeliveryEnvelope, did: Did)
    requires RelayAccepts(h.relay, envelope, did) && AcceptedKept(h)
    requires FromSubmission(h.submitted, envelope.payload.response)
    ensures AcceptedKept(Taken(h, envelope, did)) && KeepsBooks(h.relay, Taken(h, envelope, did).relay)
  {
    var r := envelope.payload.response;
    var k := r.hash.value;
    var relay := Taken(h, envelope, did).relay;
    assert relay.byHash[k].response.Some?;
    assert forall other :: other in h.relay.byHash && other != k ==> relay.byHash[other] == h.relay.byHash[other];
  }

  lemma MoreAccepted(h: Held, r: ActionResponse, did: Did, d: StoredDelivery)
    requires Addressed(d, did) && Tracked(h, did, d)
    ensures Tracked(h.(accepted := h.accepted + [r]), did, d)
  {
    hide InWindow;
    assert Accepted(h.accepted, HashIn(d)) ==> Accepted(h.accepted + [r], HashIn(d));
  }

  lemma TakenDeliveries(relay: Relay, envelope: DeliveryEnvelope, did: Did, d: StoredDelivery)
    requires RelayAccepts(relay, envelope, did)
    requires d in SubmitResponseDelivery(relay, envelope, did).deliveries && Addressed(d, did)
    ensures d in relay.deliveries
  {
    CopiesAre(relay.next, envelope);
  }

  lemma TakenTracked(h: Held, envelope: DeliveryEnvelope, did: Did, d: StoredDelivery)
    requires HeldOk(h, did) && RelayAccepts(h.relay, envelope, did)
    requires d in SubmitResponseDelivery(h.relay, envelope, did).deliveries && Addressed(d, did)
    ensures Tracked(Taken(h, envelope, did), did, d)
  {
    hide Tracked, Filed, Queued, Ordered, AllNamed, AcceptedKept, OneSubmission, SubmitResponseDelivery, PageOk;
    TakenDeliveries(h.relay, envelope, did, d);
    ResponseRelay(h.relay, envelope, did);
    RelayTracked(h, SubmitResponseDelivery(h.relay, envelope, did), did, d);
    MoreAccepted(h.(relay := SubmitResponseDelivery(h.relay, envelope, did)), envelope.payload.response, did, d);
  }

  lemma TakenHeld(h: Held, envelope: DeliveryEnvelope, did: Did)
    requires HeldOk(h, did) && RelayAccepts(h.relay, envelope, did)
    requires FromSubmission(h.submitted, envelope.payload.response)
    ensures HeldOk(Taken(h, envelope, did), did)
  {
    hide Tracked, RelayOk, AllNamed, AcceptedKept, OneSubmission, SubmitResponseDelivery, RelayAccepts, PageOk;
    var x := Taken(h, envelope, did);
    ResponseRelay(h.relay, envelope, did);
    TakenBooks(h, envelope, did);
    NamedKept(h, x.relay);
    PageKept(h, x.relay, did);
    TakenFrame(h.(relay := x.relay), x.accepted, did);
    forall d | d in x.relay.deliveries && Addressed(d, did)
      ensures Tracked(x, did, d)
    {
      TakenTracked(h, envelope, did, d);
    }
  }

  lemma TakenFrame(h: Held, accepted: seq<ActionResponse>, did: Did)
    requires AllNamed(h) && PageOk(h, did)
    ensures AllNamed(h.(accepted := accepted)) && PageOk(h.(accepted := accepted), did)
  {
  }

  /** The page is complete: the cursor moves past it, and its delivered responses are forgotten. */
  function Completed(h: Held): Held
    requires h.page != []
  {
    h.(disk := Finished(h.disk, LastSequence(h.page)), page := [], at := 0)
  }

  lemma CompletedTracked(h: Held, did: Did, d: StoredDelivery)
    requires h.page != [] && h.at == |h.page| && PageOk(h, did)
    requires Addressed(d, did) && d in h.relay.deliveries && Tracked(h, did, d)
    ensures Tracked(Completed(h), did, d)
  {
    hide InWindow;
    LastIsLatest(h.page);
    assert h.page[|h.page| - 1] in h.page;
    assert d in h.page ==> exists i :: 0 <= i < h.at && h.page[i] == d;
  }

  lemma CompletedHeld(h: Held, did: Did)
    requires HeldOk(h, did) && h.page != [] && h.at == |h.page|
    ensures HeldOk(Completed(h), did)
  {
    hide Tracked, Filed, Queued, OneSubmission, Ordered;
    assert h.page[|h.page| - 1] in h.page;
    forall d | d in h.relay.deliveries && Addressed(d, did)
      ensures Tracked(Completed(h), did, d)
    {
      CompletedTracked(h, did, d);
    }
    OrderedEmpty();
  }

  lemma OrderedEmpty()
    ensures Ordered([])
  {
  }

  // ---- every step -----------------------------------------------------------------------

  /** Nothing was written or sent; at most the page was dropped. */
  ghost predicate Quiet(w: World, x: World) {
    && x.process.Some? && Sync(HeldOf(x), x.process.value)
    && (HeldOf(x) == HeldOf(w) || HeldOf(x) == HeldOf(w).(page := [], at := 0))
  }

  lemma QuietCache(w: World, x: World, did: Did)
    requires CacheInv(w, did) && Quiet(w, x)
    ensures CacheInv(x, did)
  {
    hide HeldOk, Sync;
    LeaveHeld(HeldOf(w), did);
  }

  /** The worker is about to ask the adapter about the current delivery, or is waiting for it. */
  ghost predicate Asking(w: World, p: Process) {
    && w.process == Some(p) && AtRequest(p) && p.state == w.disk && CurrentFingerprint(p) !in w.disk.responses
  }

  /** A process that differs from `p` in its index and phase only. */
  ghost predicate Reindexed(p: Process, q: Process) {
    p.state == q.state && p.page == q.page && p.at == q.at
  }

  lemma RespondQuiet(w: World, p: Process, q: Process, x: World, response: ActionResponse, clock: int, did: Did)
    requires Asking(w, p) && Reindexed(p, q) && x.process == Some(Respond(q, response, clock, did))
    requires HeldOf(x.(process := None)) == HeldOf(w.(process := None))
    ensures Quiet(w, x)
  {
  }

  lemma RecordQuiet(w: World, p: Process, response: ActionResponse, clock: int, fate: LedgerModel.AppendFate, did: Did)
    requires Asking(w, p)
    ensures Quiet(w, Record(w, p, response, clock, fate, did))
  {
    hide LedgerModel.Resolve, Respond, Sync;
    var (ledger, ok) := LedgerModel.Resolve(LedgerModel.Ledger(w.journal, p.index), CurrentEnvelope(p).actionId,
                                            response.result, Some(response), fate);
    if ok {
      RespondQuiet(w, p, p.(index := ledger.index), Record(w, p, response, clock, fate, did), response, clock, did);
    } else {
      LeaveQuiet(w, p, p.(index := ledger.index), Record(w, p, response, clock, fate, did), Idle);
    }
  }

  lemma LeaveQuiet(w: World, p: Process, q: Process, x: World, phase: Phase)
    requires w.process == Some(p) && p.state == w.disk && Reindexed(p, q) && x.process == Some(Leave(q, phase))
    requires HeldOf(x.(process := None)) == HeldOf(w.(process := None))
    requires phase.Idle? || (phase.Stuck? && !phase.error.CursorNotAdvancing?)
    ensures Quiet(w, x)
  {
  }

  lemma HandleQuiet(w: World, p: Process, handling: Handling, clock: int, detail: string, fate: LedgerModel.AppendFate,
                    did: Did)
    requires Asking(w, p) && Sync(HeldOf(w), p)
    ensures Quiet(w, Handle(w, p, handling, clock, detail, fate, did))
  {
    hide LedgerModel.Authorize, Respond;
    var x := Handle(w, p, handling, clock, detail, fate, did);
    match handling
    case AnswerStateless(kind) =>
      if !IsDispatchResult(kind) {
        RespondQuiet(w, p, p, x, ActionResponse(kind, Some(HashOf(CurrentEnvelope(p))), did, detail), clock, did);
      } else {
        LeaveQuiet(w, p, p, x, Idle);
      }
    case _ =>
  }

  lemma ProcessActionQuiet(w: World, p: Process, handling: Handling, clock: int, detail: string,
                           fate: LedgerModel.AppendFate, did: Did)
    requires Asking(w, p) && Sync(HeldOf(w), p)
    ensures Quiet(w, ProcessAction(w, p, handling, clock, detail, fate, did))
  {
    hide LedgerModel.RecoveryFor, LedgerModel.Check, Respond, Record, Handle, Sync, Quiet;
    var x := ProcessAction(w, p, handling, clock, detail, fate, did);
    var hash := HashOf(CurrentEnvelope(p));
    match LedgerModel.RecoveryFor(p.index, hash.envelope.actionId, hash)
    case Some(Recovery(_, Some(response))) => RespondQuiet(w, p, p, x, response, clock, did);
    case Some(Recovery(Indeterminate, None)) =>
      RecordQuiet(w, p, ActionResponse(Indeterminate, Some(hash), did, detail), clock, fate, did);
    case _ =>
      if hash in p.refused {
        RespondQuiet(w, p, p, x, ActionResponse(p.refused[hash], Some(hash), did, detail), clock, did);
      } else {
        match LedgerModel.Check(p.index, hash.envelope.actionId, hash)
        case InFlight => LeaveQuiet(w, p, p, x, Idle);
        case ReplayDetected => LeaveQuiet(w, p, p, x, Stuck(ReplayFatal));
        case HashMismatch => LeaveQuiet(w, p, p, x, Stuck(MismatchFatal));
        case Absent => HandleQuiet(w, p, handling, clock, detail, fate, did);
      }
  }

  lemma DeliverCache(w: World, p: Process, clock: int, handling: Handling, detail: string, fate: LedgerModel.AppendFate,
                     did: Did)
    requires CacheInv(w, did) && w.process == Some(p) && p.phase.AtDelivery? && p.at < |p.page|
    ensures CacheInv(DoDeliver(w, p, clock, handling, detail, fate, did), did)
  {
    hide HeldOk, ProcessAction, Quiet, Closed;
    var x := DoDeliver(w, p, clock, handling, detail, fate, did);
    var d := Current(p);
    if !AtRequest(p) {
      LeaveQuiet(w, p, p, x, Stuck(UnsupportedPayload));
      QuietCache(w, x, did);
    } else if did !in d.envelope.recipients {
      LeaveQuiet(w, p, p, x, Stuck(NotAddressed));
      QuietCache(w, x, did);
    } else if EnvelopeExpired(d.envelope, clock) {
      MissedIsClosed(HeldOf(w), d);
      AdvanceHeld(HeldOf(w), w.missed + {d.sequence}, did);
    } else if CurrentFingerprint(p) in p.state.responses {
      if p.state.responses[CurrentFingerprint(p)].delivered {
        DeliveredIsClosed(HeldOf(w), did, d);
        AdvanceHeld(HeldOf(w), w.missed, did);
      }
    } else {
      ProcessActionQuiet(w, p, handling, clock, detail, fate, did);
      QuietCache(w, x, did);
    }
  }

  lemma MissedIsClosed(h: Held, d: StoredDelivery)
    requires d.envelope.payload.RequestPayload?
    ensures Closed(h.(missed := h.missed + {d.sequence}), d)
  {
  }

  lemma DeliveredIsClosed(h: Held, did: Did, d: StoredDelivery)
    requires HeldOk(h, did) && d in h.page && d.envelope.payload.RequestPayload?
    requires FingerprintIn(d) in h.disk.responses && h.disk.responses[FingerprintIn(d)].delivered
    ensures Closed(h, d)
  {
    hide Filed, Queued, Sequenced, AllNamed, OneSubmission, AcceptedKept;
    assert Tracked(h, did, d);
  }

  lemma PollCache(w: World, p: Process, did: Did)
    requires CacheInv(w, did) && w.process == Some(p) && p.phase.Idle?
    ensures CacheInv(DoPoll(w, p, did), did)
  {
    hide HeldOk, FirstPage, Select;
    var page := FirstPage(Select(w.relay.deliveries, did, After(w.disk.cursor), w.relay.now));
    if page != [] {
      PollHeld(HeldOf(w), did, page);
    }
  }

  /** The response is written to the file, or the failed save leaves the worker stuck. */
  lemma SaveCachedCache(w: World, p: Process, save: LedgerModel.AppendFate, did: Did)
    requires CacheInv(w, did) && w.process == Some(p) && p.phase.Caching?
    ensures CacheInv(DoSave(w, p, save, p.(phase := Submitting)), did)
  {
    hide HeldOk;
    var h := HeldOf(w);
    RecachedHeld(h, p.state.responses[CurrentFingerprint(p)], did, Current(p));
    LeaveHeld(h, did);
    LeaveHeld(Recached(h, CurrentFingerprint(p), p.state.responses[CurrentFingerprint(p)]), did);
  }

  lemma MarkRecaches(h: Held, p: Process, did: Did)
    requires HeldOk(h, did) && h.page == p.page && h.at == p.at && AtRequest(p)
    requires CurrentFingerprint(p) in h.disk.responses && Accepted(h.accepted, HashIn(Current(p)))
    ensures Recaches(h, Current(p), h.disk.responses[CurrentFingerprint(p)].(delivered := true))
  {
    hide Filed, Queued, Sequenced, AllNamed, OneSubmission, AcceptedKept;
    assert Current(p) in h.page;
    assert Tracked(h, did, Current(p));
  }

  /** The accepted response is marked delivered in the file, and the worker moves on. */
  lemma SaveMarkCache(w: World, p: Process, save: LedgerModel.AppendFate, did: Did)
    requires CacheInv(w, did) && w.process == Some(p) && p.phase.Marking?
    ensures CacheInv(DoSave(w, p, save, p.(at := p.at + 1, phase := AtDelivery)), did)
  {
    hide HeldOk, Accepted;
    var h := HeldOf(w);
    var marked := h.disk.responses[CurrentFingerprint(p)].(delivered := true);
    MarkRecaches(h, p, did);
    RecachedHeld(h, marked, did, Current(p));
    var k := Recached(h, CurrentFingerprint(p), marked);
    AdvanceHeld(k, k.missed, did);
    LeaveHeld(h, did);
    LeaveHeld(k, did);
  }

  lemma SubmitCache(w: World, p: Process, how: SubmitFate, did: Did)
    requires CacheInv(w, did) && w.process == Some(p) && p.phase.Submitting? && AtRequest(p)
    requires CurrentFingerprint(p) in p.state.responses
    ensures CacheInv(DoSubmit(w, p, how, did), did)
  {
    hide HeldOk, RelayAccepts, SubmitResponseDelivery;
    var h := HeldOf(w);
    var envelope := p.state.responses[CurrentFingerprint(p)].envelope;
    SentHeld(h, did, Current(p));
    var sent := Sent(h, Current(p));
    LeaveHeld(sent, did);
    if how.Arrived? && how.admissible && RelayAccepts(w.relay, envelope, did) {
      SentResponse(h, did, Current(p));
      TakenHeld(sent, envelope, did);
      LeaveHeld(Taken(sent, envelope, did), did);
    }
  }

  /** What is sent is a response to the current delivery, and is on record as submitted. */
  lemma SentResponse(h: Held, did: Did, d: StoredDelivery)
    requires HeldOk(h, did) && Sends(h, d)
    ensures var envelope := h.disk.responses[FingerprintIn(d)].envelope;
            && ResponseFor(envelope, HashIn(d))
            && FromSubmission(Sent(h, d).submitted, envelope.payload.response)
            && Accepted(h.accepted + [envelope.payload.response], HashIn(d))
  {
    hide Filed, Queued, Sequenced, AllNamed, OneSubmission, AcceptedKept;
    assert d in h.page;
    assert Tracked(h, did, d);
    var envelope := h.disk.responses[FingerprintIn(d)].envelope;
    assert Submitted(FingerprintIn(d), envelope) in Sent(h, d).submitted;
    assert envelope.payload.response in h.accepted + [envelope.payload.response];
  }

  lemma FinishCache(w: World, p: Process, did: Did)
    requires CacheInv(w, did) && w.process == Some(p) && p.phase.AtDelivery? && p.page != [] && p.at == |p.page|
    ensures CacheInv(w.(process := Some(DoFinish(p))), did)
  {
    hide RelayOk, AllNamed, OneSubmission, AcceptedKept, Tracked;
    assert p.page[|p.page| - 1] in p.page;
  }

  lemma SaveFinishCache(w: World, p: Process, save: LedgerModel.AppendFate, did: Did)
    requires CacheInv(w, did) && w.process == Some(p) && p.phase.Finishing?
    ensures CacheInv(DoSave(w, p, save, Leave(p, Idle)), did)
  {
    hide HeldOk;
    CompletedHeld(HeldOf(w), did);
    LeaveHeld(HeldOf(w), did);
  }

  lemma CrashCache(w: World, did: Did)
    requires CacheInv(w, did)
    ensures CacheInv(w.(process := None), did)
  {
    hide HeldOk, Sync;
    LeaveHeld(HeldOf(w), did);
  }

  lemma RelayCacheStep(w: World, relay: Relay, did: Did)
    requires CacheInv(w, did) && HeldOk(HeldOf(w).(relay := relay), did)
    ensures CacheInv(w.(relay := relay), did)
  {
    hide HeldOk;
  }

  lemma StartCache(w: World, stop: Option<nat>, refused: map<EnvelopeHash, ResultKind>, did: Did)
    requires CacheInv(w, did) && w.process.None?
    ensures CacheInv(DoStart(w, stop, refused), did)
  {
    hide HeldOk, LedgerModel.StartUp;
  }

  lemma StepCache(w: World, step: Step, did: Did)
    requires CacheInv(w, did) && Enabled(w, step)
    ensures CacheInv(Do(w, step, did), did)
  {
    hide CacheInv, DoDeliver, DoPoll, DoSubmit, DoReturned, DoStart, DoSave, DoFinish, BeginRelayedAction, HeldOk;
    match step
    case RelayAction(envelope) =>
      HeldIs(w, did);
      ActionHeld(HeldOf(w), envelope, did);
      RelayCacheStep(w, BeginRelayedAction(w.relay, envelope, did), did);
    case Tick(time) =>
      HeldIs(w, did);
      TickHeld(HeldOf(w), time, did);
      RelayCacheStep(w, w.relay.(now := time), did);
    case Poll(lost) => PollCache(w, w.process.value, did);
    case Deliver(clock, handling, detail, fate) => DeliverCache(w, w.process.value, clock, handling, detail, fate, did);
    case Returned(result, clock, detail, fate) => ReturnedCache(w, w.process.value, result, clock, detail, fate, did);
    case Threw => ThrewCache(w, w.process.value, did);
    case SaveCached(save) => SaveCachedCache(w, w.process.value, save, did);
    case Submit(how) => SubmitCache(w, w.process.value, how, did);
    case SaveMark(save) => SaveMarkCache(w, w.process.value, save, did);
    case Finish => FinishCache(w, w.process.value, did);
    case SaveFinish(save) => SaveFinishCache(w, w.process.value, save, did);
    case Crash => CrashCache(w, did);
    case Start(stop, refused) => StartCache(w, stop, refused, did);
  }

  lemma HeldIs(w: World, did: Did)
    requires CacheInv(w, did)
    ensures HeldOk(HeldOf(w), did)
  {
  }

  lemma ReturnedCache(w: World, p: Process, result: AdapterServer.DispatchResult, clock: int, detail: string,
                      fate: LedgerModel.AppendFate, did: Did)
    requires CacheInv(w, did) && w.process == Some(p) && p.phase.Dispatching? && AtRequest(p)
    ensures CacheInv(DoReturned(w, p, result, clock, detail, fate, did), did)
  {
    hide HeldOk, Record, Quiet;
    var hash := HashOf(CurrentEnvelope(p));
    var response := ActionResponse(AdapterServer.ClassifyDispatch(result), Some(hash), did, detail);
    RecordQuiet(w, p, response, clock, fate, did);
    QuietCache(w, Record(w, p, response, clock, fate, did), did);
  }

  lemma ThrewCache(w: World, p: Process, did: Did)
    requires CacheInv(w, did) && w.process == Some(p) && p.phase.Dispatching?
    ensures CacheInv(w.(process := Some(Leave(p, Idle))), did)
  {
    hide HeldOk, Quiet;
    LeaveQuiet(w, p, p, w.(process := Some(Leave(p, Idle))), Idle);
    QuietCache(w, w.(process := Some(Leave(p, Idle))), did);
  }

  lemma {:induction false} RunCache(steps: seq<Step>, did: Did)
    ensures CacheInv(Run(steps, did), did)
  {
    if steps != [] {
      hide Do, CacheInv;
      RunCache(steps[..|steps| - 1], did);
      var w := Run(steps[..|steps| - 1], did);
      if Enabled(w, steps[|steps| - 1]) {
        StepCache(w, steps[|steps| - 1], did);
      }
    }
  }

  // ---- over every run -------------------------------------------------------------------

  /** Every retry for one delivery, in any process, sends the identical envelope. */
  lemma {:induction false} RetriesAreIdentical(steps: seq<Step>, did: Did, s: Submitted, t: Submitted)
    requires s in Run(steps, did).submitted && t in Run(steps, did).submitted && s.fingerprint == t.fingerprint
    ensures s.envelope == t.envelope
  {
    RunCache(steps, did);
  }

  /** Every response the relay accepts for one action is the one response the relay keeps for it. */
  lemma {:induction false} OneAcceptedResponse(steps: seq<Step>, did: Did, r: ActionResponse)
    requires r in Run(steps, did).accepted
    ensures var w := Run(steps, did);
            r.hash.Some? && r.hash.value in w.relay.byHash && w.relay.byHash[r.hash.value].response == Some(r)
  {
    RunCache(steps, did);
    var h := HeldOf(Run(steps, did));
    var kept := h.relay.byHash[r.hash.value].response.value;
    AcceptedOnce(h, did, r, kept);
  }

  lemma AcceptedOnce(h: Held, did: Did, r: ActionResponse, q: ActionResponse)
    requires HeldOk(h, did) && r in h.accepted && q in h.accepted && r.hash == q.hash
    ensures r == q
  {
    hide RelayOk, PageOk, AllTracked;
    var s :| s in h.submitted && s.envelope.payload == ResponsePayload(r);
    var t :| t in h.submitted && t.envelope.payload == ResponsePayload(q);
    assert HashNamed(s.fingerprint) == HashNamed(t.fingerprint);
  }

  /**
   Cursor safety: every delivery at or before the persisted cursor was expired when the worker
   reached it, has the relay's acceptance of its response, or was left out of a page that passed
   it because it was expired at that poll.
   */
  lemma {:induction false} CursorIsSafe(steps: seq<Step>, did: Did, d: StoredDelivery)
    requires var w := Run(steps, did);
             d in w.relay.deliveries && Addressed(d, did) && d.sequence <= After(w.disk.cursor)
    ensures var w := Run(steps, did);
            || d.sequence in w.missed
            || (exists r :: r in w.accepted && r.hash == Some(HashIn(d)))
            || (exists q :: q in w.polls && PassesOver(q, d) && EnvelopeExpired(d.envelope, q.now))
  {
    RunCache(steps, did);
    assert Tracked(HeldOf(Run(steps, did)), did, d);
  }

  /** The error for a page that does not advance the cursor never happens. */
  lemma {:induction false} CursorAlwaysAdvances(steps: seq<Step>, did: Did)
    ensures var w := Run(steps, did); w.process.Some? ==> w.process.value.phase != Stuck(CursorNotAdvancing)
  {
    RunCache(steps, did);
  }
}
