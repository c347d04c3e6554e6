/**
 The relay's delivery queue: envelopes are appended once per recipient under increasing
 sequence numbers, and a recipient reads pages of at most a hundred unexpired deliveries
 after its cursor.
 */
module RelayQueue {
  import opened Wrappers
  import opened Protocol

  const PAGE_SIZE: nat := 100

  datatype StoredDelivery = StoredDelivery(sequence: nat, recipient: Did, envelope: DeliveryEnvelope)

  datatype Page = Page(deliveries: seq<StoredDelivery>, nextCursor: Option<nat>)

  function After(cursor: Option<nat>): nat {
    match cursor case None => 0 case Some(n) => n
  }

  predicate Wanted(d: StoredDelivery, did: Did, after: nat, now: int) {
    d.sequence > after && d.recipient == did && !EnvelopeExpired(d.envelope, now)
  }

  function Select(deliveries: seq<StoredDelivery>, did: Did, after: nat, now: int): seq<StoredDelivery> {
    if deliveries == [] then []
    else
      var d := deliveries[|deliveries| - 1];
      Select(deliveries[..|deliveries| - 1], did, after, now) + if Wanted(d, did, after, now) then [d] else []
  }

  function FirstPage(selected: seq<StoredDelivery>): seq<StoredDelivery> {
    if |selected| <= PAGE_SIZE then selected else selected[..PAGE_SIZE]
  }

  function PollDeliveries(deliveries: seq<StoredDelivery>, did: Did, cursor: Option<nat>, now: int): Page {
    var page := FirstPage(Select(deliveries, did, After(cursor), now));
    Page(page, if page == [] then None else Some(page[|page| - 1].sequence))
  }

  ghost predicate Ordered(deliveries: seq<StoredDelivery>) {
    && (forall i, j :: 0 <= i < j < |deliveries| ==> deliveries[i].sequence < deliveries[j].sequence)
    && (forall d :: d in deliveries ==> d.sequence > 0)
  }

  // ---- what one poll returns ------------------------------------------------------------

  lemma {:induction false} SelectIsExact(deliveries: seq<StoredDelivery>, did: Did, after: nat, now: int)
    requires Ordered(deliveries)
    ensures Ordered(Select(deliveries, did, after, now))
    ensures forall d :: d in Select(deliveries, did, after, now) <==> d in deliveries && Wanted(d, did, after, now)
  {
    if deliveries != [] {
      var front, last := deliveries[..|deliveries| - 1], deliveries[|deliveries| - 1];
      SelectIsExact(front, did, after, now);
      assert deliveries == front + [last];
      forall d | d in Select(front, did, after, now)
        ensures d.sequence < last.sequence
      {
        assert d in front;
      }
    }
  }

  lemma PageIsPrefix(deliveries: seq<StoredDelivery>, did: Did, after: nat, now: int)
    requires Ordered(deliveries)
    ensures var page := FirstPage(Select(deliveries, did, after, now));
            && Ordered(page)
            && (forall d :: d in page ==> d in deliveries && Wanted(d, did, after, now))
            && (page != [] ==>
                  forall d ::
                    d in deliveries && Wanted(d, did, after, now) && d.sequence <= page[|page| - 1].sequence ==>
                      d in page)
            && (|page| < PAGE_SIZE ==> forall d :: d in deliveries && Wanted(d, did, after, now) ==> d in page)
            && |page| <= PAGE_SIZE
  {
    hide Select;
    var selected := Select(deliveries, did, after, now);
    var page := FirstPage(selected);
    SelectIsExact(deliveries, did, after, now);
    assert forall d :: d in page ==> d in selected;
    if page != [] {
      forall d | d in selected && d.sequence <= page[|page| - 1].sequence
        ensures d in page
      {
        var i :| 0 <= i < |selected| && selected[i] == d;
        assert page[|page| - 1] == selected[|page| - 1];
        assert i <= |page| - 1;
        assert page[i] == d;
      }
    }
  }

  /** This delivery is the recipient's, after the cursor, and not past its expiry, if it has one. */
  ghost predicate Due(d: StoredDelivery, did: Did, cursor: Option<nat>, now: int) {
    && d.recipient == did && (cursor.None? || d.sequence > cursor.value)
    && (d.envelope.expiresAt.None? || d.envelope.expiresAt.value > now)
  }

  /**
   A poll answers with the first hundred deliveries due, in order: nothing that is not due, no more
   than a hundred, everything due up to the last of them, and all that is due if they are fewer.
   */
  lemma PollIsExact(deliveries: seq<StoredDelivery>, did: Did, cursor: Option<nat>, now: int)
    requires Ordered(deliveries)
    ensures var page := PollDeliveries(deliveries, did, cursor, now).deliveries;
            && |page| <= 100
            && (forall i, j :: 0 <= i < j < |page| ==> page[i].sequence < page[j].sequence)
            && (forall d :: d in page ==> d in deliveries && Due(d, did, cursor, now))
            && (forall d, e :: d in deliveries && Due(d, did, cursor, now) && e in page && d.sequence <= e.sequence ==>
                  d in page)
            && (|page| < 100 ==> forall d :: d in deliveries && Due(d, did, cursor, now) ==> d in page)
  {
    PageIsPrefix(deliveries, did, After(cursor), now);
    DueIsWanted(deliveries, did, cursor, now);
    hide Select, FirstPage, Wanted, Due;
    var page := PollDeliveries(deliveries, did, cursor, now).deliveries;
    LastIsLatest(page);
    forall d, e | d in deliveries && Due(d, did, cursor, now) && e in page && d.sequence <= e.sequence
      ensures d in page
    {
      assert d.sequence <= page[|page| - 1].sequence;
    }
    hide Ordered;
  }

  lemma DueIsWanted(deliveries: seq<StoredDelivery>, did: Did, cursor: Option<nat>, now: int)
    requires Ordered(deliveries)
    ensures forall d :: d in deliveries ==> (Due(d, did, cursor, now) <==> Wanted(d, did, After(cursor), now))
  {
  }

  // ---- draining -------------------------------------------------------------------------

  /** What the relay held, and what its clock said, when one poll was answered. */
  datatype Poll = Poll(deliveries: seq<StoredDelivery>, now: int)

  function PageAt(poll: Poll, did: Did, after: nat): seq<StoredDelivery> {
    FirstPage(Select(poll.deliveries, did, after, poll.now))
  }

  function LastSequence(page: seq<StoredDelivery>): nat
    requires page != []
  {
    page[|page| - 1].sequence
  }

  /** Everything a drain receives from these polls; it stops at the first empty page. */
  function Drained(polls: seq<Poll>, did: Did, after: nat): seq<StoredDelivery> {
    if polls == [] || PageAt(polls[0], did, after) == [] then []
    else PageAt(polls[0], did, after) + Drained(polls[1..], did, LastSequence(PageAt(polls[0], did, after)))
  }

  /** The last of these polls answered with an empty page, and none before it did. */
  predicate Complete(polls: seq<Poll>, did: Did, after: nat) {
    polls != [] &&
    if PageAt(polls[0], did, after) == [] then |polls| == 1
    else Complete(polls[1..], did, LastSequence(PageAt(polls[0], did, after)))
  }

  /** The queue only grows at its end between polls. */
  ghost predicate Growing(polls: seq<Poll>) {
    && (forall i :: 0 <= i < |polls| ==> Ordered(polls[i].deliveries))
    && (forall i, j :: 0 <= i < j < |polls| ==> polls[i].deliveries <= polls[j].deliveries)
  }

  /** The poll whose page, or whose empty answer, passed over this delivery. */
  function Reach(polls: seq<Poll>, did: Did, after: nat, d: StoredDelivery): (i: nat)
    requires Complete(polls, did, after)
    ensures i < |polls|
  {
    var page := PageAt(polls[0], did, after);
    if page == [] || d.sequence <= LastSequence(page) then 0 else 1 + Reach(polls[1..], did, LastSequence(page), d)
  }

  /** A page always advances the cursor, so the worker's non-advancing-cursor error cannot arise. */
  lemma CursorAdvances(deliveries: seq<StoredDelivery>, did: Did, cursor: Option<nat>, now: int)
    requires Ordered(deliveries)
    ensures var page := PollDeliveries(deliveries, did, cursor, now);
            && (page.deliveries == [] <==> page.nextCursor.None?)
            && (page.nextCursor.Some? ==> page.nextCursor.value > After(cursor) && page.nextCursor != cursor)
  {
    SelectIsExact(deliveries, did, After(cursor), now);
    var page := FirstPage(Select(deliveries, did, After(cursor), now));
    assert page != [] ==> page[|page| - 1] in Select(deliveries, did, After(cursor), now);
  }

  lemma PageBounds(poll: Poll, did: Did, after: nat)
    requires Ordered(poll.deliveries)
    ensures var page := PageAt(poll, did, after);
            Ordered(page) && forall d :: d in page ==> d.recipient == did && after < d.sequence <= LastSequence(page)
  {
    hide Select, FirstPage;
    PageIsPrefix(poll.deliveries, did, after, poll.now);
    LastIsLatest(PageAt(poll, did, after));
  }

  lemma LastIsLatest(page: seq<StoredDelivery>)
    requires Ordered(page)
    ensures forall d :: d in page ==> d.sequence <= LastSequence(page)
  {
    forall d | d in page
      ensures d.sequence <= LastSequence(page)
    {
      var i :| 0 <= i < |page| && page[i] == d;
    }
  }

  lemma {:induction false} DrainedAdvances(polls: seq<Poll>, did: Did, after: nat)
    requires Growing(polls)
    ensures Ordered(Drained(polls, did, after))
    ensures forall d :: d in Drained(polls, did, after) ==> d.sequence > after && d.recipient == did
  {
    hide PageAt;
    if polls != [] && PageAt(polls[0], did, after) != [] {
      var page := PageAt(polls[0], did, after);
      PageBounds(polls[0], did, after);
      DrainedAdvances(polls[1..], did, LastSequence(page));
      OrderedConcat(page, Drained(polls[1..], did, LastSequence(page)));
    }
  }

  lemma OrderedConcat(a: seq<StoredDelivery>, b: seq<StoredDelivery>)
    requires Ordered(a) && Ordered(b)
    requires forall x, y :: x in a && y in b ==> x.sequence < y.sequence
    ensures Ordered(a + b)
  {
    forall i, j | 0 <= i < j < |a + b|
      ensures (a + b)[i].sequence < (a + b)[j].sequence
    {
      if i < |a| <= j {
        assert a[i] in a && b[j - |a|] in b;
      }
    }
  }

  /** A delivery the first page passes over is drained exactly when that page holds it. */
  lemma PassedByFirstPage(polls: seq<Poll>, did: Did, after: nat, d: StoredDelivery)
    requires Growing(polls) && polls != [] && PageAt(polls[0], did, after) != []
    requires d.sequence <= LastSequence(PageAt(polls[0], did, after))
    ensures d in Drained(polls, did, after) <==> d in PageAt(polls[0], did, after)
  {
    hide PageAt;
    DrainedAdvances(polls[1..], did, LastSequence(PageAt(polls[0], did, after)));
  }

  /** A delivery after the first page is drained exactly when the later polls drain it. */
  lemma PassedLater(polls: seq<Poll>, did: Did, after: nat, d: StoredDelivery)
    requires Growing(polls) && polls != [] && PageAt(polls[0], did, after) != []
    requires d.sequence > LastSequence(PageAt(polls[0], did, after))
    ensures d in Drained(polls, did, after) <==>
              d in Drained(polls[1..], did, LastSequence(PageAt(polls[0], did, after)))
  {
    hide PageAt;
    PageBounds(polls[0], did, after);
  }

  /** Within what a page passes over, it holds exactly the unexpired deliveries. */
  lemma PageIsExact(poll: Poll, did: Did, after: nat, d: StoredDelivery)
    requires Ordered(poll.deliveries) && d in poll.deliveries && d.recipient == did && d.sequence > after
    requires var page := PageAt(poll, did, after); page == [] || d.sequence <= LastSequence(page)
    ensures d in PageAt(poll, did, after) <==> !EnvelopeExpired(d.envelope, poll.now)
  {
    PageIsPrefix(poll.deliveries, did, after, poll.now);
  }

  /**
   A drain yields a delivery exactly when it was unexpired at the poll that reached it, and
   every delivery to this recipient after the cursor that the relay ever held is reached.
   */
  lemma {:induction false} DrainIsExact(polls: seq<Poll>, did: Did, after: nat, d: StoredDelivery)
    requires Growing(polls) && Complete(polls, did, after)
    requires d in polls[|polls| - 1].deliveries && d.recipient == did && d.sequence > after
    ensures var i := Reach(polls, did, after, d);
            && d in polls[i].deliveries
            && (d in Drained(polls, did, after) <==> !EnvelopeExpired(d.envelope, polls[i].now))
  {
    hide PageAt;
    var page := PageAt(polls[0], did, after);
    if page == [] {
      PageIsExact(polls[0], did, after, d);
    } else if d.sequence <= LastSequence(page) {
      LastIsHeld(polls[0], did, after);
      HeldWhenPassed(polls[0].deliveries, polls[|polls| - 1].deliveries, page[|page| - 1], d);
      PassedByFirstPage(polls, did, after, d);
      PageIsExact(polls[0], did, after, d);
    } else {
      assert polls[1..][|polls| - 2] == polls[|polls| - 1];
      DrainIsExact(polls[1..], did, LastSequence(page), d);
      PassedLater(polls, did, after, d);
    }
  }

  /** A drain yields nothing but what the relay held for this recipient after the cursor. */
  lemma {:induction false} DrainedIsHeld(polls: seq<Poll>, did: Did, after: nat, d: StoredDelivery)
    requires Growing(polls) && d in Drained(polls, did, after)
    ensures d in polls[|polls| - 1].deliveries && d.recipient == did && d.sequence > after
  {
    hide PageAt;
    DrainedAdvances(polls, did, after);
    var page := PageAt(polls[0], did, after);
    if d in page {
      PageIsHeld(polls[0], did, after, d);
      assert polls[0].deliveries <= polls[|polls| - 1].deliveries;
    } else {
      DrainedIsHeld(polls[1..], did, LastSequence(page), d);
    }
  }

  lemma PageIsHeld(poll: Poll, did: Did, after: nat, d: StoredDelivery)
    requires Ordered(poll.deliveries) && d in PageAt(poll, did, after)
    ensures d in poll.deliveries
  {
    PageIsPrefix(poll.deliveries, did, after, poll.now);
  }

  lemma LastIsHeld(poll: Poll, did: Did, after: nat)
    requires Ordered(poll.deliveries) && PageAt(poll, did, after) != []
    ensures var page := PageAt(poll, did, after); page[|page| - 1] in poll.deliveries
  {
    PageIsPrefix(poll.deliveries, did, after, poll.now);
    var page := PageAt(poll, did, after);
    assert page[|page| - 1] in page;
  }

  /** A delivery no later than one already held was itself already held. */
  lemma HeldWhenPassed(before: seq<StoredDelivery>, later: seq<StoredDelivery>, held: StoredDelivery, d: StoredDelivery)
    requires Ordered(later) && before <= later && held in before && d in later && d.sequence <= held.sequence
    ensures d in before
  {
    var i :| 0 <= i < |later| && later[i] == d;
    var j :| 0 <= j < |before| && before[j] == held;
    assert later[j] == held;
    assert !(j < i);
    assert before[i] == d;
  }

  // ---- the queue and the drain loop -----------------------------------------------------

  class Queue {
    var deliveries: seq<StoredDelivery>
    var nextDeliverySequence: nat

    ghost predicate Valid()
      reads this
    {
      Ordered(deliveries) && nextDeliverySequence > 0
      && forall d :: d in deliveries ==> d.sequence < nextDeliverySequence
    }

    constructor ()
      ensures Valid() && deliveries == []
    {
      deliveries := [];
      nextDeliverySequence := 1;
    }

    /** One copy per recipient, under consecutive sequence numbers. */
    method StoreEnvelope(envelope: DeliveryEnvelope)
      requires Valid()
      modifies this
      ensures Valid() && deliveries == Stored(old(deliveries), old(nextDeliverySequence), envelope)
      ensures nextDeliverySequence == old(nextDeliverySequence) + |envelope.recipients|
    {
      ghost var start := nextDeliverySequence;
      for i := 0 to |envelope.recipients|
        invariant Valid() && nextDeliverySequence == start + i
        invariant deliveries == old(deliveries) + Copies(start, envelope)[..i]
      {
        var d := StoredDelivery(nextDeliverySequence, envelope.recipients[i], envelope);
        deliveries := deliveries + [d];
        nextDeliverySequence := nextDeliverySequence + 1;
        assert Copies(start, envelope)[..i + 1] == Copies(start, envelope)[..i] + [d];
      }
      assert Copies(start, envelope)[..|envelope.recipients|] == Copies(start, envelope);
    }

    /** The same queue after further envelopes arrived. */
    method StoreAll(envelopes: seq<DeliveryEnvelope>)
      requires Valid()
      modifies this
      ensures Valid() && old(deliveries) <= deliveries
    {
      for i := 0 to |envelopes|
        invariant Valid() && old(deliveries) <= deliveries
      {
        StoreEnvelope(envelopes[i]);
      }
    }

    method PollFor(did: Did, cursor: Option<nat>, now: int) returns (page: Page)
      requires Valid()
      ensures page == PollDeliveries(deliveries, did, cursor, now)
      ensures Ordered(deliveries) && page.deliveries == PageAt(Poll(deliveries, now), did, After(cursor))
      ensures page.deliveries != [] ==>
                && page.nextCursor == Some(LastSequence(page.deliveries)) && page.nextCursor != cursor
                && After(cursor) < page.nextCursor.value < nextDeliverySequence
    {
      PollIsPage(Poll(deliveries, now), did, cursor);
      page := PollDeliveries(deliveries, did, cursor, now);
    }
  }

  function Copies(start: nat, envelope: DeliveryEnvelope): seq<StoredDelivery> {
    seq(|envelope.recipients|, i requires 0 <= i < |envelope.recipients| =>
      StoredDelivery(start + i, envelope.recipients[i], envelope))
  }

  function Stored(deliveries: seq<StoredDelivery>, next: nat, envelope: DeliveryEnvelope): seq<StoredDelivery> {
    deliveries + Copies(next, envelope)
  }

  lemma StoredOrdered(deliveries: seq<StoredDelivery>, next: nat, envelope: DeliveryEnvelope)
    requires Ordered(deliveries) && next > 0 && forall d :: d in deliveries ==> d.sequence < next
    ensures Ordered(Stored(deliveries, next, envelope))
    ensures forall d :: d in Stored(deliveries, next, envelope) ==> d.sequence < next + |envelope.recipients|
  {
    var copies := Copies(next, envelope);
    forall i | 0 <= i < |deliveries|
      ensures deliveries[i].sequence < next
    {
      assert deliveries[i] in deliveries;
    }
  }

  /** These polls all answered with deliveries, `received` in all, and moved the cursor to `cursor`. */
  ghost predicate Underway(polls: seq<Poll>, did: Did, after: nat, received: seq<StoredDelivery>, cursor: nat) {
    if polls == [] then received == [] && cursor == after
    else
      var page := PageAt(polls[0], did, after);
      && page != [] && page <= received
      && Underway(polls[1..], did, LastSequence(page), received[|page|..], cursor)
  }

  lemma {:induction false} UnderwayExtends(polls: seq<Poll>, did: Did, after: nat, received: seq<StoredDelivery>,
                                           cursor: nat,
                                           poll: Poll)
    requires Underway(polls, did, after, received, cursor) && PageAt(poll, did, cursor) != []
    ensures var page := PageAt(poll, did, cursor);
            Underway(polls + [poll], did, after, received + page, LastSequence(page))
  {
    hide PageAt;
    var next := PageAt(poll, did, cursor);
    if polls == [] {
      assert (polls + [poll])[1..] == [];
      assert received + next == next && next[|next|..] == [];
    } else {
      var page := PageAt(polls[0], did, after);
      UnderwayExtends(polls[1..], did, LastSequence(page), received[|page|..], cursor, poll);
      assert (polls + [poll])[1..] == polls[1..] + [poll];
      assert (received + next)[|page|..] == received[|page|..] + next;
    }
  }

  lemma {:induction false} UnderwayCompletes(polls: seq<Poll>, did: Did, after: nat, received: seq<StoredDelivery>,
                                             cursor: nat,
                                             poll: Poll)
    requires Underway(polls, did, after, received, cursor) && PageAt(poll, did, cursor) == []
    ensures Complete(polls + [poll], did, after) && Drained(polls + [poll], did, after) == received
  {
    hide PageAt;
    if polls != [] {
      var page := PageAt(polls[0], did, after);
      UnderwayCompletes(polls[1..], did, LastSequence(page), received[|page|..], cursor, poll);
      assert (polls + [poll])[1..] == polls[1..] + [poll];
      assert received == page + received[|page|..];
    }
  }

  lemma GrowingExtends(polls: seq<Poll>, poll: Poll)
    requires Growing(polls) && Ordered(poll.deliveries)
    requires polls == [] || polls[|polls| - 1].deliveries <= poll.deliveries
    ensures Growing(polls + [poll])
  {
    forall i | 0 <= i < |polls|
      ensures polls[i].deliveries <= poll.deliveries
    {
      if i < |polls| - 1 {
        assert polls[i].deliveries <= polls[|polls| - 1].deliveries;
      }
    }
  }

  /**
   The worker's drain against a queue that keeps growing: before poll `i` the relay stores
   `arrivals[i]`, and its clock reads `clock(i)`.  It always ends, and never meets a page
   that fails to advance its cursor.
   */
  method DrainAvailableWork(queue: Queue, did: Did, cursor: Option<nat>,
                            arrivals: seq<seq<DeliveryEnvelope>>, clock: nat -> int)
    returns (received: seq<StoredDelivery>, advancing: bool, ghost polls: seq<Poll>)
    requires queue.Valid()
    modifies queue
    ensures queue.Valid() && old(queue.deliveries) <= queue.deliveries
    ensures advancing && Growing(polls) && Complete(polls, did, After(cursor))
    ensures polls[|polls| - 1].deliveries == queue.deliveries
    ensures forall i :: 0 <= i < |polls| ==> polls[i].now == clock(i)
    ensures received == Drained(polls, did, After(cursor))
  {
    hide PageAt, FirstPage, Select, Complete, Drained, Underway, Growing, PollDeliveries, Wanted, Ordered;
    hide Queue.Valid;
    received, advancing, polls := [], true, [];
    var position := cursor;
    var i := 0;
    DrainStarts(did, After(cursor));
    while true
      invariant queue.Valid() && old(queue.deliveries) <= queue.deliveries
      invariant advancing && i == |polls| && Growing(polls)
      invariant polls != [] ==> polls[|polls| - 1].deliveries <= queue.deliveries
      invariant forall k :: 0 <= k < i ==> polls[k].now == clock(k)
      invariant Underway(polls, did, After(cursor), received, After(position))
      decreases if i < |arrivals| then |arrivals| - i else 0,
                if After(position) < queue.nextDeliverySequence then queue.nextDeliverySequence - After(position) else 0
    {
      if i < |arrivals| {
        queue.StoreAll(arrivals[i]);
      }
      ghost var poll := Poll(queue.deliveries, clock(i));
      var page := queue.PollFor(did, position, clock(i));
      GrowingExtends(polls, poll);
      if page.deliveries == [] {
        UnderwayCompletes(polls, did, After(cursor), received, After(position), poll);
        polls := polls + [poll];
        return;
      }
      UnderwayExtends(polls, did, After(cursor), received, After(position), poll);
      polls := polls + [poll];
      received := received + page.deliveries;
      if page.nextCursor.None? || page.nextCursor == position {
        advancing := false;
        return;
      }
      position := page.nextCursor;
      i := i + 1;
    }
  }

  lemma DrainStarts(did: Did, after: nat)
    ensures Growing([]) && Underway([], did, after, [], after)
  {
  }

  /** One answered poll: its page, and a cursor that moved to a delivery the relay holds. */
  lemma PollIsPage(poll: Poll, did: Did, cursor: Option<nat>)
    requires Ordered(poll.deliveries)
    ensures var page := PollDeliveries(poll.deliveries, did, cursor, poll.now);
            && page.deliveries == PageAt(poll, did, After(cursor))
            && (page.deliveries != [] ==>
                  && page.nextCursor == Some(LastSequence(page.deliveries))
                  && page.nextCursor != cursor && page.nextCursor.value > After(cursor)
                  && page.deliveries[|page.deliveries| - 1] in poll.deliveries)
  {
    CursorAdvances(poll.deliveries, did, cursor, poll.now);
    if PageAt(poll, did, After(cursor)) != [] {
      LastIsHeld(poll, did, After(cursor));
    }
  }
}
