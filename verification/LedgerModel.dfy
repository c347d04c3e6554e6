/**
 What the dispatch ledger means: an append-only journal, the index rebuilt from it, and
 every operation on the two, including appends that throw with or without leaving their
 record.  Module DispatchLedger runs the same operations in place.
 */
module LedgerModel {
  import opened Wrappers
  import opened JsonKey
  import opened Protocol

  /** How a journal record names an action: the full pair, or the flattened form of old journals. */
  datatype LedgerId = Pair(actionId: ActionId) | Flat(text: JsString)

  datatype Event =
    | Executing(id: LedgerId, hash: EnvelopeHash, expiresAt: int)
    | Resolved(id: LedgerId, resolution: ResultKind, response: Option<ActionResponse>)

  datatype Status = InProgress | Done(resolution: ResultKind, response: Option<ActionResponse>)

  datatype Entry = Entry(id: LedgerId, hash: EnvelopeHash, expiresAt: int, status: Status)

  /** A JavaScript Map: its entries, and its keys in order of first insertion. */
  datatype Index = Index(order: seq<LedgerId>, entries: map<LedgerId, Entry>)

  const EMPTY := Index([], map[])

  datatype Ledger = Ledger(journal: seq<Event>, index: Index)

  datatype Verdict = Absent | InFlight | ReplayDetected | HashMismatch

  /** What one append did: wrote the record, or threw before or after it reached the file. */
  datatype AppendFate = Written | LostBefore | LostAfter

  datatype Recovery = Recovery(resolution: ResultKind, response: Option<ActionResponse>)

  // ---- keys -------------------------------------------------------------------------

  /** The text the index is keyed by: one element for an old journal key, two for a pair. */
  function Key(id: LedgerId): JsString {
    match id
    case Pair(actionId) => Stringify([actionId.scope, Some(actionId.value)])
    case Flat(text) => Stringify([Some(text)])
  }

  /** The flattened text an old journal would have used; an empty scope counts as none. */
  function FlatText(actionId: ActionId): JsString {
    match actionId.scope
    case None => actionId.value
    case Some(scope) => if scope == [] then actionId.value else scope + [COLON] + actionId.value
  }

  /** The text that names one envelope's dispatch in the map of dispatches in flight. */
  function DispatchText(actionId: ActionId, digest: JsString): JsString {
    Stringify([actionId.scope, Some(actionId.value), Some(digest)])
  }

  /** Pairs never share a key with each other or with an old flattened key. */
  lemma KeyInjective(a: LedgerId, b: LedgerId)
    ensures Key(a) == Key(b) <==> a == b
  {
    var ka := match a case Pair(i) => [i.scope, Some(i.value)] case Flat(t) => [Some(t)];
    var kb := match b case Pair(i) => [i.scope, Some(i.value)] case Flat(t) => [Some(t)];
    StringifyInjective(ka, kb);
    assert ka == kb ==> |ka| == |kb| && ka[0] == kb[0] && ka[|ka| - 1] == kb[|kb| - 1];
  }

  lemma DispatchTextInjective(a: ActionId, da: JsString, b: ActionId, db: JsString)
    ensures DispatchText(a, da) == DispatchText(b, db) <==> a == b && da == db
  {
    var ka, kb := [a.scope, Some(a.value), Some(da)], [b.scope, Some(b.value), Some(db)];
    StringifyInjective(ka, kb);
    assert ka == kb ==> ka[0] == kb[0] && ka[1] == kb[1] && ka[2] == kb[2];
  }

  // ---- the index --------------------------------------------------------------------

  /** Map.set: a key already present keeps its place. */
  function Put(index: Index, id: LedgerId, entry: Entry): Index {
    Index(if id in index.entries then index.order else index.order + [id], index.entries[id := entry])
  }

  function WithStatus(index: Index, id: LedgerId, status: Status): Index
    requires id in index.entries
  {
    Put(index, id, index.entries[id].(status := status))
  }

  /** One journal record taken into the index; a resolution of an unknown action is ignored. */
  function Apply(index: Index, event: Event): Index {
    match event
    case Executing(id, hash, expiresAt) => Put(index, id, Entry(id, hash, expiresAt, InProgress))
    case Resolved(id, resolution, response) =>
      if id in index.entries then WithStatus(index, id, Done(resolution, response)) else index
  }

  function Replay(events: seq<Event>): Index {
    if events == [] then EMPTY else Apply(Replay(events[..|events| - 1]), events[|events| - 1])
  }

  /** The keys are listed once each, in `order`, and every entry is filed under its own name. */
  ghost predicate WellFormed(index: Index) {
    && (forall k :: k in index.order <==> k in index.entries)
    && (forall i, j :: 0 <= i < j < |index.order| ==> index.order[i] != index.order[j])
    && (forall k :: k in index.entries ==> index.entries[k].id == k)
  }

  lemma PutWellFormed(index: Index, id: LedgerId, entry: Entry)
    requires WellFormed(index) && entry.id == id
    ensures WellFormed(Put(index, id, entry))
  {
    var order := Put(index, id, entry).order;
    assert forall k :: k in order <==> k in index.order || k == id;
  }

  lemma {:induction false} ReplayWellFormed(events: seq<Event>)
    ensures WellFormed(Replay(events))
  {
    if events != [] {
      var before := Replay(events[..|events| - 1]);
      ReplayWellFormed(events[..|events| - 1]);
      match events[|events| - 1]
      case Executing(id, hash, expiresAt) => PutWellFormed(before, id, Entry(id, hash, expiresAt, InProgress));
      case Resolved(id, resolution, response) =>
        if id in before.entries {
          PutWellFormed(before, id, before.entries[id].(status := Done(resolution, response)));
        }
    }
  }

  // ---- operations -------------------------------------------------------------------

  /** The name an Action ID is held under: its own, or its old flattened text. */
  function Lookup(index: Index, actionId: ActionId): (found: Option<LedgerId>)
    ensures found.Some? ==> found.value in index.entries
  {
    if Pair(actionId) in index.entries then Some(Pair(actionId))
    else if Flat(FlatText(actionId)) in index.entries then Some(Flat(FlatText(actionId)))
    else None
  }

  function Check(index: Index, actionId: ActionId, hash: EnvelopeHash): Verdict {
    match Lookup(index, actionId)
    case None => Absent
    case Some(k) =>
      if index.entries[k].status.Done? then ReplayDetected
      else if index.entries[k].hash == hash then InFlight
      else HashMismatch
  }

  /**
   The records a journal may hold an action under: its pair, or an old record whose text is the
   value alone if there is no scope to speak of, and else the scope, a colon and the value.
   */
  ghost predicate Names(k: LedgerId, id: ActionId) {
    match k
    case Pair(held) => held == id
    case Flat(text) =>
      match id.scope
      case None => text == id.value
      case Some(scope) => if |scope| == 0 then text == id.value else text == scope + [0x3a] + id.value
  }

  /** The ledger knows the action by this record; one under its pair comes first. */
  ghost predicate KnownBy(index: Index, id: ActionId, k: LedgerId) {
    k in index.entries && Names(k, id) && (k.Pair? || Pair(id) !in index.entries)
  }

  /** The verdict on a submission, by the one record that names it in either form. */
  lemma VerdictIsExact(index: Index, id: ActionId, hash: EnvelopeHash)
    ensures var verdict := Check(index, id, hash);
            && (verdict.Absent? <==> forall k :: k in index.entries ==> !Names(k, id))
            && (verdict.ReplayDetected? <==> exists k :: KnownBy(index, id, k) && index.entries[k].status.Done?)
            && (verdict.InFlight? <==>
                  exists k :: KnownBy(index, id, k) && index.entries[k].status.InProgress?
                              && index.entries[k].hash == hash)
            && (verdict.HashMismatch? <==>
                  exists k :: KnownBy(index, id, k) && index.entries[k].status.InProgress?
                              && index.entries[k].hash != hash)
    ensures forall j, k :: KnownBy(index, id, j) && KnownBy(index, id, k) ==> j == k
  {
    LookupIsKnown(index, id);
  }

  lemma LookupIsKnown(index: Index, id: ActionId)
    ensures Lookup(index, id).None? <==> forall k :: k in index.entries ==> !Names(k, id)
    ensures forall k :: KnownBy(index, id, k) <==> Lookup(index, id) == Some(k)
  {
    assert forall k :: Names(k, id) <==> k == Pair(id) || k == Flat(FlatText(id));
  }

  function Append(journal: seq<Event>, event: Event, fate: AppendFate): seq<Event> {
    if fate.LostBefore? then journal else journal + [event]
  }

  /** The check-and-write gate; the verdict is absent when the append threw. */
  function Authorize(ledger: Ledger, actionId: ActionId, hash: EnvelopeHash, expiresAt: int, fate: AppendFate)
    : (Ledger, Option<Verdict>)
  {
    var verdict := Check(ledger.index, actionId, hash);
    if !verdict.Absent? then (ledger, Some(verdict))
    else
      var journal := Append(ledger.journal, Executing(Pair(actionId), hash, expiresAt), fate);
      if fate.Written? then
        (Ledger(journal, Put(ledger.index, Pair(actionId), Entry(Pair(actionId), hash, expiresAt, InProgress))),
            Some(Absent))
      else (Ledger(journal, ledger.index), None)
  }

  /** A response may be stored only when it reports this resolution of this envelope. */
  predicate Matches(response: ActionResponse, resolution: ResultKind, hash: EnvelopeHash) {
    response.result == resolution && response.hash == Some(hash)
  }

  /** A resolved entry accepts only a first response that repeats its resolution. */
  predicate NothingToRecord(status: Status, resolution: ResultKind, response: Option<ActionResponse>) {
    status.Done? && (status.resolution != resolution || status.response.Some? || response.None?)
  }

  /** Records an outcome, or attaches a response once; the second result is false when it threw. */
  function Resolve(ledger: Ledger, actionId: ActionId, resolution: ResultKind, response: Option<ActionResponse>,
                   fate: AppendFate): (Ledger, bool)
  {
    match Lookup(ledger.index, actionId)
    case None => (ledger, true)
    case Some(k) =>
      var entry := ledger.index.entries[k];
      if response.Some? && !Matches(response.value, resolution, entry.hash) then (ledger, false)
      else if NothingToRecord(entry.status, resolution, response) then (ledger, true)
      else
        var journal := Append(ledger.journal, Resolved(entry.id, resolution, response), fate);
        if fate.Written? then
          (Ledger(journal, WithStatus(ledger.index, k, Done(resolution, response))), true)
        else (Ledger(journal, ledger.index), false)
  }

  function RecoveryFor(index: Index, actionId: ActionId, hash: EnvelopeHash): Option<Recovery> {
    match Lookup(index, actionId)
    case None => None
    case Some(k) =>
      var entry := index.entries[k];
      if entry.status.InProgress? || entry.hash != hash then None
      else Some(Recovery(entry.status.resolution, entry.status.response))
  }

  /**
   The gate opens exactly if no record names the action and the write-ahead record is written; then
   the action is executing.  An append that throws says nothing, but may have left its record.
   */
  lemma GateIsExact(ledger: Ledger, id: ActionId, hash: EnvelopeHash, expiresAt: int, fate: AppendFate)
    ensures var (l, verdict) := Authorize(ledger, id, hash, expiresAt, fate);
            var known := exists k :: k in ledger.index.entries && Names(k, id);
            && (verdict == Some(Absent) <==> !known && fate.Written?)
            && (verdict.None? <==> !known && !fate.Written?)
            && (verdict == Some(Absent) ==>
                  l.index.entries == ledger.index.entries[Pair(id) := Entry(Pair(id), hash, expiresAt, InProgress)])
            && (verdict != Some(Absent) ==> l.index == ledger.index)
            && l.journal == if known || fate.LostBefore? then ledger.journal
                            else ledger.journal + [Executing(Pair(id), hash, expiresAt)]
  {
    LookupIsKnown(ledger.index, id);
  }

  /** A resolved record takes a first response that repeats its resolution, and nothing else. */
  lemma ResponseIsAttached(ledger: Ledger, id: ActionId, k: LedgerId, response: ActionResponse, fate: AppendFate)
    requires KnownBy(ledger.index, id, k) && ledger.index.entries[k].status.Done?
    ensures var (l, ok) := Resolve(ledger, id, response.result, Some(response), fate);
            var entry := ledger.index.entries[k];
            var first := entry.status.response.None? && entry.status.resolution == response.result
                         && response.hash == Some(entry.hash);
            && (first && fate.Written? ==>
                  && ok
                  && l.index.entries
                     == ledger.index.entries[k := entry.(status := Done(response.result, Some(response)))]
                  && l.journal == ledger.journal + [Resolved(entry.id, response.result, Some(response))])
            && (!(first && fate.Written?) ==> l.index == ledger.index)
            && (!first ==> l.journal == ledger.journal)
  {
    LookupIsKnown(ledger.index, id);
  }

  /** What is recovered is what the action's record was resolved with, for exactly its envelope. */
  lemma RecoveryIsExact(index: Index, id: ActionId, hash: EnvelopeHash, recovery: Recovery)
    ensures RecoveryFor(index, id, hash) == Some(recovery) <==>
            exists k :: KnownBy(index, id, k) && index.entries[k].hash == hash
                        && index.entries[k].status == Done(recovery.resolution, recovery.response)
  {
    LookupIsKnown(index, id);
  }

  /** An unfinished record takes a response that reports its envelope, and no other; nothing else moves. */
  lemma OutcomeIsRecorded(ledger: Ledger, id: ActionId, k: LedgerId, response: ActionResponse, fate: AppendFate)
    requires KnownBy(ledger.index, id, k) && Unfinished(ledger.index, k)
    ensures var (l, ok) := Resolve(ledger, id, response.result, Some(response), fate);
            && (ok <==> response.hash == Some(ledger.index.entries[k].hash) && fate == Written)
            && (ok ==>
                  && l.index.entries.Keys == ledger.index.entries.Keys
                  && l.index.entries[k].status == Done(response.result, Some(response))
                  && l.index.entries[k].hash == ledger.index.entries[k].hash
                  && (forall j :: j in ledger.index.entries && j != k ==> l.index.entries[j] == ledger.index.entries[j])
                  && l.journal == ledger.journal
                                  + [Resolved(ledger.index.entries[k].id, response.result, Some(response))])
            && (!ok ==> l.index == ledger.index)
  {
    LookupIsKnown(ledger.index, id);
  }

  // ---- restart ----------------------------------------------------------------------

  const UNKNOWN_OUTCOME := Done(Indeterminate, None)

  predicate Unfinished(index: Index, k: LedgerId) {
    k in index.entries && index.entries[k].status.InProgress?
  }

  /** The index after recovery visited the first `n` keys. */
  function Settled(index: Index, n: nat): Index
    requires n <= |index.order|
  {
    if n == 0 then index
    else
      var done := Settled(index, n - 1);
      var k := index.order[n - 1];
      if Unfinished(done, k) then WithStatus(done, k, UNKNOWN_OUTCOME) else done
  }

  /** The records recovery appended for the first `n` keys. */
  function Records(index: Index, n: nat): seq<Event>
    requires n <= |index.order|
  {
    if n == 0 then []
    else
      var done := Settled(index, n - 1);
      var k := index.order[n - 1];
      if Unfinished(done, k) then Records(index, n - 1) + [Resolved(done.entries[k].id, Indeterminate, None)]
      else Records(index, n - 1)
  }

  /** What a start makes of a journal it read: the index, and the journal it leaves. */
  function Restarted(journal: seq<Event>): Ledger {
    var index := Replay(journal);
    Ledger(journal + Records(index, |index.order|), Settled(index, |index.order|))
  }

  lemma ReplayAppend(events: seq<Event>, event: Event)
    ensures Replay(events + [event]) == Apply(Replay(events), event)
  {
    assert (events + [event])[..|events|] == events;
  }

  /** Recovery keeps the keys, finishes exactly what was unfinished, and touches nothing else. */
  lemma {:induction false} SettledEntries(index: Index, n: nat)
    requires WellFormed(index) && n <= |index.order|
    ensures Settled(index, n).order == index.order && Settled(index, n).entries.Keys == index.entries.Keys
    ensures forall i :: 0 <= i < |index.order| ==>
              var k := index.order[i];
              Settled(index, n).entries[k] ==
              if i < n && Unfinished(index, k) then index.entries[k].(status := UNKNOWN_OUTCOME) else index.entries[k]
  {
    if n > 0 {
      SettledEntries(index, n - 1);
      assert index.order[n - 1] in index.entries;
    }
  }

  lemma {:induction false} SettledWellFormed(index: Index, n: nat)
    requires WellFormed(index) && n <= |index.order|
    ensures WellFormed(Settled(index, n))
  {
    SettledEntries(index, n);
    var settled := Settled(index, n);
    forall k | k in settled.entries
      ensures settled.entries[k].id == k
    {
      assert k in index.order;
    }
  }

  /** The records recovery appends are exactly what makes a replay reach the settled index. */
  lemma {:induction false} ReplayOfRecords(journal: seq<Event>, n: nat)
    requires n <= |Replay(journal).order|
    ensures Replay(journal + Records(Replay(journal), n)) == Settled(Replay(journal), n)
  {
    hide Replay;
    var index := Replay(journal);
    if n == 0 {
      assert journal + Records(index, 0) == journal;
    } else {
      ReplayOfRecords(journal, n - 1);
      var done := Settled(index, n - 1);
      var k := index.order[n - 1];
      if Unfinished(done, k) {
        ReplayWellFormed(journal);
        SettledWellFormed(index, n - 1);
        var record := Resolved(done.entries[k].id, Indeterminate, None);
        ReplayAppend(journal + Records(index, n - 1), record);
        assert journal + Records(index, n) == (journal + Records(index, n - 1)) + [record];
      }
    }
  }

  /** A restart leaves the index equal to its journal's replay. */
  lemma RestartRefinesJournal(journal: seq<Event>)
    ensures var l := Restarted(journal); l.index == Replay(l.journal) && WellFormed(l.index)
  {
    ReplayOfRecords(journal, |Replay(journal).order|);
    ReplayWellFormed(journal);
    SettledWellFormed(Replay(journal), |Replay(journal).order|);
  }

  /** Exactly the unfinished entries change, each to an unknown outcome; nothing stays unfinished. */
  lemma RestartSettlesOnlyUnfinished(journal: seq<Event>)
    ensures var before, after := Replay(journal), Restarted(journal).index;
            && after.entries.Keys == before.entries.Keys
            && (forall k :: k in before.entries ==>
                  after.entries[k] ==
                      if before.entries[k].status.InProgress? then before.entries[k].(status := UNKNOWN_OUTCOME)
                                      else before.entries[k])
  {
    var before := Replay(journal);
    ReplayWellFormed(journal);
    SettledEntries(before, |before.order|);
    forall k | k in before.entries
      ensures Restarted(journal).index.entries[k] ==
              if before.entries[k].status.InProgress? then before.entries[k].(status := UNKNOWN_OUTCOME)
                  else before.entries[k]
    {
      assert k in before.order;
    }
  }

  lemma {:induction false} NothingUnfinished(index: Index, n: nat)
    requires n <= |index.order|
    requires forall k :: k in index.entries ==> index.entries[k].status.Done?
    ensures Records(index, n) == [] && Settled(index, n) == index
  {
    if n > 0 {
      NothingUnfinished(index, n - 1);
    }
  }

  /** A second restart appends nothing and changes nothing. */
  lemma RestartIsIdempotent(journal: seq<Event>)
    ensures Restarted(Restarted(journal).journal) == Restarted(journal)
  {
    var once := Restarted(journal);
    RestartRefinesJournal(journal);
    RestartSettlesOnlyUnfinished(journal);
    NothingUnfinished(once.index, |once.index.order|);
    assert once.journal + [] == once.journal;
  }

  // ---- the index refines the journal ------------------------------------------------

  ghost predicate Refines(ledger: Ledger) {
    ledger.index == Replay(ledger.journal)
  }

  /** While appends succeed, the index equals the replay of the journal. */
  lemma AuthorizeRefines(ledger: Ledger, actionId: ActionId, hash: EnvelopeHash, expiresAt: int)
    requires Refines(ledger)
    ensures Refines(Authorize(ledger, actionId, hash, expiresAt, Written).0)
  {
    ReplayAppend(ledger.journal, Executing(Pair(actionId), hash, expiresAt));
  }

  lemma ResolveRefines(ledger: Ledger, actionId: ActionId, resolution: ResultKind, response: Option<ActionResponse>)
    requires Refines(ledger)
    ensures Refines(Resolve(ledger, actionId, resolution, response, Written).0)
  {
    ReplayWellFormed(ledger.journal);
    var found := Lookup(ledger.index, actionId);
    if found.Some? {
      ReplayAppend(ledger.journal, Resolved(ledger.index.entries[found.value].id, resolution, response));
    }
  }

  // ---- runs of one ledger -----------------------------------------------------------

  /** The durable journal, and the index while a process holds one. */
  datatype Machine = Machine(journal: seq<Event>, index: Option<Index>)

  datatype Op =
    | DoAuthorize(actionId: ActionId, hash: EnvelopeHash, expiresAt: int, fate: AppendFate)
    | DoResolve(actionId: ActionId, resolution: ResultKind, response: Option<ActionResponse>, fate: AppendFate)
    | Crash
      /** A start that completes, or one whose recovery stopped after some of its appends. */
    | Start(stoppedAfter: Option<nat>)

  /** A start: everything recovery appends, or only its first records if it failed there. */
  function StartUp(journal: seq<Event>, stoppedAfter: Option<nat>): Machine {
    var records := Records(Replay(journal), |Replay(journal).order|);
    match stoppedAfter
    case None => Machine(Restarted(journal).journal, Some(Restarted(journal).index))
    case Some(n) => Machine(journal + records[..if n <= |records| then n else |records|], None)
  }

  function Step(m: Machine, op: Op): Machine {
    match (op, m.index)
    case (Crash, _) => Machine(m.journal, None)
    case (Start(stop), None) => StartUp(m.journal, stop)
    case (DoAuthorize(actionId, hash, expiresAt, fate), Some(index)) =>
      var l := Authorize(Ledger(m.journal, index), actionId, hash, expiresAt, fate).0;
      Machine(l.journal, Some(l.index))
    case (DoResolve(actionId, resolution, response, fate), Some(index)) =>
      var l := Resolve(Ledger(m.journal, index), actionId, resolution, response, fate).0;
      Machine(l.journal, Some(l.index))
    case _ => m
  }

  function Run(m: Machine, ops: seq<Op>): Machine {
    if ops == [] then m else Step(Run(m, ops[..|ops| - 1]), ops[|ops| - 1])
  }

  /** What the journal already proves about an entry the process holds. */
  ghost predicate Backed(entry: Entry, replayed: Entry) {
    && entry.id == replayed.id && entry.hash == replayed.hash
    && (entry.status.Done? ==>
          && replayed.status.Done? && replayed.status.resolution == entry.status.resolution
          && (entry.status.response.Some? ==> replayed.status.response == entry.status.response))
  }

  /** Failed appends may leave the journal ahead of the index, never behind it. */
  ghost predicate JournalAhead(journal: seq<Event>, index: Index) {
    && WellFormed(index)
    && forall k :: k in index.entries ==>
         k in Replay(journal).entries && Backed(index.entries[k], Replay(journal).entries[k])
  }

  ghost predicate MachineOk(m: Machine) {
    m.index.Some? ==> JournalAhead(m.journal, m.index.value)
  }

  lemma AuthorizeKeepsAhead(ledger: Ledger, actionId: ActionId, hash: EnvelopeHash, expiresAt: int, fate: AppendFate)
    requires JournalAhead(ledger.journal, ledger.index)
    ensures var l := Authorize(ledger, actionId, hash, expiresAt, fate).0; JournalAhead(l.journal, l.index)
  {
    hide Replay;
    var k := Pair(actionId);
    ReplayAppend(ledger.journal, Executing(k, hash, expiresAt));
    PutWellFormed(ledger.index, k, Entry(k, hash, expiresAt, InProgress));
  }

  lemma ResolveKeepsAhead(ledger: Ledger, actionId: ActionId, resolution: ResultKind, response: Option<ActionResponse>,
                          fate: AppendFate)
    requires JournalAhead(ledger.journal, ledger.index)
    ensures var l := Resolve(ledger, actionId, resolution, response, fate).0; JournalAhead(l.journal, l.index)
  {
    hide Replay;
    var found := Lookup(ledger.index, actionId);
    if found.Some? {
      var k := found.value;
      var entry := ledger.index.entries[k];
      ReplayAppend(ledger.journal, Resolved(entry.id, resolution, response));
      PutWellFormed(ledger.index, k, entry.(status := Done(resolution, response)));
    }
  }

  lemma StartIsAhead(journal: seq<Event>, stop: Option<nat>)
    ensures MachineOk(StartUp(journal, stop))
  {
    RestartRefinesJournal(journal);
  }

  lemma {:induction false} RunKeepsAhead(m: Machine, ops: seq<Op>)
    requires MachineOk(m)
    ensures MachineOk(Run(m, ops))
  {
    if ops != [] {
      var before := Run(m, ops[..|ops| - 1]);
      RunKeepsAhead(m, ops[..|ops| - 1]);
      match ops[|ops| - 1]
      case Crash =>
      case Start(stop) => StartIsAhead(before.journal, stop);
      case DoAuthorize(actionId, hash, expiresAt, fate) =>
        if before.index.Some? {
          AuthorizeKeepsAhead(Ledger(before.journal, before.index.value), actionId, hash, expiresAt, fate);
        }
      case DoResolve(actionId, resolution, response, fate) =>
        if before.index.Some? {
          ResolveKeepsAhead(Ledger(before.journal, before.index.value), actionId, resolution, response, fate);
        }
    }
  }

  /** An entry is resolved this way; if it has a response, this is it. */
  ghost predicate ResolvedAs(index: Index, k: LedgerId, resolution: ResultKind, response: Option<ActionResponse>) {
    && k in index.entries && index.entries[k].status.Done?
    && index.entries[k].status.resolution == resolution
    && (response.Some? ==> index.entries[k].status.response == response)
  }

  ghost predicate Final(m: Machine, k: LedgerId, resolution: ResultKind, response: Option<ActionResponse>) {
    && MachineOk(m)
    && ResolvedAs(Replay(m.journal), k, resolution, response)
    && (m.index.Some? ==> ResolvedAs(m.index.value, k, resolution, response))
  }

  lemma {:induction false} PartialRecoveryKeepsResolved(journal: seq<Event>, extra: seq<Event>, k: LedgerId,
                                                        resolution: ResultKind, response: Option<ActionResponse>)
    requires ResolvedAs(Replay(journal), k, resolution, response)
    requires forall e :: e in extra ==> e.Resolved? && e.id != k
    ensures ResolvedAs(Replay(journal + extra), k, resolution, response)
  {
    if extra == [] {
      assert journal + extra == journal;
    } else {
      var front, last := extra[..|extra| - 1], extra[|extra| - 1];
      PartialRecoveryKeepsResolved(journal, front, k, resolution, response);
      ReplayAppend(journal + front, last);
      assert journal + extra == (journal + front) + [last];
    }
  }

  lemma {:induction false} RecordsAreUnfinished(index: Index, n: nat)
    requires WellFormed(index) && n <= |index.order|
    ensures forall e :: e in Records(index, n) ==> e.Resolved? && Unfinished(index, e.id)
  {
    hide Settled;
    if n > 0 {
      RecordsAreUnfinished(index, n - 1);
      SettledEntries(index, n - 1);
      SettledWellFormed(index, n - 1);
    }
  }

  lemma StartKeepsFinal(journal: seq<Event>, stop: Option<nat>, k: LedgerId,
                        resolution: ResultKind, response: Option<ActionResponse>)
    requires ResolvedAs(Replay(journal), k, resolution, response)
    ensures Final(StartUp(journal, stop), k, resolution, response)
  {
    var index := Replay(journal);
    var records := Records(index, |index.order|);
    StartIsAhead(journal, stop);
    ReplayWellFormed(journal);
    RecordsAreUnfinished(index, |index.order|);
    match stop
    case None =>
      PartialRecoveryKeepsResolved(journal, records, k, resolution, response);
      RestartRefinesJournal(journal);
    case Some(n) =>
      PartialRecoveryKeepsResolved(journal, records[..if n <= |records| then n else |records|], k, resolution,
          response);
  }

  lemma AuthorizeKeepsFinal(ledger: Ledger, actionId: ActionId, hash: EnvelopeHash, expiresAt: int, fate: AppendFate,
                            k: LedgerId, resolution: ResultKind, response: Option<ActionResponse>)
    requires Final(Machine(ledger.journal, Some(ledger.index)), k, resolution, response)
    ensures var l := Authorize(ledger, actionId, hash, expiresAt, fate).0;
            Final(Machine(l.journal, Some(l.index)), k, resolution, response)
  {
    hide Replay;
    AuthorizeKeepsAhead(ledger, actionId, hash, expiresAt, fate);
    ReplayAppend(ledger.journal, Executing(Pair(actionId), hash, expiresAt));
  }

  lemma ResolveKeepsFinal(ledger: Ledger, actionId: ActionId, outcome: ResultKind, given: Option<ActionResponse>,
                          fate: AppendFate, k: LedgerId, resolution: ResultKind, response: Option<ActionResponse>)
    requires Final(Machine(ledger.journal, Some(ledger.index)), k, resolution, response)
    ensures var l := Resolve(ledger, actionId, outcome, given, fate).0;
            Final(Machine(l.journal, Some(l.index)), k, resolution, response)
  {
    hide Replay;
    ResolveKeepsAhead(ledger, actionId, outcome, given, fate);
    var found := Lookup(ledger.index, actionId);
    if found.Some? {
      ReplayAppend(ledger.journal, Resolved(ledger.index.entries[found.value].id, outcome, given));
      assert ledger.index.entries[found.value].id == found.value;
    }
    hide JournalAhead;
  }

  lemma StepKeepsFinal(m: Machine, op: Op, k: LedgerId, resolution: ResultKind, response: Option<ActionResponse>)
    requires Final(m, k, resolution, response)
    ensures Final(Step(m, op), k, resolution, response)
  {
    hide Authorize, Resolve, Replay, StartUp, ResolvedAs, JournalAhead;
    match op
    case Crash =>
    case Start(stop) =>
      if m.index.None? { StartKeepsFinal(m.journal, stop, k, resolution, response); }
    case DoAuthorize(actionId, hash, expiresAt, fate) =>
      if m.index.Some? {
        AuthorizeKeepsFinal(Ledger(m.journal, m.index.value), actionId, hash, expiresAt, fate, k, resolution, response);
      }
    case DoResolve(actionId, outcome, given, fate) =>
      if m.index.Some? {
        ResolveKeepsFinal(Ledger(m.journal, m.index.value), actionId, outcome, given, fate, k, resolution, response);
      }
  }

  /**
   Over any run of operations, failing appends, crashes and restarts: once a process holds
   an entry as resolved, its resolution never changes, and a response it holds is the
   response every later process holds.
   */
  lemma {:induction false} ResolutionIsFinal(m: Machine, ops: seq<Op>, k: LedgerId,
                                             resolution: ResultKind, response: Option<ActionResponse>)
    requires MachineOk(m) && m.index.Some? && ResolvedAs(m.index.value, k, resolution, response)
    ensures Final(Run(m, ops), k, resolution, response)
  {
    if ops == [] {
    } else {
      ResolutionIsFinal(m, ops[..|ops| - 1], k, resolution, response);
      StepKeepsFinal(Run(m, ops[..|ops| - 1]), ops[|ops| - 1], k, resolution, response);
    }
  }
}
