/**
 The dispatch ledger as the adapter holds it: a map updated in place beside an append-only
 journal.  Every method is proved to do what module LedgerModel says.
 */
module DispatchLedger {
  import opened Wrappers
  import opened Protocol
  import opened LedgerModel

  /** The event sink; the caller says what the disk does with each append. */
  class DispatchJournal {
    var events: seq<Event>

    constructor (seed: seq<Event>)
      ensures events == seed
    {
      events := seed;
    }

    /** The result is false when the append threw; its record may still have reached the file. */
    method Record(event: Event, fate: AppendFate) returns (ok: bool)
      modifies this
      ensures events == Append(old(events), event, fate)
      ensures ok == fate.Written?
    {
      if !fate.LostBefore? {
        events := events + [event];
      }
      ok := fate.Written?;
    }
  }

  class DispatchLedger {
    const journal: DispatchJournal
    var entries: map<LedgerId, Entry>
    var order: seq<LedgerId>

    ghost function Contents(): Index
      reads this
    {
      Index(order, entries)
    }

    ghost function Snapshot(): Ledger
      reads this, journal
    {
      Ledger(journal.events, Contents())
    }

    ghost predicate Valid()
      reads this
    {
      WellFormed(Contents())
    }

    /** Rebuilds the index, one record at a time. */
    constructor (journal: DispatchJournal)
      ensures this.journal == journal && Valid()
      ensures Contents() == Replay(journal.events)
    {
      this.journal := journal;
      entries := map[];
      order := [];
      new;
      var i := 0;
      while i < |journal.events|
        invariant i <= |journal.events|
        invariant this.journal == journal
        invariant Contents() == Replay(journal.events[..i])
      {
        assert journal.events[..i + 1][..i] == journal.events[..i];
        match journal.events[i] {
          case Executing(id, hash, expiresAt) =>
            SetEntry(id, Entry(id, hash, expiresAt, InProgress));
          case Resolved(id, resolution, response) =>
            if id in entries {
              SetEntry(id, entries[id].(status := Done(resolution, response)));
            }
        }
        i := i + 1;
      }
      assert journal.events[..i] == journal.events;
      ReplayWellFormed(journal.events);
    }

    method SetEntry(id: LedgerId, entry: Entry)
      modifies this
      ensures Contents() == Put(old(Contents()), id, entry)
    {
      if id !in entries {
        order := order + [id];
      }
      entries := entries[id := entry];
    }

    /** Records one unfinished entry's outcome as unknown. */
    method SettleEntry(k: LedgerId, fate: AppendFate) returns (ok: bool)
      requires Valid() && Unfinished(Contents(), k)
      modifies this, journal
      ensures Valid() && ok == fate.Written?
      ensures journal.events == Append(old(journal.events), Resolved(old(entries)[k].id, Indeterminate, None), fate)
      ensures Contents() == if ok then WithStatus(old(Contents()), k, UNKNOWN_OUTCOME) else old(Contents())
    {
      ok := journal.Record(Resolved(entries[k].id, Indeterminate, None), fate);
      if ok {
        PutWellFormed(Contents(), k, entries[k].(status := UNKNOWN_OUTCOME));
        SetEntry(k, entries[k].(status := UNKNOWN_OUTCOME));
      }
    }

    /**
     Resolves every unfinished entry as indeterminate, stopping at the first append that
     throws; `kept` says how many of the records reached the journal.
     */
    method Recover(fates: seq<AppendFate>) returns (ok: bool, ghost kept: nat)
      requires Valid()
      modifies this, journal
      ensures Valid() && kept <= |Records(old(Contents()), |old(order)|)|
      ensures journal.events == old(journal.events) + Records(old(Contents()), |old(order)|)[..kept]
      ensures (forall f :: f in fates ==> f.Written?) ==> ok
      ensures ok ==> kept == |Records(old(Contents()), |old(order)|)|
                     && Contents() == Settled(old(Contents()), |old(order)|)
    {
      hide Settled, Records;
      ghost var start := Contents();
      SettledStart(start);
      var appends := 0;
      var i := 0;
      while i < |order|
        invariant i <= |order| && order == start.order
        invariant Valid() && Contents() == Settled(start, i)
        invariant journal.events == old(journal.events) + Records(start, i)
      {
        var k := order[i];
        SettledStep(start, i);
        RecordsPrefix(start, i + 1, |start.order|);
        if entries[k].status.InProgress? {
          var fate := if appends < |fates| then fates[appends] else Written;
          appends := appends + 1;
          var written := SettleEntry(k, fate);
          if !written {
            RecordsPrefix(start, i, |start.order|);
            kept := if fate.LostAfter? then |Records(start, i + 1)| else |Records(start, i)|;
            return false, kept;
          }
        }
        i := i + 1;
      }
      return true, |Records(start, i)|;
    }

    /** Opens a ledger over a journal; absent when recovery could not be recorded. */
    static method Open(journal: DispatchJournal, fates: seq<AppendFate>)
      returns (ledger: DispatchLedger?, ghost kept: nat)
      modifies journal
      ensures (forall f :: f in fates ==> f.Written?) ==> ledger != null
      ensures ledger != null ==> fresh(ledger) && ledger.journal == journal && ledger.Valid()
                                 && ledger.Snapshot() == Restarted(old(journal.events))
      ensures ledger == null ==> journal.events == StartUp(old(journal.events), Some(kept)).journal
    {
      var candidate := new DispatchLedger(journal);
      var ok;
      ok, kept := candidate.Recover(fates);
      ledger := if ok then candidate else null;
    }

    method Find(actionId: ActionId) returns (found: Option<LedgerId>)
      ensures found == Lookup(Contents(), actionId)
    {
      if Pair(actionId) in entries {
        return Some(Pair(actionId));
      }
      var legacy := Flat(FlatText(actionId));
      found := if legacy in entries then Some(legacy) else None;
    }

    method CheckSubmission(actionId: ActionId, hash: EnvelopeHash) returns (verdict: Verdict)
      ensures verdict == Check(Contents(), actionId, hash)
      ensures verdict.Absent? <==> forall k :: k in entries ==> !Names(k, actionId)
      ensures verdict.ReplayDetected? <==>
                exists k :: KnownBy(Contents(), actionId, k) && entries[k].status.Done?
    {
      VerdictIsExact(Contents(), actionId, hash);
      var found := Find(actionId);
      if found.None? {
        return Absent;
      }
      var entry := entries[found.value];
      if entry.status.Done? {
        return ReplayDetected;
      }
      verdict := if entry.hash == hash then InFlight else HashMismatch;
    }

    /** The gate before transmission; absent when the write-ahead append threw. */
    method AuthorizeDispatch(actionId: ActionId, hash: EnvelopeHash, expiresAt: int, fate: AppendFate)
      returns (verdict: Option<Verdict>)
      requires Valid()
      modifies this, journal
      ensures Valid()
      ensures (Snapshot(), verdict) == Authorize(old(Snapshot()), actionId, hash, expiresAt, fate)
    {
      var decision := CheckSubmission(actionId, hash);
      if !decision.Absent? {
        return Some(decision);
      }
      var id := Pair(actionId);
      var ok := journal.Record(Executing(id, hash, expiresAt), fate);
      if !ok {
        return None;
      }
      PutWellFormed(Contents(), id, Entry(id, hash, expiresAt, InProgress));
      SetEntry(id, Entry(id, hash, expiresAt, InProgress));
      verdict := Some(Absent);
    }

    /** Records an outcome once, or attaches a response once; false when it threw. */
    method ResolveDispatch(actionId: ActionId, resolution: ResultKind, response: Option<ActionResponse>,
                           fate: AppendFate)
      returns (ok: bool)
      requires Valid()
      modifies this, journal
      ensures Valid()
      ensures (Snapshot(), ok) == Resolve(old(Snapshot()), actionId, resolution, response, fate)
    {
      var found := Find(actionId);
      if found.None? {
        return true;
      }
      var k := found.value;
      var entry := entries[k];
      if response.Some? && !Matches(response.value, resolution, entry.hash) {
        return false;
      }
      if NothingToRecord(entry.status, resolution, response) {
        return true;
      }
      ok := journal.Record(Resolved(entry.id, resolution, response), fate);
      if ok {
        PutWellFormed(Contents(), k, entry.(status := Done(resolution, response)));
        SetEntry(k, entry.(status := Done(resolution, response)));
      }
    }

    method RecoverResponse(actionId: ActionId, hash: EnvelopeHash) returns (recovery: Option<Recovery>)
      ensures recovery == RecoveryFor(Contents(), actionId, hash)
    {
      var found := Find(actionId);
      if found.None? {
        return None;
      }
      var entry := entries[found.value];
      if entry.status.InProgress? || entry.hash != hash {
        return None;
      }
      recovery := Some(Recovery(entry.status.resolution, entry.status.response));
    }
  }

  lemma SettledStart(index: Index)
    ensures Settled(index, 0) == index && Records(index, 0) == []
  {
  }

  /** What recovery does at one key. */
  lemma SettledStep(index: Index, n: nat)
    requires WellFormed(index) && n < |index.order|
    ensures var done := Settled(index, n); var k := index.order[n];
            && done.order == index.order && k in done.entries && done.entries[k].id == k
            && Settled(index, n + 1) == (if Unfinished(done, k) then WithStatus(done, k, UNKNOWN_OUTCOME) else done)
            && Records(index, n + 1) == Records(index, n)
                                        + (if Unfinished(done, k) then [Resolved(k, Indeterminate, None)] else [])
  {
    SettledEntries(index, n);
    SettledWellFormed(index, n);
  }

  /** Later records never disturb the earlier ones. */
  lemma {:induction false} RecordsPrefix(index: Index, n: nat, m: nat)
    requires n <= m <= |index.order|
    ensures |Records(index, n)| <= |Records(index, m)| && Records(index, m)[..|Records(index, n)|] == Records(index, n)
  {
    if n < m {
      RecordsPrefix(index, n, m - 1);
    }
  }
}
