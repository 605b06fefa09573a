/**
  * The score-history store (lib/history.ts): newest-first records, capped at
  * 100, kept under one storage key.
  *
  * The storage slot is a field holding either nothing, an unreadable value,
  * or the list of records; JSON (de)serialisation is not modelled. Record ids
  * and timestamps come from the clock and a random source in the source, so
  * they are parameters here.
  */
module ScoreHistory {
  import opened Common
  import opened Scoring

  const MaxHistory: nat := 100

  datatype RecordInputs = RecordInputs(oiPattern: string, etfFlow: real, orderBookFeatures: seq<string>)

  /** `Omit<HistoryRecord, 'id' | 'timestamp'>`: what the caller supplies. */
  datatype RecordDraft = RecordDraft(
    symbol: string,
    score: int,
    recommendation: Recommendation,
    fundingRate: Option<real>,
    longShortRatio: Option<real>,
    fearGreedIndex: Option<real>,
    price: Option<real>,
    inputs: RecordInputs)

  datatype HistoryRecord = HistoryRecord(id: string, timestamp: int, draft: RecordDraft)
  {
    function Symbol(): string { draft.symbol }
  }

  /** What the storage key holds: nothing (missing or empty), a value that
      does not parse, or a list of records. */
  datatype Stored = Absent | Unparsable | Saved(records: seq<HistoryRecord>)

  /** `getHistoryRecords` on a storage value: the list, or [] when missing or unreadable. */
  function ReadRecords(stored: Stored): (r: seq<HistoryRecord>)
    ensures !stored.Saved? ==> r == []
  {
    if stored.Saved? then stored.records else []
  }

  /** `history.unshift(newRecord); history.slice(0, MAX_HISTORY)`. */
  function Prepended(history: seq<HistoryRecord>, newRecord: HistoryRecord): seq<HistoryRecord>
  {
    Take([newRecord] + history, MaxHistory)
  }

  /** `history.filter(record => record.id !== id)`. */
  function WithoutId(history: seq<HistoryRecord>, id: string): seq<HistoryRecord>
  {
    Filter(history, (r: HistoryRecord) => r.id != id)
  }

  /** `history.filter(record => record.symbol.toUpperCase() === symbol.toUpperCase())`, ASCII letters only. */
  function ForSymbol(history: seq<HistoryRecord>, symbol: string): seq<HistoryRecord>
  {
    Filter(history, (r: HistoryRecord) => EqualsIgnoreCase(r.Symbol(), symbol))
  }

  /** The storage behind the store, updated in place by its operations. */
  class HistoryStore {
    var stored: Stored

    constructor(initial: Stored)
      ensures stored == initial
    {
      stored := initial;
    }

    /** `getHistoryRecords`. */
    function Records(): (r: seq<HistoryRecord>)
      reads this
      ensures stored.Saved? ==> r == stored.records
      ensures !stored.Saved? ==> r == []
    {
      ReadRecords(stored)
    }

    /** `getHistoryBySymbol`. */
    function BySymbol(symbol: string): (r: seq<HistoryRecord>)
      reads this
      ensures forall x :: x in r <==> x in Records() && EqualsIgnoreCase(x.Symbol(), symbol)
    {
      BySymbolExactly(Records(), symbol);
      ForSymbol(Records(), symbol)
    }

    /** `saveHistoryRecord` with the generated id and `Date.now()` as parameters. */
    method Save(record: RecordDraft, id: string, now: int)
      modifies this
      ensures stored == Saved(Prepended(old(Records()), HistoryRecord(id, now, record)))
      ensures Records()[0] == HistoryRecord(id, now, record)
      ensures |Records()| == if |old(Records())| + 1 < MaxHistory then |old(Records())| + 1 else MaxHistory
    {
      var history := Records();
      var newRecord := HistoryRecord(id, now, record);
      history := [newRecord] + history;
      var limitedHistory := Take(history, MaxHistory);
      stored := Saved(limitedHistory);
    }

    /** `clearHistory`: the key is removed. */
    method Clear()
      modifies this
      ensures stored == Absent
      ensures Records() == []
    {
      stored := Absent;
    }

    /** `deleteHistoryRecord`: the list without the records carrying `id`. */
    method Delete(id: string)
      modifies this
      ensures stored == Saved(WithoutId(old(Records()), id))
    {
      var history := Records();
      var filtered := WithoutId(history, id);
      stored := Saved(filtered);
    }
  }

  // ---------------------------------------------------------------------------
  // Properties of the list operations
  // ---------------------------------------------------------------------------

  /** After a save the new record comes first, the length is min(old + 1, 100),
      the older records follow in their order, and the oldest is dropped only
      when there were already 100 or more. */
  lemma SaveShape(history: seq<HistoryRecord>, newRecord: HistoryRecord)
    ensures var h := Prepended(history, newRecord);
      && h[0] == newRecord
      && |h| == (if |history| + 1 < MaxHistory then |history| + 1 else MaxHistory)
      && h[1..] == history[..|h| - 1]
    ensures |history| < MaxHistory ==> Prepended(history, newRecord) == [newRecord] + history
  {
    var h := Prepended(history, newRecord);
    assert h == ([newRecord] + history)[..|h|];
    assert h[1..] == history[..|h| - 1];
  }

  /** Saving never makes the list longer than 100, whatever was stored. */
  lemma SaveBounded(history: seq<HistoryRecord>, newRecord: HistoryRecord)
    ensures 1 <= |Prepended(history, newRecord)| <= MaxHistory
  {
  }

  /** Deleting removes exactly the records with that id and keeps the others
      in order: the survivors of any prefix come before those of the rest. */
  lemma DeleteExactly(history: seq<HistoryRecord>, id: string)
    ensures forall r :: r in WithoutId(history, id) <==> r in history && r.id != id
    ensures |WithoutId(history, id)| == |history| - CountWhere(history, (r: HistoryRecord) => r.id == id)
    ensures forall k :: 0 <= k <= |history| ==>
      WithoutId(history, id) == WithoutId(history[..k], id) + WithoutId(history[k..], id)
  {
    forall k | 0 <= k <= |history|
      ensures WithoutId(history, id) == WithoutId(history[..k], id) + WithoutId(history[k..], id)
    {
      assert history == history[..k] + history[k..];
      FilterAppend(history[..k], history[k..], (r: HistoryRecord) => r.id != id);
    }
    var w := WithoutId(history, id);
    forall r | r in w ensures r in history && r.id != id {
      var i :| 0 <= i < |w| && w[i] == r;
    }
    forall r | r in history && r.id != id ensures r in w {
      var i :| 0 <= i < |history| && history[i] == r;
    }
    CountComplement(history, (r: HistoryRecord) => r.id != id, (r: HistoryRecord) => r.id == id);
  }

  /** The symbol filter keeps exactly the records whose symbol matches
      ignoring ASCII case, in stored order: the matches of any prefix come
      before those of the rest. */
  lemma BySymbolExactly(history: seq<HistoryRecord>, symbol: string)
    ensures forall r :: r in ForSymbol(history, symbol) <==> r in history && EqualsIgnoreCase(r.Symbol(), symbol)
    ensures forall k :: 0 <= k <= |history| ==>
      ForSymbol(history, symbol) == ForSymbol(history[..k], symbol) + ForSymbol(history[k..], symbol)
  {
    forall k | 0 <= k <= |history|
      ensures ForSymbol(history, symbol) == ForSymbol(history[..k], symbol) + ForSymbol(history[k..], symbol)
    {
      assert history == history[..k] + history[k..];
      FilterAppend(history[..k], history[k..], (r: HistoryRecord) => EqualsIgnoreCase(r.Symbol(), symbol));
    }
    var w := ForSymbol(history, symbol);
    forall r | r in w ensures r in history && EqualsIgnoreCase(r.Symbol(), symbol) {
      var i :| 0 <= i < |w| && w[i] == r;
    }
    forall r | r in history && EqualsIgnoreCase(r.Symbol(), symbol) ensures r in w {
      var i :| 0 <= i < |history| && history[i] == r;
    }
  }

  /** Missing and unreadable storage both read as the empty list, and a
      save over unreadable storage replaces it with the one new record. */
  lemma UnreadableStorage(newRecord: HistoryRecord)
    ensures ReadRecords(Absent) == [] && ReadRecords(Unparsable) == []
    ensures Prepended(ReadRecords(Unparsable), newRecord) == [newRecord]
  {
  }
}
