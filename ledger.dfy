/** The history ledger: the last ten (prompt, accuracy) pairs, oldest first. */
module Ledger {
  import opened Results

  /** One ledger entry. */
  datatype PromptRecord = PromptRecord(prompt: string, score: real)

  /** The most records the ledger keeps. */
  const HistoryCap: nat := 10

  /**
   * The history file as a pass finds it: absent, present but unreadable, or read, in which case
   * its JSON either decoded to a list of records or did not.
   */
  datatype LedgerFile = Missing | Unreadable | Stored(decoded: Option<seq<PromptRecord>>)

  /** The history a pass starts from: an absent file or undecodable JSON count as empty. */
  function Load(file: LedgerFile): (r: Result<seq<PromptRecord>, Error>)
    ensures r.Err? <==> file.Unreadable?
    ensures file.Stored? && file.decoded.Some? ==> r == Ok(file.decoded.value)
    ensures file == Missing || file == Stored(Nothing) ==> r == Ok([])
  {
    match file
    case Missing => Ok([])
    case Unreadable => Err(LedgerUnreadable)
    case Stored(Nothing) => Ok([])
    case Stored(Some(records)) => Ok(records)
  }

  /** The last `min(|s|, 10)` elements of `s`. */
  function Latest<T>(s: seq<T>): seq<T> {
    s[|s| - (if |s| <= HistoryCap then |s| else HistoryCap)..]
  }

  /** The ledger after recording one more pass: never more than ten records, the new one last. */
  function Appended(history: seq<PromptRecord>, record: PromptRecord): (r: seq<PromptRecord>)
    ensures 1 <= |r| <= HistoryCap && r[|r| - 1] == record
  {
    Latest(history + [record])
  }

  /** Push the new record, then keep only the last ten. */
  method AppendRecord(history: seq<PromptRecord>, record: PromptRecord) returns (h: seq<PromptRecord>)
    ensures h == Appended(history, record)
  {
    h := history + [record];
    if |h| > HistoryCap {
      var start := |h| - HistoryCap;
      h := h[start..];
    }
  }

  /**
   * An append keeps at most ten records, ends with the new one, and is what is left of the old
   * ledger plus the new record after dropping from the front.
   */
  lemma AppendedShape(history: seq<PromptRecord>, record: PromptRecord)
    ensures var h := Appended(history, record);
      |h| == (if |history| < HistoryCap then |history| + 1 else HistoryCap)
      && h[|h| - 1] == record
      && history + [record] == (history + [record])[..|history| + 1 - |h|] + h
  {
  }

  /** Recording the given passes one after another. */
  function AppendAll(history: seq<PromptRecord>, records: seq<PromptRecord>): seq<PromptRecord>
    decreases |records|
  {
    if records == [] then history else AppendAll(Appended(history, records[0]), records[1..])
  }

  lemma LatestOfLatest<T>(x: seq<T>, y: seq<T>)
    ensures Latest(Latest(x) + y) == Latest(x + y)
  {
    var lx := Latest(x);
    assert lx == x[|x| - |lx|..];
    assert x + y == x[..|x| - |lx|] + (lx + y);
  }

  /**
   * However many passes are recorded, the ledger holds at most ten records: the most recent
   * ones, in the order they were recorded.
   */
  lemma {:induction false} AppendAllKeepsLatest(history: seq<PromptRecord>, records: seq<PromptRecord>)
    requires records != [] || |history| <= HistoryCap
    ensures AppendAll(history, records) == Latest(history + records)
    ensures |AppendAll(history, records)| <= HistoryCap
    decreases |records|
  {
    if records == [] {
      assert history + records == history;
    } else {
      var h1 := Appended(history, records[0]);
      AppendAllKeepsLatest(h1, records[1..]);
      LatestOfLatest(history + [records[0]], records[1..]);
      assert history + [records[0]] + records[1..] == history + records;
    }
  }
}
