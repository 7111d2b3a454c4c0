/** The data section appended to every per-window prompt. */
module PromptBuilder {
  import opened Lib
  import opened Text

  /**
   * Fixed-precision decimal formatting of an `f64`, which the model does not interpret:
   * `fixed2` is `{:.2}`, `fixed6` is `{:.6}`.
   */
  datatype Formatter = Formatter(fixed2: real -> string, fixed6: real -> string)

  /** Neither format ever produces a line break. */
  ghost predicate SingleLineFormats(fmt: Formatter) {
    (forall x :: SingleLine(fmt.fixed2(x))) && (forall x :: SingleLine(fmt.fixed6(x)))
  }

  const DataHeader: string :=
    "Data provided (hourly candles, format: [timestamp, open, high, low, close, volume]):\n"

  /** One candle as `[time,open,high,low,close,volume]`: prices to 2 places, volume to 6. */
  function EntryText(c: Candle, fmt: Formatter): string {
    "[" + fmt.fixed2(c.time) + "," + fmt.fixed2(c.open) + "," + fmt.fixed2(c.high) + ","
      + fmt.fixed2(c.low) + "," + fmt.fixed2(c.close) + "," + fmt.fixed6(c.volume) + "]"
  }

  /** The entries written so far by `format_candles`: a comma is pushed before every entry but the first. */
  function Entries(data: seq<Candle>, fmt: Formatter): string {
    if data == [] then ""
    else
      Entries(data[..|data| - 1], fmt) + (if |data| > 1 then "," else "")
        + EntryText(data[|data| - 1], fmt)
  }

  /** What `format_candles` returns: the entries between square brackets. */
  function CandlesText(data: seq<Candle>, fmt: Formatter): (r: string)
    ensures |r| >= 2 && r[0] == '[' && r[|r| - 1] == ']'
  {
    "[" + Entries(data, fmt) + "]"
  }

  /** Reference reading of the series text, front to back: the first entry, then `,entry` for every later one. */
  function Joined(data: seq<Candle>, fmt: Formatter): string {
    if data == [] then "" else EntryText(data[0], fmt) + CommaLed(data[1..], fmt)
  }

  function CommaLed(data: seq<Candle>, fmt: Formatter): string {
    if data == [] then "" else "," + EntryText(data[0], fmt) + CommaLed(data[1..], fmt)
  }

  lemma {:induction false} CommaLedSnoc(data: seq<Candle>, c: Candle, fmt: Formatter)
    ensures CommaLed(data + [c], fmt) == CommaLed(data, fmt) + "," + EntryText(c, fmt)
  {
    if data != [] {
      assert (data + [c])[1..] == data[1..] + [c];
      CommaLedSnoc(data[1..], c, fmt);
    } else {
      assert (data + [c])[1..] == [];
    }
  }

  /** The series text is `[`, the entries with one comma between neighbours, then `]`. */
  lemma {:induction false} EntriesJoined(data: seq<Candle>, fmt: Formatter)
    ensures Entries(data, fmt) == Joined(data, fmt)
    decreases |data|
  {
    if |data| > 1 {
      var init := data[..|data| - 1];
      EntriesJoined(init, fmt);
      CommaLedSnoc(init[1..], data[|data| - 1], fmt);
      assert init[1..] + [data[|data| - 1]] == data[1..];
      Regroup4(EntryText(data[0], fmt), CommaLed(init[1..], fmt), ",", EntryText(data[|data| - 1], fmt));
    } else if |data| == 1 {
      assert data[..0] == [];
    }
  }

  lemma Regroup4(a: string, b: string, c: string, d: string)
    ensures a + b + c + d == a + (b + c + d)
  {
  }

  /** An empty slice formats as `[]`. */
  lemma CandlesTextEmpty(fmt: Formatter)
    ensures CandlesText([], fmt) == "[]"
  {
  }

  lemma {:induction false} EntriesSingleLine(data: seq<Candle>, fmt: Formatter)
    requires SingleLineFormats(fmt)
    ensures SingleLine(Entries(data, fmt))
    decreases |data|
  {
    if data != [] {
      EntriesSingleLine(data[..|data| - 1], fmt);
    }
  }

  /** `format_candles` pushes into a growing string, one entry per loop step. */
  method FormatCandles(data: seq<Candle>, fmt: Formatter) returns (s: string)
    ensures s == CandlesText(data, fmt)
  {
    s := "[";
    var i := 0;
    while i < |data|
      invariant 0 <= i <= |data|
      invariant s == "[" + Entries(data[..i], fmt)
    {
      if i > 0 {
        s := s + ",";
      }
      s := s + EntryText(data[i], fmt);
      assert data[..i + 1][..i] == data[..i];
      i := i + 1;
    }
    assert data[..i] == data;
    s := s + "]";
  }

  /** One series line: its tag, the formatted candles, a line break. */
  function SeriesLine(tag: string, data: seq<Candle>, fmt: Formatter): string {
    tag + CandlesText(data, fmt) + "\n"
  }

  /** What `build_data_section` returns: the header, then an ETH, a BTC and a SOL line. */
  function DataSection(eth: seq<Candle>, btc: seq<Candle>, sol: seq<Candle>, fmt: Formatter): string {
    DataHeader + SeriesLines(eth, btc, sol, fmt)
  }

  function SeriesLines(eth: seq<Candle>, btc: seq<Candle>, sol: seq<Candle>, fmt: Formatter): string {
    SeriesLine("ETH: ", eth, fmt) + SeriesLine("BTC: ", btc, fmt) + SeriesLine("SOL: ", sol, fmt)
  }

  /** `build_data_section`: three formatted series pushed after the header. */
  method BuildDataSection(eth: seq<Candle>, btc: seq<Candle>, sol: seq<Candle>, fmt: Formatter)
    returns (section: string)
    ensures section == DataSection(eth, btc, sol, fmt)
  {
    var ethText := FormatCandles(eth, fmt);
    var btcText := FormatCandles(btc, fmt);
    var solText := FormatCandles(sol, fmt);
    section := "";
    EmptyLeft(DataHeader);
    section := section + DataHeader;
    ghost var header := section;
    section := section + "ETH: ";
    section := section + ethText;
    section := section + "\n";
    section := section + "BTC: ";
    section := section + btcText;
    section := section + "\n";
    section := section + "SOL: ";
    section := section + solText;
    section := section + "\n";
    RegroupSection(header, "ETH: ", ethText, "\n", "BTC: ", btcText, "\n", "SOL: ", solText, "\n");
  }

  lemma RegroupSection(h: string, a1: string, a2: string, a3: string, b1: string, b2: string,
                       b3: string, c1: string, c2: string, c3: string)
    ensures h + a1 + a2 + a3 + b1 + b2 + b3 + c1 + c2 + c3
      == h + ((a1 + a2 + a3) + (b1 + b2 + b3) + (c1 + c2 + c3))
  {
  }

  /** The section starts with the fixed header line. */
  lemma DataSectionHeader(eth: seq<Candle>, btc: seq<Candle>, sol: seq<Candle>, fmt: Formatter)
    ensures |DataSection(eth, btc, sol, fmt)| > |DataHeader|
    ensures DataSection(eth, btc, sol, fmt)[..|DataHeader|] == DataHeader
  {
  }

  /** With single-line formats, exactly three lines follow the header, in the order ETH, BTC, SOL. */
  lemma DataSectionLines(eth: seq<Candle>, btc: seq<Candle>, sol: seq<Candle>, fmt: Formatter)
    requires SingleLineFormats(fmt)
    ensures LineCount(SeriesLines(eth, btc, sol, fmt)) == 3
  {
    var x, y, z := SeriesLine("ETH: ", eth, fmt), SeriesLine("BTC: ", btc, fmt),
      SeriesLine("SOL: ", sol, fmt);
    SeriesLineCount("ETH: ", eth, fmt);
    SeriesLineCount("BTC: ", btc, fmt);
    SeriesLineCount("SOL: ", sol, fmt);
    assert LineCount(x) == 1 && LineCount(y) == 1 && LineCount(z) == 1;
    ThreeLines(x, y, z);
  }

  lemma ThreeLines(x: string, y: string, z: string)
    requires LineCount(x) == 1 && LineCount(y) == 1 && LineCount(z) == 1
    ensures LineCount(x + y + z) == 3
  {
    LineCountConcat(x, y);
    LineCountConcat(x + y, z);
  }

  lemma SeriesLineCount(tag: string, data: seq<Candle>, fmt: Formatter)
    requires SingleLineFormats(fmt) && SingleLine(tag)
    ensures LineCount(SeriesLine(tag, data, fmt)) == 1
  {
    EntriesSingleLine(data, fmt);
    TerminatedLine(tag + CandlesText(data, fmt));
  }

  lemma RegroupLine(tag: string, e0: string, more: string, rest: string)
    ensures tag + ("[" + (e0 + more) + "]") + "\n" + rest == (tag + "[" + e0) + (more + "]" + "\n" + rest)
  {
  }

  /** A non-empty ETH series puts its first candle's entry right after `ETH: [`. */
  lemma FirstEntryLeads(eth: seq<Candle>, btc: seq<Candle>, sol: seq<Candle>, fmt: Formatter)
    requires eth != []
    ensures "ETH: " + "[" + EntryText(eth[0], fmt) <= SeriesLines(eth, btc, sol, fmt)
  {
    EntriesJoined(eth, fmt);
    var e0, more := EntryText(eth[0], fmt), CommaLed(eth[1..], fmt);
    var rest := SeriesLine("BTC: ", btc, fmt) + SeriesLine("SOL: ", sol, fmt);
    assert CandlesText(eth, fmt) == "[" + (e0 + more) + "]";
    assert SeriesLines(eth, btc, sol, fmt) == "ETH: " + ("[" + (e0 + more) + "]") + "\n" + rest;
    RegroupLine("ETH: ", e0, more, rest);
  }

  /** The two-candle unit test: under a `{:.2}`/`{:.6}` that print these values as Rust does,
      the line after the header begins with the first ETH candle written out in row order. */
  lemma EthLineExample(btc: seq<Candle>, sol: seq<Candle>, fmt: Formatter)
    requires fmt.fixed2(1732849200.0) == "1732849200.00"
    requires fmt.fixed2(3591.36) == "3591.36"
    requires fmt.fixed2(3603.0) == "3603.00"
    requires fmt.fixed2(3599.99) == "3599.99"
    requires fmt.fixed2(3594.88) == "3594.88"
    requires fmt.fixed6(415.86094626) == "415.860946"
    ensures var eth := [
        Candle(1732849200.0, 3591.36, 3603.0, 3599.99, 3594.88, 415.86094626),
        Candle(1732845600.0, 3564.44, 3600.0, 3565.45, 3599.99, 4979.85077974)];
      "ETH: " + "[" + ("[" + "1732849200.00" + "," + "3591.36" + "," + "3603.00" + "," + "3599.99"
        + "," + "3594.88" + "," + "415.860946" + "]") <= SeriesLines(eth, btc, sol, fmt)
  {
    var eth := [
        Candle(1732849200.0, 3591.36, 3603.0, 3599.99, 3594.88, 415.86094626),
        Candle(1732845600.0, 3564.44, 3600.0, 3565.45, 3599.99, 4979.85077974)];
    FirstEntryLeads(eth, btc, sol, fmt);
  }

  /** Neither format ever produces a double quote (decimal numbers never do). */
  ghost predicate QuoteFreeFormats(fmt: Formatter) {
    (forall x :: '"' !in fmt.fixed2(x)) && (forall x :: '"' !in fmt.fixed6(x))
  }

  lemma {:induction false} EntriesQuoteFree(data: seq<Candle>, fmt: Formatter)
    requires QuoteFreeFormats(fmt)
    ensures '"' !in Entries(data, fmt)
    decreases |data|
  {
    if data != [] {
      EntriesQuoteFree(data[..|data| - 1], fmt);
    }
  }

  /**
   * The three series lines hold no double quote; nor does the fixed header, so the data section
   * never contains `"action":` or `"rationale":`, which the module's unit test looks for.
   */
  lemma SeriesLinesQuoteFree(eth: seq<Candle>, btc: seq<Candle>, sol: seq<Candle>, fmt: Formatter)
    requires QuoteFreeFormats(fmt)
    ensures '"' !in SeriesLines(eth, btc, sol, fmt)
  {
    SeriesLineQuoteFree("ETH: ", eth, fmt);
    SeriesLineQuoteFree("BTC: ", btc, fmt);
    SeriesLineQuoteFree("SOL: ", sol, fmt);
  }

  lemma SeriesLineQuoteFree(tag: string, data: seq<Candle>, fmt: Formatter)
    requires QuoteFreeFormats(fmt) && '"' !in tag
    ensures '"' !in SeriesLine(tag, data, fmt)
  {
    EntriesQuoteFree(data, fmt);
  }
}
