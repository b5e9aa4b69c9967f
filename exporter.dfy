/**
 * The exporter (`Exporter`): the table handed to the CSV writer, the records
 * handed to the JSON writer, and the lines of the text report. Writing the
 * files is not modelled; the model produces what would be written.
 */
module Export {
  import opened Common
  import opened Seqs
  import opened Text
  import opened Records
  import opened Settings

  // ---------------------------------------------------------------------------
  // CSV
  // ---------------------------------------------------------------------------

  /** The fixed column order of the CSV file. */
  const Columns: seq<string> :=
    ["word", "wsk", "ws", "numwords", "isquest", "isgeo", "adscnt", "avbid", "docs", "cnt"]

  /** The header and, per record, the values written under it, in column order. */
  datatype Table = Table(header: seq<string>, rows: seq<seq<Value>>)

  function Present(first: Record): string -> bool {
    f => f in first
  }

  /** The column comprehension: the fixed columns the first record has, in the fixed order. */
  function ColumnsOf(first: Record): (r: seq<string>)
    ensures IsSubsequence(r, Columns)
    ensures forall f :: f in r <==> f in Columns && f in first
  {
    FilterIsSubsequence(Columns, Present(first));
    Filter(Columns, Present(first))
  }

  /** The value written in column `field` for `kw`: the phrase for `word`, the field or `None` otherwise. */
  function Cell(kw: Record, field: string): Value {
    if field == "word" then PhraseValue(kw) else Get(kw, field, Null)
  }

  /** The values of one CSV line: `Cell` for each column, in column order. */
  function RowOf(kw: Record, fields: seq<string>): seq<Value> {
    seq(|fields|, k requires 0 <= k < |fields| => Cell(kw, fields[k]))
  }

  /** The inner loop of `to_csv`: one row, filled column by column. */
  method BuildRow(kw: Record, fields: seq<string>) returns (row: seq<Value>)
    ensures row == RowOf(kw, fields)
  {
    row := [];
    for i := 0 to |fields|
      invariant |row| == i
      invariant forall k :: 0 <= k < i ==> row[k] == Cell(kw, fields[k])
    {
      var field := fields[i];
      var value := Get(kw, field, Null);
      if field == "word" {
        value := PhraseValue(kw);
      }
      row := row + [value];
    }
  }

  /**
   * `to_csv(keywords, filename)`, without the file: nothing for no records;
   * otherwise the columns of the first record, and one row per record.
   */
  method ToCsv(keywords: seq<Record>) returns (table: Option<Table>)
    ensures table.None? <==> keywords == []
    ensures table.Some? ==> table.value.header == ColumnsOf(keywords[0]) && |table.value.rows| == |keywords|
    ensures table.Some? ==> forall j :: 0 <= j < |keywords| ==> table.value.rows[j] == RowOf(keywords[j], table.value.header)
  {
    if keywords == [] {
      return None;
    }
    var fields := ColumnsOf(keywords[0]);
    var rows := BuildRows(keywords, fields);
    table := Some(Table(fields, rows));
  }

  /** The outer loop of `to_csv`: one row per record. */
  method BuildRows(keywords: seq<Record>, fields: seq<string>) returns (rows: seq<seq<Value>>)
    ensures |rows| == |keywords|
    ensures forall j :: 0 <= j < |keywords| ==> rows[j] == RowOf(keywords[j], fields)
  {
    rows := [];
    for i := 0 to |keywords|
      invariant |rows| == i
      invariant forall j :: 0 <= j < i ==> rows[j] == RowOf(keywords[j], fields)
    {
      var row := BuildRow(keywords[i], fields);
      rows := rows + [row];
    }
  }

  /**
   * The columns are the fixed columns the first record has, in the fixed
   * order; `word` holds `destination_key` when that is truthy, else `word`,
   * else the empty string; every other column holds the record's value, or
   * `None` when the record lacks it.
   */
  lemma CsvCells(first: Record, kw: Record, k: int)
    requires 0 <= k < |ColumnsOf(first)|
    ensures var f := ColumnsOf(first)[k]; var v := RowOf(kw, ColumnsOf(first))[k];
      f in Columns && f in first
      && (f == "word" ==>
            v == (if "destination_key" in kw && Truthy(kw["destination_key"]) then kw["destination_key"]
                  else if "word" in kw then kw["word"] else Str("")))
      && (f != "word" ==> v == (if f in kw then kw[f] else Null))
  {
  }

  // ---------------------------------------------------------------------------
  // JSON
  // ---------------------------------------------------------------------------

  /** The copy `to_json` writes for one record: `destination_key` moved to `word`. */
  function Clean(kw: Record): Record {
    if "destination_key" in kw then (kw - {"destination_key"})["word" := kw["destination_key"]] else kw
  }

  /** `to_json(keywords, filename)`, without the file: a cleaned copy of every record, in order. */
  method ToJson(keywords: seq<Record>) returns (clean: seq<Record>)
    ensures |clean| == |keywords|
    ensures forall i :: 0 <= i < |keywords| ==> clean[i] == Clean(keywords[i])
  {
    clean := [];
    for i := 0 to |keywords|
      invariant |clean| == i
      invariant forall j :: 0 <= j < i ==> clean[j] == Clean(keywords[j])
    {
      var cleanKw := keywords[i];
      if "destination_key" in cleanKw {
        var v := cleanKw["destination_key"];
        cleanKw := cleanKw - {"destination_key"};
        cleanKw := cleanKw["word" := v];
      }
      clean := clean + [cleanKw];
    }
  }

  /**
   * A cleaned record has no `destination_key`; its value, if there was one,
   * is under `word`; every other key keeps its value; cleaning twice changes
   * nothing more.
   */
  lemma CleanRenames(kw: Record)
    ensures "destination_key" !in Clean(kw)
    ensures "destination_key" in kw ==> Clean(kw).Keys == kw.Keys - {"destination_key"} + {"word"}
    ensures "destination_key" in kw ==> Clean(kw)["word"] == kw["destination_key"]
    ensures "destination_key" !in kw ==> Clean(kw) == kw
    ensures forall k :: k in kw && k != "word" && k != "destination_key" ==> k in Clean(kw) && Clean(kw)[k] == kw[k]
    ensures Clean(Clean(kw)) == Clean(kw)
  {
  }

  // ---------------------------------------------------------------------------
  // Text report
  // ---------------------------------------------------------------------------

  /** Why `generate_report` raises: no keywords to average over, or no stop-word list to iterate. */
  datatype ReportError = NoKeywords | StopWordsNotIterable

  /** A line of 80 copies of `c`. */
  function Rule(c: char): string {
    Repeat(c, 80)
  }

  /** `str(v)`; the text of a float is given by `showReal`. */
  function Show(v: Value, showReal: real -> string): string {
    match v
    case Null => "None"
    case Bool(b) => if b then "True" else "False"
    case Int(i) => IntToString(i)
    case Real(r) => showReal(r)
    case Str(s) => s
  }

  /** `f"{i}. {text}"`. */
  function Numbered(i: nat, text: string): string {
    NatToString(i) + ". " + text
  }

  function HeaderLines(c: Config): seq<string> {
    [Rule('='),
     "НЧ-ключи по нише: " + c.niche,
     "База: " + c.base + " · Порог WSK: <=" + IntToString(c.wskThreshold) + " · Мин. слов: >=" + IntToString(c.minNumWords),
     Rule('='),
     ""]
  }

  /** The line under a listed keyword: its `wsk` and word count, each 0 when missing. */
  function MetricsLine(kw: Record, showReal: real -> string): string {
    "   └─ wsk: " + Show(Get(kw, "wsk", Int(0)), showReal) + " · слов: " + Show(Get(kw, "numwords", Int(0)), showReal)
  }

  /** The two lines for the keyword numbered `n`. */
  function KeywordEntry(n: nat, kw: Record, showReal: real -> string): seq<string> {
    [Numbered(n, Show(PhraseValue(kw), showReal)), MetricsLine(kw, showReal)]
  }

  /** The numbered entries of the listed keywords, from 1. */
  function KeywordLines(ks: seq<Record>, showReal: real -> string): seq<string>
    decreases |ks|
  {
    if ks == [] then [] else KeywordLines(ks[..|ks| - 1], showReal) + KeywordEntry(|ks|, ks[|ks| - 1], showReal)
  }

  /** `top_n = min(config.return_top, len(keywords))`. */
  function TopCount(returnTop: int, keywords: seq<Record>): int {
    Min(returnTop, |keywords|)
  }

  function TopLines(keywords: seq<Record>, returnTop: int, showReal: real -> string): seq<string> {
    var topN := TopCount(returnTop, keywords);
    ["📊 ТОП-" + IntToString(topN) + " КЛЮЧЕЙ:", Rule('-')] + KeywordLines(Prefix(keywords, topN), showReal)
  }

  /** The numbered seeds, from 1. */
  function SeedLines(ss: seq<string>): seq<string>
    decreases |ss|
  {
    if ss == [] then [] else SeedLines(ss[..|ss| - 1]) + [Numbered(|ss|, ss[|ss| - 1])]
  }

  /** The line that counts the seeds left out of the listing. */
  function MoreSeedsLine(n: int): string {
    "... и еще " + IntToString(n) + " семян"
  }

  function SeedSectionLines(seeds: seq<string>): seq<string> {
    ["", Rule('='), "🌱 СГЕНЕРИРОВАННЫЕ СЕМЕНА (" + NatToString(|seeds|) + "):", Rule('-')]
    + SeedLines(Prefix(seeds, 30))
    + (if |seeds| > 30 then [MoreSeedsLine(|seeds| - 30)] else [])
  }

  /** The keywords whose phrase, lowercased, contains one of the stop words (taken as they are). */
  function Mentions(stopWords: seq<string>): Record -> bool {
    kw => exists sw :: sw in stopWords && Contains(Lower(Phrase(kw)), sw)
  }

  /** The count on the stop-word line of the report. */
  function StopWordHits(keywords: seq<Record>, stopWords: seq<string>): (n: nat)
    ensures n <= |keywords|
  {
    |Filter(keywords, Mentions(stopWords))|
  }

  /**
   * The statistics lines. The two averages are floats formatted by the
   * caller, and `stamp` is the formatted clock reading.
   */
  function StatisticsLines(keywords: seq<Record>, seeds: seq<string>, stopWords: seq<string>,
                           avgWsk: string, avgLen: string, stamp: string): seq<string> {
    ["", Rule('='), "📈 СТАТИСТИКА:", Rule('-'),
     "Семян сгенерировано: " + NatToString(|seeds|),
     "Ключей собрано: " + NatToString(|keywords|),
     "Средний WSK: " + avgWsk,
     "Средняя длина: " + avgLen + " слов",
     "Отфильтровано стоп-словами: ~" + NatToString(StopWordHits(keywords, stopWords)),
     "", Rule('='),
     "Отчет сгенерирован: " + stamp,
     Rule('=')]
  }

  /** The lines `generate_report` joins, or the error it raises. */
  function ReportLines(keywords: seq<Record>, seeds: seq<string>, c: Config, showReal: real -> string,
                       avgWsk: string, avgLen: string, stamp: string): Result<seq<string>, ReportError> {
    if keywords == [] then Err(NoKeywords)
    else if c.stopWords.None? then Err(StopWordsNotIterable)
    else Ok(HeaderLines(c) + TopLines(keywords, c.returnTop, showReal) + SeedSectionLines(seeds)
            + StatisticsLines(keywords, seeds, c.stopWords.value, avgWsk, avgLen, stamp))
  }

  /** The numbered keyword listing loop. */
  method ListKeywords(top: seq<Record>, showReal: real -> string) returns (lines: seq<string>)
    ensures lines == KeywordLines(top, showReal)
  {
    lines := [];
    for i := 0 to |top|
      invariant lines == KeywordLines(top[..i], showReal)
    {
      var kw := top[i];
      var word := PhraseValue(kw);
      var wsk := Get(kw, "wsk", Int(0));
      var numwords := Get(kw, "numwords", Int(0));
      ghost var prev := lines;
      lines := lines + [Numbered(i + 1, Show(word, showReal))];
      lines := lines + ["   └─ wsk: " + Show(wsk, showReal) + " · слов: " + Show(numwords, showReal)];
      assert lines == prev + KeywordEntry(i + 1, kw, showReal);
      assert top[..i + 1][..i] == top[..i];
    }
    assert top[..|top|] == top;
  }

  /** The numbered seed listing loop. */
  method ListSeeds(shown: seq<string>) returns (lines: seq<string>)
    ensures lines == SeedLines(shown)
  {
    lines := [];
    for i := 0 to |shown|
      invariant lines == SeedLines(shown[..i])
    {
      assert shown[..i + 1][..i] == shown[..i];
      lines := lines + [Numbered(i + 1, shown[i])];
    }
    assert shown[..|shown|] == shown;
  }

  /** The banner of the report. */
  method ReportHeader(c: Config) returns (report: seq<string>)
    ensures report == HeaderLines(c)
  {
    report := [];
    report := report + [Rule('=')];
    report := report + ["НЧ-ключи по нише: " + c.niche];
    report := report + ["База: " + c.base + " · Порог WSK: <=" + IntToString(c.wskThreshold) + " · Мин. слов: >=" + IntToString(c.minNumWords)];
    report := report + [Rule('=')];
    report := report + [""];
  }

  /** The title of the keyword listing and the listing. */
  method ReportTop(keywords: seq<Record>, returnTop: int, showReal: real -> string) returns (lines: seq<string>)
    ensures lines == TopLines(keywords, returnTop, showReal)
  {
    var topN := Min(returnTop, |keywords|);
    lines := ["📊 ТОП-" + IntToString(topN) + " КЛЮЧЕЙ:"];
    lines := lines + [Rule('-')];
    var entries := ListKeywords(Prefix(keywords, topN), showReal);
    lines := lines + entries;
  }

  /** The title of the seed listing, at most 30 seeds, and the count of the rest. */
  method ReportSeeds(seeds: seq<string>) returns (lines: seq<string>)
    ensures lines == SeedSectionLines(seeds)
  {
    lines := ["", Rule('='), "🌱 СГЕНЕРИРОВАННЫЕ СЕМЕНА (" + NatToString(|seeds|) + "):", Rule('-')];
    var listed := ListSeeds(Prefix(seeds, 30));
    lines := lines + listed;
    if |seeds| > 30 {
      lines := lines + [MoreSeedsLine(|seeds| - 30)];
    }
  }

  /** `generate_report(keywords, seeds, config)`, with the floats and the clock given as text. */
  method GenerateReport(keywords: seq<Record>, seeds: seq<string>, c: Config, showReal: real -> string,
                        avgWsk: string, avgLen: string, stamp: string) returns (r: Result<string, ReportError>)
    ensures r.Err? ==> ReportLines(keywords, seeds, c, showReal, avgWsk, avgLen, stamp) == Err(r.error)
    ensures r.Ok? ==> ReportLines(keywords, seeds, c, showReal, avgWsk, avgLen, stamp).Ok?
                      && r.value == Join(ReportLines(keywords, seeds, c, showReal, avgWsk, avgLen, stamp).value, "\n")
  {
    var report := ReportHeader(c);
    var top := ReportTop(keywords, c.returnTop, showReal);
    report := report + top;
    var listed := ReportSeeds(seeds);
    report := report + listed;
    if keywords == [] {
      return Err(NoKeywords);
    }
    if c.stopWords.None? {
      return Err(StopWordsNotIterable);
    }
    var stats := StatisticsLines(keywords, seeds, c.stopWords.value, avgWsk, avgLen, stamp);
    report := report + stats;
    r := Ok(Join(report, "\n"));
  }

  lemma {:induction false} KeywordLinesAt(ks: seq<Record>, showReal: real -> string)
    ensures |KeywordLines(ks, showReal)| == 2 * |ks|
    ensures forall i :: 0 <= i < |ks| ==>
      KeywordLines(ks, showReal)[2 * i] == Numbered(i + 1, Show(PhraseValue(ks[i]), showReal))
      && KeywordLines(ks, showReal)[2 * i + 1] == MetricsLine(ks[i], showReal)
    decreases |ks|
  {
    if ks != [] {
      var init := ks[..|ks| - 1];
      KeywordLinesAt(init, showReal);
      forall i | 0 <= i < |ks|
        ensures KeywordLines(ks, showReal)[2 * i] == Numbered(i + 1, Show(PhraseValue(ks[i]), showReal))
        ensures KeywordLines(ks, showReal)[2 * i + 1] == MetricsLine(ks[i], showReal)
      {
        if i < |ks| - 1 {
          assert ks[i] == init[i];
        }
      }
    }
  }

  lemma {:induction false} SeedLinesAt(ss: seq<string>)
    ensures |SeedLines(ss)| == |ss|
    ensures forall i :: 0 <= i < |ss| ==> SeedLines(ss)[i] == Numbered(i + 1, ss[i])
    decreases |ss|
  {
    if ss != [] {
      var init := ss[..|ss| - 1];
      SeedLinesAt(init);
      forall i | 0 <= i < |ss|
        ensures SeedLines(ss)[i] == Numbered(i + 1, ss[i])
      {
        if i < |ss| - 1 {
          assert ss[i] == init[i];
        }
      }
    }
  }

  /** `generate_report` raises exactly for an empty keyword list, or a missing stop-word list. */
  lemma ReportErrors(keywords: seq<Record>, seeds: seq<string>, c: Config, showReal: real -> string,
                     avgWsk: string, avgLen: string, stamp: string)
    ensures var r := ReportLines(keywords, seeds, c, showReal, avgWsk, avgLen, stamp);
      (r == Err(NoKeywords) <==> keywords == [])
      && (r == Err(StopWordsNotIterable) <==> keywords != [] && c.stopWords.None?)
  {
  }

  /** The keyword listing: its title, then two lines per listed keyword. */
  lemma TopLinesAt(keywords: seq<Record>, returnTop: int, showReal: real -> string)
    ensures var n := SliceLength(|keywords|, TopCount(returnTop, keywords));
      |TopLines(keywords, returnTop, showReal)| == 2 + 2 * n
      && forall i :: 0 <= i < n ==>
        TopLines(keywords, returnTop, showReal)[2 + 2 * i] == Numbered(i + 1, Show(PhraseValue(keywords[i]), showReal))
        && TopLines(keywords, returnTop, showReal)[3 + 2 * i] == MetricsLine(keywords[i], showReal)
  {
    var top := Prefix(keywords, TopCount(returnTop, keywords));
    KeywordLinesAt(top, showReal);
  }

  /** The seed listing: its title, at most 30 numbered seeds, then the count of the rest if any. */
  lemma SeedSectionAt(seeds: seq<string>)
    ensures var lines := SeedSectionLines(seeds); var shown := Min(30, |seeds|);
      |lines| == 4 + shown + (if |seeds| > 30 then 1 else 0)
      && (forall i :: 0 <= i < shown ==> lines[4 + i] == Numbered(i + 1, seeds[i]))
      && (|seeds| > 30 ==> lines[4 + shown] == MoreSeedsLine(|seeds| - 30))
  {
    SeedLinesAt(Prefix(seeds, 30));
  }

  /** The report is the header, the keyword listing, the seed listing and the statistics, in that order. */
  lemma ReportSections(keywords: seq<Record>, seeds: seq<string>, c: Config, showReal: real -> string,
                       avgWsk: string, avgLen: string, stamp: string)
    requires ReportLines(keywords, seeds, c, showReal, avgWsk, avgLen, stamp).Ok?
    ensures var lines := ReportLines(keywords, seeds, c, showReal, avgWsk, avgLen, stamp).value;
      var top := TopLines(keywords, c.returnTop, showReal);
      var listed := SeedSectionLines(seeds);
      var stats := StatisticsLines(keywords, seeds, c.stopWords.value, avgWsk, avgLen, stamp);
      |lines| == 5 + |top| + |listed| + |stats|
      && (forall i :: 0 <= i < |top| ==> lines[5 + i] == top[i])
      && (forall i :: 0 <= i < |listed| ==> lines[5 + |top| + i] == listed[i])
      && stats[0] == ""
  {
    var head := HeaderLines(c);
    var top := TopLines(keywords, c.returnTop, showReal);
    var listed := SeedSectionLines(seeds);
    var stats := StatisticsLines(keywords, seeds, c.stopWords.value, avgWsk, avgLen, stamp);
    Concat4(head, top, listed, stats);
  }

  lemma Concat4<T>(a: seq<T>, b: seq<T>, c: seq<T>, d: seq<T>)
    ensures |a + b + c + d| == |a| + |b| + |c| + |d|
    ensures forall i :: 0 <= i < |b| ==> (a + b + c + d)[|a| + i] == b[i]
    ensures forall i :: 0 <= i < |c| ==> (a + b + c + d)[|a| + |b| + i] == c[i]
    ensures forall i :: 0 <= i < |d| ==> (a + b + c + d)[|a| + |b| + |c| + i] == d[i]
  {
  }

  /**
   * The report lists the first `min(return_top, len(keywords))` keywords
   * (all but the last `-return_top` when that is negative), numbered from 1,
   * two lines each (the phrase, then `wsk` and the word count), after the
   * five header lines and the two lines of the listing's title.
   */
  lemma ReportListsTopKeywords(keywords: seq<Record>, seeds: seq<string>, c: Config, showReal: real -> string,
                               avgWsk: string, avgLen: string, stamp: string)
    requires ReportLines(keywords, seeds, c, showReal, avgWsk, avgLen, stamp).Ok?
    ensures var lines := ReportLines(keywords, seeds, c, showReal, avgWsk, avgLen, stamp).value;
      var n := SliceLength(|keywords|, TopCount(c.returnTop, keywords));
      (c.returnTop >= 0 ==> n == Min(c.returnTop, |keywords|))
      && 7 + 2 * n <= |lines|
      && forall i :: 0 <= i < n ==>
        lines[7 + 2 * i] == Numbered(i + 1, Show(PhraseValue(keywords[i]), showReal))
        && lines[8 + 2 * i] == MetricsLine(keywords[i], showReal)
  {
    ReportSections(keywords, seeds, c, showReal, avgWsk, avgLen, stamp);
    TopLinesAt(keywords, c.returnTop, showReal);
  }

  /**
   * The seed listing shows at most 30 seeds, numbered from 1; the line after
   * them is the "... и еще N семян" line with N = len(seeds) − 30 exactly when
   * there are more than 30, and the blank line that opens the statistics
   * otherwise.
   */
  lemma ReportListsSeeds(keywords: seq<Record>, seeds: seq<string>, c: Config, showReal: real -> string,
                         avgWsk: string, avgLen: string, stamp: string)
    requires ReportLines(keywords, seeds, c, showReal, avgWsk, avgLen, stamp).Ok?
    ensures var lines := ReportLines(keywords, seeds, c, showReal, avgWsk, avgLen, stamp).value;
      var start := 7 + 2 * SliceLength(|keywords|, TopCount(c.returnTop, keywords)) + 4;
      var shown := Min(30, |seeds|);
      start + shown < |lines|
      && (forall i :: 0 <= i < shown ==> lines[start + i] == Numbered(i + 1, seeds[i]))
      && (|seeds| > 30 ==> lines[start + shown] == MoreSeedsLine(|seeds| - 30))
      && (|seeds| <= 30 ==> lines[start + shown] == "")
  {
    ReportSections(keywords, seeds, c, showReal, avgWsk, avgLen, stamp);
    TopLinesAt(keywords, c.returnTop, showReal);
    SeedSectionAt(seeds);
  }
}
