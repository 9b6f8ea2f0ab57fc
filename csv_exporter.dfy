/**
 * The CSV exporter: the rows `_dict_to_csv` emits for a two- or
 * three-level count table, the header `export` picks for the processed
 * records and the rows `csv.DictWriter` makes of them, and the four files
 * `export` writes, as paths and contents.  Quoting and delimiters are left
 * to the `csv` module and not modelled; a row is its list of cells.
 */
module CsvFormat {
  import opened Wrappers
  import opened Seqs
  import opened Errors
  import opened Dicts
  import opened Counting
  import opened Summarizer
  import opened ExportPaths
  import Config

  /** A cell `writerow` is given: a key or a count. */
  datatype Cell = Text(text: string) | Number(count: nat)

  /** One line of the file: its cells, in order. */
  datatype Row = Row(cells: seq<Cell>)

  /**
   * A value one level below a category: a count (two-level table), or a
   * counter one level deeper (three-level table), which `_dict_to_csv`
   * tells apart with `isinstance(counts, dict)`.
   */
  datatype Level = Leaf(count: nat) | Branch(counter: Counter)

  /** The shape `_dict_to_csv` unfolds: key → key → count or counter. */
  type Table = Dict<string, Dict<string, Level>>

  /** `writer.writerow(keys)`. */
  function Header(keys: seq<string>): Row {
    Row(seq(|keys|, i requires 0 <= i < |keys| => Text(keys[i])))
  }

  /** `for item, count in counts.items(): writer.writerow([category, subcategory, item, count])`. */
  function ItemRows(category: string, subcategory: string, counts: Counter): seq<Row>
    decreases |counts|
  {
    if counts == [] then []
    else
      var n := |counts| - 1;
      ItemRows(category, subcategory, counts[..n]) + [Row([Text(category), Text(subcategory), Text(counts[n].0), Number(counts[n].1)])]
  }

  /** The rows of one `(subcategory, counts)` entry. */
  function LevelRows(category: string, subcategory: string, counts: Level): seq<Row> {
    match counts
    case Leaf(n) => [Row([Text(category), Text(subcategory), Number(n)])]
    case Branch(c) => ItemRows(category, subcategory, c)
  }

  /** The rows of one category, entry by entry. */
  function CategoryRows(category: string, subcategories: Dict<string, Level>): seq<Row>
    decreases |subcategories|
  {
    if subcategories == [] then []
    else
      var n := |subcategories| - 1;
      CategoryRows(category, subcategories[..n]) + LevelRows(category, subcategories[n].0, subcategories[n].1)
  }

  /** The rows after the header, category by category. */
  function DataRows(data: Table): seq<Row>
    decreases |data|
  {
    if data == [] then []
    else
      var n := |data| - 1;
      DataRows(data[..n]) + CategoryRows(data[n].0, data[n].1)
  }

  /** What `_dict_to_csv(output_file, data, keys)` writes. */
  function DictRows(data: Table, keys: seq<string>): seq<Row> {
    [Header(keys)] + DataRows(data)
  }

  /** The leaf counts of a table: one per count, one per entry of a counter. */
  function LevelLeaves(counts: Level): nat {
    match counts
    case Leaf(_) => 1
    case Branch(c) => |c|
  }

  function CategoryLeaves(subcategories: Dict<string, Level>): nat
    decreases |subcategories|
  {
    if subcategories == [] then 0
    else CategoryLeaves(subcategories[..|subcategories| - 1]) + LevelLeaves(subcategories[|subcategories| - 1].1)
  }

  function Leaves(data: Table): nat
    decreases |data|
  {
    if data == [] then 0 else Leaves(data[..|data| - 1]) + CategoryLeaves(data[|data| - 1].1)
  }

  // ---------------------------------------------------------------------
  // The rows, one per leaf, in iteration order

  /** A counter yields one four-cell row per entry, in order. */
  lemma {:induction false} ItemRowsSpec(category: string, subcategory: string, counts: Counter)
    ensures var rows := ItemRows(category, subcategory, counts);
      && |rows| == |counts|
      && forall k :: 0 <= k < |counts| ==>
           rows[k] == Row([Text(category), Text(subcategory), Text(counts[k].0), Number(counts[k].1)])
    decreases |counts|
  {
    if counts != [] {
      var n := |counts| - 1;
      ItemRowsSpec(category, subcategory, counts[..n]);
    }
  }

  lemma ItemRowsSnoc(category: string, subcategory: string, s: Counter, x: (string, nat))
    ensures ItemRows(category, subcategory, s + [x])
      == ItemRows(category, subcategory, s) + [Row([Text(category), Text(subcategory), Text(x.0), Number(x.1)])]
  {
    DropLast(s, x);
  }

  lemma CategoryRowsSnoc(category: string, s: Dict<string, Level>, x: (string, Level))
    ensures CategoryRows(category, s + [x]) == CategoryRows(category, s) + LevelRows(category, x.0, x.1)
    ensures CategoryLeaves(s + [x]) == CategoryLeaves(s) + LevelLeaves(x.1)
  {
    DropLast(s, x);
  }

  lemma {:induction false} CategoryRowsConcat(category: string, a: Dict<string, Level>, b: Dict<string, Level>)
    ensures CategoryRows(category, a + b) == CategoryRows(category, a) + CategoryRows(category, b)
    decreases |b|
  {
    if b == [] {
      ConcatEmpty(a);
      ConcatEmpty(CategoryRows(category, a));
    } else {
      var n := |b| - 1;
      ConcatLast(a, b);
      CategoryRowsSnoc(category, a + b[..n], b[n]);
      CategoryRowsSnoc(category, b[..n], b[n]);
      CategoryRowsConcat(category, a, b[..n]);
      AppendAssoc(CategoryRows(category, a), CategoryRows(category, b[..n]), LevelRows(category, b[n].0, b[n].1));
    }
  }

  lemma DataRowsSnoc(s: Table, x: (string, Dict<string, Level>))
    ensures DataRows(s + [x]) == DataRows(s) + CategoryRows(x.0, x.1)
    ensures Leaves(s + [x]) == Leaves(s) + CategoryLeaves(x.1)
  {
    DropLast(s, x);
  }

  /** The rows of a table are the rows of its parts, in order. */
  lemma {:induction false} DataRowsConcat(a: Table, b: Table)
    ensures DataRows(a + b) == DataRows(a) + DataRows(b)
    decreases |b|
  {
    if b == [] {
      ConcatEmpty(a);
      ConcatEmpty(DataRows(a));
    } else {
      var n := |b| - 1;
      ConcatLast(a, b);
      DataRowsSnoc(a + b[..n], b[n]);
      DataRowsSnoc(b[..n], b[n]);
      DataRowsConcat(a, b[..n]);
      AppendAssoc(DataRows(a), DataRows(b[..n]), CategoryRows(b[n].0, b[n].1));
    }
  }

  /** Category `i` contributes its rows after those of the categories before it. */
  lemma DataRowsAt(data: Table, i: nat)
    requires i < |data|
    ensures DataRows(data) == DataRows(data[..i]) + CategoryRows(data[i].0, data[i].1) + DataRows(data[i + 1..])
  {
    SplitAt(data, i);
    DataRowsConcat(data[..i] + [data[i]], data[i + 1..]);
    DataRowsSnoc(data[..i], data[i]);
  }

  /** Entry `j` of a category contributes its rows after those of the entries before it. */
  lemma CategoryRowsAt(category: string, subcategories: Dict<string, Level>, j: nat)
    requires j < |subcategories|
    ensures CategoryRows(category, subcategories) == CategoryRows(category, subcategories[..j])
      + LevelRows(category, subcategories[j].0, subcategories[j].1) + CategoryRows(category, subcategories[j + 1..])
  {
    SplitAt(subcategories, j);
    CategoryRowsConcat(category, subcategories[..j] + [subcategories[j]], subcategories[j + 1..]);
    CategoryRowsSnoc(category, subcategories[..j], subcategories[j]);
  }

  /** One row per leaf. */
  lemma {:induction false} CategoryRowCount(category: string, subcategories: Dict<string, Level>)
    ensures |CategoryRows(category, subcategories)| == CategoryLeaves(subcategories)
    decreases |subcategories|
  {
    if subcategories != [] {
      var n := |subcategories| - 1;
      CategoryRowCount(category, subcategories[..n]);
      match subcategories[n].1
      case Leaf(_) =>
      case Branch(c) => ItemRowsSpec(category, subcategories[n].0, c);
    }
  }

  /**
   * The first row is the header passed in, and there is one more row for
   * every leaf count of the table.
   */
  lemma {:induction false} DictRowsSpec(data: Table, keys: seq<string>)
    ensures DictRows(data, keys)[0] == Header(keys)
    ensures |DictRows(data, keys)| == 1 + Leaves(data)
    decreases |data|
  {
    if data != [] {
      var n := |data| - 1;
      DictRowsSpec(data[..n], keys);
      CategoryRowCount(data[n].0, data[n].1);
    }
  }

  // ---------------------------------------------------------------------
  // The two summaries as tables

  function AsLeaf(n: nat): Level {
    Leaf(n)
  }

  /** `summarized_data["totals"]`: category name → value → count. */
  function TotalsTable(t: CountTable): Table {
    seq(|t|, i requires 0 <= i < |t| => (Name(t[i].0), MapValues(t[i].1, AsLeaf)))
  }

  /** One month of `summarized_data["totals_by_date"]`: category name → counter. */
  function MonthBranches(t: CountTable): Dict<string, Level> {
    seq(|t|, j requires 0 <= j < |t| => (Name(t[j].0), Branch(t[j].1)))
  }

  /** `summarized_data["totals_by_date"]`: month → category name → value → count. */
  function ByDateTable(mt: MonthlyTable): Table {
    MapValues(mt, MonthBranches)
  }

  /** A category of counts yields one three-cell row per value, in order. */
  lemma {:induction false} LeafRowsSpec(category: string, counts: Counter)
    ensures var rows := CategoryRows(category, MapValues(counts, AsLeaf));
      && |rows| == |counts|
      && forall j :: 0 <= j < |counts| ==> rows[j] == Row([Text(category), Text(counts[j].0), Number(counts[j].1)])
    decreases |counts|
  {
    if counts != [] {
      var n := |counts| - 1;
      var m := MapValues(counts, AsLeaf);
      assert m[..n] == MapValues(counts[..n], AsLeaf);
      assert m[n] == (counts[n].0, Leaf(counts[n].1));
      LeafRowsSpec(category, counts[..n]);
      var front := CategoryRows(category, m[..n]);
      var last := Row([Text(category), Text(counts[n].0), Number(counts[n].1)]);
      assert CategoryRows(category, m) == front + [last];
      forall j | 0 <= j < |counts| ensures (front + [last])[j] == Row([Text(category), Text(counts[j].0), Number(counts[j].1)]) {
        if j < n {
          assert (front + [last])[j] == front[j];
          assert counts[..n][j] == counts[j];
        }
      }
    }
  }

  /**
   * In the totals, category `i` contributes `[category, value, count]` for
   * each of its values, in order, right after the rows of the categories
   * before it.
   */
  lemma TotalsRows(t: CountTable, i: nat)
    requires i < |t|
    ensures var table := TotalsTable(t);
      && DataRows(table) == DataRows(table[..i]) + CategoryRows(Name(t[i].0), MapValues(t[i].1, AsLeaf)) + DataRows(table[i + 1..])
      && |CategoryRows(Name(t[i].0), MapValues(t[i].1, AsLeaf))| == |t[i].1|
      && forall j :: 0 <= j < |t[i].1| ==>
           CategoryRows(Name(t[i].0), MapValues(t[i].1, AsLeaf))[j] == Row([Text(Name(t[i].0)), Text(t[i].1[j].0), Number(t[i].1[j].1)])
  {
    DataRowsAt(TotalsTable(t), i);
    LeafRowsSpec(Name(t[i].0), t[i].1);
  }

  /**
   * In the totals by date, category `j` of month `i` contributes the rows of
   * its counter (one `[month, category, value, count]` per value, in order,
   * by `ItemRowsSpec`) after the rows of the earlier months and of the
   * month's earlier categories.
   */
  lemma ByDateRows(mt: MonthlyTable, i: nat, j: nat)
    requires i < |mt| && j < |mt[i].1|
    ensures var table, month := ByDateTable(mt), MonthBranches(mt[i].1);
      DataRows(table) == DataRows(table[..i]) + CategoryRows(mt[i].0, month[..j])
        + ItemRows(mt[i].0, Name(mt[i].1[j].0), mt[i].1[j].1)
        + CategoryRows(mt[i].0, month[j + 1..]) + DataRows(table[i + 1..])
  {
    var table, month, m := ByDateTable(mt), MonthBranches(mt[i].1), mt[i].0;
    assert table[i] == (m, month);
    assert month[j] == (Name(mt[i].1[j].0), Branch(mt[i].1[j].1));
    DataRowsAt(table, i);
    CategoryRowsAt(m, month, j);
    Regroup(DataRows(table[..i]), CategoryRows(m, month), DataRows(table[i + 1..]),
            CategoryRows(m, month[..j]), LevelRows(m, month[j].0, month[j].1), CategoryRows(m, month[j + 1..]));
  }

  /** The header `export` gives the totals. */
  const TotalsHeader: seq<string> := ["Category", "Subcategory", "Count"]

  /** The header `export` gives the totals by date. */
  const ByDateHeader: seq<string> := ["Date", "Category", "Subcategory", "Count"]

  // ---------------------------------------------------------------------
  // The processed records

  /** The `ValueError` `csv.DictWriter` raises for a record with a key outside the header. */
  const ExtraFieldsMessage: string := "dict contains fields not in fieldnames"

  /** Every key of `r` is a column of the header. */
  predicate Fits(r: Record, keys: seq<string>) {
    forall i :: 0 <= i < |r| ==> r[i].0 in keys
  }

  /** `DictWriter` row of one record: its value for each column, `""` where it has none. */
  function RecordRow(r: Record, keys: seq<string>): (row: seq<string>)
    ensures |row| == |keys|
  {
    seq(|keys|, i requires 0 <= i < |keys| => GetOr(r, keys[i], ""))
  }

  /** What `_list_to_csv(output_file, data, keys)` writes: the header, then one row per record. */
  function ListRows(data: seq<Record>, keys: seq<string>): (r: Result<seq<seq<string>>, Error>)
    ensures r.Success? ==> |r.value| == 1 + |data| && forall j :: 1 <= j < |r.value| ==> |r.value[j]| == |keys|
  {
    if forall j :: 0 <= j < |data| ==> Fits(data[j], keys) then
      Success([keys] + seq(|data|, j requires 0 <= j < |data| => RecordRow(data[j], keys)))
    else
      Failure(ValueError(ExtraFieldsMessage))
  }

  /** `list(data[0].keys())`: the header of the processed records. */
  function ProcessedHeader(data: seq<Record>): Result<seq<string>, Error> {
    if data == [] then Failure(IndexError) else Success(Keys(data[0]))
  }

  /**
   * The processed-data file: an empty record list fails with `IndexError`;
   * otherwise the header is the first record's keys, the first record's row
   * is its values in order, and the export fails exactly when some later
   * record has a key the first one lacks.  Every record's row holds its own
   * value under each column it has, and `""` under each column it lacks.
   */
  lemma ProcessedSpec(data: seq<Record>)
    requires forall j :: 0 <= j < |data| ==> Distinct(data[j])
    ensures data == [] ==> ProcessedHeader(data) == Failure(IndexError)
    ensures data != [] ==>
      var keys := Keys(data[0]);
      var rows := ListRows(data, keys);
      && ProcessedHeader(data) == Success(keys)
      && (rows.Success? <==> forall j :: 0 <= j < |data| ==> forall k :: HasKey(data[j], k) ==> HasKey(data[0], k))
      && (rows.Success? ==>
            && |rows.value| == 1 + |data|
            && rows.value[0] == keys
            && (forall i :: 0 <= i < |data[0]| ==> rows.value[1][i] == data[0][i].1)
            && (forall j, c :: 0 <= j < |data| && 0 <= c < |keys| && HasKey(data[j], keys[c]) ==>
                  Get(data[j], keys[c]) == Some(rows.value[1 + j][c]))
            && forall j, c :: 0 <= j < |data| && 0 <= c < |keys| && !HasKey(data[j], keys[c]) ==> rows.value[1 + j][c] == "")
  {
    if data != [] {
      var keys := Keys(data[0]);
      forall j | 0 <= j < |data| ensures Fits(data[j], keys) <==> forall k :: HasKey(data[j], k) ==> HasKey(data[0], k) {
        forall k ensures k in keys <==> HasKey(data[0], k) {
          KeysHasKey(data[0], k);
        }
        if Fits(data[j], keys) {
          forall k | HasKey(data[j], k) ensures HasKey(data[0], k) {
            var i :| 0 <= i < |data[j]| && data[j][i].0 == k;
          }
        } else {
          var i :| 0 <= i < |data[j]| && data[j][i].0 !in keys;
          assert HasKey(data[j], data[j][i].0);
        }
      }
      forall i | 0 <= i < |data[0]| ensures GetOr(data[0], keys[i], "") == data[0][i].1 {
        GetAt(data[0], i);
      }
    }
  }

  // ---------------------------------------------------------------------
  // The exporter

  /** The names of the files `export` writes, in the order of the paths it returns. */
  const CsvNames: seq<string> := ["processed-data.csv", "totals.csv", "totals-by-date.csv", "insights.txt"]

  /** What `export` writes to each of its four files. */
  datatype CsvFiles = CsvFiles(
    processedData: seq<seq<string>>,
    totals: seq<Row>,
    totalsByDate: seq<Row>,
    insights: string)

  /** `export(data, summarized_data, insights)` for an exporter writing under `folder`. */
  function ExportOf(outputDir: string, outputSubdir: Option<string>, data: seq<Record>, summarizedData: Summary,
                    insights: string): Result<(seq<string>, CsvFiles), Error>
  {
    match ProcessedHeader(data)
    case Failure(e) => Failure(e)
    case Success(keys) =>
      match ListRows(data, keys)
      case Failure(e) => Failure(e)
      case Success(processed) =>
        Success((Paths(outputDir, outputSubdir, CsvNames),
                 CsvFiles(processed,
                          DictRows(TotalsTable(summarizedData.totals), TotalsHeader),
                          DictRows(ByDateTable(summarizedData.totalsByDate), ByDateHeader),
                          insights)))
  }

  class Csv {
    const outputDir: string
    const outputSubdir: Option<string>
    /** Passed to the `csv` writers, which are not modelled. */
    const csvDelimiter: Option<string>
    const csvQuotechar: Option<string>

    /**
     * `Csv.__init__`: it passes no directory to `FormatInterface.__init__`,
     * so the files always go under the default "./output"; the
     * subdirectory, delimiter and quote character come from the
     * configuration.
     */
    constructor(config: Config.ConfigurationManager)
      requires config.GetExportSubdirectory().Success?
      requires config.GetCsvDelimiter().Success? && config.GetCsvQuotechar().Success?
      ensures outputDir == DefaultOutputDir
      ensures outputSubdir == config.GetExportSubdirectory().value
      ensures csvDelimiter == config.GetCsvDelimiter().value
      ensures csvQuotechar == config.GetCsvQuotechar().value
    {
      outputDir := DefaultOutputDir;
      outputSubdir := config.GetExportSubdirectory().value;
      csvDelimiter := config.GetCsvDelimiter().value;
      csvQuotechar := config.GetCsvQuotechar().value;
    }

    /**
     * `export(data, summarized_data, insights)`: fails on an empty record
     * list and on a record with a key the first lacks; otherwise the four
     * paths under the export folder, and what is written to each.
     */
    method Export(data: seq<Record>, summarizedData: Summary, insights: string)
      returns (r: Result<(seq<string>, CsvFiles), Error>)
      ensures r == ExportOf(outputDir, outputSubdir, data, summarizedData, insights)
    {
      var folder := Folder(outputDir, outputSubdir);
      var processedDataFile := folder + "processed-data.csv";
      var totalsFile := folder + "totals.csv";
      var totalsByDateFile := folder + "totals-by-date.csv";
      var insightsFile := folder + "insights.txt";
      if data == [] {
        return Failure(IndexError);
      }
      var keys := Keys(data[0]);
      assert ProcessedHeader(data) == Success(keys);
      var processed := ListRows(data, keys);
      if processed.Failure? {
        return Failure(processed.error);
      }
      var totals := DictToCsv(TotalsTable(summarizedData.totals), TotalsHeader);
      var totalsByDate := DictToCsv(ByDateTable(summarizedData.totalsByDate), ByDateHeader);
      PathsAt(outputDir, outputSubdir, CsvNames);
      assert [processedDataFile, totalsFile, totalsByDateFile, insightsFile] == Paths(outputDir, outputSubdir, CsvNames);
      r := Success(([processedDataFile, totalsFile, totalsByDateFile, insightsFile],
                    CsvFiles(processed.value, totals, totalsByDate, insights)));
    }

    /** `_dict_to_csv(output_file, data, keys)`: the header, then the rows of every leaf, in order. */
    method DictToCsv(data: Table, keys: seq<string>) returns (rows: seq<Row>)
      ensures rows == DictRows(data, keys)
    {
      rows := [Header(keys)];
      var i := 0;
      while i < |data|
        invariant 0 <= i <= |data|
        invariant rows == [Header(keys)] + DataRows(data[..i])
      {
        var (category, subcategories) := data[i];
        TakeSnoc(data, i);
        DataRowsSnoc(data[..i], data[i]);
        var categoryRows := CategoryToCsv(category, subcategories);
        AppendAssoc([Header(keys)], DataRows(data[..i]), categoryRows);
        rows := rows + categoryRows;
        i := i + 1;
      }
      TakeAll(data);
    }

    /** The rows of one category of `_dict_to_csv`, entry by entry. */
    method CategoryToCsv(category: string, subcategories: Dict<string, Level>) returns (rows: seq<Row>)
      ensures rows == CategoryRows(category, subcategories)
    {
      rows := [];
      var j := 0;
      while j < |subcategories|
        invariant 0 <= j <= |subcategories|
        invariant rows == CategoryRows(category, subcategories[..j])
      {
        var (subcategory, counts) := subcategories[j];
        TakeSnoc(subcategories, j);
        CategoryRowsSnoc(category, subcategories[..j], subcategories[j]);
        var entryRows := EntryToCsv(category, subcategory, counts);
        rows := rows + entryRows;
        j := j + 1;
      }
      TakeAll(subcategories);
    }

    /** The rows of one `(subcategory, counts)` entry of `_dict_to_csv`. */
    method EntryToCsv(category: string, subcategory: string, counts: Level) returns (rows: seq<Row>)
      ensures rows == LevelRows(category, subcategory, counts)
    {
      match counts
      case Branch(items) =>
        rows := [];
        var k := 0;
        while k < |items|
          invariant 0 <= k <= |items|
          invariant rows == ItemRows(category, subcategory, items[..k])
        {
          TakeSnoc(items, k);
          ItemRowsSnoc(category, subcategory, items[..k], items[k]);
          rows := rows + [Row([Text(category), Text(subcategory), Text(items[k].0), Number(items[k].1)])];
          k := k + 1;
        }
        TakeAll(items);
      case Leaf(count) =>
        rows := [Row([Text(category), Text(subcategory), Number(count)])];
    }
  }
}
