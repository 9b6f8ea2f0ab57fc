/**
 * The JSON exporter: the `{children, total}` shape it gives the totals and
 * the totals by date, and the four files it writes, as paths and contents.
 */
module JsonFormat {
  import opened Wrappers
  import opened Dicts
  import opened Counting
  import opened Summarizer
  import opened ExportPaths
  import Config

  /** One category: its value counts, and their sum. */
  datatype Node = Node(children: Counter, total: nat)

  /** `{"children": {s: c for s, c in subcategories.items()}, "total": sum(subcategories.values())}`. */
  function NodeOf(subcategories: Counter): Node {
    Node(subcategories, Sum(subcategories))
  }

  type Hierarchy = Dict<Category, Node>

  /** `_build_hierarchy(data)`. */
  function HierarchyOf(data: CountTable): Hierarchy {
    MapValues(data, NodeOf)
  }

  /** `_build_hierarchy_by_date(data)`. */
  function HierarchyByDateOf(data: MonthlyTable): Dict<string, Hierarchy> {
    MapValues(data, HierarchyOf)
  }

  /**
   * The hierarchy has exactly the input's categories, in order; each
   * category's children are its counter unchanged, and its total is the sum
   * of its children's counts.
   */
  lemma HierarchySpec(data: CountTable, c: Category)
    ensures Keys(HierarchyOf(data)) == Keys(data)
    ensures HasKey(HierarchyOf(data), c) <==> HasKey(data, c)
    ensures HasKey(data, c) ==>
      var node := Get(HierarchyOf(data), c).value;
      node.children == Get(data, c).value && node.total == Sum(node.children)
  {
    MapValuesGet(data, NodeOf, c);
    KeysHasKey(data, c);
    KeysHasKey(HierarchyOf(data), c);
  }

  /**
   * By date: exactly the input's months, in order, a month without
   * categories mapped to `{}`, and every month shaped as `HierarchyOf`.
   */
  lemma HierarchyByDateSpec(data: MonthlyTable, m: string)
    ensures Keys(HierarchyByDateOf(data)) == Keys(data)
    ensures HasKey(HierarchyByDateOf(data), m) <==> HasKey(data, m)
    ensures HasKey(data, m) ==> Get(HierarchyByDateOf(data), m) == Some(HierarchyOf(Get(data, m).value))
    ensures HasKey(data, m) && Get(data, m).value == [] ==> Get(HierarchyByDateOf(data), m) == Some([])
  {
    MapValuesGet(data, HierarchyOf, m);
    KeysHasKey(data, m);
    KeysHasKey(HierarchyByDateOf(data), m);
  }

  /**
   * Exported totals conserve the records: every category node of the
   * summarised totals has a total equal to the number of records.
   */
  lemma TotalsNodes(sel: Selection, ds: seq<Record>, c: Category)
    requires HasKey(TallyTable(sel, ds), c)
    ensures Get(HierarchyOf(TallyTable(sel, ds)), c).Some?
    ensures Get(HierarchyOf(TallyTable(sel, ds)), c).value.total == |ds|
  {
    Totals(sel, ds, c, "");
    HierarchySpec(TallyTable(sel, ds), c);
  }

  /** The names of the files `export` writes, in the order of the paths it returns. */
  const JsonNames: seq<string> := ["processed-data.json", "totals.json", "totals-by-date.json", "insights.txt"]

  /** What `export` writes to each of its four files. */
  datatype JsonFiles = JsonFiles(
    processedData: seq<Record>,
    totals: Hierarchy,
    totalsByDate: Dict<string, Hierarchy>,
    insights: string)

  class Json {
    const outputDir: string
    const outputSubdir: Option<string>

    /** `FormatInterface.__init__`: the subdirectory comes from the configuration. */
    constructor(config: Config.ConfigurationManager, outputDir: string)
      requires config.GetExportSubdirectory().Success?
      ensures this.outputDir == outputDir
      ensures outputSubdir == config.GetExportSubdirectory().value
    {
      this.outputDir := outputDir;
      outputSubdir := config.GetExportSubdirectory().value;
    }

    /**
     * `export(data, summarized_data, insights)`: the four paths under the
     * export folder, and what is written to each.
     */
    method Export(data: seq<Record>, summarizedData: Summary, insights: string)
      returns (paths: seq<string>, files: JsonFiles)
      requires Distinct(summarizedData.totals)
      requires Distinct(summarizedData.totalsByDate)
      requires forall i :: 0 <= i < |summarizedData.totalsByDate| ==> Distinct(summarizedData.totalsByDate[i].1)
      ensures paths == Paths(outputDir, outputSubdir, JsonNames)
      ensures files == JsonFiles(data, HierarchyOf(summarizedData.totals),
                                 HierarchyByDateOf(summarizedData.totalsByDate), insights)
    {
      var folder := Folder(outputDir, outputSubdir);
      var processedDataFile := folder + "processed-data.json";
      var totalsFile := folder + "totals.json";
      var totalsByDateFile := folder + "totals-by-date.json";
      var insightsFile := folder + "insights.txt";
      var hierarchicalTotals := BuildHierarchy(summarizedData.totals);
      var hierarchicalTotalsByDate := BuildHierarchyByDate(summarizedData.totalsByDate);
      files := JsonFiles(data, hierarchicalTotals, hierarchicalTotalsByDate, insights);
      paths := [processedDataFile, totalsFile, totalsByDateFile, insightsFile];
      PathsAt(outputDir, outputSubdir, JsonNames);
    }

    /** `_build_hierarchy(data)`: one node per category, in order. */
    method BuildHierarchy(data: CountTable) returns (hierarchy: Hierarchy)
      requires Distinct(data)
      ensures hierarchy == HierarchyOf(data)
    {
      hierarchy := [];
      var i := 0;
      while i < |data|
        invariant 0 <= i <= |data|
        invariant hierarchy == HierarchyOf(data[..i])
      {
        var (category, subcategories) := data[i];
        var total := Sum(subcategories);
        MapValuesGet(data[..i], NodeOf, category);
        NotBefore(data, i);
        MapValuesSnoc(data, NodeOf, i);
        hierarchy := Put(hierarchy, category, Node(subcategories, total));
        i := i + 1;
      }
      assert data[..i] == data;
    }

    /** `_build_hierarchy_by_date(data)`: for each month, its categories' nodes. */
    method BuildHierarchyByDate(data: MonthlyTable) returns (hierarchy: Dict<string, Hierarchy>)
      requires Distinct(data)
      requires forall i :: 0 <= i < |data| ==> Distinct(data[i].1)
      ensures hierarchy == HierarchyByDateOf(data)
    {
      hierarchy := [];
      var i := 0;
      while i < |data|
        invariant 0 <= i <= |data|
        invariant hierarchy == HierarchyByDateOf(data[..i])
      {
        var (date, categories) := data[i];
        var month: Hierarchy := [];
        var j := 0;
        while j < |categories|
          invariant 0 <= j <= |categories|
          invariant month == HierarchyOf(categories[..j])
        {
          var (category, subcategories) := categories[j];
          var total := Sum(subcategories);
          MapValuesGet(categories[..j], NodeOf, category);
          NotBefore(categories, j);
          MapValuesSnoc(categories, NodeOf, j);
          month := Put(month, category, Node(subcategories, total));
          j := j + 1;
        }
        assert categories[..j] == categories;
        MapValuesGet(data[..i], HierarchyOf, date);
        NotBefore(data, i);
        MapValuesSnoc(data, HierarchyOf, i);
        hierarchy := Put(hierarchy, date, month);
        i := i + 1;
      }
      assert data[..i] == data;
    }
  }
}
