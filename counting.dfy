/**
 * What `TotalSummarizer` computes, as functions of the records: the count
 * table of every enabled category, and the same tables bucketed by month.
 * Records are the classified bug dictionaries; a missing classification key
 * reads as "Unknown".
 */
module Counting {
  import opened Wrappers
  import opened Dicts

  type Record = Dict<string, string>
  /** A `defaultdict(int)` from a classification value to its occurrences. */
  type Counter = Dict<string, nat>
  /** A category name to its counter. */
  type CountTable = Dict<Category, Counter>
  /** A `YYYY-MM` month key to that month's count table. */
  type MonthlyTable = Dict<string, CountTable>

  /** The six classification columns a count table can hold. */
  datatype Category = TC | TCSub | FA | FASub | PT | PTSub

  /** The record key, and the count table key, of each category. */
  function Name(c: Category): string {
    match c
    case TC => "technological_component"
    case TCSub => "technological_component_subcategory"
    case FA => "functional_area"
    case FASub => "functional_area_subcategory"
    case PT => "problem_type"
    case PTSub => "problem_type_subcategory"
  }

  /** The number of categories. */
  const CategoryCount: nat := 6

  /**
   * The position of a category in the order the summariser creates and
   * fills them: technological component, its subcategory, functional area,
   * its subcategory, problem type, its subcategory.
   */
  function Rank(c: Category): (k: nat)
    ensures k < CategoryCount
  {
    match c
    case TC => 0
    case TCSub => 1
    case FA => 2
    case FASub => 3
    case PT => 4
    case PTSub => 5
  }

  /** The category of a given rank. */
  function CategoryAt(k: nat): (c: Category)
    requires k < CategoryCount
    ensures Rank(c) == k
  {
    if k == 0 then TC else if k == 1 then TCSub else if k == 2 then FA
    else if k == 3 then FASub else if k == 4 then PT else PTSub
  }

  /** Every category sits at its rank. */
  lemma RankAt(c: Category)
    ensures CategoryAt(Rank(c)) == c
  {
  }

  /** The six export flags. */
  datatype Selection = Selection(tc: bool, tcSub: bool, fa: bool, faSub: bool, pt: bool, ptSub: bool)

  /** A category is counted when its flag is on, and a subcategory only when its parent's flag is on too. */
  predicate Enabled(sel: Selection, c: Category) {
    match c
    case TC => sel.tc
    case TCSub => sel.tc && sel.tcSub
    case FA => sel.fa
    case FASub => sel.fa && sel.faSub
    case PT => sel.pt
    case PTSub => sel.pt && sel.ptSub
  }

  /** The enabled categories of rank below `k`, in rank order. */
  function EnabledBelow(sel: Selection, k: nat): seq<Category>
    requires k <= CategoryCount
  {
    if k == 0 then []
    else EnabledBelow(sel, k - 1) + (if Enabled(sel, CategoryAt(k - 1)) then [CategoryAt(k - 1)] else [])
  }

  /** The categories a count table holds, in order. */
  function Categories(sel: Selection): seq<Category> {
    EnabledBelow(sel, CategoryCount)
  }

  /** The enabled categories below `k`: exactly those, each once, in increasing rank. */
  lemma {:induction false} EnabledBelowSpec(sel: Selection, k: nat)
    requires k <= CategoryCount
    ensures forall c :: c in EnabledBelow(sel, k) <==> Enabled(sel, c) && Rank(c) < k
    ensures forall i, j :: 0 <= i < j < |EnabledBelow(sel, k)| ==> Rank(EnabledBelow(sel, k)[i]) < Rank(EnabledBelow(sel, k)[j])
  {
    if k > 0 {
      EnabledBelowSpec(sel, k - 1);
      var p := EnabledBelow(sel, k - 1);
      forall c ensures c in EnabledBelow(sel, k) <==> Enabled(sel, c) && Rank(c) < k {
        if Rank(c) == k - 1 { assert CategoryAt(k - 1) == c; }
      }
      forall i, j | 0 <= i < j < |EnabledBelow(sel, k)|
        ensures Rank(EnabledBelow(sel, k)[i]) < Rank(EnabledBelow(sel, k)[j])
      {
        if j >= |p| { assert EnabledBelow(sel, k)[i] == p[i] && p[i] in p; }
      }
    }
  }

  predicate NoDuplicates(cs: seq<Category>) {
    forall i, j :: 0 <= i < j < |cs| ==> cs[i] != cs[j]
  }

  /**
   * The categories of a count table: exactly the enabled ones, each once, in
   * the fixed order of their ranks; none when no top-level flag is on.
   */
  lemma CategoriesSpec(sel: Selection)
    ensures forall c :: c in Categories(sel) <==> Enabled(sel, c)
    ensures NoDuplicates(Categories(sel))
    ensures forall i, j :: 0 <= i < j < |Categories(sel)| ==> Rank(Categories(sel)[i]) < Rank(Categories(sel)[j])
    ensures Categories(sel) == [] <==> !sel.tc && !sel.fa && !sel.pt
  {
    EnabledBelowSpec(sel, CategoryCount);
    if sel.tc { assert TC in Categories(sel); }
    if sel.fa { assert FA in Categories(sel); }
    if sel.pt { assert PT in Categories(sel); }
    if Categories(sel) != [] { assert Categories(sel)[0] in Categories(sel); }
  }

  /** `entry.get(c, "Unknown")`. */
  function Field(r: Record, k: string): (v: string)
    ensures HasKey(r, k) ==> Get(r, k) == Some(v)
    ensures !HasKey(r, k) ==> v == "Unknown"
  {
    GetOr(r, k, "Unknown")
  }

  /** The value of category `c` in each record, in record order. */
  function FieldValues(ds: seq<Record>, c: Category): (vs: seq<string>)
    ensures |vs| == |ds| && forall i :: 0 <= i < |ds| ==> vs[i] == Field(ds[i], Name(c))
  {
    seq(|ds|, i requires 0 <= i < |ds| => Field(ds[i], Name(c)))
  }

  // ---------------------------------------------------------------------
  // One counter

  /** The counter `Counter(vs)` builds, one `+= 1` per value in order. */
  function Tally(vs: seq<string>): Counter {
    if vs == [] then [] else Incr(Tally(vs[..|vs| - 1]), vs[|vs| - 1])
  }

  /** A tally counts each value as often as it occurs, and has no key twice. */
  lemma {:induction false} TallyCount(vs: seq<string>)
    ensures Distinct(Tally(vs))
    ensures forall v :: Count(Tally(vs), v) == multiset(vs)[v]
  {
    if vs != [] {
      var p, x := vs[..|vs| - 1], vs[|vs| - 1];
      TallyCount(p);
      assert vs == p + [x];
      forall v ensures Count(Tally(vs), v) == multiset(vs)[v] {
        IncrCount(Tally(p), x, v);
      }
      IncrCount(Tally(p), x, x);
    }
  }

  /** The counts of a tally add up to the number of values. */
  lemma {:induction false} TallySum(vs: seq<string>)
    ensures Sum(Tally(vs)) == |vs|
  {
    if vs != [] {
      var p := vs[..|vs| - 1];
      TallySum(p);
      TallyCount(p);
      IncrSum(Tally(p), vs[|vs| - 1]);
    }
  }

  // ---------------------------------------------------------------------
  // Count tables

  /** An empty counter for each category of `cs`. */
  function Empties(cs: seq<Category>): (t: CountTable)
    ensures Keys(t) == cs
    ensures forall i :: 0 <= i < |t| ==> t[i].1 == []
  {
    seq(|cs|, i requires 0 <= i < |cs| => (cs[i], []))
  }

  /** `_initialize_counts()`: an empty counter for each enabled category. */
  function InitialTable(sel: Selection): CountTable {
    Empties(Categories(sel))
  }

  /** Assigning an empty counter to a new category appends it. */
  lemma PutEmpty(cs: seq<Category>, c: Category)
    requires c !in cs
    ensures Put(Empties(cs), c, []) == Empties(cs + [c])
  {
    KeysHasKey(Empties(cs), c);
  }

  /** Each record adds one to the value it holds, in every category of the table. */
  function AddRecord(t: CountTable, r: Record): (t': CountTable)
    ensures |t'| == |t| && Keys(t') == Keys(t)
  {
    seq(|t|, i requires 0 <= i < |t| => (t[i].0, Incr(t[i].1, Field(r, Name(t[i].0)))))
  }

  /** `_count_totals(data)`. */
  function TallyTable(sel: Selection, ds: seq<Record>): CountTable {
    if ds == [] then InitialTable(sel) else AddRecord(TallyTable(sel, ds[..|ds| - 1]), ds[|ds| - 1])
  }

  /** For every category in `cs`, the tally of that category's values over `ds`. */
  function Columns(cs: seq<Category>, ds: seq<Record>): (t: CountTable)
    ensures Keys(t) == cs
  {
    seq(|cs|, i requires 0 <= i < |cs| => (cs[i], Tally(FieldValues(ds, cs[i]))))
  }

  lemma ColumnsStep(cs: seq<Category>, ds: seq<Record>, r: Record)
    ensures AddRecord(Columns(cs, ds), r) == Columns(cs, ds + [r])
  {
    var a, b := AddRecord(Columns(cs, ds), r), Columns(cs, ds + [r]);
    forall i | 0 <= i < |cs| ensures a[i] == b[i] {
      var vs := FieldValues(ds + [r], cs[i]);
      assert vs[..|vs| - 1] == FieldValues(ds, cs[i]);
    }
  }

  /** The totals table, column by column: each enabled category holds the tally of its values over all records. */
  lemma {:induction false} TallyTableColumns(sel: Selection, ds: seq<Record>)
    ensures TallyTable(sel, ds) == Columns(Categories(sel), ds)
  {
    if ds != [] {
      var p := ds[..|ds| - 1];
      TallyTableColumns(sel, p);
      ColumnsStep(Categories(sel), p, ds[|ds| - 1]);
      assert p + [ds[|ds| - 1]] == ds;
    }
  }

  /** A count table is a dictionary of dictionaries. */
  predicate TableOk(t: CountTable) {
    Distinct(t) && forall i :: 0 <= i < |t| ==> Distinct(t[i].1)
  }

  /**
   * The totals: exactly the enabled categories, in order; each category's
   * counter counts every value as often as the records hold it (a missing
   * key as "Unknown"), and its counts add up to the number of records.
   */
  lemma Totals(sel: Selection, ds: seq<Record>, c: Category, v: string)
    ensures Keys(TallyTable(sel, ds)) == Categories(sel)
    ensures TableOk(TallyTable(sel, ds))
    ensures HasKey(TallyTable(sel, ds), c) <==> Enabled(sel, c)
    ensures HasKey(TallyTable(sel, ds), c) ==>
      var counter := GetOr(TallyTable(sel, ds), c, []);
      Count(counter, v) == multiset(FieldValues(ds, c))[v] && Sum(counter) == |ds|
  {
    var t := TallyTable(sel, ds);
    var cs := Categories(sel);
    TallyTableColumns(sel, ds);
    CategoriesSpec(sel);
    forall i | 0 <= i < |t| ensures Distinct(t[i].1) {
      TallyCount(FieldValues(ds, cs[i]));
    }
    assert HasKey(t, c) <==> c in cs by {
      if c in cs {
        var i :| 0 <= i < |cs| && cs[i] == c;
        assert t[i].0 == c;
      }
    }
    if HasKey(t, c) {
      var i := IndexOf(t, c);
      GetAt(t, i);
      TallyCount(FieldValues(ds, c));
      TallySum(FieldValues(ds, c));
    }
  }

  // ---------------------------------------------------------------------
  // Counts by month

  /**
   * One record of `_count_totals_by_month`: its month's table is created on
   * first use and counted into, but only when some category is enabled,
   * since the `defaultdict` entry is created by the first access.
   */
  function AddMonthRecord(sel: Selection, mt: MonthlyTable, m: string, r: Record): MonthlyTable {
    if Categories(sel) == [] then mt
    else Put(mt, m, AddRecord(GetOr(mt, m, InitialTable(sel)), r))
  }

  /** `_count_totals_by_month(data)` once `ms` holds each record's month key. */
  function ByMonth(sel: Selection, ds: seq<Record>, ms: seq<string>): MonthlyTable
    requires |ms| == |ds|
  {
    if ds == [] then []
    else
      var n := |ds| - 1;
      AddMonthRecord(sel, ByMonth(sel, ds[..n], ms[..n]), ms[n], ds[n])
  }

  /** The count of `v` in category `c` of a table; 0 when absent. */
  function CountIn(t: CountTable, c: Category, v: string): nat {
    Count(GetOr(t, c, []), v)
  }

  /** The count of `v` in category `c`, summed over all months. */
  function MonthSum(mt: MonthlyTable, c: Category, v: string): nat {
    if mt == [] then 0 else MonthSum(mt[..|mt| - 1], c, v) + CountIn(mt[|mt| - 1].1, c, v)
  }

  /** The tables of a by-month result have the categories of a fresh table. */
  predicate MonthTablesOk(sel: Selection, mt: MonthlyTable) {
    && Distinct(mt)
    && forall i :: 0 <= i < |mt| ==> TableOk(mt[i].1) && Keys(mt[i].1) == Categories(sel)
  }

  lemma InitialTableOk(sel: Selection)
    ensures TableOk(InitialTable(sel))
  {
    CategoriesSpec(sel);
  }

  lemma AddRecordOk(t: CountTable, r: Record)
    requires TableOk(t)
    ensures TableOk(AddRecord(t, r))
  {
    var t' := AddRecord(t, r);
    forall i | 0 <= i < |t'| ensures Distinct(t'[i].1) {
      IncrCount(t[i].1, Field(r, Name(t[i].0)), Field(r, Name(t[i].0)));
    }
    assert Keys(t') == Keys(t);
    forall i, j | 0 <= i < j < |t'| ensures t'[i].0 != t'[j].0 {
      assert t'[i].0 == t[i].0 && t'[j].0 == t[j].0;
    }
  }

  /** Counting a record adds one to the count of its value in each category of the table. */
  lemma CountInAdd(t: CountTable, r: Record, c: Category, v: string)
    requires TableOk(t)
    ensures CountIn(AddRecord(t, r), c, v) == CountIn(t, c, v) + (if HasKey(t, c) && Field(r, Name(c)) == v then 1 else 0)
  {
    var t' := AddRecord(t, r);
    AddRecordOk(t, r);
    if HasKey(t, c) {
      var i := IndexOf(t, c);
      GetAt(t, i);
      GetAt(t', i);
      IncrCount(t[i].1, Field(r, Name(c)), v);
    } else {
      assert !HasKey(t', c);
    }
  }

  lemma CountInInitial(sel: Selection, c: Category, v: string)
    ensures CountIn(InitialTable(sel), c, v) == 0
  {
    var t := InitialTable(sel);
    if HasKey(t, c) {
      assert t[IndexOf(t, c)].1 == [];
    }
  }

  lemma MonthSumAppend(mt: MonthlyTable, x: (string, CountTable), c: Category, v: string)
    ensures MonthSum(mt + [x], c, v) == MonthSum(mt, c, v) + CountIn(x.1, c, v)
  {
    assert (mt + [x])[..|mt|] == mt;
  }

  lemma {:induction false} MonthSumUpdate(mt: MonthlyTable, i: nat, x: (string, CountTable), c: Category, v: string)
    requires i < |mt|
    ensures MonthSum(mt[i := x], c, v) + CountIn(mt[i].1, c, v) == MonthSum(mt, c, v) + CountIn(x.1, c, v)
    decreases |mt|
  {
    var n := |mt| - 1;
    if i == n {
      assert mt[i := x][..n] == mt[..n];
    } else {
      assert mt[i := x][..n] == mt[..n][i := x];
      MonthSumUpdate(mt[..n], i, x, c, v);
    }
  }

  lemma {:induction false} ByMonthOk(sel: Selection, ds: seq<Record>, ms: seq<string>)
    requires |ms| == |ds|
    ensures MonthTablesOk(sel, ByMonth(sel, ds, ms))
  {
    if ds != [] {
      var n := |ds| - 1;
      var mt := ByMonth(sel, ds[..n], ms[..n]);
      ByMonthOk(sel, ds[..n], ms[..n]);
      if Categories(sel) != [] {
        AddMonthStepOk(sel, mt, ms[n], ds[n]);
      }
    }
  }

  lemma AddMonthStepOk(sel: Selection, mt: MonthlyTable, m: string, r: Record)
    requires MonthTablesOk(sel, mt)
    ensures MonthTablesOk(sel, Put(mt, m, AddRecord(GetOr(mt, m, InitialTable(sel)), r)))
  {
    var old_ := GetOr(mt, m, InitialTable(sel));
    assert TableOk(old_) && Keys(old_) == Categories(sel) by {
      if HasKey(mt, m) {
        GetAt(mt, IndexOf(mt, m));
      } else {
        InitialTableOk(sel);
      }
    }
    AddRecordOk(old_, r);
    PutDistinct(mt, m, AddRecord(old_, r));
  }

  /**
   * The month tables add up to the totals: for every category and value, the
   * count summed over all months equals the count in the totals table.
   */
  lemma {:induction false} MonthsSumToTotals(sel: Selection, ds: seq<Record>, ms: seq<string>, c: Category, v: string)
    requires |ms| == |ds|
    ensures MonthSum(ByMonth(sel, ds, ms), c, v) == CountIn(TallyTable(sel, ds), c, v)
  {
    if ds == [] {
      CountInInitial(sel, c, v);
    } else {
      var n := |ds| - 1;
      var mt := ByMonth(sel, ds[..n], ms[..n]);
      var t := TallyTable(sel, ds[..n]);
      MonthsSumToTotals(sel, ds[..n], ms[..n], c, v);
      Totals(sel, ds[..n], c, v);
      CountInAdd(t, ds[n], c, v);
      ByMonthOk(sel, ds[..n], ms[..n]);
      if Categories(sel) == [] {
        assert !HasKey(t, c);
      } else {
        MonthStep(sel, mt, ms[n], ds[n], c, v);
        assert HasKey(t, c) <==> c in Categories(sel);
      }
    }
  }

  /** The table a record of month `m` is counted into has the enabled categories, each once. */
  lemma MonthTableOf(sel: Selection, mt: MonthlyTable, m: string)
    requires MonthTablesOk(sel, mt)
    ensures TableOk(GetOr(mt, m, InitialTable(sel))) && Keys(GetOr(mt, m, InitialTable(sel))) == Categories(sel)
  {
    if HasKey(mt, m) {
      GetAt(mt, IndexOf(mt, m));
    } else {
      InitialTableOk(sel);
    }
  }

  /** Counting a record into its month adds to the month sum what it adds to the totals. */
  lemma MonthStep(sel: Selection, mt: MonthlyTable, m: string, r: Record, c: Category, v: string)
    requires MonthTablesOk(sel, mt) && Categories(sel) != []
    ensures MonthSum(Put(mt, m, AddRecord(GetOr(mt, m, InitialTable(sel)), r)), c, v)
         == MonthSum(mt, c, v) + (if c in Categories(sel) && Field(r, Name(c)) == v then 1 else 0)
  {
    var t := GetOr(mt, m, InitialTable(sel));
    var x := (m, AddRecord(t, r));
    MonthTableOf(sel, mt, m);
    CountInAdd(t, r, c, v);
    KeysHasKey(t, c);
    if HasKey(mt, m) {
      var i := IndexOf(mt, m);
      GetAt(mt, i);
      MonthSumUpdate(mt, i, x, c, v);
    } else {
      CountInInitial(sel, c, v);
      MonthSumAppend(mt, x, c, v);
    }
  }

  /**
   * The months present are exactly the month keys of the records, each
   * once, none zero-filled, provided some category is enabled; with none
   * enabled the result is empty.  Every month table has the categories of
   * the totals.
   */
  lemma {:induction false} ByMonthKeys(sel: Selection, ds: seq<Record>, ms: seq<string>, m: string)
    requires |ms| == |ds|
    ensures MonthTablesOk(sel, ByMonth(sel, ds, ms))
    ensures HasKey(ByMonth(sel, ds, ms), m) <==> Categories(sel) != [] && m in ms
  {
    ByMonthOk(sel, ds, ms);
    if ds != [] {
      var n := |ds| - 1;
      var mt := ByMonth(sel, ds[..n], ms[..n]);
      ByMonthKeys(sel, ds[..n], ms[..n], m);
      assert ms == ms[..n] + [ms[n]];
      if Categories(sel) != [] {
        PutKeys(mt, ms[n], AddRecord(GetOr(mt, ms[n], InitialTable(sel)), ds[n]));
      }
    }
  }
}
