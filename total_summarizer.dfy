/**
 * `TotalSummarizer`: the six export flags it reads from the configuration
 * when constructed, and the loops that fill the totals table and the
 * by-month tables.  Each method is proved against the functions of
 * `Counting` and `Dates`.
 */
module Summarizer {
  import opened Wrappers
  import opened Errors
  import opened Dicts
  import opened PyStr
  import opened Dates
  import opened Counting
  import Config

  /** What `summarize` returns: exactly the two sections `totals` and `totals_by_date`. */
  datatype Summary = Summary(totals: CountTable, totalsByDate: MonthlyTable)

  /** The key holding a record's timestamp. */
  const Changed: string := "changed"

  /** The values of `rs`, or the error of the first failure among them. */
  function Collect(rs: seq<Result<string, Error>>): (r: Result<seq<string>, Error>)
    ensures r.Success? ==> |r.value| == |rs| && forall i :: 0 <= i < |rs| ==> rs[i] == Success(r.value[i])
  {
    if rs == [] then Success([])
    else
      var n := |rs| - 1;
      match Collect(rs[..n])
      case Failure(e) => Failure(e)
      case Success(vs) =>
        match rs[n]
        case Failure(e) => Failure(e)
        case Success(v) => Success(vs + [v])
  }

  /** Collecting fails exactly when some result is a failure, and then with the first one's error. */
  lemma {:induction false} CollectFailure(rs: seq<Result<string, Error>>)
    ensures Collect(rs).Failure? <==> exists i :: 0 <= i < |rs| && rs[i].Failure?
    ensures Collect(rs).Failure? ==> exists i :: 0 <= i < |rs| && rs[i].Failure? && Collect(rs).error == rs[i].error
                                                 && forall j :: 0 <= j < i ==> rs[j].Success?
  {
    if rs != [] {
      var n := |rs| - 1;
      CollectFailure(rs[..n]);
      if Collect(rs[..n]).Failure? {
        var i :| 0 <= i < n && rs[..n][i].Failure? && Collect(rs[..n]).error == rs[..n][i].error
                 && forall j :: 0 <= j < i ==> rs[..n][j].Success?;
        assert rs[i] == rs[..n][i];
        assert forall j :: 0 <= j < i ==> rs[j] == rs[..n][j];
      } else {
        forall i | 0 <= i < n ensures rs[i].Success? {
          assert rs[i] == rs[..n][i];
        }
      }
    }
  }

  lemma CollectStep(rs: seq<Result<string, Error>>, i: nat, vs: seq<string>)
    requires i < |rs| && Collect(rs[..i]) == Success(vs)
    ensures rs[i].Success? ==> Collect(rs[..i + 1]) == Success(vs + [rs[i].value])
    ensures rs[i].Failure? ==> Collect(rs[..i + 1]) == Failure(rs[i].error)
  {
    assert rs[..i + 1][..i] == rs[..i];
  }

  lemma {:induction false} CollectFailurePrefix(rs: seq<Result<string, Error>>, k: nat)
    requires k <= |rs| && Collect(rs[..k]).Failure?
    ensures Collect(rs) == Collect(rs[..k])
    decreases |rs| - k
  {
    if k < |rs| {
      assert rs[..k + 1][..k] == rs[..k];
      CollectFailurePrefix(rs, k + 1);
    } else {
      assert rs[..k] == rs;
    }
  }

  /** The month key of each record's `changed` value ("Unknown" when it has none). */
  function KeyResults(ds: seq<Record>): (rs: seq<Result<string, Error>>)
    ensures |rs| == |ds|
  {
    seq(|ds|, i requires 0 <= i < |ds| => MonthKey(Field(ds[i], Changed)))
  }

  /** The by-month tables of `ds` given the month key result `rs[i]` of each record `ds[i]`. */
  function CountFromKeys(sel: Selection, ds: seq<Record>, rs: seq<Result<string, Error>>): Result<MonthlyTable, Error>
    requires |rs| == |ds|
  {
    match Collect(rs)
    case Failure(e) => Failure(e)
    case Success(ms) => Success(ByMonth(sel, ds, ms))
  }

  /** `_count_totals_by_month(data)`. */
  function CountByMonth(sel: Selection, ds: seq<Record>): Result<MonthlyTable, Error> {
    CountFromKeys(sel, ds, KeyResults(ds))
  }

  /** `summarize(data)`. */
  function SummaryOf(sel: Selection, ds: seq<Record>): Result<Summary, Error> {
    match CountByMonth(sel, ds)
    case Failure(e) => Failure(e)
    case Success(mt) => Success(Summary(TallyTable(sel, ds), mt))
  }

  /**
   * Counting by month, given each record's month key result: it fails
   * exactly when some key failed, with the error of the first failure;
   * otherwise its months are exactly the records' keys (when some category
   * is enabled), every month table has the categories of the totals, and
   * the months add up to the totals.
   */
  lemma CountFromKeysSpec(sel: Selection, ds: seq<Record>, rs: seq<Result<string, Error>>, m: string, c: Category, v: string)
    requires |rs| == |ds|
    ensures CountFromKeys(sel, ds, rs).Failure? <==> exists i :: 0 <= i < |rs| && rs[i].Failure?
    ensures CountFromKeys(sel, ds, rs).Failure? ==>
      exists i :: 0 <= i < |rs| && rs[i].Failure? && CountFromKeys(sel, ds, rs).error == rs[i].error
        && forall j :: 0 <= j < i ==> rs[j].Success?
    ensures CountFromKeys(sel, ds, rs).Success? ==>
      var mt := CountFromKeys(sel, ds, rs).value;
      && MonthTablesOk(sel, mt)
      && (HasKey(mt, m) <==> Categories(sel) != [] && Success(m) in rs)
      && MonthSum(mt, c, v) == CountIn(TallyTable(sel, ds), c, v)
  {
    CollectFailure(rs);
    if Collect(rs).Success? {
      var ms := Collect(rs).value;
      ByMonthKeys(sel, ds, ms, m);
      MonthsSumToTotals(sel, ds, ms, c, v);
      assert m in ms <==> Success(m) in rs by {
        if m in ms {
          var i :| 0 <= i < |ms| && ms[i] == m;
          assert rs[i] == Success(m);
        }
        if Success(m) in rs {
          var i :| 0 <= i < |rs| && rs[i] == Success(m);
          assert ms[i] == m;
        }
      }
    }
  }

  /** The month key of record `i`, as `KeyResults` holds it. */
  lemma KeyResultsAt(ds: seq<Record>, i: nat)
    requires i < |ds|
    ensures KeyResults(ds)[i] == MonthKey(Field(ds[i], Changed))
  {
  }

  /**
   * `summarize` fails exactly when the `changed` value of some record does
   * not parse, and then with the error of the first such record, which names
   * its normalised date.
   */
  lemma SummaryFailure(sel: Selection, ds: seq<Record>)
    ensures SummaryOf(sel, ds).Failure? <==> exists i :: 0 <= i < |ds| && MonthKey(Field(ds[i], Changed)).Failure?
    ensures SummaryOf(sel, ds).Failure? ==>
      exists i :: 0 <= i < |ds| && SummaryOf(sel, ds).error == DateParseError(Normalize(Field(ds[i], Changed)))
        && forall j :: 0 <= j < i ==> MonthKey(Field(ds[j], Changed)).Success?
  {
    var rs := KeyResults(ds);
    CollectFailure(rs);
    if Collect(rs).Failure? {
      var i :| 0 <= i < |rs| && rs[i].Failure? && Collect(rs).error == rs[i].error
        && forall j :: 0 <= j < i ==> rs[j].Success?;
      KeyResultsAt(ds, i);
      MonthKeySpec(Field(ds[i], Changed));
      assert SummaryOf(sel, ds).error == DateParseError(Normalize(Field(ds[i], Changed)));
      forall j | 0 <= j < i ensures MonthKey(Field(ds[j], Changed)).Success? {
        KeyResultsAt(ds, j);
      }
    } else {
      forall i | 0 <= i < |ds| ensures MonthKey(Field(ds[i], Changed)).Success? {
        KeyResultsAt(ds, i);
      }
    }
  }

  /**
   * A `summarize` that succeeds gives the totals of the records, and by-date
   * tables whose months are exactly the records' month keys (none at all
   * when no top-level category is enabled), each with the categories of the
   * totals, adding up to the totals.
   */
  lemma SummarySuccess(sel: Selection, ds: seq<Record>, m: string, c: Category, v: string)
    requires SummaryOf(sel, ds).Success?
    ensures var s := SummaryOf(sel, ds).value;
      && s.totals == TallyTable(sel, ds)
      && MonthTablesOk(sel, s.totalsByDate)
      && (HasKey(s.totalsByDate, m) <==>
            Categories(sel) != [] && exists i :: 0 <= i < |ds| && MonthKey(Field(ds[i], Changed)) == Success(m))
      && MonthSum(s.totalsByDate, c, v) == CountIn(s.totals, c, v)
  {
    var rs := KeyResults(ds);
    CountFromKeysSpec(sel, ds, rs, m, c, v);
    if Success(m) in rs {
      var i :| 0 <= i < |rs| && rs[i] == Success(m);
      KeyResultsAt(ds, i);
      assert 0 <= i < |ds| && MonthKey(Field(ds[i], Changed)) == Success(m);
    }
    if exists i :: 0 <= i < |ds| && MonthKey(Field(ds[i], Changed)) == Success(m) {
      var i :| 0 <= i < |ds| && MonthKey(Field(ds[i], Changed)) == Success(m);
      KeyResultsAt(ds, i);
      assert rs[i] == Success(m);
    }
  }

  lemma ByMonthStep(sel: Selection, ds: seq<Record>, ms: seq<string>, i: nat, m: string)
    requires i < |ds| && |ms| == i
    ensures ByMonth(sel, ds[..i + 1], ms + [m]) == AddMonthRecord(sel, ByMonth(sel, ds[..i], ms), m, ds[i])
  {
    assert ds[..i + 1][..i] == ds[..i] && (ms + [m])[..i] == ms;
  }

  // ---------------------------------------------------------------------
  // `counts[c][v] += 1`, one category at a time

  /** `counts[c][v] += 1`. */
  function Bump(t: CountTable, c: Category, v: string): CountTable {
    Put(t, c, Incr(GetOr(t, c, []), v))
  }

  /** `t` with the record counted into its categories of rank below `k` only. */
  function BumpBelow(t: CountTable, r: Record, k: nat): (t': CountTable)
    ensures |t'| == |t| && Keys(t') == Keys(t)
  {
    seq(|t|, i requires 0 <= i < |t| =>
      if Rank(t[i].0) < k then (t[i].0, Incr(t[i].1, Field(r, Name(t[i].0)))) else t[i])
  }

  /** Counting into the category of rank `k` moves the boundary past it. */
  lemma BumpStep(t: CountTable, r: Record, c: Category)
    requires Distinct(t) && HasKey(t, c)
    ensures Bump(BumpBelow(t, r, Rank(c)), c, Field(r, Name(c))) == BumpBelow(t, r, Rank(c) + 1)
  {
    var u := BumpBelow(t, r, Rank(c));
    var i := IndexOf(t, c);
    assert Distinct(u) by {
      forall a, b | 0 <= a < b < |u| ensures u[a].0 != u[b].0 {
        assert u[a].0 == t[a].0 && u[b].0 == t[b].0;
      }
    }
    assert u[i].0 == c;
    GetAt(u, i);
    assert IndexOf(u, c) == i;
    var v := BumpBelow(t, r, Rank(c) + 1);
    var w := Bump(u, c, Field(r, Name(c)));
    assert w == u[i := (c, Incr(u[i].1, Field(r, Name(c))))];
    forall j | 0 <= j < |t| ensures w[j] == v[j] {
      if j != i {
        assert t[j].0 != c;
      }
    }
  }

  /** A category the table does not hold needs no counting. */
  lemma BumpSkip(t: CountTable, r: Record, c: Category)
    requires !HasKey(t, c)
    ensures BumpBelow(t, r, Rank(c)) == BumpBelow(t, r, Rank(c) + 1)
  {
    var u, v := BumpBelow(t, r, Rank(c)), BumpBelow(t, r, Rank(c) + 1);
    forall i | 0 <= i < |t| ensures u[i] == v[i] {
      assert t[i].0 != c;
    }
  }

  lemma BumpNothing(t: CountTable, r: Record)
    ensures BumpBelow(t, r, 0) == t
  {
  }

  lemma BumpEverything(t: CountTable, r: Record)
    ensures BumpBelow(t, r, CategoryCount) == AddRecord(t, r)
  {
  }

  /** A table built for the selection holds exactly the enabled categories. */
  lemma CategoriesKeys(sel: Selection, t: CountTable)
    requires Keys(t) == Categories(sel)
    ensures forall c :: HasKey(t, c) <==> Enabled(sel, c)
  {
    CategoriesSpec(sel);
    forall c ensures HasKey(t, c) <==> Enabled(sel, c) {
      KeysHasKey(t, c);
    }
  }

  class TotalSummarizer {
    /** The export flags, fixed at construction. */
    const sel: Selection

    /** The flags come from the getters of the (single) configuration object. */
    constructor(config: Config.ConfigurationManager)
      ensures sel == config.ExportSelection()
    {
      sel := config.ExportSelection();
    }

    /**
     * One of the three blocks of `_initialize_counts`: a counter for the
     * category `c` when its flag is on, and then one for its subcategory
     * `sub`, the next category, when that flag is on too.
     */
    method InitializeGroup(counts: CountTable, on: bool, subOn: bool, c: Category, sub: Category)
      returns (counts': CountTable)
      requires Rank(sub) == Rank(c) + 1
      requires Enabled(sel, c) == on && Enabled(sel, sub) == (on && subOn)
      requires counts == Empties(EnabledBelow(sel, Rank(c)))
      ensures counts' == Empties(EnabledBelow(sel, Rank(c) + 2))
    {
      EnabledBelowSpec(sel, Rank(c));
      EnabledBelowSpec(sel, Rank(sub));
      counts' := counts;
      if on {
        PutEmpty(EnabledBelow(sel, Rank(c)), c);
        counts' := Put(counts', c, []);
        if subOn {
          PutEmpty(EnabledBelow(sel, Rank(sub)), sub);
          counts' := Put(counts', sub, []);
        }
      }
    }

    /** `_initialize_counts()`: one empty counter per enabled category, by conditional assignment. */
    method InitializeCounts() returns (counts: CountTable)
      ensures counts == InitialTable(sel)
      ensures forall c :: HasKey(counts, c) <==> Enabled(sel, c)
    {
      counts := [];
      counts := InitializeGroup(counts, sel.tc, sel.tcSub, TC, TCSub);
      counts := InitializeGroup(counts, sel.fa, sel.faSub, FA, FASub);
      counts := InitializeGroup(counts, sel.pt, sel.ptSub, PT, PTSub);
      CategoriesKeys(sel, counts);
    }

    /** `counts[c][entry.get(c, "Unknown")] += 1`, for a category `c` of the table. */
    method CountCategory(counts: CountTable, entry: Record, c: Category, ghost start: CountTable)
      returns (counts': CountTable)
      requires Distinct(start) && HasKey(start, c)
      requires counts == BumpBelow(start, entry, Rank(c))
      ensures counts' == BumpBelow(start, entry, Rank(c) + 1)
    {
      BumpStep(start, entry, c);
      counts' := Bump(counts, c, Field(entry, Name(c)));
    }

    /**
     * One of the three blocks of the loops over records: count the entry
     * under category `c` when its flag is on, and then under its
     * subcategory `sub`, the next category, when that flag is on too.
     */
    method CountGroup(counts: CountTable, entry: Record, on: bool, subOn: bool, c: Category, sub: Category,
                      ghost start: CountTable)
      returns (counts': CountTable)
      requires Distinct(start) && Rank(sub) == Rank(c) + 1
      requires HasKey(start, c) == on && HasKey(start, sub) == (on && subOn)
      requires counts == BumpBelow(start, entry, Rank(c))
      ensures counts' == BumpBelow(start, entry, Rank(c) + 2)
    {
      counts' := counts;
      if on {
        counts' := CountCategory(counts', entry, c, start);
      } else {
        BumpSkip(start, entry, c);
      }
      if on && subOn {
        counts' := CountCategory(counts', entry, sub, start);
      } else {
        BumpSkip(start, entry, sub);
      }
    }

    /** The body of the loops over records: count one entry into every enabled category. */
    method CountEntry(counts: CountTable, entry: Record) returns (counts': CountTable)
      requires TableOk(counts) && Keys(counts) == Categories(sel)
      ensures counts' == AddRecord(counts, entry)
    {
      CategoriesKeys(sel, counts);
      BumpNothing(counts, entry);
      counts' := CountGroup(counts, entry, sel.tc, sel.tcSub, TC, TCSub, counts);
      counts' := CountGroup(counts', entry, sel.fa, sel.faSub, FA, FASub, counts);
      counts' := CountGroup(counts', entry, sel.pt, sel.ptSub, PT, PTSub, counts);
      BumpEverything(counts, entry);
    }

    /**
     * `_count_totals(data)`: the totals table, whose every category's counts
     * add up to the number of records.
     */
    method CountTotals(data: seq<Record>) returns (counts: CountTable)
      ensures counts == TallyTable(sel, data)
      ensures Keys(counts) == Categories(sel)
      ensures forall i :: 0 <= i < |counts| ==> Sum(counts[i].1) == |data|
    {
      counts := InitializeCounts();
      for i := 0 to |data|
        invariant counts == TallyTable(sel, data[..i])
      {
        Totals(sel, data[..i], TC, "");
        counts := CountEntry(counts, data[i]);
        assert data[..i + 1][..i] == data[..i];
      }
      assert data[..|data|] == data;
      Totals(sel, data, TC, "");
      forall i | 0 <= i < |counts| ensures Sum(counts[i].1) == |data| {
        Totals(sel, data, counts[i].0, "");
        GetAt(counts, i);
      }
    }

    /**
     * `_parse_date(date_str)`: strip, replace the first Spanish abbreviation
     * found (searching the table in order, then stopping), collapse
     * whitespace, and parse.
     */
    method ParseDate(dateStr: string) returns (r: Result<string, Error>)
      ensures r == MonthKey(dateStr)
    {
      var d := StripSpace(dateStr);
      ghost var stripped := d;
      var i := 0;
      while i < |SpanishMonths|
        invariant 0 <= i <= |SpanishMonths| && d == stripped
        invariant FirstSpanishFrom(stripped, 0) == FirstSpanishFrom(stripped, i)
      {
        var (es, en) := SpanishMonths[i];
        if Contains(d, es) {
          d := ReplaceAll(d, es, en);
          assert d == TranslateMonth(stripped);
          break;
        }
        i := i + 1;
      }
      assert d == TranslateMonth(stripped);
      d := Collapse(d);
      match ParseStamp(d)
      case None =>
        r := Failure(DateParseError(d));
      case Some(st) =>
        r := Success(MonthKeyOf(st.year, st.month));
    }

    /**
     * One record of `_count_totals_by_month`: `counts_by_month[month]` is
     * touched, and so created from `_initialize_counts()` if new, only when a
     * top-level flag is on.
     */
    method CountMonthEntry(countsByMonth: MonthlyTable, month: string, entry: Record)
      returns (countsByMonth': MonthlyTable)
      requires MonthTablesOk(sel, countsByMonth)
      ensures countsByMonth' == AddMonthRecord(sel, countsByMonth, month, entry)
    {
      CategoriesSpec(sel);
      countsByMonth' := countsByMonth;
      if sel.tc || sel.fa || sel.pt {
        var t: CountTable;
        if HasKey(countsByMonth, month) {
          t := GetOr(countsByMonth, month, []);
          GetAt(countsByMonth, IndexOf(countsByMonth, month));
        } else {
          t := InitializeCounts();
          InitialTableOk(sel);
        }
        t := CountEntry(t, entry);
        countsByMonth' := Put(countsByMonth, month, t);
      }
    }

    /**
     * `_count_totals_by_month(data)`: the first date that does not parse
     * aborts the count with its error.
     */
    method CountTotalsByMonth(data: seq<Record>) returns (r: Result<MonthlyTable, Error>)
      ensures r == CountByMonth(sel, data)
    {
      var countsByMonth: MonthlyTable := [];
      ghost var rs := KeyResults(data);
      ghost var ms: seq<string> := [];
      for i := 0 to |data|
        invariant Collect(rs[..i]) == Success(ms) && |ms| == i
        invariant countsByMonth == ByMonth(sel, data[..i], ms)
      {
        var month := ParseDate(Field(data[i], Changed));
        CollectStep(rs, i, ms);
        if month.Failure? {
          CollectFailurePrefix(rs, i + 1);
          return Failure(month.error);
        }
        ByMonthOk(sel, data[..i], ms);
        countsByMonth := CountMonthEntry(countsByMonth, month.value, data[i]);
        ByMonthStep(sel, data, ms, i, month.value);
        ms := ms + [month.value];
      }
      assert data[..|data|] == data && rs[..|data|] == rs;
      return Success(countsByMonth);
    }

    /** `summarize(data)`: the totals, then the totals by month; a date that does not parse fails the whole. */
    method Summarize(data: seq<Record>) returns (r: Result<Summary, Error>)
      ensures r == SummaryOf(sel, data)
    {
      var totals := CountTotals(data);
      var byMonth := CountTotalsByMonth(data);
      if byMonth.Failure? {
        return Failure(byMonth.error);
      }
      return Success(Summary(totals, byMonth.value));
    }
  }
}
