/**
 * `BugOracle` of `app.py`: the loop that sends every bug row to the model
 * and merges each answer with the row's own columns, the cleaning of the
 * model's answer, and the reduction of the monthly count tables to totals
 * and highlights.  The prompt builder, the model and `json.loads` are
 * function parameters (`Oracles`).
 */
module Oracle {
  import opened Wrappers
  import opened Errors
  import opened Dicts
  import opened PyStr
  import opened Counting
  import opened Highlights
  import Config

  // ---------------------------------------------------------------------
  // Cleaning the model's answer

  /** The characters of `"```json"`, the set the first `strip` removes. */
  predicate InFence(c: char) {
    c == '`' || c == 'j' || c == 's' || c == 'o' || c == 'n'
  }

  /** The characters of `"```"`. */
  predicate IsBacktick(c: char) {
    c == '`'
  }

  /** `llm_response.strip("```json").strip("```").strip()`. */
  function Clean(response: string): string {
    StripSpace(Strip(Strip(response, InFence), IsBacktick))
  }

  /**
   * Cleaning removes the longest runs of the characters `` ` ``, `j`, `s`,
   * `o`, `n` from both ends, in any order (a character set, not a prefix),
   * keeps the middle untouched, and then trims whitespace; the second
   * `strip("```")` has nothing left to remove.
   */
  lemma CleanSpec(response: string)
    ensures Clean(response) == StripSpace(Strip(response, InFence))
    ensures var m, a := Strip(response, InFence), LeadCount(response, InFence);
      && a + |m| <= |response|
      && m == response[a..a + |m|]
      && (forall i :: 0 <= i < |response| && !(a <= i < a + |m|) ==> InFence(response[i]))
      && (m == [] || (!InFence(m[0]) && !InFence(m[|m| - 1])))
    ensures var r := Clean(response); r == [] || (!IsSpace(r[0]) && !IsSpace(r[|r| - 1]))
  {
    var m := Strip(response, InFence);
    StripSpec(response, InFence);
    StripNoop(m, IsBacktick);
    StripSlice(m, IsSpace);
  }

  /** An answer made only of fence characters cleans to nothing. */
  lemma CleanAllFence(response: string)
    requires forall i :: 0 <= i < |response| ==> InFence(response[i])
    ensures Clean(response) == ""
  {
    LeadCountConcat(response, [], InFence);
    assert response + [] == response;
    DropLeadSpec(response, InFence);
  }

  /** Three trailing backticks are dropped, and nothing before them. */
  lemma DropTrailFence(x: string)
    requires x != [] && !InFence(x[|x| - 1])
    ensures DropTrail(x + "```", InFence) == x
  {
    var t3, t2, t1 := x + "```", x + "``", x + "`";
    assert t3[|t3| - 1] == '`' && t3[..|t3| - 1] == t2;
    assert t2[|t2| - 1] == '`' && t2[..|t2| - 1] == t1;
    assert t1[|t1| - 1] == '`' && t1[..|t1| - 1] == x;
    assert DropTrail(t1, InFence) == x;
    assert DropTrail(t2, InFence) == x;
  }

  /**
   * An answer wrapped in a Markdown code fence, "```json" before and "```"
   * after, cleans to the trimmed body, provided the body neither starts nor
   * ends with a fence character (a newline, say).
   */
  lemma CleanFenced(body: string)
    requires body != []
    requires !InFence(body[0]) && !InFence(body[|body| - 1])
    ensures Clean("```json" + body + "```") == StripSpace(body)
  {
    var response := "```json" + body + "```";
    var tail := body + "```";
    assert response == "```json" + tail;
    LeadCountConcat("```json", tail, InFence);
    DropLeadSpec(response, InFence);
    assert DropLead(response, InFence) == tail;
    DropTrailFence(body);
    StripNoop(body, IsBacktick);
  }

  /** A bare JSON `null` loses its leading `n` and is no longer JSON. */
  lemma CleanNull()
    ensures Clean("null") == "ull"
  {
    assert DropLead("null", InFence) == "ull" by {
      assert "null"[1..] == "ull";
    }
  }

  /**
   * Whitespace before the fence keeps the leading "```json" from being
   * stripped, since whitespace is only trimmed afterwards.
   */
  lemma CleanIndentedFence()
    ensures Clean(" ```json\n{}\n```") == "```json\n{}"
  {
    var m := " ```json\n{}\n";
    assert " ```json\n{}\n```" == m + "```";
    assert DropLead(m + "```", InFence) == m + "```";
    DropTrailFence(m);
    assert Strip(m, IsBacktick) == m;
    assert DropLead(m, IsSpace) == m[1..];
    var t := m[1..];
    assert t[..|t| - 1] == "```json\n{}";
    assert DropTrail(t, IsSpace) == "```json\n{}";
  }

  // ---------------------------------------------------------------------
  // Merging a row with the model's answer

  /** A JSON object as `json.loads` returns it: a dictionary, so no key twice. */
  type JsonObject = d: Record | Distinct(d) witness []

  /** What `json.loads` makes of the cleaned answer, as far as the merge can tell. */
  datatype Parsed =
      /** `json.JSONDecodeError`. */
    | NotJson
      /** Valid JSON that is not an object, so item assignment raises `TypeError`. */
    | NonObject
    | Object(fields: JsonObject)

  /** The collaborators of `_llm_processing` that are not modelled. */
  datatype Oracles = Oracles(
    /** `ProcessingPromptBuilder().build_prompt(subject, description)`. */
    build: (string, string) -> string,
    /** `ModelProvider().get(provider).generate(prompt=...)`. */
    model: string -> string -> string,
    /** `json.loads`. */
    loads: string -> Parsed)

  /** The configured CSV column names of the three fields every row must have. */
  datatype Columns = Columns(subject: string, changed: string, description: string)

  /** `bug[column]`. */
  function Column(bug: Record, column: string): Result<string, Error> {
    match Get(bug, column)
    case Some(v) => Success(v)
    case None => Failure(KeyError(column))
  }

  /** `bug_data["subject"] = ...; bug_data["description"] = ...; bug_data["changed"] = ...`. */
  function Merge(o: Record, subject: string, description: string, changed: string): Record {
    Put(Put(Put(o, "subject", subject), "description", description), "changed", changed)
  }

  /**
   * The three assignments override whatever the model returned under those
   * keys, leave every other key as it was, keep the object a dictionary,
   * and keep the model's keys in their places (new keys go at the end).
   */
  lemma MergeSpec(o: Record, subject: string, description: string, changed: string)
    requires Distinct(o)
    ensures var m := Merge(o, subject, description, changed);
      && Distinct(m)
      && Get(m, "subject") == Some(subject)
      && Get(m, "description") == Some(description)
      && Get(m, "changed") == Some(changed)
      && (forall k :: k != "subject" && k != "description" && k != "changed" ==> Get(m, k) == Get(o, k))
      && Keys(o) <= Keys(m)
  {
    var o1 := Put(o, "subject", subject);
    var o2 := Put(o1, "description", description);
    PutDistinct(o, "subject", subject);
    PutDistinct(o1, "description", description);
    PutDistinct(o2, "changed", changed);
    PutKeys(o, "subject", subject);
    PutKeys(o1, "description", description);
    PutKeys(o2, "changed", changed);
    MergeGet(o, subject, description, changed, "subject");
    MergeGet(o, subject, description, changed, "description");
    MergeGet(o, subject, description, changed, "changed");
    forall k | k != "subject" && k != "description" && k != "changed"
      ensures Get(Merge(o, subject, description, changed), k) == Get(o, k)
    {
      MergeGet(o, subject, description, changed, k);
    }
  }

  lemma MergeGet(o: Record, subject: string, description: string, changed: string, k: string)
    requires Distinct(o)
    ensures Get(Merge(o, subject, description, changed), k)
      == if k == "changed" then Some(changed)
         else if k == "description" then Some(description)
         else if k == "subject" then Some(subject)
         else Get(o, k)
  {
    var o1 := Put(o, "subject", subject);
    var o2 := Put(o1, "description", description);
    PutDistinct(o, "subject", subject);
    PutDistinct(o1, "description", description);
    GetPut(o2, "changed", changed, k);
    GetPut(o1, "description", description, k);
    GetPut(o, "subject", subject, k);
  }

  /** What one iteration decides: the merged record or the error, and the prompt it sent, if any. */
  datatype Step = Step(record: Result<Record, Error>, prompt: Option<string>)

  /**
   * One iteration of the loop of `_llm_processing`: the three columns are
   * read first, then the prompt goes to the model, and the cleaned answer is
   * parsed and merged with the row.
   */
  function ProcessRow(bug: Record, cols: Columns, o: Oracles, provider: string): Step {
    var subject := Column(bug, cols.subject);
    var changed := Column(bug, cols.changed);
    var description := Column(bug, cols.description);
    if subject.Failure? then Step(Failure(subject.error), None)
    else if changed.Failure? then Step(Failure(changed.error), None)
    else if description.Failure? then Step(Failure(description.error), None)
    else
      var prompt := o.build(subject.value, description.value);
      var cleaned := Clean(o.model(provider)(prompt));
      var record := match o.loads(cleaned)
        case NotJson => Failure(InvalidJson(cleaned))
        case NonObject => Failure(TypeError)
        case Object(fields) => Success(Merge(fields, subject.value, description.value, changed.value));
      Step(record, Some(prompt))
  }

  /**
   * A missing column is a `KeyError` for the first one missing, in the
   * order subject, changed, description, and the model is not asked.
   */
  lemma ProcessRowMissing(bug: Record, cols: Columns, o: Oracles, provider: string)
    ensures var step := ProcessRow(bug, cols, o, provider);
      && (!HasKey(bug, cols.subject) ==> step == Step(Failure(KeyError(cols.subject)), None))
      && (HasKey(bug, cols.subject) && !HasKey(bug, cols.changed) ==>
            step == Step(Failure(KeyError(cols.changed)), None))
      && (HasKey(bug, cols.subject) && HasKey(bug, cols.changed) && !HasKey(bug, cols.description) ==>
            step == Step(Failure(KeyError(cols.description)), None))
  {
  }

  /**
   * With all three columns present the model is asked once with the row's
   * subject and description; an answer that is not JSON fails with the
   * cleaned text, one that is not an object with `TypeError`, and an object
   * yields a record that holds the row's three values under "subject",
   * "description" and "changed" and the model's value under every other key.
   */
  lemma ProcessRowAnswer(bug: Record, cols: Columns, o: Oracles, provider: string)
    requires HasKey(bug, cols.subject) && HasKey(bug, cols.changed) && HasKey(bug, cols.description)
    ensures
      var subject, changed, description := Get(bug, cols.subject).value, Get(bug, cols.changed).value, Get(bug, cols.description).value;
      var step := ProcessRow(bug, cols, o, provider);
      var prompt := o.build(subject, description);
      var cleaned := Clean(o.model(provider)(prompt));
      && step.prompt == Some(prompt)
      && (o.loads(cleaned).NotJson? ==> step.record == Failure(InvalidJson(cleaned)))
      && (o.loads(cleaned).NonObject? ==> step.record == Failure(TypeError))
      && (o.loads(cleaned).Object? ==>
            var fields := o.loads(cleaned).fields;
            && step.record.Success?
            && Distinct(step.record.value)
            && Get(step.record.value, "subject") == Some(subject)
            && Get(step.record.value, "description") == Some(description)
            && Get(step.record.value, "changed") == Some(changed)
            && forall k :: k != "subject" && k != "description" && k != "changed" ==>
                 Get(step.record.value, k) == Get(fields, k))
  {
    var prompt := o.build(Get(bug, cols.subject).value, Get(bug, cols.description).value);
    var parsed := o.loads(Clean(o.model(provider)(prompt)));
    if parsed.Object? {
      MergeSpec(parsed.fields, Get(bug, cols.subject).value, Get(bug, cols.description).value, Get(bug, cols.changed).value);
    }
  }

  /** The prompts a step sent to the model. */
  function Asked(step: Step): seq<string> {
    if step.prompt.Some? then [step.prompt.value] else []
  }

  /** The outcome of the loop: the records or the error, and every prompt sent. */
  datatype Run = Run(result: Result<seq<Record>, Error>, prompts: seq<string>)

  /** `ProcessRow` with the configuration fixed: what the loop does with one row. */
  function RowOf(cols: Columns, o: Oracles, provider: string): Record -> Step {
    bug => ProcessRow(bug, cols, o, provider)
  }

  /** The loop of `_llm_processing` over `bugs`, stopping at the first error. */
  function Processed(bugs: seq<Record>, row: Record -> Step): Run
    decreases |bugs|
  {
    if bugs == [] then Run(Success([]), [])
    else
      var prev := Processed(bugs[..|bugs| - 1], row);
      if prev.result.Failure? then prev
      else
        var step := row(bugs[|bugs| - 1]);
        var result := if step.record.Success? then Success(prev.result.value + [step.record.value])
                      else Failure(step.record.error);
        Run(result, prev.prompts + Asked(step))
  }

  /**
   * The loop succeeds exactly when every row does, and then returns one
   * record per row, in row order, each the row's merged record, after
   * sending one prompt per row that got as far as the model, in row order.
   */
  lemma {:induction false} ProcessedSuccess(bugs: seq<Record>, row: Record -> Step)
    ensures var run := Processed(bugs, row);
      && (run.result.Success? <==> forall i :: 0 <= i < |bugs| ==> row(bugs[i]).record.Success?)
      && (run.result.Success? ==>
            && |run.result.value| == |bugs|
            && forall i :: 0 <= i < |bugs| ==> row(bugs[i]).record == Success(run.result.value[i]))
    ensures Processed(bugs, row).result.Success? ==>
      Processed(bugs, row).prompts == Prompts(bugs, row)
    decreases |bugs|
  {
    if bugs != [] {
      var n := |bugs| - 1;
      var front := bugs[..n];
      ProcessedSuccess(front, row);
      assert forall i :: 0 <= i < n ==> front[i] == bugs[i];
      var prev := Processed(front, row);
      if !prev.result.Success? {
        var i :| 0 <= i < n && !row(front[i]).record.Success?;
        assert !row(bugs[i]).record.Success?;
      }
    }
  }

  /** The prompts the rows send, in row order. */
  function Prompts(bugs: seq<Record>, row: Record -> Step): seq<string>
    decreases |bugs|
  {
    if bugs == [] then [] else Prompts(bugs[..|bugs| - 1], row) + Asked(row(bugs[|bugs| - 1]))
  }

  /**
   * Fail-fast: when row `i` is the first to fail, the loop fails with that
   * row's error, and the rows after it are never looked at: the prompts
   * sent are those of the rows before it and of row `i` itself.
   */
  lemma {:induction false} ProcessedStops(bugs: seq<Record>, row: Record -> Step, i: nat)
    requires i < |bugs|
    requires forall j :: 0 <= j < i ==> row(bugs[j]).record.Success?
    requires row(bugs[i]).record.Failure?
    ensures Processed(bugs, row) == Run(Failure(row(bugs[i]).record.error), Prompts(bugs[..i + 1], row))
    decreases |bugs|
  {
    var n := |bugs| - 1;
    var front := bugs[..n];
    assert forall j :: 0 <= j < n ==> front[j] == bugs[j];
    if i < n {
      ProcessedStops(front, row, i);
      assert front[..i + 1] == bugs[..i + 1];
    } else {
      ProcessedSuccess(front, row);
      assert bugs[..i + 1] == bugs;
    }
  }

  /** A row that succeeds has asked the model exactly once. */
  lemma SuccessAsked(bug: Record, cols: Columns, o: Oracles, provider: string)
    ensures ProcessRow(bug, cols, o, provider).record.Success? ==> |Asked(ProcessRow(bug, cols, o, provider))| == 1
  {
  }

  /** `_llm_processing` given what its getters return, in the order it calls them. */
  function LlmProcessingOf(provider: Result<string, Error>, subject: Result<string, Error>,
                           changed: Result<string, Error>, description: Result<string, Error>,
                           bugs: seq<Record>, o: Oracles): Run
  {
    if provider.Failure? then Run(Failure(provider.error), [])
    else if subject.Failure? then Run(Failure(subject.error), [])
    else if changed.Failure? then Run(Failure(changed.error), [])
    else if description.Failure? then Run(Failure(description.error), [])
    else Processed(bugs, RowOf(Columns(subject.value, changed.value, description.value), o, provider.value))
  }

  /**
   * `_llm_processing`: an unconfigured provider or column header fails
   * before any prompt is sent; otherwise a successful run returns, for every
   * row `i`, the model's object for that row with the row's subject,
   * description and changed columns merged in.
   */
  lemma LlmProcessingSpec(provider: Result<string, Error>, subject: Result<string, Error>,
                          changed: Result<string, Error>, description: Result<string, Error>,
                          bugs: seq<Record>, o: Oracles, i: nat)
    ensures var run := LlmProcessingOf(provider, subject, changed, description, bugs, o);
      (provider.Failure? || subject.Failure? || changed.Failure? || description.Failure?) ==>
        run.result.Failure? && run.prompts == []
    ensures var run := LlmProcessingOf(provider, subject, changed, description, bugs, o);
      run.result.Success? && i < |bugs| ==>
        && |run.result.value| == |bugs|
        && provider.Success? && subject.Success? && changed.Success? && description.Success?
        && var bug := bugs[i];
        && HasKey(bug, subject.value) && HasKey(bug, changed.value) && HasKey(bug, description.value)
        && var s, c, d := Get(bug, subject.value).value, Get(bug, changed.value).value, Get(bug, description.value).value;
        && var parsed := o.loads(Clean(o.model(provider.value)(o.build(s, d))));
        && parsed.Object?
        && run.result.value[i] == Merge(parsed.fields, s, d, c)
  {
    var run := LlmProcessingOf(provider, subject, changed, description, bugs, o);
    if provider.Success? && subject.Success? && changed.Success? && description.Success? && i < |bugs| {
      var cols := Columns(subject.value, changed.value, description.value);
      var row := RowOf(cols, o, provider.value);
      ProcessedSuccess(bugs, row);
      if run.result.Success? {
        ProcessRowMissing(bugs[i], cols, o, provider.value);
        ProcessRowAnswer(bugs[i], cols, o, provider.value);
      }
    }
  }

  // ---------------------------------------------------------------------
  // Totals and highlights

  /** A category's insight for each category of a month table. */
  function MonthInsights(t: CountTable): Dict<Category, Insight> {
    MapValues(t, InsightOf)
  }

  /** `_preprocess_summarized_data(summarized_data)`. */
  function Preprocessed(data: MonthlyTable): Dict<string, Dict<Category, Insight>> {
    MapValues(data, MonthInsights)
  }

  /**
   * The result has exactly the input's month keys, in order, and each month
   * exactly that month's categories; each category maps to its total and
   * its highlights.
   */
  lemma PreprocessedSpec(data: MonthlyTable, m: string, c: Category)
    ensures Keys(Preprocessed(data)) == Keys(data)
    ensures HasKey(Preprocessed(data), m) <==> HasKey(data, m)
    ensures HasKey(data, m) ==>
      var t, row := Get(data, m).value, Get(Preprocessed(data), m).value;
      && Keys(row) == Keys(t)
      && Get(row, c) == if HasKey(t, c) then Some(InsightOf(Get(t, c).value)) else None
  {
    MapValuesGet(data, MonthInsights, m);
    KeysHasKey(data, m);
    KeysHasKey(Preprocessed(data), m);
    if HasKey(data, m) {
      MapValuesGet(Get(data, m).value, InsightOf, c);
    }
  }

  // ---------------------------------------------------------------------
  // The class

  class BugOracle {
    const configurationManager: Config.ConfigurationManager

    constructor(configurationManager: Config.ConfigurationManager)
      ensures this.configurationManager == configurationManager
    {
      this.configurationManager := configurationManager;
    }

    /**
     * `_llm_processing(bugs)`: the provider and the three column names are
     * read first; then one model call per row, each row merged with the
     * model's answer, stopping at the first error.  `prompts` records the
     * calls made to the model.
     */
    method LlmProcessing(bugs: seq<Record>, o: Oracles) returns (result: Result<seq<Record>, Error>, ghost prompts: seq<string>)
      ensures result == LlmProcessingOf(
        configurationManager.GetLlmProvider(), configurationManager.GetCsvHeaderSubject(),
        configurationManager.GetCsvHeaderChanged(), configurationManager.GetCsvHeaderDescription(), bugs, o).result
      ensures Run(result, prompts) == LlmProcessingOf(
        configurationManager.GetLlmProvider(), configurationManager.GetCsvHeaderSubject(),
        configurationManager.GetCsvHeaderChanged(), configurationManager.GetCsvHeaderDescription(), bugs, o)
    {
      prompts := [];
      var provider := configurationManager.GetLlmProvider();
      if provider.Failure? {
        return Failure(provider.error), prompts;
      }
      var model := o.model(provider.value);
      var subjectColumn := configurationManager.GetCsvHeaderSubject();
      var changedColumn := configurationManager.GetCsvHeaderChanged();
      var descriptionColumn := configurationManager.GetCsvHeaderDescription();
      if subjectColumn.Failure? {
        return Failure(subjectColumn.error), prompts;
      }
      if changedColumn.Failure? {
        return Failure(changedColumn.error), prompts;
      }
      if descriptionColumn.Failure? {
        return Failure(descriptionColumn.error), prompts;
      }
      ghost var cols := Columns(subjectColumn.value, changedColumn.value, descriptionColumn.value);
      var records: seq<Record> := [];
      var i := 0;
      while i < |bugs|
        invariant 0 <= i <= |bugs|
        invariant Processed(bugs[..i], RowOf(cols, o, provider.value)) == Run(Success(records), prompts)
      {
        assert bugs[..i + 1][..i] == bugs[..i];
        var step := ProcessBug(bugs[i], subjectColumn.value, changedColumn.value, descriptionColumn.value, o, model,
                                provider.value);
        prompts := prompts + Asked(step);
        if step.record.Failure? {
          LoopStops(bugs, RowOf(cols, o, provider.value), i, records);
          return Failure(step.record.error), prompts;
        }
        records := records + [step.record.value];
        i := i + 1;
      }
      assert bugs[..i] == bugs;
      result := Success(records);
    }

    /**
     * The body of the loop of `_llm_processing` for one bug row: the three
     * columns, the prompt, the model's answer, cleaned, parsed and merged.
     */
    method ProcessBug(bug: Record, subjectColumn: string, changedColumn: string, descriptionColumn: string,
                      o: Oracles, model: string -> string, ghost provider: string)
      returns (step: Step)
      requires model == o.model(provider)
      ensures step == ProcessRow(bug, Columns(subjectColumn, changedColumn, descriptionColumn), o, provider)
    {
      var subject := Column(bug, subjectColumn);
      var changed := Column(bug, changedColumn);
      var description := Column(bug, descriptionColumn);
      if subject.Failure? {
        return Step(Failure(subject.error), None);
      } else if changed.Failure? {
        return Step(Failure(changed.error), None);
      } else if description.Failure? {
        return Step(Failure(description.error), None);
      }
      var prompt := o.build(subject.value, description.value);
      var llmResponse := model(prompt);
      var cleanedResponse := Clean(llmResponse);
      match o.loads(cleanedResponse)
      case NotJson =>
        step := Step(Failure(InvalidJson(cleanedResponse)), Some(prompt));
      case NonObject =>
        step := Step(Failure(TypeError), Some(prompt));
      case Object(bugData) =>
        step := Step(Success(Merge(bugData, subject.value, description.value, changed.value)), Some(prompt));
    }

    /**
     * `_preprocess_summarized_data(summarized_data)`: for each month, in
     * order, a new table holding each category's total and highlights.
     */
    method PreprocessSummarizedData(summarizedData: MonthlyTable) returns (result: Dict<string, Dict<Category, Insight>>)
      requires Distinct(summarizedData)
      requires forall i :: 0 <= i < |summarizedData| ==> Distinct(summarizedData[i].1)
      ensures result == Preprocessed(summarizedData)
    {
      result := [];
      var i := 0;
      while i < |summarizedData|
        invariant 0 <= i <= |summarizedData|
        invariant result == Preprocessed(summarizedData[..i])
      {
        var (date, dimensions) := summarizedData[i];
        var row := Preprocess(dimensions);
        MapValuesGet(summarizedData[..i], MonthInsights, date);
        NotBefore(summarizedData, i);
        MapValuesSnoc(summarizedData, MonthInsights, i);
        result := Put(result, date, row);
        i := i + 1;
      }
      assert summarizedData[..i] == summarizedData;
    }

    /** The inner loop of `_preprocess_summarized_data`, over one month's categories. */
    method Preprocess(dimensions: CountTable) returns (row: Dict<Category, Insight>)
      requires Distinct(dimensions)
      ensures row == MonthInsights(dimensions)
    {
      row := [];
      var j := 0;
      while j < |dimensions|
        invariant 0 <= j <= |dimensions|
        invariant row == MonthInsights(dimensions[..j])
      {
        var (dimension, entries) := dimensions[j];
        var dimensionTotal := Sum(entries);
        var highlights := Top(entries);
        MapValuesGet(dimensions[..j], InsightOf, dimension);
        NotBefore(dimensions, j);
        MapValuesSnoc(dimensions, InsightOf, j);
        row := Put(row, dimension, Insight(dimensionTotal, highlights));
        j := j + 1;
      }
      assert dimensions[..j] == dimensions;
    }
  }

  /** The loop's early return: the failing row `i` decides the outcome of the whole loop. */
  lemma LoopStops(bugs: seq<Record>, row: Record -> Step, i: nat, records: seq<Record>)
    requires i < |bugs|
    requires Processed(bugs[..i], row).result == Success(records)
    requires row(bugs[i]).record.Failure?
    ensures Processed(bugs, row)
      == Run(Failure(row(bugs[i]).record.error), Processed(bugs[..i], row).prompts + Asked(row(bugs[i])))
  {
    ProcessedSuccess(bugs[..i], row);
    assert forall j :: 0 <= j < i ==> bugs[..i][j] == bugs[j];
    ProcessedStops(bugs, row, i);
    assert bugs[..i + 1][..i] == bugs[..i];
  }
}
