/**
 * `ConfigurationManager`: the process-wide settings object.  Environment
 * variables are a map from name to value and the interactive prompt is a
 * function from the question asked to the user's answer; everything else is
 * as the class does it: a singleton whose attributes are reset only on first
 * construction, validated getters, and the input helpers `collect_inputs`
 * is made of.
 */
module Config {
  import opened Wrappers
  import opened Errors
  import opened PyStr
  import opened Counting

  /** A Python attribute: never assigned (reading it raises `AttributeError`), assigned `None`, or assigned a value. */
  datatype Attr<T> = Missing | Null | Set(value: T)

  /** A value `_input` returned, which may be `None`. */
  function FromOption(o: Option<string>): Attr<string> {
    match o
    case None => Null
    case Some(v) => Set(v)
  }

  const ExportFormats: seq<string> := ["csv", "json"]
  const LlmProviders: seq<string> := ["openai", "grok"]

  /** `os.getenv(name)`. */
  function Env(env: map<string, string>, name: string): Option<string> {
    if name in env then Some(env[name]) else None
  }

  /** Python truthiness of an optional string: present and not empty. */
  predicate Given(o: Option<string>) {
    o.Some? && o.value != ""
  }

  /** `str(default)` for `None` or a string. */
  function ShowDefault(default: Option<string>): string {
    match default
    case None => "None"
    case Some(d) => d
  }

  // ---------------------------------------------------------------------
  // The input helpers

  /** A question put to the user: `_input`'s, or `_input_with_options`' listing the options. */
  datatype Prompt =
    | Question(caption: string, default: Option<string>)
    | Choices(caption: string, options: seq<string>, default: Option<string>)

  /** The text shown for a question. */
  function Render(p: Prompt): string {
    match p
    case Question(caption, default) => caption + " [" + ShowDefault(default) + "]: "
    case Choices(caption, options, default) =>
      caption + " (valid options: " + Join(", ", options)
      + (if Given(default) then "; default is '" + default.value + "'" else "") + "): "
  }

  /** The user at the prompt: the answer given to each question. */
  type Answers = Prompt -> string

  /**
   * `_input`: the environment value when it is set and not empty, otherwise
   * the answer to the question when not empty, otherwise the default.
   */
  function Input(env: map<string, string>, ask: Answers, name: string, caption: string, default: Option<string>): Option<string> {
    if Given(Env(env, name)) then Env(env, name)
    else
      var answer := ask(Question(caption, default));
      if answer != "" then Some(answer) else default
  }

  /**
   * Where `_input`'s value comes from, and what it can be: it is empty or
   * `None` only when the default is, and the user is asked only when the
   * environment gives nothing.
   */
  lemma InputSpec(env: map<string, string>, ask: Answers, name: string, caption: string, default: Option<string>)
    ensures var r := Input(env, ask, name, caption, default);
      var answer := ask(Question(caption, default));
      && (Given(Env(env, name)) ==> r == Env(env, name))
      && (!Given(Env(env, name)) && answer != "" ==> r == Some(answer))
      && (!Given(Env(env, name)) && answer == "" ==> r == default)
      && (r.None? ==> default.None?)
      && (r == Some("") ==> default == Some(""))
  {
  }

  /** The message of `_input_boolean`'s `ValueError`. */
  function BooleanMessage(description: string, value: string): string {
    "\U{274C} Invalid boolean value for " + description + ": " + value
  }

  /**
   * `_input_boolean`: the environment value, or `str(default)` when the
   * variable is unset, read as an integer; zero is false.  It never prompts.
   */
  function InputBoolean(env: map<string, string>, name: string, description: string, default: nat): Result<bool, Error> {
    var value := if name in env then env[name] else NatToString(default);
    match ParseInt(value)
    case None => Failure(ValueError(BooleanMessage(description, value)))
    case Some(n) => Success(n != 0)
  }

  /**
   * `_input_boolean` is false exactly for a value reading as 0, true for
   * any other integer, and fails on anything else, quoting the value; an
   * unset variable gives the default's truth value, while a variable set to
   * the empty string fails.
   */
  lemma InputBooleanSpec(env: map<string, string>, name: string, description: string, default: nat)
    ensures var value := if name in env then env[name] else NatToString(default);
      && (InputBoolean(env, name, description, default) == Success(false) <==> ParseInt(value) == Some(0))
      && (InputBoolean(env, name, description, default) == Success(true) <==> ParseInt(value).Some? && ParseInt(value) != Some(0))
      && (InputBoolean(env, name, description, default).Failure? <==> ParseInt(value).None?)
      && (InputBoolean(env, name, description, default).Failure? ==>
            InputBoolean(env, name, description, default).error == ValueError(BooleanMessage(description, value)))
    ensures name !in env ==> InputBoolean(env, name, description, default) == Success(default != 0)
    ensures name in env && env[name] == "" ==> InputBoolean(env, name, description, default).Failure?
  {
    ParseNatToString(default);
  }

  /** Each part, stripped. */
  function StripAll(parts: seq<string>): (r: seq<string>)
    ensures |r| == |parts| && forall i :: 0 <= i < |parts| ==> r[i] == StripSpace(parts[i])
  {
    seq(|parts|, i requires 0 <= i < |parts| => StripSpace(parts[i]))
  }

  /** The items that are not empty, in order. */
  function NonEmpty(items: seq<string>): (r: seq<string>)
    ensures |r| <= |items|
  {
    if items == [] then []
    else
      var n := |items| - 1;
      NonEmpty(items[..n]) + (if items[n] != "" then [items[n]] else [])
  }

  /** Exactly the non-empty items are kept. */
  lemma {:induction false} NonEmptySpec(items: seq<string>, x: string)
    ensures x in NonEmpty(items) <==> x != "" && x in items
  {
    if items != [] {
      var n := |items| - 1;
      NonEmptySpec(items[..n], x);
      assert items == items[..n] + [items[n]];
    }
  }

  /** Filtering distributes over concatenation: order and repeats are kept. */
  lemma {:induction false} NonEmptyConcat(a: seq<string>, b: seq<string>)
    ensures NonEmpty(a + b) == NonEmpty(a) + NonEmpty(b)
    decreases |b|
  {
    if b == [] {
      assert a + b == a;
    } else {
      var n := |b| - 1;
      var ab := a + b;
      assert ab[..|ab| - 1] == a + b[..n];
      assert ab[|ab| - 1] == b[n];
      NonEmptyConcat(a, b[..n]);
    }
  }

  /** One item is kept exactly when it is not empty. */
  lemma NonEmptySingle(x: string)
    ensures NonEmpty([x]) == if x != "" then [x] else []
  {
    assert [x][..0] == [];
  }

  /** `_input_list`: the comma-separated parts of `_input`'s value, each stripped, blanks dropped. */
  function InputList(env: map<string, string>, ask: Answers, name: string, caption: string): Result<seq<string>, Error> {
    match Input(env, ask, name, caption, None)
    case None => Failure(AttributeError("split"))
    case Some(s) => Success(NonEmpty(StripAll(Split(s, ','))))
  }

  /**
   * The items of `_input_list` are the comma-separated parts of the input,
   * stripped, that are not empty, in their order and with their repeats
   * (`NonEmptyConcat`, `NonEmptySingle`): each is comma-free and has no surrounding
   * whitespace.  With no value at all (nothing in the environment and an
   * empty answer) it fails.
   */
  lemma InputListSpec(env: map<string, string>, ask: Answers, name: string, caption: string, x: string)
    ensures InputList(env, ask, name, caption).Failure? <==> Input(env, ask, name, caption, None).None?
    ensures InputList(env, ask, name, caption).Success? ==>
      var s := Input(env, ask, name, caption, None).value;
      && InputList(env, ask, name, caption).value == NonEmpty(StripAll(Split(s, ',')))
      && (x in InputList(env, ask, name, caption).value <==> x != "" && x in StripAll(Split(s, ',')))
      && (x in InputList(env, ask, name, caption).value ==> ',' !in x && StripSpace(x) == x)
  {
    if Input(env, ask, name, caption, None).Some? {
      CommaParts(Input(env, ask, name, caption, None).value, x);
    }
  }

  /** The kept comma parts of one string: non-blank, comma-free and trimmed. */
  lemma CommaParts(s: string, x: string)
    ensures x in NonEmpty(StripAll(Split(s, ','))) <==> x != "" && x in StripAll(Split(s, ','))
    ensures x in NonEmpty(StripAll(Split(s, ','))) ==> ',' !in x && StripSpace(x) == x
  {
    var parts := Split(s, ',');
    NonEmptySpec(StripAll(parts), x);
    if x in StripAll(parts) {
      var i :| 0 <= i < |parts| && StripAll(parts)[i] == x;
      SplitParts(s, ',');
      StripInside(parts[i], IsSpace, ',');
      StripSlice(parts[i], IsSpace);
      StripNoop(x, IsSpace);
    }
  }

  /** A stripped string holds only characters of the original. */
  lemma StripInside(s: string, p: char -> bool, c: char)
    requires c !in s
    ensures c !in Strip(s, p)
  {
    StripSlice(s, p);
    var k := LeadCount(s, p);
    var r := Strip(s, p);
    assert forall i :: 0 <= i < |r| ==> r[i] == s[k + i];
  }

  /**
   * The raw choice of `_input_with_options`: the stripped environment value
   * when not empty (case kept), otherwise the stripped, lower-cased answer,
   * which the default replaces when empty.
   */
  function Choice(options: seq<string>, env: map<string, string>, ask: Answers, name: string, caption: string, default: Option<string>): string {
    var fromEnv := StripSpace(Env(env, name).GetOr(""));
    var answer := if fromEnv != "" then fromEnv else Lower(StripSpace(ask(Choices(caption, options, default))));
    if Given(default) && answer == "" then default.value else answer
  }

  /** The message of `_input_with_options`' `ValueError`. */
  function OptionsMessage(caption: string, choice: string): string {
    "\U{274C} Invalid " + Lower(caption) + ": '" + choice + "'."
  }

  /** `_input_with_options`: the choice when it is one of the options, otherwise a `ValueError` quoting it. */
  function InputWithOptions(options: seq<string>, env: map<string, string>, ask: Answers, name: string, caption: string, default: Option<string>): Result<string, Error> {
    var choice := Choice(options, env, ask, name, caption, default);
    if choice in options then Success(choice) else Failure(ValueError(OptionsMessage(caption, choice)))
  }

  /**
   * `_input_with_options` accepts exactly the choices that are options, and
   * rejects any other choice with a message quoting it.
   */
  lemma InputWithOptionsSpec(options: seq<string>, env: map<string, string>, ask: Answers, name: string, caption: string, default: Option<string>)
    ensures var r := InputWithOptions(options, env, ask, name, caption, default);
      var choice := Choice(options, env, ask, name, caption, default);
      && (r.Success? <==> choice in options)
      && (r.Success? ==> r.value == choice)
      && (r.Failure? ==> r.error == ValueError(OptionsMessage(caption, choice)))
  {
  }

  /** The format step of `collect_inputs`. */
  function FormatInput(env: map<string, string>, ask: Answers): Result<string, Error> {
    InputWithOptions(ExportFormats, env, ask, "EXPORT_FORMAT", "Export format", Some("default"))
  }

  /** The provider step of `collect_inputs`. */
  function ProviderInput(env: map<string, string>, ask: Answers): Result<string, Error> {
    InputWithOptions(LlmProviders, env, ask, "LLM_PROVIDER", "LLM provider", Some("openai"))
  }

  /**
   * The environment value is stripped but not lower-cased: `" CSV "` set in
   * the environment is rejected, while the same answer at the prompt is
   * accepted as `"csv"`.
   */
  lemma OptionsCaseQuirk(ask: Answers)
    requires ask(Choices("Export format", ExportFormats, Some("default"))) == " CSV "
    ensures FormatInput(map["EXPORT_FORMAT" := " CSV "], ask).Failure?
    ensures FormatInput(map[], ask) == Success("csv")
  {
    assert StripSpace(" CSV ") == "CSV" by {
      assert DropLead(" CSV ", IsSpace) == "CSV ";
    }
    assert Lower("CSV") == "csv";
  }

  /**
   * The default of the export format is not one of the formats: with no
   * environment value and an empty answer, the step always fails.
   */
  lemma ExportFormatDefaultFails(env: map<string, string>, ask: Answers)
    requires StripSpace(Env(env, "EXPORT_FORMAT").GetOr("")) == ""
    requires StripSpace(ask(Choices("Export format", ExportFormats, Some("default")))) == ""
    ensures FormatInput(env, ask) == Failure(ValueError(OptionsMessage("Export format", "default")))
  {
    assert Lower("") == "";
    assert "default" != "csv" && "default" != "json";
  }

  // ---------------------------------------------------------------------
  // The settings

  /** The six export flags, by category. */
  datatype Flags = Flags(tc: Attr<bool>, tcSub: Attr<bool>, fa: Attr<bool>, faSub: Attr<bool>, pt: Attr<bool>, ptSub: Attr<bool>) {
    function Get(c: Category): Attr<bool> {
      match c
      case TC => tc
      case TCSub => tcSub
      case FA => fa
      case FASub => faSub
      case PT => pt
      case PTSub => ptSub
    }

    function With(c: Category, a: Attr<bool>): (f: Flags)
      ensures f.Get(c) == a && forall d :: d != c ==> f.Get(d) == Get(d)
    {
      match c
      case TC => this.(tc := a)
      case TCSub => this.(tcSub := a)
      case FA => this.(fa := a)
      case FASub => this.(faSub := a)
      case PT => this.(pt := a)
      case PTSub => this.(ptSub := a)
    }
  }

  /** The environment variable, the description and the default of each flag. */
  function FlagEnv(c: Category): string {
    match c
    case TC => "EXPORT_TECHNOLOGICAL_COMPONENT"
    case TCSub => "EXPORT_TECHNOLOGICAL_COMPONENT_SUBCATEGORY"
    case FA => "EXPORT_FUNCTIONAL_AREA"
    case FASub => "EXPORT_FUNCTIONAL_AREA_SUBCATEGORY"
    case PT => "EXPORT_PROBLEM_TYPE"
    case PTSub => "EXPORT_PROBLEM_TYPE_SUBCATEGORY"
  }

  function FlagDescription(c: Category): string {
    match c
    case TC => "Export technological component"
    case TCSub => "Export technological component subcategory"
    case FA => "Export functional area"
    case FASub => "Export functional area subcategory"
    case PT => "Export problem type"
    case PTSub => "Export problem type subcategory"
  }

  function FlagDefault(c: Category): nat {
    if c == FA then 1 else 0
  }

  /** The `_input_boolean` call of `collect_inputs` for one flag. */
  function FlagInput(env: map<string, string>, c: Category): Result<bool, Error> {
    InputBoolean(env, FlagEnv(c), FlagDescription(c), FlagDefault(c))
  }

  /** The attributes of the settings object. */
  datatype Values = Values(
    csvPath: Attr<string>, csvDelimiter: Attr<string>, csvQuotechar: Attr<string>,
    csvHeaderSubject: Attr<string>, csvHeaderChanged: Attr<string>, csvHeaderDescription: Attr<string>,
    exportFormat: Attr<string>, exportLanguage: Attr<string>, exportSubdirectory: Attr<string>,
    llmProvider: Attr<string>, flags: Flags)

  /** A freshly allocated object: no attribute assigned. */
  const Unset: Values := Values(Missing, Missing, Missing, Missing, Missing, Missing, Missing, Missing, Missing, Missing,
                               Flags(Missing, Missing, Missing, Missing, Missing, Missing))

  /** What `__init__` assigns on first construction: `None` everywhere except the CSV headers, which it does not assign. */
  function Reset(v: Values): Values {
    Values(Null, Null, Null, v.csvHeaderSubject, v.csvHeaderChanged, v.csvHeaderDescription,
           Null, Null, Null, Null, Flags(Null, Null, Null, Null, Null, Null))
  }

  /** `_input_boolean` as one reader of all the flags. */
  function FlagReader(env: map<string, string>): Category -> Result<bool, Error> {
    c => FlagInput(env, c)
  }

  /** The `_input_boolean` steps of `collect_inputs` from rank `k` on, reading with `read`; the first failure stops them. */
  function CollectFlags(f: Flags, read: Category -> Result<bool, Error>, k: nat): (Flags, Result<(), Error>)
    requires k <= CategoryCount
    decreases CategoryCount - k
  {
    if k == CategoryCount then (f, Success(()))
    else
      match read(CategoryAt(k))
      case Failure(e) => (f, Failure(e))
      case Success(b) => CollectFlags(f.With(CategoryAt(k), Set(b)), read, k + 1)
  }

  /** The six text steps of `collect_inputs`, which cannot fail. */
  function CollectText(v: Values, env: map<string, string>, ask: Answers): Values {
    v.(csvPath := FromOption(Input(env, ask, "CSV_DATA_PATH", "Output CSV path", None)),
       csvDelimiter := FromOption(Input(env, ask, "CSV_DELIMITER", "Output CSV field delimiter", Some(","))),
       csvQuotechar := FromOption(Input(env, ask, "CSV_QUOTECHAR", "Output CSV quote character", Some("\""))),
       csvHeaderSubject := FromOption(Input(env, ask, "CSV_HEADER_SUBJECT", "CSV header: subject", None)),
       csvHeaderChanged := FromOption(Input(env, ask, "CSV_HEADER_CHANGED", "CSV header: changed", None)),
       csvHeaderDescription := FromOption(Input(env, ask, "CSV_HEADER_DESCRIPTION", "CSV header: description", None)))
  }

  /** The two steps after the format, which cannot fail. */
  function CollectLocation(v: Values, env: map<string, string>, ask: Answers): Values {
    v.(exportLanguage := FromOption(Input(env, ask, "EXPORT_LANGUAGE", "Export language", Some("English"))),
       exportSubdirectory := FromOption(Input(env, ask, "EXPORT_SUBDIRECTORY", "Export subdirectory (relative to ./output path)", Some(""))))
  }

  /** The steps of `collect_inputs` from the format on, after the text steps gave `v`. */
  function CollectChoices(v: Values, env: map<string, string>, ask: Answers): (Values, Result<(), Error>) {
    match FormatInput(env, ask)
    case Failure(e) => (v, Failure(e))
    case Success(fmt) =>
      var v2 := CollectLocation(v.(exportFormat := Set(fmt)), env, ask);
      match ProviderInput(env, ask)
      case Failure(e) => (v2, Failure(e))
      case Success(p) =>
        var (f, r) := CollectFlags(v2.flags, FlagReader(env), 0);
        (v2.(llmProvider := Set(p), flags := f), r)
  }

  /**
   * `collect_inputs`: its steps in order, each attribute assigned as its
   * step completes; the first failing step raises, leaving the attributes
   * of the steps before it assigned and the rest untouched.
   */
  function Collected(v: Values, env: map<string, string>, ask: Answers): (Values, Result<(), Error>) {
    CollectChoices(CollectText(v, env, ask), env, ask)
  }

  /** With no flag left to read, the flag steps succeed and change nothing. */
  lemma CollectFlagsDone(f: Flags, read: Category -> Result<bool, Error>)
    ensures CollectFlags(f, read, CategoryCount) == (f, Success(()))
  {
  }

  /**
   * The flag steps from rank `k` on succeed exactly when every flag of that
   * rank or above reads; then each of those flags is assigned the value it
   * reads as, and the flags below `k` keep their values.
   */
  lemma {:induction false} CollectFlagsSpec(f: Flags, read: Category -> Result<bool, Error>, k: nat, c: Category)
    requires k <= CategoryCount
    ensures CollectFlags(f, read, k).1.Success? <==> forall d :: k <= Rank(d) ==> read(d).Success?
    ensures CollectFlags(f, read, k).1.Success? && Rank(c) < k ==> CollectFlags(f, read, k).0.Get(c) == f.Get(c)
    ensures CollectFlags(f, read, k).1.Success? && k <= Rank(c) ==>
      read(c).Success? && CollectFlags(f, read, k).0.Get(c) == Set(read(c).value)
    decreases CategoryCount - k
  {
    if k < CategoryCount {
      var d0 := CategoryAt(k);
      match read(d0)
      case Failure(e) =>
      case Success(b) =>
        CollectFlagsSpec(f.With(d0, Set(b)), read, k + 1, c);
        RankAt(c);
        if forall d :: k + 1 <= Rank(d) ==> read(d).Success? {
          forall d | k <= Rank(d)
            ensures read(d).Success?
          {
            RankAt(d);
          }
        }
    }
  }

  /**
   * After the choice steps succeed, the format and the provider are valid
   * options and every flag is assigned the value its variable gives.
   */
  lemma CollectChoicesValid(v: Values, env: map<string, string>, ask: Answers, c: Category)
    ensures var (w, r) := CollectChoices(v, env, ask);
      r.Success? ==>
        && w.exportFormat.Set? && w.exportFormat.value in ExportFormats
        && w.llmProvider.Set? && w.llmProvider.value in LlmProviders
        && FlagInput(env, c).Success? && w.flags.Get(c) == Set(FlagInput(env, c).value)
  {
    if FormatInput(env, ask).Success? && ProviderInput(env, ask).Success? {
      var v2 := CollectLocation(v.(exportFormat := Set(FormatInput(env, ask).value)), env, ask);
      CollectFlagsSpec(v2.flags, FlagReader(env), 0, c);
    }
  }

  /**
   * After `collect_inputs` succeeds, the format and the provider are valid
   * options and every flag is assigned the value its variable gives.
   */
  lemma CollectedValid(v: Values, env: map<string, string>, ask: Answers, c: Category)
    ensures var (w, r) := Collected(v, env, ask);
      r.Success? ==>
        && w.exportFormat.Set? && w.exportFormat.value in ExportFormats
        && w.llmProvider.Set? && w.llmProvider.value in LlmProviders
        && FlagInput(env, c).Success? && w.flags.Get(c) == Set(FlagInput(env, c).value)
  {
    CollectChoicesValid(CollectText(v, env, ask), env, ask, c);
  }

  /**
   * With no export format in the environment and an empty answer,
   * `collect_inputs` always fails at the format step: the text settings
   * before it are assigned and nothing after it is.
   */
  lemma CollectDefaultFormatFails(v: Values, env: map<string, string>, ask: Answers)
    requires StripSpace(Env(env, "EXPORT_FORMAT").GetOr("")) == ""
    requires StripSpace(ask(Choices("Export format", ExportFormats, Some("default")))) == ""
    ensures Collected(v, env, ask) == (CollectText(v, env, ask), Failure(ValueError(OptionsMessage("Export format", "default"))))
  {
    ExportFormatDefaultFails(env, ask);
  }

  /**
   * A getter that validates: `AttributeError` when the field was never
   * assigned, `ValueError` with the getter's message when it is `None` or
   * empty, and the value unchanged otherwise.
   */
  function Validated(a: Attr<string>, field: string, message: string): (r: Result<string, Error>)
    ensures r.Success? <==> a.Set? && a.value != ""
    ensures r.Success? ==> r.value == a.value
    ensures (a.Null? || a == Set("")) ==> r == Failure(ValueError(message))
    ensures a.Missing? ==> r == Failure(AttributeError(field))
  {
    match a
    case Missing => Failure(AttributeError(field))
    case Null => Failure(ValueError(message))
    case Set(s) => if s == "" then Failure(ValueError(message)) else Success(s)
  }

  /** A getter that does not validate: the value as assigned, `None` included. */
  function Plain(a: Attr<string>, field: string): (r: Result<Option<string>, Error>)
    ensures a.Missing? <==> r.Failure?
    ensures a.Missing? ==> r == Failure(AttributeError(field))
    ensures a.Null? ==> r == Success(None)
    ensures a.Set? ==> r == Success(Some(a.value))
  {
    match a
    case Missing => Failure(AttributeError(field))
    case Null => Success(None)
    case Set(s) => Success(Some(s))
  }

  /** Python truthiness of a flag: `None` (and, on a fresh object, no value at all) reads as false. */
  function Truthy(a: Attr<bool>): bool {
    a == Set(true)
  }

  class ConfigurationManager {
    /** `hasattr(self, "_initialized")`. */
    var initialized: bool
    /** The settings attributes. */
    var settings: Values

    /** `object.__new__`: an object with no attributes yet. */
    constructor()
      ensures !initialized && settings == Unset
    {
      initialized := false;
      settings := Unset;
    }

    /** `__init__`: reset the attributes, but only the first time. */
    method Init()
      modifies this
      ensures initialized
      ensures settings == if old(initialized) then old(settings) else Reset(old(settings))
    {
      if !initialized {
        settings := settings.(csvPath := Null, exportFormat := Null, llmProvider := Null);
        settings := settings.(flags := Flags(Null, Null, Null, Null, Null, Null));
        settings := settings.(csvDelimiter := Null, csvQuotechar := Null, exportLanguage := Null, exportSubdirectory := Null);
        initialized := true;
      }
    }

    /** `collect_inputs`, step by step. */
    method CollectInputs(env: map<string, string>, ask: Answers) returns (r: Result<(), Error>)
      modifies this
      ensures initialized == old(initialized)
      ensures (settings, r) == Collected(old(settings), env, ask)
    {
      settings := settings.(csvPath := FromOption(Input(env, ask, "CSV_DATA_PATH", "Output CSV path", None)));
      settings := settings.(csvDelimiter := FromOption(Input(env, ask, "CSV_DELIMITER", "Output CSV field delimiter", Some(","))));
      settings := settings.(csvQuotechar := FromOption(Input(env, ask, "CSV_QUOTECHAR", "Output CSV quote character", Some("\""))));
      settings := settings.(csvHeaderSubject := FromOption(Input(env, ask, "CSV_HEADER_SUBJECT", "CSV header: subject", None)));
      settings := settings.(csvHeaderChanged := FromOption(Input(env, ask, "CSV_HEADER_CHANGED", "CSV header: changed", None)));
      settings := settings.(csvHeaderDescription := FromOption(Input(env, ask, "CSV_HEADER_DESCRIPTION", "CSV header: description", None)));
      var fmt := FormatInput(env, ask);
      if fmt.Failure? {
        return Failure(fmt.error);
      }
      settings := settings.(exportFormat := Set(fmt.value));
      settings := settings.(exportLanguage := FromOption(Input(env, ask, "EXPORT_LANGUAGE", "Export language", Some("English"))));
      settings := settings.(exportSubdirectory := FromOption(Input(env, ask, "EXPORT_SUBDIRECTORY", "Export subdirectory (relative to ./output path)", Some(""))));
      var provider := ProviderInput(env, ask);
      if provider.Failure? {
        return Failure(provider.error);
      }
      settings := settings.(llmProvider := Set(provider.value));
      r := CollectFlagInputs(env);
    }

    /** The six `_input_boolean` steps of `collect_inputs`, two by two. */
    method CollectFlagInputs(env: map<string, string>) returns (r: Result<(), Error>)
      modifies this
      ensures settings == old(settings).(flags := CollectFlags(old(settings).flags, FlagReader(env), 0).0)
      ensures initialized == old(initialized)
      ensures r == CollectFlags(old(settings).flags, FlagReader(env), 0).1
    {
      ghost var f0 := settings.flags;
      r := CollectTechnologicalComponentFlags(env);
      if r.Failure? { return; }
      ghost var f2 := settings.flags;
      assert CollectFlags(f0, FlagReader(env), 0) == CollectFlags(f2, FlagReader(env), 2);
      r := CollectFunctionalAreaFlags(env);
      if r.Failure? { return; }
      assert CollectFlags(f2, FlagReader(env), 2) == CollectFlags(settings.flags, FlagReader(env), 4);
      r := CollectProblemTypeFlags(env);
    }

    /** The steps of the flag for the technological component and of its subcategory. */
    method CollectTechnologicalComponentFlags(env: map<string, string>) returns (r: Result<(), Error>)
      modifies this
      ensures settings == old(settings).(flags := settings.flags)
      ensures initialized == old(initialized)
      ensures CollectFlags(old(settings).flags, FlagReader(env), 0) ==
        if r.Failure? then (settings.flags, r) else CollectFlags(settings.flags, FlagReader(env), 2)
    {
      var b := FlagInput(env, TC);
      if b.Failure? { return Failure(b.error); }
      settings := settings.(flags := settings.flags.(tc := Set(b.value)));
      b := FlagInput(env, TCSub);
      if b.Failure? { return Failure(b.error); }
      settings := settings.(flags := settings.flags.(tcSub := Set(b.value)));
      r := Success(());
    }

    /** The steps of the flag for the functional area and of its subcategory. */
    method CollectFunctionalAreaFlags(env: map<string, string>) returns (r: Result<(), Error>)
      modifies this
      ensures settings == old(settings).(flags := settings.flags)
      ensures initialized == old(initialized)
      ensures CollectFlags(old(settings).flags, FlagReader(env), 2) ==
        if r.Failure? then (settings.flags, r) else CollectFlags(settings.flags, FlagReader(env), 4)
    {
      var b := FlagInput(env, FA);
      if b.Failure? { return Failure(b.error); }
      settings := settings.(flags := settings.flags.(fa := Set(b.value)));
      b := FlagInput(env, FASub);
      if b.Failure? { return Failure(b.error); }
      settings := settings.(flags := settings.flags.(faSub := Set(b.value)));
      r := Success(());
    }

    /** The steps of the flag for the problem type and of its subcategory. */
    method CollectProblemTypeFlags(env: map<string, string>) returns (r: Result<(), Error>)
      modifies this
      ensures settings == old(settings).(flags := settings.flags)
      ensures initialized == old(initialized)
      ensures CollectFlags(old(settings).flags, FlagReader(env), 4) == (settings.flags, r)
    {
      var b := FlagInput(env, PT);
      if b.Failure? { return Failure(b.error); }
      settings := settings.(flags := settings.flags.(pt := Set(b.value)));
      b := FlagInput(env, PTSub);
      if b.Failure? { return Failure(b.error); }
      settings := settings.(flags := settings.flags.(ptSub := Set(b.value)));
      r := Success(());
      CollectFlagsDone(settings.flags, FlagReader(env));
    }

    function GetCsvPath(): Result<string, Error>
      reads this
    {
      Validated(settings.csvPath, "csv_path", "\U{274C} The CSV repository path has not been configured.")
    }

    function GetCsvHeaderSubject(): Result<string, Error>
      reads this
    {
      Validated(settings.csvHeaderSubject, "csv_header_subject", "\U{274C} The CSV header for 'subject' has not been configured.")
    }

    function GetCsvHeaderChanged(): Result<string, Error>
      reads this
    {
      Validated(settings.csvHeaderChanged, "csv_header_changed", "\U{274C} The CSV header for 'changed' has not been configured.")
    }

    function GetCsvHeaderDescription(): Result<string, Error>
      reads this
    {
      Validated(settings.csvHeaderDescription, "csv_header_description", "\U{274C} The CSV header for 'description' has not been configured.")
    }

    function GetExportFormat(): Result<string, Error>
      reads this
    {
      Validated(settings.exportFormat, "export_format", "\U{274C} The export method has not been configured.")
    }

    function GetLlmProvider(): Result<string, Error>
      reads this
    {
      Validated(settings.llmProvider, "llm_provider", "\U{274C} The LLM provider has not been configured.")
    }

    function GetCsvDelimiter(): Result<Option<string>, Error>
      reads this
    {
      Plain(settings.csvDelimiter, "csv_delimiter")
    }

    function GetCsvQuotechar(): Result<Option<string>, Error>
      reads this
    {
      Plain(settings.csvQuotechar, "csv_quotechar")
    }

    function GetExportLanguage(): Result<Option<string>, Error>
      reads this
    {
      Plain(settings.exportLanguage, "export_language")
    }

    function GetExportSubdirectory(): Result<Option<string>, Error>
      reads this
    {
      Plain(settings.exportSubdirectory, "export_subdirectory")
    }

    /** The six flag getters, read for truth as `TotalSummarizer` does. */
    function ExportSelection(): Selection
      reads this
    {
      var f := settings.flags;
      Selection(Truthy(f.tc), Truthy(f.tcSub), Truthy(f.fa), Truthy(f.faSub), Truthy(f.pt), Truthy(f.ptSub))
    }
  }

  /** The class object itself, holding `_instance`. */
  class ConfigurationManagerClass {
    var instance: ConfigurationManager?

    ghost predicate Valid()
      reads this, instance
    {
      instance != null ==> instance.initialized
    }

    /** Before the first construction there is no instance. */
    constructor()
      ensures instance == null && Valid()
    {
      instance := null;
    }

    /**
     * `ConfigurationManager()`: `__new__` creates the instance only the first
     * time and then always returns it; `__init__` resets the fields only
     * on that first time.
     */
    method New() returns (m: ConfigurationManager)
      requires Valid()
      modifies this, instance
      ensures Valid() && instance == m && m.initialized
      ensures old(instance) != null ==> m == old(instance) && m.settings == old(m.settings)
      ensures old(instance) == null ==> fresh(m) && m.settings == Reset(Unset)
    {
      if instance == null {
        var fresh_ := new ConfigurationManager();
        instance := fresh_;
      }
      m := instance;
      m.Init();
    }
  }

  /** Two constructions give one object, and the second leaves its settings as they were. */
  method ConstructTwice(cls: ConfigurationManagerClass) returns (a: ConfigurationManager, b: ConfigurationManager)
    requires cls.Valid()
    modifies cls, cls.instance
    ensures a == b && cls.instance == b && b.initialized
    ensures old(cls.instance) == null ==> b.settings == Reset(Unset)
    ensures old(cls.instance) != null ==> b.settings == old(cls.instance.settings)
  {
    a := cls.New();
    b := cls.New();
  }
}
