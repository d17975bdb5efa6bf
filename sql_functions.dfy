/** store/sqlite3/sql_functions.go: SQLite renderings of query-language functions. A read-only
    registry maps lower-case references to handlers that check their arity and wrap the single
    argument in a fixed template; a second, case-insensitive dispatch rewrites parsed function
    calls into formatted nodes. */
module SqliteFunctions {
  import opened Wrappers
  import opened Ints
  import Strs

  /** `rdbms.FormattedASTArgs`: an argument's rendered SQL and its bound values (kept as text). */
  datatype FormattedArgs = FormattedArgs(s: string, args: seq<string>)

  /** What a registry handler returns: `out`, `args` and `err`. */
  datatype Rendered = Rendered(out: string, args: seq<string>, err: Option<string>)

  /** What `sqlASTFormatter` returns: `ok`, `out`, `args` and `err`. */
  datatype Formatted = Formatted(ok: bool, out: string, args: seq<string>, err: Option<string>)

  datatype Handler = Now | Quarter | Year | Date

  /** `sqlExprRegistry`. */
  const SqlExprRegistry: map<string, Handler> :=
    map["now" := Now, "quarter" := Quarter, "year" := Year, "date" := Date]

  function Arity(h: Handler): nat {
    if h == Now then 0 else 1
  }

  /** The text before and after the argument in a one-argument handler's output. */
  function TemplatePrefix(h: Handler): string {
    match h
    case Now => "DATE('now')"
    case Quarter => "(CAST(STRFTIME('%m', "
    case Year => "STRFTIME('%Y', "
    case Date => "STRFTIME('%Y-%m-%dT00:00:00Z', "
  }

  function TemplateSuffix(h: Handler): string {
    match h
    case Now => ""
    case Quarter => ") AS INTEGER) + 2) / 3"
    case Year => ")"
    case Date => ")"
  }

  /** `fmt.Errorf("expecting %d arguments, got %d", ...)`. */
  function ArityError(want: nat, got: nat): string {
    "expecting " + DecimalString(want) + " arguments, got " + DecimalString(got)
  }

  /** A registry handler: an arity error with empty output, or the template around `aa[0].S`
      with `aa[0].Args` passed through (`now` takes no argument and binds nothing). */
  function Render(h: Handler, aa: seq<FormattedArgs>): (r: Rendered)
    ensures r.err.None? <==> |aa| == Arity(h)
    ensures r.err.Some? ==> r.out == "" && r.args == [] && r.err.value == ArityError(Arity(h), |aa|)
    ensures r.err.None? && h == Now ==> r.out == "DATE('now')" && r.args == []
    ensures r.err.None? && h != Now ==>
      r.out == TemplatePrefix(h) + aa[0].s + TemplateSuffix(h) && r.args == aa[0].args
  {
    if |aa| != Arity(h) then
      Rendered("", [], Some(ArityError(Arity(h), |aa|)))
    else if h == Now then
      Rendered("DATE('now')", [], None)
    else
      Rendered(TemplatePrefix(h) + aa[0].s + TemplateSuffix(h), aa[0].args, None)
  }

  /** `sqlASTFormatter`: an unknown reference is not handled (`ok` false, nothing rendered, no
      error); a known one is handled (`ok` true), whatever its handler returns. */
  function FormatAST(ref: string, aa: seq<FormattedArgs>): (r: Formatted)
    ensures ref !in SqlExprRegistry ==> r == Formatted(false, "", [], None)
    ensures ref in SqlExprRegistry ==> r.ok && Rendered(r.out, r.args, r.err) == Render(SqlExprRegistry[ref], aa)
  {
    if ref !in SqlExprRegistry then Formatted(false, "", [], None)
    else
      var rendered := Render(SqlExprRegistry[ref], aa);
      Formatted(true, rendered.out, rendered.args, rendered.err)
  }

  /** The arity error names the number of arguments received, which can be read back from
      its last digits. */
  lemma ArityErrorReportsCount(want: nat, got: nat)
    ensures Strs.HasSuffix(ArityError(want, got), DecimalString(got))
    ensures var e := ArityError(want, got);
            var t := e[|e| - |DecimalString(got)|..];
            AllDigits(t) && DecimalValue(t) == got
  {
    var e := ArityError(want, got);
    var d := DecimalString(got);
    assert e == ("expecting " + DecimalString(want) + " arguments, got ") + d;
    assert e[|e| - |d|..] == d;
    DecimalRoundTrip(got);
  }

  /** A successful one-argument rendering starts with the template and ends with its closing
      text, with the argument's SQL in between. */
  lemma RenderWrapsArgument(h: Handler, a: FormattedArgs)
    requires h != Now
    ensures var r := Render(h, [a]);
            r.err.None? && Strs.HasPrefix(r.out, TemplatePrefix(h)) && Strs.HasSuffix(r.out, TemplateSuffix(h)) &&
            r.out[|TemplatePrefix(h)|..|r.out| - |TemplateSuffix(h)|] == a.s
  {
    var r := Render(h, [a]);
    assert r.out == TemplatePrefix(h) + a.s + TemplateSuffix(h);
  }

  /** A parsed query-language node: a function call, or a node formatted from a template. */
  datatype QlNode =
    | Function(name: string, arguments: seq<QlNode>)
    | FormattedNode(format: string, args: seq<QlNode>)
    | Ident(value: string)

  /** How `sqlFunctionHandler`'s `switch` classifies an upper-cased function name. */
  datatype FunctionKind = QuarterFn | YearFn | NowFn | DateFormatFn | DateFn | Unsupported | Other

  function Classify(upper: string): FunctionKind {
    if upper == "QUARTER" then QuarterFn
    else if upper == "YEAR" then YearFn
    else if upper == "NOW" then NowFn
    else if upper == "DATE_FORMAT" then DateFormatFn
    else if upper == "DATE" then DateFn
    else if upper == "DATE_ADD" || upper == "DATE_SUB" || upper == "STD" then Unsupported
    else Other
  }

  /** The `switch`'s cases, by name. */
  lemma ClassifiedNames()
    ensures Classify("QUARTER") == QuarterFn && Classify("YEAR") == YearFn && Classify("NOW") == NowFn
    ensures Classify("DATE_FORMAT") == DateFormatFn && Classify("DATE") == DateFn
    ensures Classify("DATE_ADD") == Unsupported && Classify("DATE_SUB") == Unsupported && Classify("STD") == Unsupported
  {
  }

  /** Go's `%q` for a name consisting of printable characters without quotes or backslashes. */
  function Quote(s: string): string {
    "\"" + s + "\""
  }

  /** The templates of the formatted nodes, with `fmt`'s `%%` for a literal `%`. */
  const QuarterFormat := "(CAST(STRFTIME('%%m', %s) AS INTEGER) + 2) / 3"
  const YearFormat := "STRFTIME('%%Y', %s)"
  const NowFormat := "DATE('now')"
  const DateFormatFormat := "STRFTIME('%s', %s)"
  const DateFormat := "STRFTIME('%%Y-%%m-%%dT00:00:00Z', %s)"

  const DateFormatArityMessage := "expecting exactly two arguments for DATE_FORMAT function"
  const UnsupportedMessage := " function is currently unsupported in SQLite store backend"

  /** `sqlFunctionHandler`: rewrites a known function (matched case-insensitively) into a
      formatted node over the same arguments, refuses the unsupported ones, and keeps any other
      function as it is. */
  function FunctionHandler(f: QlNode): (r: Result<QlNode>)
    requires f.Function?
    ensures Classify(Strs.ToUpper(f.name)) == Other ==> r == Success(f)
    ensures Classify(Strs.ToUpper(f.name)) == Unsupported ==> r == Failure(Quote(f.name) + UnsupportedMessage)
    ensures Classify(Strs.ToUpper(f.name)) == DateFormatFn ==> (r.Success? <==> |f.arguments| == 2)
    ensures Classify(Strs.ToUpper(f.name)) in {QuarterFn, YearFn, NowFn, DateFn} ==>
      r.Success? && r.value.FormattedNode? && r.value.args == f.arguments
  {
    match Classify(Strs.ToUpper(f.name))
    case QuarterFn => Success(FormattedNode(QuarterFormat, f.arguments))
    case YearFn => Success(FormattedNode(YearFormat, f.arguments))
    case NowFn => Success(FormattedNode(NowFormat, f.arguments))
    case DateFormatFn =>
      if |f.arguments| != 2 then Failure(DateFormatArityMessage)
      else Success(FormattedNode(DateFormatFormat, [f.arguments[0], f.arguments[1]]))
    case DateFn => Success(FormattedNode(DateFormat, f.arguments))
    case Unsupported => Failure(Quote(f.name) + UnsupportedMessage)
    case Other => Success(f)
  }

  /** Two spellings of a function name that differ only in letter case are handled alike,
      except that an "unsupported" error quotes the name as written. */
  lemma HandlerIgnoresCase(n1: string, n2: string, args: seq<QlNode>)
    requires Strs.ToUpper(n1) == Strs.ToUpper(n2) && Classify(Strs.ToUpper(n1)) !in {Unsupported, Other}
    ensures FunctionHandler(Function(n1, args)) == FunctionHandler(Function(n2, args))
  {
  }

  /** The registry's lower-case references, upper-cased, are names the function handler
      translates. */
  lemma UpperCaseOfRegistryNames()
    ensures Classify(Strs.ToUpper("now")) == NowFn && Classify(Strs.ToUpper("quarter")) == QuarterFn
    ensures Classify(Strs.ToUpper("year")) == YearFn && Classify(Strs.ToUpper("date")) == DateFn
  {
    ClassifiedNames();
    UpperOf("now", "NOW");
    UpperOf("year", "YEAR");
    UpperOf("date", "DATE");
    UpperOf("quarter", "QUARTER");
  }

  /** Go's upper-casing is Unicode-aware: long s upper-cases to `S`, so these spellings are
      refused as unsupported. */
  lemma LongSSpellingsUnsupported()
    ensures Classify(Strs.ToUpper("\U{17f}td")) == Unsupported
    ensures Classify(Strs.ToUpper("date_\U{17f}ub")) == Unsupported
  {
    ClassifiedNames();
    UpperOf("\U{17f}td", "STD");
    UpperOf("date_\U{17f}ub", "DATE_SUB");
  }

  lemma UpperOf(s: string, t: string)
    requires |s| == |t| && forall i :: 0 <= i < |s| ==> Strs.UpperChar(s[i]) == t[i]
    ensures Strs.ToUpper(s) == t
  {
  }
}
