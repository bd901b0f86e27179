/**
 * The error-report filter of the Sentry plugin: for a request whose
 * operation was resolved, every error whose code is not in
 * `NO_REPORT_ERRORS` is reported once, in order, tagged with the
 * operation kind, and given its path as a breadcrumb when it has one.
 */
module SentryPlugin {
  import opened Wrappers
  import opened ErrorHandler

  /** `NO_REPORT_ERRORS`: the user-facing codes, internal and Apollo, written with a duplicate. */
  const NoReportErrors: set<string> :=
    {BadUserInput, Forbidden, NotFound, Unauthenticated,
     BadRequest, BadUserInput, GraphqlParseFailed, GraphqlValidationFailed,
     OperationResolutionFailure, PersistedQueryNotFound, PersistedQueryNotSupported}

  datatype OperationType = Query | Mutation | Subscription

  /** The parts of the request context the plugin reads. */
  datatype RequestContext = RequestContext(operation: Option<OperationType>, errors: seq<GraphQLError>, query: Option<string>)

  /** One captured exception with its scope: the `kind` tag, the `query` extra and the path breadcrumb. */
  datatype Report = Report(error: GraphQLError, kind: OperationType, query: Option<string>, breadcrumb: Option<string>)

  /** The sink that receives the reports, in the order they are captured. */
  class Reporter {
    var reports: seq<Report>

    constructor ()
      ensures reports == []
    {
      reports := [];
    }
  }

  /** `err.extensions?.code?.toString()`: absent both for a missing and for a null or undefined code. */
  function CodeString(e: GraphQLError): (r: Option<string>)
    ensures r.None? <==> "code" !in e.extensions || e.extensions["code"].Nullish?
    ensures "code" in e.extensions && e.extensions["code"].Str? ==> r == Some(e.extensions["code"].s)
  {
    if "code" !in e.extensions then None
    else match e.extensions["code"]
      case Str(s) => Some(s)
      case Nullish => None
      case NonString(text) => Some(text)
  }

  /**
   * An error the loop passes over with `continue`: one that has a code, and
   * a user-facing one; an internal server error is never skipped.
   */
  predicate Skipped(e: GraphQLError)
    ensures Skipped(e) ==> "code" in e.extensions && !e.extensions["code"].Nullish?
    ensures Skipped(e) ==> CodeString(e) != Some(InternalServerErrorCode)
  {
    CodeString(e).Some? && CodeString(e).value in NoReportErrors
  }

  function DigitString(d: nat): (r: string)
    requires d < 10
    ensures |r| == 1 && '0' <= r[0] <= '9' && r[0] as int - '0' as int == d
  {
    ["0123456789"[d]]
  }

  /** A path index as JavaScript renders a number: its decimal digits. */
  function NatToString(n: nat): (r: string)
    ensures |r| > 0 && forall k :: 0 <= k < |r| ==> '0' <= r[k] <= '9'
    ensures n >= 10 ==> r[0] != '0'
  {
    if n < 10 then DigitString(n) else NatToString(n / 10) + DigitString(n % 10)
  }

  /** The number a string of decimal digits denotes. */
  function DigitsValue(s: string): nat
    requires forall k :: 0 <= k < |s| ==> '0' <= s[k] <= '9'
  {
    if |s| == 0 then 0 else 10 * DigitsValue(s[..|s| - 1]) + (s[|s| - 1] as int - '0' as int)
  }

  /** The decimal rendering of an index reads back as the same index. */
  lemma {:induction false} NatToStringRoundTrip(n: nat)
    ensures DigitsValue(NatToString(n)) == n
  {
    if n >= 10 {
      var r := NatToString(n);
      assert r[..|r| - 1] == NatToString(n / 10);
      NatToStringRoundTrip(n / 10);
    }
  }

  function SegmentString(s: PathSegment): string {
    match s
    case Field(name) => name
    case Index(i) => NatToString(i)
  }

  /** `path.join(' > ')`. */
  function JoinPath(path: Path): (r: string)
    ensures |path| == 1 ==> r == SegmentString(path[0])
    ensures |path| == 0 ==> r == ""
  {
    if |path| == 0 then ""
    else if |path| == 1 then SegmentString(path[0])
    else SegmentString(path[0]) + " > " + JoinPath(path[1..])
  }

  /**
   * `join(' > ')` puts the separator between the joined parts of any split
   * of a path, so the breadcrumb reads segment by segment.
   */
  lemma {:induction false} JoinPathAppend(p: Path, q: Path)
    requires |p| > 0 && |q| > 0
    ensures JoinPath(p + q) == JoinPath(p) + " > " + JoinPath(q)
    decreases |p|
  {
    assert (p + q)[0] == p[0];
    if |p| == 1 {
      assert (p + q)[1..] == q;
    } else {
      assert (p + q)[1..] == p[1..] + q;
      JoinPathAppend(p[1..], q);
    }
  }

  /** The report captured for one error. */
  function ReportOf(e: GraphQLError, kind: OperationType, query: Option<string>): (r: Report)
    ensures r.error == e && r.kind == kind && r.query == query
    ensures r.breadcrumb.Some? <==> e.path.Some?
    ensures e.path.Some? ==> r.breadcrumb.value == JoinPath(e.path.value)
  {
    Report(e, kind, query, if e.path.Some? then Some(JoinPath(e.path.value)) else None)
  }

  /** The errors the loop reports, in the order of `errors`. */
  function Selected(errors: seq<GraphQLError>): (r: seq<GraphQLError>)
    ensures |r| <= |errors|
    ensures forall e :: e in r <==> e in errors && !Skipped(e)
  {
    if |errors| == 0 then []
    else
      var last := errors[|errors| - 1];
      assert errors == errors[..|errors| - 1] + [last];
      Selected(errors[..|errors| - 1]) + (if Skipped(last) then [] else [last])
  }

  function ReportAll(errors: seq<GraphQLError>, kind: OperationType, query: Option<string>): (r: seq<Report>)
    ensures |r| == |errors|
    ensures forall j :: 0 <= j < |errors| ==> r[j] == ReportOf(errors[j], kind, query)
  {
    seq(|errors|, j requires 0 <= j < |errors| => ReportOf(errors[j], kind, query))
  }

  /** Everything `didEncounterErrors` reports for a request context. */
  function ReportsFor(ctx: RequestContext): (r: seq<Report>)
    ensures ctx.operation.None? ==> r == []
    ensures ctx.operation.Some? ==> |r| == |Selected(ctx.errors)|
    ensures forall j :: 0 <= j < |r| ==>
              r[j] == ReportOf(Selected(ctx.errors)[j], ctx.operation.value, ctx.query)
  {
    if ctx.operation.None? then [] else ReportAll(Selected(ctx.errors), ctx.operation.value, ctx.query)
  }

  /** `didEncounterErrors`: one pass over the errors, appending a report for each one not skipped. */
  method DidEncounterErrors(ctx: RequestContext, reporter: Reporter)
    modifies reporter
    ensures reporter.reports == old(reporter.reports) + ReportsFor(ctx)
  {
    if ctx.operation.None? {
      return;
    }
    var kind := ctx.operation.value;
    for i := 0 to |ctx.errors|
      invariant reporter.reports == old(reporter.reports) + ReportAll(Selected(ctx.errors[..i]), kind, ctx.query)
    {
      var err := ctx.errors[i];
      assert ctx.errors[..i + 1][..i] == ctx.errors[..i];
      if Skipped(err) {
        continue;
      }
      reporter.reports := reporter.reports + [ReportOf(err, kind, ctx.query)];
    }
    assert ctx.errors[..|ctx.errors|] == ctx.errors;
  }

  /** Selection distributes over concatenation: it keeps the order of the errors. */
  lemma {:induction false} SelectedAppend(a: seq<GraphQLError>, b: seq<GraphQLError>)
    ensures Selected(a + b) == Selected(a) + Selected(b)
    decreases |b|
  {
    if |b| == 0 {
      assert a + b == a;
    } else {
      var last := b[|b| - 1];
      var tail := if Skipped(last) then [] else [last];
      assert (a + b)[..|a + b| - 1] == a + b[..|b| - 1];
      assert (a + b)[|a + b| - 1] == last;
      assert Selected(a + b) == Selected(a + b[..|b| - 1]) + tail;
      assert Selected(b) == Selected(b[..|b| - 1]) + tail;
      SelectedAppend(a, b[..|b| - 1]);
    }
  }

  /** Each error that is not skipped is reported exactly as often as it occurs; a skipped one never. */
  lemma {:induction false} SelectedCounts(errors: seq<GraphQLError>, e: GraphQLError)
    ensures multiset(Selected(errors))[e] == if Skipped(e) then 0 else multiset(errors)[e]
  {
    if |errors| > 0 {
      var last := errors[|errors| - 1];
      assert errors == errors[..|errors| - 1] + [last];
      SelectedCounts(errors[..|errors| - 1], e);
    }
  }

  /**
   * An error whose code is `INTERNAL_SERVER_ERROR`, or which has no code,
   * is reported when the operation is known.
   */
  lemma UnguardedErrorsAreReported(ctx: RequestContext, e: GraphQLError)
    requires ctx.operation.Some? && e in ctx.errors
    requires CodeString(e) == Some(InternalServerErrorCode) || CodeString(e) == None
    ensures exists j :: 0 <= j < |ReportsFor(ctx)| && ReportsFor(ctx)[j].error == e
  {
    var sel := Selected(ctx.errors);
    assert e in sel;
    var j :| 0 <= j < |sel| && sel[j] == e;
    assert ReportsFor(ctx)[j].error == e;
  }

  /**
   * The codes left unreported are exactly the unmasked codes other than
   * `INTERNAL_SERVER_ERROR`: of the internal codes, only that one is
   * reported.
   */
  lemma NoReportErrorsAreUnmaskedCodes()
    ensures NoReportErrors == GatewayUnmaskedErrors - {InternalServerErrorCode}
    ensures forall c :: c in PocketErrorCodes ==> (c in NoReportErrors <==> c != InternalServerErrorCode)
  {
    UnmaskedCodes();
  }
}
