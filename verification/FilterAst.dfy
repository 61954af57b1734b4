/** The typed request filter: what validation accepts, and that the SQL adapter
    never meets what it calls unreachable
    (src/filter_ast.rs:12-13, 94-287; src/db/requests/queries.rs:1153-1396). */
module FilterAst {
  import opened Json
  import opened LikePattern
  import Text

  const MAX_CONDITIONS := 12
  const MAX_TEXT_BYTES := 200

  datatype Column =
    | CreatedAt | KeyId | Model | Protocol | Status | ErrorCode | UpstreamAccountId | RouteId | DurationMs
    | CostMicros | KeyAlias | Principal | SessionAssociation | SessionId | ClientSessionId

  datatype Operator =
    | Equals | NotEquals | Contains | GreaterThan | GreaterThanOrEqual | LessThan | LessThanOrEqual | Between

  datatype FilterValue =
    | TextValue(s: string)
    | ModelValue(s: string)
    | ProtocolValue(s: string)
    | StatusValue(s: string)
    | UuidValue(u: string)
    | IntegerValue(n: int)
    | TimestampValue(n: int)
    | MoneyValue(n: int)

  datatype Condition = Condition(column: Column, operator: Operator, value: FilterValue, upper: Option<FilterValue>)

  datatype Reason =
    | TooMany | ValueKind | UpperMissing | UpperKind | UpperForbidden | OperatorForbidden | RangeReversed
    | BadText | BadTimestamp | BadStatus | BadAssociation

  datatype Verdict = Accepted | Rejected(reason: Reason)

  /** A call that returns, or one that reaches `unreachable!` or `expect`. */
  datatype Outcome<+T> = Returned(value: T) | Panicked

  // ----------------------------------------------------------------- accessors

  function FilterText(v: FilterValue): Outcome<string>
  {
    if v.TextValue? || v.ModelValue? || v.ProtocolValue? || v.StatusValue? then Returned(v.s) else Panicked
  }

  function FilterUuid(v: FilterValue): Outcome<string>
  {
    if v.UuidValue? then Returned(v.u) else Panicked
  }

  function FilterInteger(v: FilterValue): Outcome<int>
  {
    if v.IntegerValue? || v.TimestampValue? || v.MoneyValue? then Returned(v.n) else Panicked
  }

  // ---------------------------------------------------------------- validation

  predicate ExpectedKind(c: Column, v: FilterValue)
  {
    match c
    case CreatedAt => v.TimestampValue?
    case KeyId => v.UuidValue?
    case UpstreamAccountId => v.UuidValue?
    case RouteId => v.UuidValue?
    case Model => v.ModelValue?
    case Protocol => v.ProtocolValue?
    case Status => v.StatusValue?
    case DurationMs => v.IntegerValue?
    case CostMicros => v.MoneyValue?
    case _ => v.TextValue?
  }

  predicate AllowedOperator(c: Column, o: Operator)
  {
    match c
    case CreatedAt => !o.Contains?
    case DurationMs => !o.Contains?
    case CostMicros => !o.Contains?
    case Model => o.Equals? || o.NotEquals? || o.Contains?
    case ErrorCode => o.Equals? || o.NotEquals? || o.Contains?
    case KeyAlias => o.Equals? || o.NotEquals? || o.Contains?
    case Principal => o.Equals? || o.NotEquals? || o.Contains?
    case _ => o.Equals? || o.NotEquals?
  }

  /** `char::is_control`. */
  predicate Control(c: char)
  {
    c < ' ' || '\U{7f}' <= c <= '\U{9f}'
  }

  predicate BoundedText(s: string)
  {
    s != "" && Text.ByteLength(s) <= MAX_TEXT_BYTES && forall c | c in s :: !Control(c)
  }

  function ValidateValue(v: FilterValue): Verdict
  {
    if FilterText(v).Returned? && !BoundedText(v.s) then Rejected(BadText)
    else if v.TimestampValue? && v.n < 0 then Rejected(BadTimestamp)
    else Accepted
  }

  function UpperShape(c: Condition): Verdict
  {
    if c.operator.Between? then
      if c.upper.None? then Rejected(UpperMissing)
      else if !ExpectedKind(c.column, c.upper.value) then Rejected(UpperKind)
      else Accepted
    else if c.upper.Some? then Rejected(UpperForbidden)
    else Accepted
  }

  /** The range check; it converts both ends to integers. */
  function RangeOrder(c: Condition): Outcome<Verdict>
  {
    if !c.operator.Between? || c.upper.None? then Returned(Accepted)
    else
      var lower, upper := FilterInteger(c.value), FilterInteger(c.upper.value);
      if lower.Panicked? || upper.Panicked? then Panicked
      else if lower.value > upper.value then Returned(Rejected(RangeReversed))
      else Returned(Accepted)
  }

  function AssociationCheck(c: Condition): Outcome<Verdict>
  {
    if !c.column.SessionAssociation? then Returned(Accepted)
    else
      var text := FilterText(c.value);
      if text.Panicked? then Panicked
      else if text.value in {"confirmed", "unlinked"} then Returned(Accepted)
      else Returned(Rejected(BadAssociation))
  }

  /** The checks after the range check. */
  function ValidateValues(c: Condition): Outcome<Verdict>
  {
    if ValidateValue(c.value).Rejected? then Returned(ValidateValue(c.value))
    else if c.upper.Some? && ValidateValue(c.upper.value).Rejected? then Returned(ValidateValue(c.upper.value))
    else if c.value.StatusValue? && c.value.s !in {"success", "error", "pending"} then Returned(Rejected(BadStatus))
    else AssociationCheck(c)
  }

  function ValidateCondition(c: Condition): Outcome<Verdict>
  {
    if !ExpectedKind(c.column, c.value) then Returned(Rejected(ValueKind))
    else if UpperShape(c).Rejected? then Returned(UpperShape(c))
    else if !AllowedOperator(c.column, c.operator) then Returned(Rejected(OperatorForbidden))
    else if RangeOrder(c) == Returned(Accepted) then ValidateValues(c)
    else RangeOrder(c)
  }

  predicate Valid(c: Condition)
  {
    ValidateCondition(c) == Returned(Accepted)
  }

  /** No condition makes validation itself panic: the operator matrix is checked
      before a range is converted to integers. */
  lemma {:induction false} ValidationReturns(c: Condition)
    ensures ValidateCondition(c).Returned?
    ensures RangeOrder(c).Panicked? ==> ValidateCondition(c).value.Rejected?
  {
  }

  /** `TypedFilterAst::validate`: the verdict of the first condition that fails. */
  method Validate(conditions: seq<Condition>) returns (verdict: Verdict)
    ensures verdict.Accepted? <==> |conditions| <= MAX_CONDITIONS && forall c | c in conditions :: Valid(c)
    ensures |conditions| > MAX_CONDITIONS ==> verdict == Rejected(TooMany)
    ensures verdict.Rejected? && |conditions| <= MAX_CONDITIONS ==>
      exists i | 0 <= i < |conditions| ::
        ValidateCondition(conditions[i]) == Returned(verdict) && forall j | 0 <= j < i :: Valid(conditions[j])
  {
    if |conditions| > MAX_CONDITIONS { return Rejected(TooMany); }
    for i := 0 to |conditions|
      invariant forall j | 0 <= j < i :: Valid(conditions[j])
    {
      ValidationReturns(conditions[i]);
      verdict := ValidateCondition(conditions[i]).value;
      if verdict.Rejected? {
        assert conditions[i] in conditions && !Valid(conditions[i]);
        return;
      }
    }
    verdict := Accepted;
  }

  // ------------------------------------------------------------- SQL adaptation

  datatype Source = Native | Generation | Archive

  datatype Bind = BindText(s: string) | BindInteger(n: int)

  /** The predicate pushed for one condition. */
  datatype Sql =
    | Compare(operator: Operator, bind: Bind)
    | Like(pattern: string)
    | Range(lower: Bind, upper: Bind)
    | StatusIs(equal: bool, status: string)
    | Never

  function BoundText(s: Outcome<string>): Outcome<Bind>
  {
    if s.Panicked? then Panicked else Returned(BindText(s.value))
  }

  function BoundInteger(n: Outcome<int>): Outcome<Bind>
  {
    if n.Panicked? then Panicked else Returned(BindInteger(n.value))
  }

  function PushValue(v: FilterValue): Outcome<Bind>
  {
    match v
    case StatusValue(_) => Panicked
    case UuidValue(_) => BoundText(FilterUuid(v))
    case IntegerValue(_) => BoundInteger(FilterInteger(v))
    case TimestampValue(_) => BoundInteger(FilterInteger(v))
    case MoneyValue(_) => BoundInteger(FilterInteger(v))
    case _ => BoundText(FilterText(v))
  }

  function PushStatus(o: Operator, v: FilterValue): Outcome<Sql>
  {
    var status := FilterText(v);
    if status.Panicked? || !(o.Equals? || o.NotEquals?) then Panicked
    else if status.value !in {"success", "error", "pending"} then Panicked
    else Returned(StatusIs(o.Equals?, status.value))
  }

  function PushPredicate(c: Condition, toLowercase: string -> string): Outcome<Sql>
  {
    match c.operator
    case Contains =>
      var text := FilterText(c.value);
      if text.Panicked? then Panicked
      else Returned(Like(SearchPattern(toLowercase(Trim(text.value)))))
    case Between =>
      var lower := PushValue(c.value);
      if lower.Panicked? || c.upper.None? || PushValue(c.upper.value).Panicked? then Panicked
      else Returned(Range(lower.value, PushValue(c.upper.value).value))
    case _ =>
      var bind := PushValue(c.value);
      if bind.Panicked? then Panicked else Returned(Compare(c.operator, bind.value))
  }

  /** Archived rows have none of these columns. */
  predicate Absent(c: Column, source: Source)
  {
    source.Archive? && (c.UpstreamAccountId? || c.RouteId? || c.CostMicros?)
  }

  function Adapt(c: Condition, source: Source, toLowercase: string -> string): Outcome<Sql>
  {
    if c.column.Status? then PushStatus(c.operator, c.value)
    else if Absent(c.column, source) then Returned(Never)
    else PushPredicate(c, toLowercase)
  }

  predicate NumericColumn(c: Column)
  {
    c.CreatedAt? || c.DurationMs? || c.CostMicros?
  }

  predicate BindFits(c: Column, b: Bind)
  {
    b.BindInteger? <==> NumericColumn(c)
  }

  /** What the query may contain for a column. */
  predicate WellTyped(c: Column, sql: Sql)
  {
    match sql
    case Compare(o, b) => BindFits(c, b) && (!NumericColumn(c) ==> o.Equals? || o.NotEquals?)
    case Like(pattern) => !NumericColumn(c) && LikePattern.WellFormed(pattern)
    case Range(lower, upper) => NumericColumn(c) && lower.BindInteger? && upper.BindInteger? && lower.n <= upper.n
    case StatusIs(_, status) => c.Status? && status in {"success", "error", "pending"}
    case Never => true
  }

  lemma {:induction false} SearchAdapts(c: Condition, source: Source, toLowercase: string -> string)
    requires Valid(c) && c.operator.Contains?
    ensures FilterText(c.value) == Returned(c.value.s)
    ensures !NumericColumn(c.column)
    ensures Adapt(c, source, toLowercase) == Returned(Like(SearchPattern(toLowercase(Trim(c.value.s)))))
  {
    ValidShape(c);
  }

  lemma {:induction false} ValidShape(c: Condition)
    requires Valid(c)
    ensures ExpectedKind(c.column, c.value) && AllowedOperator(c.column, c.operator)
    ensures c.operator.Between? ==> c.upper.Some? && ExpectedKind(c.column, c.upper.value)
    ensures c.operator.Between? ==> FilterInteger(c.value).value <= FilterInteger(c.upper.value).value
    ensures c.column.Status? ==> c.value.s in {"success", "error", "pending"}
  {
    ValidationReturns(c);
  }

  lemma {:induction false} BindOfColumn(c: Column, v: FilterValue)
    requires ExpectedKind(c, v) && !c.Status?
    ensures PushValue(v).Returned? && BindFits(c, PushValue(v).value)
    ensures NumericColumn(c) ==> PushValue(v) == Returned(BindInteger(FilterInteger(v).value))
  {
  }

  /** Every accepted condition is adapted for every source without a panic, to a
      predicate of the column's own type, and a range is never empty. */
  lemma {:induction false} AdaptationIsTotal(c: Condition, source: Source, toLowercase: string -> string)
    requires Valid(c)
    ensures Adapt(c, source, toLowercase).Returned?
    ensures WellTyped(c.column, Adapt(c, source, toLowercase).value)
  {
    ValidShape(c);
    if c.operator.Contains? {
      SearchAdapts(c, source, toLowercase);
      PatternContains(toLowercase(Trim(c.value.s)), "");
    } else if !c.column.Status? {
      BindOfColumn(c.column, c.value);
      if c.operator.Between? { BindOfColumn(c.column, c.upper.value); }
    }
  }

  /** An accepted search finds exactly the texts that contain its trimmed,
      lower-cased input. */
  lemma {:induction false} SearchMeaning(c: Condition, source: Source, toLowercase: string -> string, text: string)
    requires Valid(c) && c.operator.Contains?
    ensures Adapt(c, source, toLowercase).Returned? && Adapt(c, source, toLowercase).value.Like?
    ensures LikeMatches(Adapt(c, source, toLowercase).value.pattern, text)
            <==> LikePattern.Contains(text, toLowercase(Trim(FilterText(c.value).value)))
  {
    SearchAdapts(c, source, toLowercase);
    PatternContains(toLowercase(Trim(c.value.s)), text);
  }

  // ------------------------------------------------------------- status filters

  /** SQL's three truth values; a row is selected by `Yes` only. */
  datatype Truth = Yes | No | Unknown

  function Known(b: bool): Truth
  {
    if b then Yes else No
  }

  function SqlNot(t: Truth): Truth
  {
    match t
    case Yes => No
    case No => Yes
    case Unknown => Unknown
  }

  function SqlOr(a: Truth, b: Truth): Truth
  {
    if a.Yes? || b.Yes? then Yes else if a.No? && b.No? then No else Unknown
  }

  function IsNull(code: Option<int>): Truth
  {
    Known(code.None?)
  }

  function InRange(code: Option<int>, low: int, high: int): Truth
  {
    if code.None? then Unknown else Known(low <= code.value <= high)
  }

  function AtLeast(code: Option<int>, low: int): Truth
  {
    if code.None? then Unknown else Known(code.value >= low)
  }

  function Below(code: Option<int>, high: int): Truth
  {
    if code.None? then Unknown else Known(code.value < high)
  }

  /** The expression pushed over a nullable status code. */
  function CodeExpression(equal: bool, status: string, code: Option<int>): Truth
    requires status in {"success", "error", "pending"}
  {
    if equal then
      if status == "success" then InRange(code, 200, 399)
      else if status == "error" then AtLeast(code, 400)
      else IsNull(code)
    else
      if status == "success" then SqlOr(IsNull(code), SqlNot(InRange(code, 200, 399)))
      else if status == "error" then SqlOr(IsNull(code), Below(code, 400))
      else SqlNot(IsNull(code))
  }

  /** For every row, also one whose status code is null, "is not" selects exactly
      what "is" leaves out; and no row has two statuses. */
  lemma {:induction false} StatusFiltersPartition(code: Option<int>, a: string, b: string)
    requires a in {"success", "error", "pending"} && b in {"success", "error", "pending"}
    ensures CodeExpression(false, a, code).Yes? <==> !CodeExpression(true, a, code).Yes?
    ensures CodeExpression(true, a, code).Yes? && CodeExpression(true, b, code).Yes? ==> a == b
    ensures (code.None? || code.value >= 200) <==>
      exists s :: s in {"success", "error", "pending"} && CodeExpression(true, s, code).Yes?
  {
    assert CodeExpression(true, "success", code).Yes? <==> code.Some? && 200 <= code.value <= 399;
    assert CodeExpression(true, "error", code).Yes? <==> code.Some? && code.value >= 400;
    assert CodeExpression(true, "pending", code).Yes? <==> code.None?;
  }
}
