/** Which rows an accepted condition selects, told from the condition and the row's own
    value (src/db/requests/queries.rs:1250-1396). */
module FilterMeaning {
  import opened FilterAst
  import opened Json
  import opened LikePattern
  import Text

  /** What a row holds in the column of a condition. */
  datatype Cell = NullCell | TextCell(text: string) | NumberCell(n: int)

  // ------------------------------------------------------------------ SQL's answer

  function CompareNumbers(o: Operator, a: int, b: int): Truth
  {
    match o
    case Equals => Known(a == b)
    case NotEquals => Known(a != b)
    case GreaterThan => Known(a > b)
    case GreaterThanOrEqual => Known(a >= b)
    case LessThan => Known(a < b)
    case LessThanOrEqual => Known(a <= b)
    case _ => Unknown
  }

  /** A text column is only compared for equality. */
  function CompareTexts(o: Operator, a: string, b: string): Truth
  {
    match o
    case Equals => Known(a == b)
    case NotEquals => Known(a != b)
    case _ => Unknown
  }

  /** The expression pushed over a job's own status. */
  function JobExpression(equal: bool, status: string, job: string): Truth
  {
    var named :=
      if status == "success" then job == "succeeded"
      else if status == "error" then job == "failed" || job == "cancelled"
      else job == "preparing" || job == "queued" || job == "submitting" || job == "running" || job == "cancelling";
    Known(named == equal)
  }

  /** SQL's answer for one row; `lower` is its LOWER. */
  function Answer(sql: Sql, source: Source, cell: Cell, lower: string -> string): Truth
  {
    match sql
    case Never => No
    case StatusIs(equal, status) =>
      if status !in {"success", "error", "pending"} then Unknown
      else (match cell
            case NullCell => if source.Generation? then Unknown else CodeExpression(equal, status, None)
            case NumberCell(code) => CodeExpression(equal, status, Some(code))
            case TextCell(job) => JobExpression(equal, status, job))
    case Compare(o, bind) =>
      (match cell
       case NullCell => Unknown
       case NumberCell(n) => if bind.BindInteger? then CompareNumbers(o, n, bind.n) else Unknown
       case TextCell(t) => if bind.BindText? then CompareTexts(o, t, bind.s) else Unknown)
    case Like(pattern) => if cell.TextCell? then Known(LikeMatches(pattern, lower(cell.text))) else Unknown
    case Range(low, high) =>
      if cell.NumberCell? && low.BindInteger? && high.BindInteger? then Known(low.n <= cell.n <= high.n) else Unknown
  }

  // ------------------------------------------------------------ what was asked for

  /** The text of the value, if it is one. */
  function AskedText(v: FilterValue): string
  {
    match v
    case TextValue(s) => s
    case ModelValue(s) => s
    case ProtocolValue(s) => s
    case StatusValue(s) => s
    case UuidValue(u) => u
    case _ => ""
  }

  function AskedNumber(v: FilterValue): int
  {
    match v
    case IntegerValue(n) => n
    case TimestampValue(n) => n
    case MoneyValue(n) => n
    case _ => 0
  }

  /** A request has the named status: by its code, or a job by its own status. */
  predicate HasStatus(cell: Cell, status: string)
  {
    match cell
    case NullCell => status == "pending"
    case NumberCell(code) =>
      (status == "success" && 200 <= code < 400) || (status == "error" && 400 <= code)
    case TextCell(job) =>
      || (status == "success" && job == "succeeded")
      || (status == "error" && job in {"failed", "cancelled"})
      || (status == "pending" && job in {"preparing", "queued", "submitting", "running", "cancelling"})
  }

  /** The row's value is as asked. */
  predicate AsAsked(c: Condition, cell: Cell, toLowercase: string -> string, lower: string -> string)
  {
    match c.operator
    case Equals => cell == NumberCell(AskedNumber(c.value)) || cell == TextCell(AskedText(c.value))
    case NotEquals => cell != NumberCell(AskedNumber(c.value)) && cell != TextCell(AskedText(c.value))
    case Contains => cell.TextCell? && LikePattern.Contains(lower(cell.text), toLowercase(Trim(AskedText(c.value))))
    case GreaterThan => cell.NumberCell? && AskedNumber(c.value) < cell.n
    case GreaterThanOrEqual => cell.NumberCell? && AskedNumber(c.value) <= cell.n
    case LessThan => cell.NumberCell? && cell.n < AskedNumber(c.value)
    case LessThanOrEqual => cell.NumberCell? && cell.n <= AskedNumber(c.value)
    case Between =>
      cell.NumberCell? && c.upper.Some? && AskedNumber(c.value) <= cell.n <= AskedNumber(c.upper.value)
  }

  /** The row is one the condition asks for. A missing value is never as asked, and an
      archived row misses its account, its route and its cost. */
  predicate Meant(c: Condition, source: Source, cell: Cell, toLowercase: string -> string, lower: string -> string)
  {
    if c.column == Status then HasStatus(cell, AskedText(c.value)) == (c.operator == Equals)
    else
      && !(source.Archive? && (c.column == UpstreamAccountId || c.column == RouteId || c.column == CostMicros))
      && cell != NullCell && AsAsked(c, cell, toLowercase, lower)
  }

  /** A column holds values of its own type; a job always has a status. */
  predicate Holds(c: Column, source: Source, cell: Cell)
  {
    if c == Status then (if source.Generation? then cell.TextCell? else !cell.TextCell?)
    else if c == CreatedAt || c == DurationMs || c == CostMicros then !cell.TextCell?
    else !cell.NumberCell?
  }

  lemma {:induction false} StatusAnswer(equal: bool, status: string, source: Source, cell: Cell,
                                        lower: string -> string)
    requires status in {"success", "error", "pending"} && Holds(Status, source, cell)
    ensures Answer(StatusIs(equal, status), source, cell, lower).Yes? <==> HasStatus(cell, status) == equal
  {
    if status == "success" {
    } else if status == "error" {
    } else {
      assert status == "pending";
    }
  }

  lemma {:induction false} StatusSelects(c: Condition, source: Source, cell: Cell, toLowercase: string -> string,
                                         lower: string -> string)
    requires Valid(c) && c.column == Status && Holds(Status, source, cell)
    ensures Adapt(c, source, toLowercase).Returned?
    ensures Answer(Adapt(c, source, toLowercase).value, source, cell, lower).Yes?
            <==> Meant(c, source, cell, toLowercase, lower)
  {
    ValidShape(c);
    StatusAnswer(c.operator.Equals?, c.value.s, source, cell, lower);
  }

  lemma {:induction false} NumberSelects(c: Condition, source: Source, cell: Cell, toLowercase: string -> string,
                                         lower: string -> string)
    requires Valid(c) && NumericColumn(c.column) && Holds(c.column, source, cell)
    ensures Adapt(c, source, toLowercase).Returned?
    ensures Answer(Adapt(c, source, toLowercase).value, source, cell, lower).Yes?
            <==> Meant(c, source, cell, toLowercase, lower)
  {
    ValidShape(c);
    BindOfColumn(c.column, c.value);
    if c.operator.Between? { BindOfColumn(c.column, c.upper.value); }
  }

  lemma {:induction false} SearchSelects(c: Condition, source: Source, cell: Cell, toLowercase: string -> string,
                                         lower: string -> string)
    requires Valid(c) && c.operator.Contains? && Holds(c.column, source, cell)
    ensures Adapt(c, source, toLowercase).Returned?
    ensures Answer(Adapt(c, source, toLowercase).value, source, cell, lower).Yes?
            <==> Meant(c, source, cell, toLowercase, lower)
  {
    ValidShape(c);
    SearchAdapts(c, source, toLowercase);
    if cell.TextCell? { PatternContains(toLowercase(Trim(c.value.s)), lower(cell.text)); }
  }

  lemma {:induction false} TextBind(c: Condition)
    requires Valid(c) && !NumericColumn(c.column) && c.column != Status && !c.operator.Contains?
    ensures c.operator.Equals? || c.operator.NotEquals?
    ensures PushValue(c.value) == Returned(BindText(AskedText(c.value)))
    ensures c.column != CreatedAt && c.column != DurationMs && c.column != CostMicros
  {
    ValidShape(c);
    BindOfColumn(c.column, c.value);
  }

  lemma {:induction false} TextSelects(c: Condition, source: Source, cell: Cell, toLowercase: string -> string,
                                       lower: string -> string)
    requires Valid(c) && !NumericColumn(c.column) && c.column != Status && !c.operator.Contains?
    requires Holds(c.column, source, cell)
    ensures Adapt(c, source, toLowercase).Returned?
    ensures Answer(Adapt(c, source, toLowercase).value, source, cell, lower).Yes?
            <==> Meant(c, source, cell, toLowercase, lower)
  {
    TextBind(c);
  }

  /** An accepted condition selects exactly the rows it asks for, from every source. */
  lemma {:induction false} SelectsExactly(c: Condition, source: Source, cell: Cell, toLowercase: string -> string,
                                          lower: string -> string)
    requires Valid(c) && Holds(c.column, source, cell)
    ensures Adapt(c, source, toLowercase).Returned?
    ensures Answer(Adapt(c, source, toLowercase).value, source, cell, lower).Yes?
            <==> Meant(c, source, cell, toLowercase, lower)
  {
    ValidShape(c);
    if c.column == Status { StatusSelects(c, source, cell, toLowercase, lower); }
    else if c.operator.Contains? { SearchSelects(c, source, cell, toLowercase, lower); }
    else if NumericColumn(c.column) { NumberSelects(c, source, cell, toLowercase, lower); }
    else { TextSelects(c, source, cell, toLowercase, lower); }
  }

  // ------------------------------------------------------------- what is accepted

  /** One to two hundred bytes without control characters. */
  predicate Plain(s: string)
  {
    0 < |s| && Text.ByteLength(s) <= 200
    && forall i | 0 <= i < |s| :: '\U{20}' <= s[i] && !('\U{7f}' <= s[i] <= '\U{9f}')
  }

  predicate Named(c: Column, s: string)
  {
    && (c == Status ==> s == "success" || s == "error" || s == "pending")
    && (c == SessionAssociation ==> s == "confirmed" || s == "unlinked")
  }

  /** The value is of the kind the column is asked for, and in its bounds. */
  predicate Suits(c: Column, v: FilterValue)
  {
    match v
    case TimestampValue(n) => c == CreatedAt && n >= 0
    case IntegerValue(_) => c == DurationMs
    case MoneyValue(_) => c == CostMicros
    case UuidValue(_) => c == KeyId || c == UpstreamAccountId || c == RouteId
    case ModelValue(s) => c == Model && Plain(s)
    case ProtocolValue(s) => c == Protocol && Plain(s)
    case StatusValue(s) => c == Status && Plain(s) && Named(c, s)
    case TextValue(s) =>
      && (c == ErrorCode || c == KeyAlias || c == Principal || c == SessionId || c == ClientSessionId
          || c == SessionAssociation)
      && Plain(s) && Named(c, s)
  }

  /** What a column may be asked. */
  predicate Answerable(c: Column, o: Operator)
  {
    if o == Equals || o == NotEquals then true
    else if o == Contains then c == Model || c == ErrorCode || c == KeyAlias || c == Principal
    else c == CreatedAt || c == DurationMs || c == CostMicros
  }

  lemma {:induction false} PlainIs(s: string)
    ensures BoundedText(s) <==> Plain(s)
  {
    assert forall i | 0 <= i < |s| :: s[i] in s;
    if Plain(s) {
      forall c | c in s ensures !Control(c) {
        var i :| 0 <= i < |s| && s[i] == c;
      }
    }
  }

  lemma {:induction false} SuitsIs(c: Column, v: FilterValue)
    ensures Suits(c, v) <==>
      ExpectedKind(c, v) && ValidateValue(v).Accepted? && (FilterText(v).Returned? ==> Named(c, v.s))
  {
    if FilterText(v).Returned? { PlainIs(v.s); }
  }

  lemma {:induction false} AnswerableIs(c: Column, o: Operator)
    ensures Answerable(c, o) <==> AllowedOperator(c, o)
  {
  }

  /** The checks without a range. */
  lemma {:induction false} AcceptedAlone(c: Condition)
    requires c.operator != Between
    ensures Valid(c) <==>
      c.upper.None? && ExpectedKind(c.column, c.value) && AllowedOperator(c.column, c.operator)
      && ValidateValue(c.value).Accepted? && (FilterText(c.value).Returned? ==> Named(c.column, c.value.s))
  {
  }

  lemma {:induction false} AcceptedRange(c: Condition)
    requires c.operator == Between
    ensures Valid(c) <==>
      && ExpectedKind(c.column, c.value) && AllowedOperator(c.column, c.operator) && ValidateValue(c.value).Accepted?
      && c.upper.Some? && ExpectedKind(c.column, c.upper.value) && ValidateValue(c.upper.value).Accepted?
      && AskedNumber(c.value) <= AskedNumber(c.upper.value)
  {
  }

  /** A condition is accepted exactly when its value suits the column, the column may be
      asked so, and it has a second, not smaller value exactly for a range. */
  lemma {:induction false} AcceptedExactly(c: Condition)
    ensures Valid(c) <==>
      && Suits(c.column, c.value) && Answerable(c.column, c.operator)
      && (c.operator == Between <==> c.upper.Some?)
      && (c.upper.Some? ==>
            Suits(c.column, c.upper.value) && AskedNumber(c.value) <= AskedNumber(c.upper.value))
  {
    SuitsIs(c.column, c.value);
    AnswerableIs(c.column, c.operator);
    if c.operator == Between {
      AcceptedRange(c);
      if c.upper.Some? { SuitsIs(c.column, c.upper.value); }
    } else {
      AcceptedAlone(c);
    }
  }
}
