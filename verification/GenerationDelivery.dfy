/** One generation job between its durable row and any number of workers that
    may crash, lose their lease or be cancelled at any await
    (src/generation.rs:209-285, 386-437, 567-594, 707-760;
    src/db/generation/jobs.rs:1004-1037, 1235-1311, 1410-1450;
    src/db/generation/jobs/finish.rs:405-452; src/db/generation/reconcile.rs:205-213). */
module GenerationDelivery {
  import opened Json

  datatype Status = Queued | Submitting | Running | Cancelling | Succeeded | Failed | Cancelled

  type Worker = nat

  /** The durable row. `armed` is the error code `shutdown_delivery_unknown`. */
  datatype Row = Row(
    status: Status, nonce: Option<nat>, armed: bool, upstreamId: Option<nat>,
    owner: Option<Worker>, leaseExpires: Option<int>, nextAttempt: int, failures: nat)

  const LEASE_MILLIS := 60_000
  const MAX_FAILURES := 20

  predicate Active(s: Status)
  {
    s in {Queued, Running, Submitting, Cancelling}
  }

  predicate LeaseOver(r: Row, now: int)
  {
    r.leaseExpires.None? || r.leaseExpires.value < now
  }

  function Release(r: Row): Row
  {
    r.(owner := None, leaseExpires := None)
  }

  // ------------------------------------------------------- the SQL statements
  // Each is the row after the UPDATE, or nothing when no row matched.

  function ClaimRow(r: Row, w: Worker, now: int): Option<Row>
  {
    if Active(r.status) && !r.armed && r.nextAttempt <= now && LeaseOver(r, now)
    then Some(r.(owner := Some(w), leaseExpires := Some(now + LEASE_MILLIS))) else None
  }

  function MarkSubmittingRow(r: Row, w: Worker, nonce: nat): Option<Row>
  {
    if r.owner == Some(w) && r.status == Queued && r.upstreamId.None?
    then Some(r.(status := Submitting, nonce := Some(nonce))) else None
  }

  function ArmRow(r: Row, w: Worker, nonce: nat, now: int): Option<Row>
  {
    if r.owner == Some(w) && r.status == Submitting && r.nonce == Some(nonce) && r.upstreamId.None?
       && r.leaseExpires.Some? && r.leaseExpires.value >= now
    then Some(r.(armed := true)) else None
  }

  function SubmittedRow(r: Row, w: Worker, nonce: nat, id: nat, now: int): Option<Row>
  {
    if r.owner == Some(w) && r.status == Submitting && r.nonce == Some(nonce)
    then Some(Release(r).(status := Running, upstreamId := Some(id), nonce := None, failures := 0, armed := false,
                          nextAttempt := now + 2_000))
    else None
  }

  function RetainRow(r: Row, w: Worker): Option<Row>
  {
    if r.owner == Some(w) && r.status == Submitting && r.upstreamId.None? && r.armed then Some(Release(r)) else None
  }

  function RescheduleRow(r: Row, w: Worker, delay: int, failed: bool, now: int): Option<Row>
  {
    if r.owner == Some(w) && !r.armed
    then Some(Release(r).(nextAttempt := now + (if delay < 500 then 500 else delay),
                          failures := if failed then r.failures + 1 else 0))
    else None
  }

  function RenewRow(r: Row, w: Worker, now: int): Option<Row>
  {
    if r.owner == Some(w) && Active(r.status) then Some(r.(leaseExpires := Some(now + LEASE_MILLIS))) else None
  }

  /** The job half of a settlement; the error code is overwritten. */
  function FinishRow(r: Row, w: Worker, status: Status): Option<Row>
  {
    if r.owner == Some(w) && Active(r.status) && status in {Succeeded, Failed, Cancelled}
    then Some(Release(r).(status := status, armed := false)) else None
  }

  function UserCancelRow(r: Row, now: int): Option<Row>
  {
    if r.status == Running then Some(Release(r).(status := Cancelling, armed := false, nextAttempt := now))
    else if r.status == Queued && LeaseOver(r, now) then Some(Release(r).(status := Cancelled, armed := false))
    else None
  }

  /** An operator presents proof that the provider has the task. */
  function ReconcileRow(r: Row, id: nat, now: int): Option<Row>
  {
    if r.status == Submitting && r.armed && r.upstreamId.None? && r.nonce.Some? && LeaseOver(r, now)
    then Some(Release(r).(status := Running, upstreamId := Some(id), nonce := None, failures := 0, armed := false,
                          nextAttempt := now))
    else None
  }

  /** `1_000 * 2^min(failures, 6)`, at most a minute. */
  function RetryDelay(failures: nat): (d: int)
    ensures 1_000 <= d <= 60_000
  {
    if failures == 0 then 1_000
    else if failures >= 6 then 60_000
    else
      var d := 2 * RetryDelay(failures - 1);
      if d > 60_000 then 60_000 else d
  }

  // ------------------------------------------------------------------ workers

  /** Where a worker's attempt stands. `job` is the row as it was claimed. */
  datatype Attempt =
    | Claimed(job: Row)
    | Marked(job: Row, n: nat)            // holds a nonce, has not armed
    | Ready(job: Row, n: nat)             // armed, about to send
    | Sent(job: Row, n: nat)              // the POST is on its way
    | Acknowledged(job: Row, n: nat, id: nat)
    | Rejected(job: Row)                  // the provider refused the request
    | Polling(job: Row)
    | GivingUp(job: Row)                  // timeout or unknown outcome, decided before any send
    | Erred(job: Row)                     // the attempt returned an error
    | Retrying(job: Row)                  // not quarantined: the generic branch

  /** The single UPDATE statements, each with the clock it was sent with. */
  datatype Statement =
    | MarkSubmitting(w: Worker, nonce: nat)
    | ArmGuard(w: Worker, nonce: nat, at: int)
    | MarkSubmitted(w: Worker, nonce: nat, id: nat, at: int)
    | RetainUnknown(w: Worker)
    | Reschedule(w: Worker, delay: int, failed: bool, at: int)
    | Renew(w: Worker, at: int)

  function Execute(r: Row, q: Statement): Option<Row>
  {
    match q
    case MarkSubmitting(w, nonce) => MarkSubmittingRow(r, w, nonce)
    case ArmGuard(w, nonce, at) => ArmRow(r, w, nonce, at)
    case MarkSubmitted(w, nonce, id, at) => SubmittedRow(r, w, nonce, id, at)
    case RetainUnknown(w) => RetainRow(r, w)
    case Reschedule(w, delay, failed, at) => RescheduleRow(r, w, delay, failed, at)
    case Renew(w, at) => RenewRow(r, w, at)
  }

  /** `pending` holds the statements whose answer nobody waits for any more and which
      the database may execute yet. The last three record what happened: nonces put on
      the row, guards armed and POSTs sent, each with its nonce. */
  datatype State = State(
    row: Row, now: int, attempts: map<Worker, Attempt>, idempotent: bool, pending: set<Statement>,
    granted: seq<nat>, arms: seq<nat>, posts: seq<nat>)

  datatype Event =
    | Claim(w: Worker)
    | GiveUp(w: Worker)
    | Mark(w: Worker, nonce: nat)
    | Reuse(w: Worker)
    | Arm(w: Worker)
    | Send(w: Worker)
    | Ack(w: Worker, id: nat)
    | Refuse(w: Worker)
    | RecordAck(w: Worker)
    | StartPoll(w: Worker)
    | PollAgain(w: Worker)
    | Settle(w: Worker, outcome: Status)
    | Fail(w: Worker)              // any error inside the attempt
    | Abandon(q: Statement)        // its worker stops waiting for a statement on its way
    | Late(q: Statement)           // the database executes an abandoned statement
    | LostCommit(w: Worker, outcome: Status)  // a settlement whose commit was not answered
    | Quarantine(w: Worker)        // retain_generation_delivery_unknown
    | Generic(w: Worker)           // reschedule or exhaust
    | Heartbeat(w: Worker)
    | Crash(w: Worker)
    | UserCancel
    | Reconcile(id: nat)
    | Tick(millis: nat)

  predicate At(s: State, w: Worker)
  {
    w in s.attempts
  }

  predicate Settles(s: State, w: Worker, outcome: Status)
  {
    && At(s, w) && outcome in {Succeeded, Failed, Cancelled}
    && (s.attempts[w].Polling? || ((s.attempts[w].Rejected? || s.attempts[w].GivingUp?) && outcome == Failed))
  }

  /** A worker may be waiting for this statement. */
  predicate Issues(s: State, q: Statement)
  {
    && At(s, q.w)
    && var a := s.attempts[q.w];
       match q
       case MarkSubmitting(_, _) => a.Claimed? && a.job.status == Queued
       case ArmGuard(_, nonce, at) => a.Marked? && nonce == a.n && at == s.now
       case MarkSubmitted(_, nonce, id, at) => a.Acknowledged? && nonce == a.n && id == a.id && at == s.now
       case RetainUnknown(_) => a.Erred?
       case Reschedule(_, delay, failed, at) =>
         && at == s.now
         && ((a.Polling? && delay == 2_000 && !failed) || (a.Retrying? && GenericDelay(a.job) == Some(delay) && failed))
       case Renew(_, at) => at == s.now
  }

  predicate Enabled(s: State, e: Event)
  {
    match e
    case Claim(w) => w !in s.attempts && ClaimRow(s.row, w, s.now).Some?
    case GiveUp(w) =>
      At(s, w) && s.attempts[w].Claimed? && s.attempts[w].job.status != Cancelling
    case Mark(w, _) =>
      At(s, w) && s.attempts[w].Claimed? && s.attempts[w].job.status == Queued
    case Reuse(w) =>
      At(s, w) && s.attempts[w].Claimed? && s.attempts[w].job.status == Submitting
      && s.attempts[w].job.upstreamId.None? && s.idempotent && s.attempts[w].job.nonce.Some?
    case Arm(w) => At(s, w) && s.attempts[w].Marked?
    case Send(w) => At(s, w) && s.attempts[w].Ready?
    case Ack(w, _) => At(s, w) && s.attempts[w].Sent?
    case Refuse(w) => At(s, w) && s.attempts[w].Sent?
    case RecordAck(w) => At(s, w) && s.attempts[w].Acknowledged?
    case StartPoll(w) =>
      At(s, w) && s.attempts[w].Claimed? && s.attempts[w].job.upstreamId.Some?
    case PollAgain(w) => At(s, w) && s.attempts[w].Polling?
    case Settle(w, outcome) => Settles(s, w, outcome)
    case Fail(w) => At(s, w) && !s.attempts[w].Erred? && !s.attempts[w].Retrying?
    case Abandon(q) => Issues(s, q)
    case Late(q) => q in s.pending
    case LostCommit(w, outcome) => Settles(s, w, outcome) && FinishRow(s.row, w, outcome).Some?
    case Quarantine(w) => At(s, w) && s.attempts[w].Erred?
    case Generic(w) => At(s, w) && s.attempts[w].Retrying?
    case Heartbeat(w) => At(s, w)
    case Crash(w) => At(s, w)
    case UserCancel => UserCancelRow(s.row, s.now).Some?
    case Reconcile(id) => ReconcileRow(s.row, id, s.now).Some?
    case Tick(_) => true
  }

  function MoveTo(s: State, w: Worker, a: Attempt): State
  {
    s.(attempts := s.attempts[w := a])
  }

  function Drop(s: State, w: Worker): State
  {
    s.(attempts := s.attempts - {w})
  }

  /** The guards armed so far: one that is set again is the same guard. */
  function Armed(s: State, n: nat): seq<nat>
  {
    if s.row.armed then s.arms else s.arms + [n]
  }

  /** A statement of the attempt itself fails the attempt; the worker's tail and its
      heartbeat give the job up. */
  predicate EndsInError(a: Attempt, q: Statement)
  {
    q.MarkSubmitting? || q.ArmGuard? || q.MarkSubmitted? || (q.Reschedule? && a.Polling?)
  }

  /** What a statement does that nobody waits for. */
  function Executed(s: State, q: Statement): State
  {
    var r := Execute(s.row, q);
    if r.None? then s
    else match q
      case MarkSubmitting(_, nonce) => s.(row := r.value, granted := s.granted + [nonce])
      case ArmGuard(_, nonce, _) => s.(row := r.value, arms := Armed(s, nonce))
      case _ => s.(row := r.value)
  }

  /** A statement inside the attempt: on a match the worker moves on, otherwise
      the attempt ends in an error. */
  function Next(s: State, e: Event): State
    requires Enabled(s, e)
  {
    match e
    case Claim(w) =>
      var row := ClaimRow(s.row, w, s.now).value;
      MoveTo(s, w, Claimed(row)).(row := row)
    case GiveUp(w) => MoveTo(s, w, GivingUp(s.attempts[w].job))
    case Mark(w, nonce) =>
      var r := MarkSubmittingRow(s.row, w, nonce);
      if r.Some?
      then MoveTo(s, w, Marked(s.attempts[w].job, nonce)).(row := r.value, granted := s.granted + [nonce])
      else MoveTo(s, w, Erred(s.attempts[w].job))
    case Reuse(w) => MoveTo(s, w, Marked(s.attempts[w].job, s.attempts[w].job.nonce.value))
    case Arm(w) =>
      var n := s.attempts[w].n;
      var r := ArmRow(s.row, w, n, s.now);
      if r.Some? then MoveTo(s, w, Ready(s.attempts[w].job, n)).(row := r.value, arms := Armed(s, n))
      else MoveTo(s, w, Erred(s.attempts[w].job))
    case Send(w) =>
      MoveTo(s, w, Sent(s.attempts[w].job, s.attempts[w].n)).(posts := s.posts + [s.attempts[w].n])
    case Ack(w, id) => MoveTo(s, w, Acknowledged(s.attempts[w].job, s.attempts[w].n, id))
    case Refuse(w) => MoveTo(s, w, Rejected(s.attempts[w].job))
    case RecordAck(w) =>
      var r := SubmittedRow(s.row, w, s.attempts[w].n, s.attempts[w].id, s.now);
      if r.Some? then Drop(s, w).(row := r.value) else MoveTo(s, w, Erred(s.attempts[w].job))
    case StartPoll(w) => MoveTo(s, w, Polling(s.attempts[w].job))
    case PollAgain(w) =>
      var r := RescheduleRow(s.row, w, 2_000, false, s.now);
      if r.Some? then Drop(s, w).(row := r.value) else MoveTo(s, w, Erred(s.attempts[w].job))
    case Settle(w, outcome) =>
      var r := FinishRow(s.row, w, outcome);
      if r.Some? then Drop(s, w).(row := r.value) else MoveTo(s, w, Erred(s.attempts[w].job))
    case Fail(w) => MoveTo(s, w, Erred(s.attempts[w].job))
    case Abandon(q) =>
      var waiting := s.(pending := s.pending + {q});
      if EndsInError(s.attempts[q.w], q) then MoveTo(waiting, q.w, Erred(s.attempts[q.w].job)) else Drop(waiting, q.w)
    case Late(q) => Executed(s.(pending := s.pending - {q}), q)
    case LostCommit(w, outcome) =>
      MoveTo(s, w, Erred(s.attempts[w].job)).(row := FinishRow(s.row, w, outcome).value)
    case Quarantine(w) =>
      var r := RetainRow(s.row, w);
      if r.Some? then Drop(s, w).(row := r.value) else MoveTo(s, w, Retrying(s.attempts[w].job))
    case Generic(w) =>
      var r := GenericRow(s, w);
      Drop(s, w).(row := if r.Some? then r.value else s.row)
    case Heartbeat(w) =>
      var r := RenewRow(s.row, w, s.now);
      if r.Some? then s.(row := r.value) else Drop(s, w)
    case Crash(w) => Drop(s, w)
    case UserCancel => s.(row := UserCancelRow(s.row, s.now).value)
    case Reconcile(id) => s.(row := ReconcileRow(s.row, id, s.now).value)
    case Tick(millis) => s.(now := s.now + millis)
  }

  /** The delay of a retry, unless the job is given up. */
  function GenericDelay(job: Row): Option<int>
  {
    if job.status == Cancelling || job.failures + 1 < MAX_FAILURES then Some(RetryDelay(job.failures + 1)) else None
  }

  /** The branch after an error that is not quarantined: a cancelling job is
      always retried, another is given up on after twenty failures. */
  function GenericRow(s: State, w: Worker): Option<Row>
    requires w in s.attempts && s.attempts[w].Retrying?
  {
    GenericUpdate(s.row, w, s.attempts[w].job, s.now)
  }

  function GenericUpdate(r: Row, w: Worker, job: Row, now: int): Option<Row>
  {
    var delay := GenericDelay(job);
    if delay.None? then FinishRow(r, w, Failed) else RescheduleRow(r, w, delay.value, true, now)
  }

  // ---------------------------------------------------------------- invariant

  /** Attempts that may own the lease of an armed row. */
  predicate PastArming(a: Attempt)
  {
    a.Ready? || a.Sent? || a.Acknowledged? || a.Rejected? || a.Erred?
  }

  ghost predicate RowInv(s: State)
  {
    && (s.row.armed ==> s.row.status == Submitting)
    && (s.row.status == Submitting ==> s.row.upstreamId.None? && s.row.nonce.Some?)
    && (s.row.status == Queued ==> s.row.nonce.None? && s.row.upstreamId.None? && s.granted == [] && s.arms == [])
    && (s.row.nonce.Some? ==> s.granted == [s.row.nonce.value])
  }

  predicate NoneReady(s: State)
  {
    forall w | w in s.attempts :: !s.attempts[w].Ready?
  }

  /** One guard at most is ever armed, it carries the one nonce, and the row
      stays armed from then on until the submission is over. While an armed row is
      owned by an attempt that did not arm it, no POST has left or can leave. */
  ghost predicate ArmInv(s: State)
  {
    && |s.granted| <= 1
    && (s.arms == [] || s.arms == s.granted)
    && (s.arms != [] ==> s.row.armed || s.row.status !in {Queued, Submitting})
    && (s.row.armed ==> s.arms != [])
    && (forall w | w in s.attempts && s.row.armed && s.row.owner == Some(w) && !PastArming(s.attempts[w]) ::
          s.posts == [] && NoneReady(s))
  }

  /** Each armed guard is good for one send. */
  ghost predicate PostInv(s: State)
  {
    && (s.posts == [] || s.posts == s.arms)
    && (forall w | w in s.attempts && s.attempts[w].Ready? :: s.posts == [] && s.arms == [s.attempts[w].n])
    && (forall w, v | w in s.attempts && v in s.attempts && s.attempts[w].Ready? && s.attempts[v].Ready? :: w == v)
  }

  ghost predicate Inv(s: State)
  {
    RowInv(s) && ArmInv(s) && PostInv(s)
  }

  ghost predicate Fresh(s: State)
  {
    && s.row.status == Queued && s.row.nonce.None? && !s.row.armed && s.row.upstreamId.None?
    && s.attempts == map[] && s.pending == {} && s.granted == [] && s.arms == [] && s.posts == []
  }

  /** Dropping an attempt, or ending it in an error, is always safe. */
  lemma {:induction false} DropKeeps(s: State, w: Worker, job: Row)
    requires Inv(s)
    ensures Inv(Drop(s, w)) && Inv(MoveTo(s, w, Erred(job)))
  {
  }

  lemma {:induction false} ClaimKeeps(s: State, w: Worker)
    requires Inv(s) && Enabled(s, Claim(w))
    ensures Inv(Next(s, Claim(w)))
  {
  }

  lemma {:induction false} DecisionKeeps(s: State, e: Event)
    requires Inv(s) && Enabled(s, e) && (e.GiveUp? || e.Reuse? || e.StartPoll? || e.Ack? || e.Refuse?)
    ensures Inv(Next(s, e))
  {
  }

  lemma {:induction false} MarkKeeps(s: State, w: Worker, nonce: nat)
    requires Inv(s) && Enabled(s, Mark(w, nonce))
    ensures Inv(Next(s, Mark(w, nonce)))
  {
    DropKeeps(s, w, s.attempts[w].job);
  }

  lemma {:induction false} ArmKeeps(s: State, w: Worker)
    requires Inv(s) && Enabled(s, Arm(w))
    ensures Inv(Next(s, Arm(w)))
  {
    DropKeeps(s, w, s.attempts[w].job);
    if ArmRow(s.row, w, s.attempts[w].n, s.now).Some? { Arming(s, w, s.attempts[w].n); }
  }

  /** The guard is set, or was by a late statement; either way nobody has sent. */
  lemma {:induction false} Arming(s: State, w: Worker, n: nat)
    requires Inv(s) && At(s, w) && s.attempts[w].Marked? && ArmRow(s.row, w, n, s.now).Some?
    ensures Armed(s, n) == [n] == s.granted && s.posts == [] && NoneReady(s)
  {
    if !s.row.armed {
      assert s.arms == [];
      assert [] + [n] == [n];
    }
  }

  lemma {:induction false} SendKeeps(s: State, w: Worker)
    requires Inv(s) && Enabled(s, Send(w))
    ensures Inv(Next(s, Send(w)))
  {
    assert [] + s.arms == s.arms;
  }

  lemma {:induction false} SettleKeeps(s: State, e: Event)
    requires Inv(s) && Enabled(s, e) && (e.RecordAck? || e.Settle?)
    ensures Inv(Next(s, e))
  {
    var w := e.w;
    DropKeeps(s, w, s.attempts[w].job);
  }

  lemma {:induction false} PollAgainKeeps(s: State, w: Worker)
    requires Inv(s) && Enabled(s, PollAgain(w))
    ensures Inv(Next(s, PollAgain(w)))
  {
    DropKeeps(s, w, s.attempts[w].job);
  }

  lemma {:induction false} QuarantineKeeps(s: State, w: Worker)
    requires Inv(s) && Enabled(s, Quarantine(w))
    ensures Inv(Next(s, Quarantine(w)))
  {
    DropKeeps(s, w, s.attempts[w].job);
  }

  lemma {:induction false} GenericKeeps(s: State, w: Worker)
    requires Inv(s) && Enabled(s, Generic(w))
    ensures Inv(Next(s, Generic(w)))
  {
    DropKeeps(s, w, s.attempts[w].job);
  }

  lemma {:induction false} LeaseKeeps(s: State, e: Event)
    requires Inv(s) && Enabled(s, e) && (e.Heartbeat? || e.Tick?)
    ensures Inv(Next(s, e))
  {
  }

  lemma {:induction false} LossKeeps(s: State, e: Event)
    requires Inv(s) && Enabled(s, e) && (e.Crash? || e.Fail?)
    ensures Inv(Next(s, e))
  {
  }

  lemma {:induction false} OutsideKeeps(s: State, e: Event)
    requires Inv(s) && Enabled(s, e) && (e.UserCancel? || e.Reconcile?)
    ensures Inv(Next(s, e))
  {
  }

  lemma {:induction false} AbandonKeeps(s: State, q: Statement)
    requires Inv(s) && Enabled(s, Abandon(q))
    ensures Inv(Next(s, Abandon(q)))
  {
    DropKeeps(s.(pending := s.pending + {q}), q.w, s.attempts[q.w].job);
  }

  lemma {:induction false} LateKeeps(s: State, q: Statement)
    requires Inv(s)
    ensures Inv(Executed(s, q))
  {
    if q.ArmGuard? && Execute(s.row, q).Some? && !s.row.armed {
      assert s.arms == [];
      assert [] + [q.nonce] == [q.nonce];
    }
  }

  lemma {:induction false} LostCommitKeeps(s: State, w: Worker, outcome: Status)
    requires Inv(s) && Enabled(s, LostCommit(w, outcome))
    ensures Inv(Next(s, LostCommit(w, outcome)))
  {
    SettleKeeps(s, Settle(w, outcome));
    DropKeeps(Next(s, Settle(w, outcome)), w, s.attempts[w].job);
  }

  lemma {:induction false} StepKeeps(s: State, e: Event)
    requires Inv(s) && Enabled(s, e)
    ensures Inv(Next(s, e))
  {
    match e
    case Claim(w) => ClaimKeeps(s, w);
    case Mark(w, nonce) => MarkKeeps(s, w, nonce);
    case Arm(w) => ArmKeeps(s, w);
    case Send(w) => SendKeeps(s, w);
    case RecordAck(w) => SettleKeeps(s, e);
    case Settle(w, _) => SettleKeeps(s, e);
    case PollAgain(w) => PollAgainKeeps(s, w);
    case Quarantine(w) => QuarantineKeeps(s, w);
    case Generic(w) => GenericKeeps(s, w);
    case Abandon(q) => AbandonKeeps(s, q);
    case Late(q) => LateKeeps(s.(pending := s.pending - {q}), q);
    case LostCommit(w, outcome) => LostCommitKeeps(s, w, outcome);
    case GiveUp(w) => DecisionKeeps(s, e);
    case Reuse(w) => DecisionKeeps(s, e);
    case StartPoll(w) => DecisionKeeps(s, e);
    case Ack(w, _) => DecisionKeeps(s, e);
    case Refuse(w) => DecisionKeeps(s, e);
    case UserCancel => OutsideKeeps(s, e);
    case Reconcile(_) => OutsideKeeps(s, e);
    case Crash(_) => LossKeeps(s, e);
    case Fail(_) => LossKeeps(s, e);
    case _ => LeaseKeeps(s, e);
  }

  // --------------------------------------------------------------- whole runs

  predicate CanRun(s: State, events: seq<Event>)
    decreases |events|
  {
    events == [] || (Enabled(s, events[0]) && CanRun(Next(s, events[0]), events[1..]))
  }

  function Run(s: State, events: seq<Event>): State
    requires CanRun(s, events)
    decreases |events|
  {
    if events == [] then s else Run(Next(s, events[0]), events[1..])
  }

  lemma {:induction false} RunKeeps(s: State, events: seq<Event>)
    requires CanRun(s, events) && Inv(s)
    ensures Inv(Run(s, events))
    decreases |events|
  {
    if events != [] {
      StepKeeps(s, events[0]);
      RunKeeps(Next(s, events[0]), events[1..]);
    }
  }

  /** Whatever the workers, crashes, lost leases, lost replies, late statements and retries: at
      most one POST leaves for a job, with the one nonce ever put on its row.
      While its submission is open the row is armed, so no worker can claim it. */
  lemma {:induction false} AtMostOnePost(start: State, events: seq<Event>)
    requires Fresh(start) && CanRun(start, events)
    ensures var end := Run(start, events);
            && |end.posts| <= 1
            && (end.posts != [] ==> end.posts == end.granted)
            && (end.posts != [] && end.row.status == Submitting ==>
                  end.row.armed && forall w, now :: ClaimRow(end.row, w, now).None?)
            && (end.posts != [] ==> end.row.status != Queued)
  {
    RunKeeps(start, events);
  }

  ghost predicate Reachable(start: State, s: State)
  {
    exists events :: CanRun(start, events) && Run(start, events) == s
  }

  lemma {:induction false} RunSnoc(s: State, events: seq<Event>, e: Event)
    requires CanRun(s, events) && Enabled(Run(s, events), e)
    ensures CanRun(s, events + [e]) && Run(s, events + [e]) == Next(Run(s, events), e)
    decreases |events|
  {
    if events == [] {
      assert [] + [e] == [e] && [e][1..] == [];
    } else {
      RunSnoc(Next(s, events[0]), events[1..], e);
      assert (events + [e])[0] == events[0] && (events + [e])[1..] == events[1..] + [e];
    }
  }

  lemma {:induction false} After(start: State, s: State, e: Event) returns (next: State)
    requires Reachable(start, s) && Enabled(s, e)
    ensures Reachable(start, next) && next == Next(s, e)
  {
    var events :| CanRun(start, events) && Run(start, events) == s;
    RunSnoc(start, events, e);
    next := Next(s, e);
  }

  /** The bound is met: a fresh job that is due does get its POST. A second worker
      cannot claim it then, even after the first is gone and its lease is over. */
  lemma {:induction false} OnePostHappens(start: State, w: Worker, nonce: nat) returns (s: State)
    requires Fresh(start) && ClaimRow(start.row, w, start.now).Some?
    ensures Reachable(start, s) && s.posts == [nonce]
    ensures w !in s.attempts && LeaseOver(s.row, s.now)
    ensures forall v :: !Enabled(s, Claim(v))
  {
    assert CanRun(start, []) && Run(start, []) == start;
    s := After(start, start, Claim(w));
    s := After(start, s, Mark(w, nonce));
    s := After(start, s, Arm(w));
    s := SentAndGone(start, s, w);
  }

  lemma {:induction false} SentAndGone(start: State, m: State, w: Worker) returns (s: State)
    requires Reachable(start, m) && At(m, w) && m.attempts[w].Ready? && m.posts == [] && m.row.armed
    requires m.row.leaseExpires == Some(m.now + LEASE_MILLIS)
    ensures Reachable(start, s) && s.posts == [m.attempts[w].n] && s.row == m.row
    ensures w !in s.attempts && LeaseOver(s.row, s.now)
  {
    s := After(start, m, Send(w));
    s := After(start, s, Crash(w));
    s := After(start, s, Tick(LEASE_MILLIS + 1));
  }

  /** The worker saw the provider take or refuse the request, or an operator
      proved delivery. */
  predicate Evidence(s: State, e: Event)
    requires Enabled(s, e)
  {
    match e
    case RecordAck(w) => true
    case Settle(w, _) => s.attempts[w].Rejected?
    case LostCommit(w, _) => s.attempts[w].Rejected?
    case Late(q) => q.MarkSubmitted?
    case Reconcile(_) => true
    case _ => false
  }

  predicate OnlyLease(a: Row, b: Row)
  {
    b == a.(owner := b.owner, leaseExpires := b.leaseExpires)
  }

  /** An armed row keeps everything but its lease until there is evidence, unless its
      guard was set by a late statement: then no POST has left or is about to. */
  lemma {:induction false} ArmedNeedsEvidence(s: State, e: Event)
    requires Inv(s) && Enabled(s, e) && s.row.armed && !Evidence(s, e)
    ensures OnlyLease(s.row, Next(s, e).row) || (s.posts == [] && NoneReady(s))
  {
    if e.Late? {
      LateLeavesArmed(s, e.q);
    } else if e.Generic? || e.Settle? || e.LostCommit? {
      assert s.row.owner == Some(e.w) ==> !PastArming(s.attempts[e.w]);
    }
  }

  lemma {:induction false} LateLeavesArmed(s: State, q: Statement)
    requires Inv(s) && s.row.armed && !q.MarkSubmitted?
    ensures OnlyLease(s.row, Executed(s, q).row)
  {
  }

  /** The generic retry and exhaustion branch changes an armed row only if no POST has
      left, and then none ever does. */
  lemma {:induction false} GenericSparesArmed(s: State, w: Worker, events: seq<Event>)
    requires Inv(s) && Enabled(s, Generic(w)) && s.row.armed && Next(s, Generic(w)).row != s.row
    requires CanRun(Next(s, Generic(w)), events)
    ensures Next(s, Generic(w)).row.status == Failed && Run(Next(s, Generic(w)), events).posts == []
  {
    StepKeeps(s, Generic(w));
    ClosedWithoutPost(Next(s, Generic(w)), events);
  }

  /** It changes one exactly when it gives up on a job whose lease it still owns. */
  lemma {:induction false} GenericChangesArmed(s: State, w: Worker)
    requires Inv(s) && Enabled(s, Generic(w)) && s.row.armed
    ensures Next(s, Generic(w)).row != s.row <==>
      s.row.owner == Some(w) && GenericDelay(s.attempts[w].job).None?
  {
  }

  /** Once the submission is over without a POST, none is sent any more. */
  lemma {:induction false} ClosedWithoutPost(s: State, events: seq<Event>)
    requires Inv(s) && CanRun(s, events)
    requires s.row.status !in {Queued, Submitting} && s.posts == [] && NoneReady(s)
    ensures Run(s, events).posts == [] && Run(s, events).row.status !in {Queued, Submitting}
    decreases |events|
  {
    if events != [] {
      StepKeeps(s, events[0]);
      StaysClosed(s, events[0]);
      ClosedWithoutPost(Next(s, events[0]), events[1..]);
    }
  }

  lemma {:induction false} StaysClosed(s: State, e: Event)
    requires Enabled(s, e) && s.row.status !in {Queued, Submitting} && s.posts == [] && NoneReady(s)
    ensures var t := Next(s, e);
            t.row.status !in {Queued, Submitting} && t.posts == [] && NoneReady(t)
  {
  }

  /** That can happen: the guard is set between the quarantine, which looked for it, and
      the exhaustion branch, which does not. */
  lemma {:induction false} LateGuard(start: State, w: Worker, nonce: nat) returns (s: State)
    requires Fresh(start) && ClaimRow(start.row, w, start.now).Some? && start.row.failures + 1 >= MAX_FAILURES
    ensures Reachable(start, s) && s.row.armed && Enabled(s, Generic(w))
    ensures Next(s, Generic(w)).row.status == Failed && s.posts == []
  {
    var q := ArmGuard(w, nonce, start.now);
    assert CanRun(start, []) && Run(start, []) == start;
    s := After(start, start, Claim(w));
    s := After(start, s, Mark(w, nonce));
    s := After(start, s, Abandon(q));
    s := LateGuardFrom(start, s, w, q);
  }

  lemma {:induction false} LateGuardFrom(start: State, m: State, w: Worker, q: Statement) returns (s: State)
    requires Reachable(start, m) && At(m, w) && m.attempts[w].Erred? && q in m.pending && q.ArmGuard? && q.w == w
    requires ArmRow(m.row, w, q.nonce, q.at).Some? && !m.row.armed && m.posts == []
    requires m.attempts[w].job.status == Queued && m.attempts[w].job.failures + 1 >= MAX_FAILURES
    ensures Reachable(start, s) && s.row.armed && Enabled(s, Generic(w))
    ensures Next(s, Generic(w)).row.status == Failed && s.posts == []
  {
    s := After(start, m, Quarantine(w));
    s := After(start, s, Late(q));
    assert Execute(m.row, q) == Some(m.row.(armed := true));
    assert s.row == m.row.(armed := true) && s.attempts[w] == Retrying(m.attempts[w].job);
  }

  /** What an attempt can be doing that will not send. */
  predicate Abandoning(a: Attempt)
  {
    a.Claimed? || a.GivingUp? || a.Erred? || a.Retrying?
  }

  predicate Holds(a: Attempt, nonce: Option<nat>)
  {
    (a.Marked? || a.Ready? || a.Sent? || a.Acknowledged?) ==> nonce == Some(a.n)
  }

  /** An attempt that claimed a job in the middle of a submission never sends without
      provable idempotency, and with it only under the nonce it found. */
  predicate ResumesSafely(a: Attempt, idempotent: bool)
  {
    a.job.status == Submitting ==>
      a.job.upstreamId.None? && Holds(a, a.job.nonce) && (!idempotent ==> Abandoning(a))
  }

  ghost predicate JobInv(s: State)
  {
    forall w | w in s.attempts :: ResumesSafely(s.attempts[w], s.idempotent)
  }

  lemma {:induction false} ClaimKeepsJobs(s: State, w: Worker)
    requires RowInv(s) && JobInv(s) && Enabled(s, Claim(w))
    ensures JobInv(Next(s, Claim(w))) && Next(s, Claim(w)).idempotent == s.idempotent
  {
  }

  lemma {:induction false} WorkKeepsJobs(s: State, e: Event)
    requires JobInv(s) && Enabled(s, e) && !e.Claim? && !e.Abandon? && !e.Late? && !e.LostCommit?
    requires !e.Mark? && !e.Reuse? && !e.Arm? && !e.Send? && !e.Ack?
    ensures JobInv(Next(s, e)) && Next(s, e).idempotent == s.idempotent
  {
  }

  lemma {:induction false} SendingKeepsJobs(s: State, e: Event)
    requires JobInv(s) && Enabled(s, e) && (e.Mark? || e.Reuse? || e.Arm? || e.Send? || e.Ack?)
    ensures JobInv(Next(s, e)) && Next(s, e).idempotent == s.idempotent
  {
  }

  lemma {:induction false} StepKeepsJobs(s: State, e: Event)
    requires Inv(s) && JobInv(s) && Enabled(s, e)
    ensures JobInv(Next(s, e)) && Next(s, e).idempotent == s.idempotent
  {
    match e
    case Claim(w) => ClaimKeepsJobs(s, w);
    case Abandon(_) => LateKeepsJobs(s, e);
    case Late(_) => LateKeepsJobs(s, e);
    case LostCommit(_, _) => LateKeepsJobs(s, e);
    case Mark(_, _) => SendingKeepsJobs(s, e);
    case Reuse(_) => SendingKeepsJobs(s, e);
    case Arm(_) => SendingKeepsJobs(s, e);
    case Send(_) => SendingKeepsJobs(s, e);
    case Ack(_, _) => SendingKeepsJobs(s, e);
    case _ => WorkKeepsJobs(s, e);
  }

  lemma {:induction false} LateKeepsJobs(s: State, e: Event)
    requires JobInv(s) && Enabled(s, e) && (e.Abandon? || e.Late? || e.LostCommit?)
    ensures JobInv(Next(s, e)) && Next(s, e).idempotent == s.idempotent
  {
  }

  lemma {:induction false} RunKeepsJobs(s: State, events: seq<Event>)
    requires CanRun(s, events) && Inv(s) && JobInv(s)
    ensures JobInv(Run(s, events)) && Run(s, events).idempotent == s.idempotent
    decreases |events|
  {
    if events != [] {
      StepKeeps(s, events[0]);
      StepKeepsJobs(s, events[0]);
      RunKeepsJobs(Next(s, events[0]), events[1..]);
    }
  }

  /** Over every run: an attempt whose job was already submitting when it was claimed
      is only ever deciding, giving up, failing or retrying, unless the driver's
      submission is provably idempotent; and then it sends the nonce it found. */
  lemma {:induction false} NotResubmitted(start: State, events: seq<Event>, w: Worker)
    requires Fresh(start) && CanRun(start, events)
    requires w in Run(start, events).attempts && Run(start, events).attempts[w].job.status == Submitting
    ensures !start.idempotent ==> Abandoning(Run(start, events).attempts[w])
    ensures Holds(Run(start, events).attempts[w], Run(start, events).attempts[w].job.nonce)
    ensures !start.idempotent ==>
      && !Enabled(Run(start, events), Reuse(w)) && !Enabled(Run(start, events), Arm(w))
      && !Enabled(Run(start, events), Send(w))
  {
    RunKeepsJobs(start, events);
  }

  // ------------------------------------------------------------ the worker's tail

  /** The database row behind its statements. Each call says whether a row matched. */
  class JobTable {
    var row: Row
    var now: int

    constructor (row: Row, now: int)
      ensures this.row == row && this.now == now
    {
      this.row, this.now := row, now;
    }

    /** Matches an armed submitting row of this worker, and takes only its lease. */
    method Retain(w: Worker) returns (matched: bool)
      modifies this`row
      ensures matched == RetainRow(old(row), w).Some?
      ensures matched ==> old(row).owner == Some(w) && row == Release(old(row))
      ensures !matched ==> row == old(row)
    {
      matched := row.owner == Some(w) && row.status == Submitting && row.upstreamId.None? && row.armed;
      if matched { row := row.(owner := None, leaseExpires := None); }
    }

    /** Fenced by worker and guard: an armed row stays as it is, and a retried one
        keeps its status, nonce and upstream id. */
    method Reschedule(w: Worker, delay: int, failed: bool) returns (matched: bool)
      modifies this`row
      ensures matched == RescheduleRow(old(row), w, delay, failed, now).Some?
      ensures row == GetOr(RescheduleRow(old(row), w, delay, failed, now), old(row))
      ensures old(row).armed || old(row).owner != Some(w) ==> row == old(row)
      ensures matched ==> row.owner.None? && SameSubmission(row, old(row)) && row.nextAttempt >= now + 500
    {
      matched := row.owner == Some(w) && !row.armed;
      if matched {
        row := row.(nextAttempt := now + if delay < 500 then 500 else delay,
                    failures := if failed then row.failures + 1 else 0, owner := None, leaseExpires := None);
      }
    }

    /** Fenced by worker: settles an active row once. */
    method Finish(w: Worker, status: Status) returns (matched: bool)
      requires status in {Succeeded, Failed, Cancelled}
      modifies this`row
      ensures matched == FinishRow(old(row), w, status).Some?
      ensures row == GetOr(FinishRow(old(row), w, status), old(row))
      ensures old(row).owner != Some(w) || !Active(old(row).status) ==> row == old(row)
      ensures matched ==> row.owner.None? && row.status == status && !Active(row.status) && !row.armed
    {
      matched := row.owner == Some(w) && Active(row.status);
      if matched { row := row.(status := status, armed := false, owner := None, leaseExpires := None); }
    }
  }

  predicate SameSubmission(a: Row, b: Row)
  {
    a.status == b.status && a.nonce == b.nonce && a.armed == b.armed && a.upstreamId == b.upstreamId
  }

  /** What every reachable row satisfies: only an open submission is armed. */
  predicate GuardSound(r: Row)
  {
    r.armed ==> r.status == Submitting && r.upstreamId.None?
  }

  /** The end of `process_one` after a failed attempt: first quarantine, then the
      generic branch. It is one undisturbed passage of `Quarantine` and `Generic`.
      An armed row loses at most its lease, another worker's row nothing, and the
      worker lets go of an active row whatever happens. */
  method AfterError(table: JobTable, w: Worker, job: Row) returns (quarantined: bool)
    requires GuardSound(table.row)
    modifies table`row
    ensures quarantined == RetainRow(old(table.row), w).Some?
    ensures old(table.row).armed ==> table.row == (if quarantined then Release(old(table.row)) else old(table.row))
    ensures old(table.row).owner != Some(w) ==> table.row == old(table.row)
    ensures Active(old(table.row).status) ==> table.row.owner != Some(w)
    ensures !old(table.row).armed ==>
      SameSubmission(table.row, old(table.row)) || (table.row.status == Failed && job.failures + 1 >= MAX_FAILURES)
    ensures !quarantined ==>
      table.row == GetOr(GenericUpdate(old(table.row), w, job, table.now), old(table.row))
    ensures GuardSound(table.row)
  {
    quarantined := table.Retain(w);
    if quarantined { return; }
    var next := job.failures + 1;
    if job.status == Cancelling {
      var _ := table.Reschedule(w, RetryDelay(next), true);
    } else if next >= MAX_FAILURES {
      var _ := table.Finish(w, Failed);
    } else {
      var _ := table.Reschedule(w, RetryDelay(next), true);
    }
  }
}
