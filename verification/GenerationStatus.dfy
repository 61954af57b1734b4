/** How far a job has come and when it is looked at again, told from what happened to it
    (src/generation.rs:215-265; src/db/generation/jobs.rs:880-900, 1005-1035, 1270-1450). */
module GenerationStatus {
  import opened Json
  import opened GenerationDelivery

  /** What has ended the job, and whether its running task was asked to stop. */
  datatype Past = Past(ended: seq<Status>, stopping: bool)

  const Begun := Past([], false)

  predicate Over(status: Status)
  {
    status == Succeeded || status == Failed || status == Cancelled
  }

  /** The database takes this worker's settlement. */
  predicate Owns(r: Row, w: Worker)
  {
    r.owner == Some(w) && !Over(r.status)
  }

  /** The status a step ends the job with: a settlement by its owner, the twentieth
      failure in its owner's eyes, or a cancellation before anything was sent. */
  function EndedBy(s: State, e: Event): Option<Status>
    requires Enabled(s, e)
  {
    match e
    case Settle(w, outcome) => if Owns(s.row, w) then Some(outcome) else None
    case LostCommit(_, outcome) => Some(outcome)
    case Generic(w) =>
      var job := s.attempts[w].job;
      if job.status != Cancelling && job.failures >= 19 && Owns(s.row, w) then Some(Failed) else None
    case UserCancel => if s.row.status == Queued then Some(Cancelled) else None
    case _ => None
  }

  function Tell(h: Past, s: State, e: Event): Past
    requires Enabled(s, e)
  {
    Past(if EndedBy(s, e).Some? then h.ended + [EndedBy(s, e).value] else h.ended,
         h.stopping || (e.UserCancel? && s.row.status == Running))
  }

  function Told(s: State, events: seq<Event>, h: Past): Past
    requires CanRun(s, events)
    decreases |events|
  {
    if events == [] then h else Told(Next(s, events[0]), events[1..], Tell(h, s, events[0]))
  }

  /** What the status has to be. */
  function Stands(s: State, h: Past): Status
  {
    if h.ended != [] then h.ended[0]
    else if h.stopping then Cancelling
    else if s.row.upstreamId.Some? then Running
    else if s.granted != [] then Submitting
    else Queued
  }

  ghost predicate StatusInv(s: State, h: Past)
  {
    && s.row.status == Stands(s, h) && |h.ended| <= 1 && (h.ended != [] ==> Over(h.ended[0]))
    && (h.stopping ==> s.row.upstreamId.Some?)
  }

  predicate Moves(e: Event)
  {
    e.Mark? || e.RecordAck? || e.Settle? || e.LostCommit? || e.Generic? || e.UserCancel? || e.Reconcile? || e.Late?
  }

  lemma {:induction false} OthersStay(s: State, e: Event)
    requires Enabled(s, e) && !Moves(e)
    ensures var t := Next(s, e);
            t.row.status == s.row.status && t.row.upstreamId == s.row.upstreamId && t.granted == s.granted
    ensures EndedBy(s, e).None?
  {
  }

  lemma {:induction false} SubmissionMoves(s: State, e: Event, h: Past)
    requires StatusInv(s, h) && Enabled(s, e) && (e.Mark? || e.RecordAck? || e.Reconcile?)
    ensures StatusInv(Next(s, e), Tell(h, s, e))
  {
  }

  lemma {:induction false} LateMoves(s: State, q: Statement, h: Past)
    requires StatusInv(s, h) && Enabled(s, Late(q))
    ensures StatusInv(Next(s, Late(q)), Tell(h, s, Late(q)))
  {
  }

  lemma {:induction false} EndMoves(s: State, e: Event, h: Past)
    requires StatusInv(s, h) && Enabled(s, e) && (e.Settle? || e.LostCommit? || e.Generic? || e.UserCancel?)
    ensures StatusInv(Next(s, e), Tell(h, s, e))
  {
  }

  lemma {:induction false} StepStands(s: State, e: Event, h: Past)
    requires StatusInv(s, h) && Enabled(s, e)
    ensures StatusInv(Next(s, e), Tell(h, s, e))
  {
    if !Moves(e) { OthersStay(s, e); }
    else if e.Late? { LateMoves(s, e.q, h); }
    else if e.Mark? || e.RecordAck? || e.Reconcile? { SubmissionMoves(s, e, h); }
    else { EndMoves(s, e, h); }
  }

  lemma {:induction false} RunStands(s: State, events: seq<Event>, h: Past)
    requires StatusInv(s, h) && CanRun(s, events)
    ensures StatusInv(Run(s, events), Told(s, events, h))
    decreases |events|
  {
    if events != [] {
      StepStands(s, events[0], h);
      RunStands(Next(s, events[0]), events[1..], Tell(h, s, events[0]));
    }
  }

  /** Over every run: a job is ended by one thing alone and stays as that left it; before,
      it is cancelling once its running task was asked to stop, running once it has the
      provider's id, submitting once it was granted a nonce, and queued until then. */
  lemma {:induction false} StatusIsTold(start: State, events: seq<Event>)
    requires Fresh(start) && CanRun(start, events)
    ensures var end, h := Run(start, events), Told(start, events, Begun);
            && end.row.status == Stands(end, h)
            && |h.ended| <= 1 && (Over(end.row.status) <==> h.ended != [])
  {
    RunStands(start, events, Begun);
  }

  // ------------------------------------------------------------------------ times

  /** How long a job waits after so many failures. */
  function Wait(failures: nat): int
  {
    if failures < 6 then [1_000, 2_000, 4_000, 8_000, 16_000, 32_000][failures] else 60_000
  }

  lemma {:induction false} WaitIs(failures: nat)
    ensures RetryDelay(failures) == Wait(failures)
  {
    if 0 < failures < 6 { WaitIs(failures - 1); }
  }

  /** A worker gets a job exactly when it is not over, not armed, due, and nobody's; it
      then holds it for a minute. */
  lemma {:induction false} ClaimExactly(s: State, w: Worker)
    ensures Enabled(s, Claim(w)) <==>
      && w !in s.attempts && !Over(s.row.status) && !s.row.armed && s.row.nextAttempt <= s.now
      && (s.row.leaseExpires.None? || s.row.leaseExpires.value < s.now)
    ensures Enabled(s, Claim(w)) ==>
      && Next(s, Claim(w)).row == s.row.(owner := Some(w), leaseExpires := Some(s.now + 60_000))
      && Next(s, Claim(w)).attempts[w] == Claimed(Next(s, Claim(w)).row)
  {
  }

  /** After an error the owner of an unarmed job puts it back for the wait its failures
      ask for and counts one more; the twentieth failure ends it instead, but never a
      cancellation. */
  lemma {:induction false} RetryExactly(s: State, w: Worker)
    requires Enabled(s, Generic(w)) && s.row.owner == Some(w) && !Over(s.row.status)
    ensures var job, row := s.attempts[w].job, Next(s, Generic(w)).row;
            if job.status != Cancelling && job.failures >= 19 then
              row == s.row.(status := Failed, armed := false, owner := None, leaseExpires := None)
            else if s.row.armed then row == s.row
            else row == s.row.(owner := None, leaseExpires := None, failures := s.row.failures + 1,
                               nextAttempt := s.now + Wait(job.failures + 1))
  {
    WaitIs(s.attempts[w].job.failures + 1);
  }

  /** A poll that is not over is repeated in two seconds, and forgets the failures. */
  lemma {:induction false} PollExactly(s: State, w: Worker)
    requires Enabled(s, PollAgain(w)) && s.row.owner == Some(w) && !s.row.armed
    ensures Next(s, PollAgain(w)).row
            == s.row.(owner := None, leaseExpires := None, failures := 0, nextAttempt := s.now + 2_000)
    ensures w !in Next(s, PollAgain(w)).attempts
  {
  }
}
