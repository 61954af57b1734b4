/** The provider's task id: what an acknowledgement or an operator proves is what the row
    holds and what is polled (src/generation.rs:751-760, 857-862;
    src/db/generation/jobs.rs:1270-1296; src/db/generation/reconcile.rs:205-213). */
module GenerationAck {
  import opened Json
  import opened GenerationDelivery

  /** What has happened so far, told from the events: the ids the provider answered a
      POST with, those an operator proved, and those the database took, in order. */
  datatype History = History(acknowledged: seq<nat>, proved: seq<nat>, recorded: seq<nat>)

  const Nothing := History([], [], [])

  /** The row still waits for the answer to this worker's POST under this nonce. */
  predicate Awaits(r: Row, w: Worker, nonce: nat)
  {
    r.owner == Some(w) && r.status == Submitting && r.nonce == Some(nonce)
  }

  /** The id a step records, if it records one. */
  function Recorded(s: State, e: Event): Option<nat>
    requires Enabled(s, e)
  {
    match e
    case RecordAck(w) => if Awaits(s.row, w, s.attempts[w].n) then Some(s.attempts[w].id) else None
    case Late(MarkSubmitted(w, nonce, id, _)) => if Awaits(s.row, w, nonce) then Some(id) else None
    case Reconcile(id) => Some(id)
    case _ => None
  }

  function Add(ids: seq<nat>, id: Option<nat>): seq<nat>
  {
    if id.Some? then ids + [id.value] else ids
  }

  function Tell(h: History, s: State, e: Event): History
    requires Enabled(s, e)
  {
    History(Add(h.acknowledged, if e.Ack? then Some(e.id) else None),
            Add(h.proved, if e.Reconcile? then Some(e.id) else None),
            Add(h.recorded, Recorded(s, e)))
  }

  function Told(s: State, events: seq<Event>, h: History): History
    requires CanRun(s, events)
    decreases |events|
  {
    if events == [] then h else Told(Next(s, events[0]), events[1..], Tell(h, s, events[0]))
  }

  // ---------------------------------------------------------------- invariant

  /** The row holds the one recorded id, which came from the provider or an operator. */
  ghost predicate RowTold(s: State, h: History)
  {
    && |h.recorded| <= 1
    && s.row.upstreamId == (if h.recorded == [] then None else Some(h.recorded[0]))
    && forall id | id in h.recorded :: id in h.acknowledged || id in h.proved
  }

  /** An id on its way to the row is one the provider gave. */
  ghost predicate AcksTold(s: State, h: History)
  {
    && (forall w | w in s.attempts && s.attempts[w].Acknowledged? :: s.attempts[w].id in h.acknowledged)
    && (forall q | q in s.pending && q.MarkSubmitted? :: q.id in h.acknowledged)
  }

  /** A claimed job's id is the row's, and only a job with an id is polled. */
  ghost predicate JobsTold(s: State)
  {
    forall w | w in s.attempts ::
      && (s.attempts[w].job.upstreamId.Some? ==> s.attempts[w].job.upstreamId == s.row.upstreamId)
      && (s.attempts[w].Polling? ==> s.attempts[w].job.upstreamId.Some?)
  }

  /** The one POST is answered once. */
  ghost predicate OneAck(s: State, h: History)
  {
    && |h.acknowledged| <= 1
    && (s.posts == [] ==> h.acknowledged == [])
    && (forall w | w in s.attempts && s.attempts[w].Sent? :: s.posts != [] && h.acknowledged == [])
    && (forall w, v | w in s.attempts && v in s.attempts && s.attempts[w].Sent? && s.attempts[v].Sent? :: w == v)
  }

  ghost predicate IdInv(s: State, h: History)
  {
    RowTold(s, h) && AcksTold(s, h) && JobsTold(s) && OneAck(s, h)
  }

  /** Nothing that the invariant speaks of is new. */
  ghost predicate Quiet(s: State, t: State)
  {
    && t.row.upstreamId == s.row.upstreamId && t.posts == s.posts
    && (forall q | q in t.pending && q.MarkSubmitted? :: q in s.pending)
    && (forall w | w in t.attempts ::
          w in s.attempts && t.attempts[w].job == s.attempts[w].job
          && (t.attempts[w] == s.attempts[w]
              || (!t.attempts[w].Acknowledged? && !t.attempts[w].Polling? && !t.attempts[w].Sent?)))
  }

  predicate Loud(e: Event)
  {
    e.Claim? || e.Send? || e.Ack? || e.StartPoll? || e.RecordAck? || e.Reconcile?
    || (e.Late? && e.q.MarkSubmitted?) || (e.Abandon? && e.q.MarkSubmitted?)
  }

  lemma {:induction false} QuietStep(s: State, e: Event)
    requires Inv(s) && Enabled(s, e) && !Loud(e)
    ensures Quiet(s, Next(s, e)) && Recorded(s, e).None?
  {
    if InTheTail(e) { TailIsQuiet(s, e); } else { AttemptIsQuiet(s, e); }
  }

  /** The steps after an attempt, and those of nobody's attempt. */
  predicate InTheTail(e: Event)
  {
    e.Quarantine? || e.Generic? || e.Heartbeat? || e.Crash? || e.Settle? || e.LostCommit? || e.UserCancel? || e.Tick?
  }

  lemma {:induction false} TailIsQuiet(s: State, e: Event)
    requires Enabled(s, e) && InTheTail(e)
    ensures Quiet(s, Next(s, e)) && Recorded(s, e).None?
  {
  }

  lemma {:induction false} AttemptIsQuiet(s: State, e: Event)
    requires Inv(s) && Enabled(s, e) && !InTheTail(e) && !Loud(e)
    ensures Quiet(s, Next(s, e)) && Recorded(s, e).None?
  {
  }

  lemma {:induction false} QuietKeeps(s: State, t: State, h: History)
    requires IdInv(s, h) && Quiet(s, t)
    ensures IdInv(t, h)
  {
  }

  lemma {:induction false} ClaimKeepsIds(s: State, w: Worker, h: History)
    requires Inv(s) && IdInv(s, h) && Enabled(s, Claim(w))
    ensures IdInv(Next(s, Claim(w)), h)
  {
  }

  lemma {:induction false} SendKeepsIds(s: State, w: Worker, h: History)
    requires Inv(s) && IdInv(s, h) && Enabled(s, Send(w))
    ensures IdInv(Next(s, Send(w)), h)
  {
  }

  lemma {:induction false} AckKeepsIds(s: State, w: Worker, id: nat, h: History)
    requires Inv(s) && IdInv(s, h) && Enabled(s, Ack(w, id))
    ensures IdInv(Next(s, Ack(w, id)), h.(acknowledged := h.acknowledged + [id]))
  {
  }

  lemma {:induction false} PollKeepsIds(s: State, w: Worker, h: History)
    requires Inv(s) && IdInv(s, h) && Enabled(s, StartPoll(w))
    ensures IdInv(Next(s, StartPoll(w)), h)
  {
  }

  lemma {:induction false} ReconcileKeepsIds(s: State, id: nat, h: History)
    requires Inv(s) && IdInv(s, h) && Enabled(s, Reconcile(id))
    ensures IdInv(Next(s, Reconcile(id)), h.(proved := h.proved + [id], recorded := h.recorded + [id]))
  {
  }

  lemma {:induction false} RecordKeepsIds(s: State, w: Worker, h: History)
    requires Inv(s) && IdInv(s, h) && Enabled(s, RecordAck(w))
    ensures IdInv(Next(s, RecordAck(w)), h.(recorded := Add(h.recorded, Recorded(s, RecordAck(w)))))
  {
  }

  lemma {:induction false} LateKeepsIds(s: State, q: Statement, h: History)
    requires Inv(s) && IdInv(s, h) && Enabled(s, Late(q)) && q.MarkSubmitted?
    ensures IdInv(Next(s, Late(q)), h.(recorded := Add(h.recorded, Recorded(s, Late(q)))))
  {
  }

  lemma {:induction false} AbandonKeepsIds(s: State, q: Statement, h: History)
    requires Inv(s) && IdInv(s, h) && Enabled(s, Abandon(q)) && q.MarkSubmitted?
    ensures IdInv(Next(s, Abandon(q)), h)
  {
  }

  lemma {:induction false} StepKeepsIds(s: State, e: Event, h: History)
    requires Inv(s) && IdInv(s, h) && Enabled(s, e)
    ensures IdInv(Next(s, e), Tell(h, s, e))
  {
    if !Loud(e) {
      QuietStep(s, e);
      QuietKeeps(s, Next(s, e), h);
    } else {
      LoudKeeps(s, e, h);
    }
  }

  lemma {:induction false} LoudKeeps(s: State, e: Event, h: History)
    requires Inv(s) && IdInv(s, h) && Enabled(s, e) && Loud(e)
    ensures IdInv(Next(s, e), Tell(h, s, e))
  {
    match e
    case Claim(w) => ClaimKeepsIds(s, w, h);
    case Send(w) => SendKeepsIds(s, w, h);
    case Ack(w, id) => AckKeepsIds(s, w, id, h);
    case StartPoll(w) => PollKeepsIds(s, w, h);
    case RecordAck(w) => RecordKeepsIds(s, w, h);
    case Reconcile(id) => ReconcileKeepsIds(s, id, h);
    case Late(q) => LateKeepsIds(s, q, h);
    case Abandon(q) => AbandonKeepsIds(s, q, h);
  }

  /** A row's id never changes once it is there. */
  lemma {:induction false} IdStays(s: State, e: Event)
    requires Inv(s) && Enabled(s, e) && s.row.upstreamId.Some?
    ensures Next(s, e).row.upstreamId == s.row.upstreamId
  {
    if !Loud(e) { QuietStep(s, e); }
  }

  lemma {:induction false} RunKeepsIds(s: State, events: seq<Event>, h: History)
    requires Inv(s) && IdInv(s, h) && CanRun(s, events)
    ensures Inv(Run(s, events)) && IdInv(Run(s, events), Told(s, events, h))
    decreases |events|
  {
    if events != [] {
      var e := events[0];
      StepKeeps(s, e);
      StepKeepsIds(s, e, h);
      RunKeepsIds(Next(s, e), events[1..], Tell(h, s, e));
    }
  }

  // ---------------------------------------------------------------------- results

  /** Over every run: the row has an id exactly when an acknowledgement of the one POST
      or an operator's proof was recorded, and then it is that id. */
  lemma {:induction false} RowHoldsProvidersId(start: State, events: seq<Event>)
    requires Fresh(start) && CanRun(start, events)
    ensures var end, h := Run(start, events), Told(start, events, Nothing);
            && (end.row.upstreamId.Some? <==> h.recorded != [])
            && (end.row.upstreamId.Some? ==>
                  && h.recorded == [end.row.upstreamId.value]
                  && (end.row.upstreamId.value in h.acknowledged || end.row.upstreamId.value in h.proved))
            && |h.acknowledged| <= |end.posts|
  {
    RunKeepsIds(start, events, Nothing);
  }

  /** It never changes afterwards, and a worker that polls asks for it. */
  lemma {:induction false} PolledIdIsTheRows(start: State, events: seq<Event>, more: seq<Event>, w: Worker)
    requires Fresh(start) && CanRun(start, events) && Run(start, events).row.upstreamId.Some?
    requires CanRun(Run(start, events), more)
    ensures var end := Run(Run(start, events), more);
            && end.row.upstreamId == Run(start, events).row.upstreamId
            && (w in end.attempts && end.attempts[w].Polling? ==>
                  end.attempts[w].job.upstreamId == Run(start, events).row.upstreamId)
  {
    RunKeepsIds(start, events, Nothing);
    RunKeepsIds(Run(start, events), more, Told(start, events, Nothing));
    IdStaysOverRuns(Run(start, events), more);
  }

  lemma {:induction false} IdStaysOverRuns(s: State, events: seq<Event>)
    requires Inv(s) && CanRun(s, events) && s.row.upstreamId.Some?
    ensures Run(s, events).row.upstreamId == s.row.upstreamId
    decreases |events|
  {
    if events != [] {
      StepKeeps(s, events[0]);
      IdStays(s, events[0]);
      IdStaysOverRuns(Next(s, events[0]), events[1..]);
    }
  }

  /** A worker whose acknowledgement reaches the row in time stores exactly it. */
  lemma {:induction false} AckIsStored(s: State, w: Worker)
    requires Inv(s) && Enabled(s, RecordAck(w)) && Awaits(s.row, w, s.attempts[w].n)
    ensures var row := Next(s, RecordAck(w)).row;
            && row.upstreamId == Some(s.attempts[w].id) && row.status == Running && !row.armed
            && row.owner.None? && row.nonce.None? && row.failures == 0
            && row.nextAttempt == s.now + 2_000
    ensures w !in Next(s, RecordAck(w)).attempts
  {
  }

  /** An operator's proof goes on the row of an armed job that nobody holds. */
  lemma {:induction false} ProofIsStored(s: State, id: nat)
    requires Inv(s)
    ensures Enabled(s, Reconcile(id)) <==> s.row.armed && LeaseOver(s.row, s.now)
    ensures Enabled(s, Reconcile(id)) ==>
      var row := Next(s, Reconcile(id)).row;
      && row.upstreamId == Some(id) && row.status == Running && !row.armed && row.owner.None? && row.nonce.None?
      && row.failures == 0 && row.nextAttempt == s.now
  {
  }
}
