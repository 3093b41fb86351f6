/** The embedding queue of `chats`: turns are written as vectors to another plugin, while sessions may be
    deleted and their vectors cleaned up at any moment. The database and the vector store are maps; every
    database transaction, and every effect of a remote call, is one event. */
module Embed {
  import opened Text

  type Id = string

  const BATCH: nat := 64
  const MAX_DOC_ATTEMPTS: nat := 3

  /** `embedded` is 0 while a turn waits, 1 when it is stored, -1 when it is given up. */
  datatype Turn = Turn(id: Id, session: Id, embedded: int, attempts: nat)

  datatype Session = Live(full: bool) | Deleting

  /** A row of the cascade table: vectors to delete, those deleted, and a number that every requeue moves. */
  datatype Job = Job(turnIds: seq<Id>, done: set<Id>, gen: nat)

  /** A vector write: the turn and its session. */
  datatype Doc = Doc(id: Id, session: Id)

  /** `vectors` maps the turn of a vector to the session in its metadata. `attempted` holds the writes of
      the running embedding pass (empty when none runs), `landed` whether one of them took effect, and
      `cleaning` the jobs of the running cleanup pass. */
  datatype State = State(
    sessions: map<Id, Session>,
    used: set<Id>,
    turns: seq<Turn>,
    cascade: map<Id, Job>,
    vectors: map<Id, Id>,
    attempted: seq<Doc>,
    landed: bool,
    cleaning: map<Id, Job>)

  predicate IsLive(sessions: map<Id, Session>, sid: Id) {
    sid in sessions && sessions[sid].Live?
  }

  // ---------------------------------------------------------------------------
  // The queue.
  // ---------------------------------------------------------------------------

  predicate IsPending(sessions: map<Id, Session>, t: Turn) {
    t.embedded == 0 && IsLive(sessions, t.session) && sessions[t.session].full
  }

  predicate DistinctDocs(docs: seq<Doc>) {
    forall i, j | 0 <= i < j < |docs| :: docs[i].id != docs[j].id
  }

  predicate HasTurn(turns: seq<Turn>, tid: Id, sid: Id) {
    exists t :: t in turns && t.id == tid && t.session == sid
  }

  /** The first waiting turns, in row order. */
  function PendingTurns(sessions: map<Id, Session>, turns: seq<Turn>, limit: nat): (docs: seq<Doc>)
    ensures |docs| <= limit
    ensures forall d | d in docs :: IsLive(sessions, d.session) && HasTurn(turns, d.id, d.session)
    ensures forall d | d in docs :: exists t :: t in turns && t.id == d.id && IsPending(sessions, t)
  {
    if |turns| == 0 || limit == 0 then []
    else if IsPending(sessions, turns[0])
    then [Doc(turns[0].id, turns[0].session)] + PendingTurns(sessions, turns[1..], limit - 1)
    else PendingTurns(sessions, turns[1..], limit)
  }

  /** A turn waits to be embedded: it is not stored or given up, and its session is live and of the full tier. */
  predicate IsQueued(sessions: map<Id, Session>, t: Turn) {
    t.embedded == 0 && t.session in sessions && sessions[t.session] == Live(true)
  }

  function QueuedIn(sessions: map<Id, Session>, turns: seq<Turn>): nat {
    if |turns| == 0 then 0
    else QueuedIn(sessions, turns[..|turns| - 1]) + if IsQueued(sessions, turns[|turns| - 1]) then 1 else 0
  }

  lemma {:induction false} QueuedHead(sessions: map<Id, Session>, turns: seq<Turn>)
    requires |turns| > 0
    ensures QueuedIn(sessions, turns) ==
            (if IsQueued(sessions, turns[0]) then 1 else 0) + QueuedIn(sessions, turns[1..])
  {
    if |turns| > 1 {
      QueuedHead(sessions, turns[..|turns| - 1]);
      assert turns[1..][..|turns| - 2] == turns[..|turns| - 1][1..];
    }
  }

  lemma PendingStep(sessions: map<Id, Session>, turns: seq<Turn>, limit: nat)
    requires |turns| > 0 && limit > 0
    ensures PendingTurns(sessions, turns, limit) ==
            if IsQueued(sessions, turns[0])
            then [Doc(turns[0].id, turns[0].session)] + PendingTurns(sessions, turns[1..], limit - 1)
            else PendingTurns(sessions, turns[1..], limit)
  {
  }

  lemma {:induction false} PendingCount(sessions: map<Id, Session>, turns: seq<Turn>, limit: nat)
    ensures |PendingTurns(sessions, turns, limit)| ==
            if QueuedIn(sessions, turns) < limit then QueuedIn(sessions, turns) else limit
    decreases |turns|
  {
    if |turns| > 0 && limit > 0 {
      QueuedHead(sessions, turns);
      PendingStep(sessions, turns, limit);
      hide IsQueued, PendingTurns, QueuedIn;
      PendingCount(sessions, turns[1..], limit - 1);
      PendingCount(sessions, turns[1..], limit);
    }
  }

  /** The documents of a pass are the first waiting turns, in row order: the waiting row with `k` waiting rows
      before it is document `k`, up to the limit, and there are no others. */
  lemma {:induction false} PendingAreFirst(sessions: map<Id, Session>, turns: seq<Turn>, limit: nat, i: nat)
    requires i < |turns| && IsQueued(sessions, turns[i]) && QueuedIn(sessions, turns[..i]) < limit
    ensures |PendingTurns(sessions, turns, limit)| ==
            if QueuedIn(sessions, turns) < limit then QueuedIn(sessions, turns) else limit
    ensures QueuedIn(sessions, turns[..i]) < |PendingTurns(sessions, turns, limit)|
    ensures PendingTurns(sessions, turns, limit)[QueuedIn(sessions, turns[..i])] == Doc(turns[i].id, turns[i].session)
    decreases i
  {
    PendingCount(sessions, turns, limit);
    PendingStep(sessions, turns, limit);
    if i > 0 {
      QueuedHead(sessions, turns[..i]);
      assert turns[..i][1..] == turns[1..][..i - 1];
      hide IsQueued, PendingTurns, QueuedIn;
      PendingAreFirst(sessions, turns[1..], if IsQueued(sessions, turns[0]) then limit - 1 else limit, i - 1);
    }
  }

  function Marked(t: Turn, good: seq<Id>, bad: seq<Id>): Turn {
    var tried :=
      if t.id !in bad then t
      else t.(attempts := t.attempts + 1, embedded := if t.attempts + 1 >= MAX_DOC_ATTEMPTS then -1 else t.embedded);
    if t.id in good then tried.(embedded := 1) else tried
  }

  /** The rows after the rejected documents are counted and the stored ones marked. */
  function MarkAll(turns: seq<Turn>, good: seq<Id>, bad: seq<Id>): (marked: seq<Turn>)
    ensures |marked| == |turns|
    ensures forall i | 0 <= i < |turns| :: marked[i] == Marked(turns[i], good, bad)
  {
    if |turns| == 0 then [] else [Marked(turns[0], good, bad)] + MarkAll(turns[1..], good, bad)
  }

  // ---------------------------------------------------------------------------
  // The cascade table.
  // ---------------------------------------------------------------------------

  function AddAll(ids: seq<Id>, more: seq<Id>): (all: seq<Id>)
    ensures forall id :: id in all <==> id in ids || id in more
    decreases |more|
  {
    if |more| == 0 then ids
    else
      assert more == [more[0]] + more[1..];
      AddAll(if more[0] in ids then ids else ids + [more[0]], more[1..])
  }

  function Requeued(cascade: map<Id, Job>, sid: Id, ids: seq<Id>): Job {
    if sid in cascade then Job(AddAll(cascade[sid].turnIds, ids), {}, cascade[sid].gen + 1)
    else Job(AddAll([], ids), {}, 0)
  }

  function TurnsOf(attempted: seq<Doc>, sid: Id): (ids: seq<Id>)
    ensures forall id :: id in ids <==> Doc(id, sid) in attempted
  {
    if |attempted| == 0 then [] else
      (if attempted[0].session == sid then [attempted[0].id] else []) + TurnsOf(attempted[1..], sid)
  }

  function DeadIn(sessions: map<Id, Session>, attempted: seq<Doc>): set<Id> {
    set d | d in attempted && !IsLive(sessions, d.session) :: d.session
  }

  /** Cleanup queued again for every session that died while the pass wrote its vectors. */
  function RequeueDead(sessions: map<Id, Session>, cascade: map<Id, Job>, attempted: seq<Doc>): map<Id, Job> {
    map sid | sid in cascade.Keys + DeadIn(sessions, attempted) ::
      if sid in DeadIn(sessions, attempted) then Requeued(cascade, sid, TurnsOf(attempted, sid)) else cascade[sid]
  }

  // ---------------------------------------------------------------------------
  // Events.
  // ---------------------------------------------------------------------------

  datatype Outcome =
    | Missing
    | Outage
    | Checked(good: seq<Id>, bad: seq<Id>)

  datatype Event =
    | NewSession(sid: Id, full: bool)
    | SetTier(sid: Id, full: bool)
    | NewTurn(sid: Id, tid: Id)
    | DeleteSession(sid: Id)
    | StartPass
    | Land(ids: set<Id>)
    | EndPass(outcome: Outcome)
    | StartCleanup(due: set<Id>)
    | DeleteVector(sid: Id, tid: Id)
    | EndJob(sid: Id, complete: bool)
    | SweepVector(tid: Id)

  /** When an event can happen. Session ids are never used twice, a plugin that is missing has written
      nothing, and two passes of a lane do not overlap. */
  predicate Enabled(s: State, e: Event) {
    match e
    case NewSession(sid, _) => sid !in s.used
    case SetTier(sid, _) => IsLive(s.sessions, sid)
    case NewTurn(sid, tid) => IsLive(s.sessions, sid) && forall t | t in s.turns :: t.id != tid
    case StartPass => s.attempted == []
    case Land(ids) => s.attempted != []
    case EndPass(Missing) => s.attempted != [] && !s.landed
    case EndPass(Outage) => s.attempted != []
    case EndPass(Checked(good, bad)) => s.attempted != [] && IsSplit(s.attempted, good, bad)
    case StartCleanup(due) => s.cleaning == map[] && due <= s.cascade.Keys
    case DeleteVector(sid, tid) => sid in s.cleaning && tid in s.cleaning[sid].turnIds
    case EndJob(sid, complete) =>
      sid in s.cleaning && (complete ==> forall t | t in s.cleaning[sid].turnIds :: t in s.cleaning[sid].done)
    case _ => true
  }

  predicate IsAttempted(attempted: seq<Doc>, id: Id) {
    exists d :: d in attempted && d.id == id
  }

  /** Each attempted write was stored or rejected, not both. */
  predicate IsSplit(attempted: seq<Doc>, good: seq<Id>, bad: seq<Id>) {
    && (forall d | d in attempted :: d.id in good <==> d.id !in bad)
    && (forall id | id in good :: IsAttempted(attempted, id))
    && (forall id | id in bad :: IsAttempted(attempted, id))
    && Distinct(bad)
  }

  predicate Distinct(ids: seq<Id>) {
    forall i, j | 0 <= i < j < |ids| :: ids[i] != ids[j]
  }

  function IdsOf(turns: seq<Turn>, sid: Id): (ids: seq<Id>)
    ensures forall t | t in turns && t.session == sid :: t.id in ids
  {
    if |turns| == 0 then [] else
      (if turns[0].session == sid then [turns[0].id] else []) + IdsOf(turns[1..], sid)
  }

  function WithoutSession(turns: seq<Turn>, sid: Id): (left: seq<Turn>)
    ensures forall t :: t in left <==> t in turns && t.session != sid
  {
    if |turns| == 0 then [] else
      (if turns[0].session == sid then [] else [turns[0]]) + WithoutSession(turns[1..], sid)
  }

  function Delete(s: State, sid: Id): State {
    if !IsLive(s.sessions, sid) then s else
      s.(sessions := s.sessions[sid := Deleting],
         cascade := s.cascade[sid := Job(IdsOf(s.turns, sid), {}, 0)],
         turns := WithoutSession(s.turns, sid))
  }

  function LandOf(s: State, ids: set<Id>): map<Id, Id> {
    s.vectors + map d | d in s.attempted && d.id in ids :: d.id := SessionOf(s.attempted, d.id)
  }

  function SessionOf(attempted: seq<Doc>, id: Id): (sid: Id)
    requires IsAttempted(attempted, id)
    ensures Doc(id, sid) in attempted
  {
    if attempted[0].id == id then attempted[0].session else SessionOf(attempted[1..], id)
  }

  function Finish(s: State, sid: Id, job: Job): State {
    if sid !in s.cascade || s.cascade[sid].gen != job.gen then s else
      s.(cascade := s.cascade - {sid},
         sessions := if sid in s.sessions && s.sessions[sid].Deleting? then s.sessions - {sid} else s.sessions)
  }

  function SaveProgress(s: State, sid: Id, job: Job): State {
    if sid !in s.cascade || s.cascade[sid].gen != job.gen then s
    else s.(cascade := s.cascade[sid := s.cascade[sid].(done := job.done)])
  }

  function EndOfPass(s: State, outcome: Outcome): State {
    match outcome
    case Missing => s.(attempted := [], landed := false)
    case Outage =>
      s.(cascade := RequeueDead(s.sessions, s.cascade, s.attempted), attempted := [], landed := false)
    case Checked(good, bad) =>
      s.(turns := MarkAll(s.turns, good, bad),
         cascade := RequeueDead(s.sessions, s.cascade, s.attempted), attempted := [], landed := false)
  }

  function Step(s: State, e: Event): State
    requires Enabled(s, e)
  {
    match e
    case NewSession(sid, full) => s.(sessions := s.sessions[sid := Live(full)], used := s.used + {sid})
    case SetTier(sid, full) => s.(sessions := s.sessions[sid := Live(full)])
    case NewTurn(sid, tid) => s.(turns := s.turns + [Turn(tid, sid, 0, 0)])
    case DeleteSession(sid) => Delete(s, sid)
    case StartPass => s.(attempted := PendingTurns(s.sessions, s.turns, BATCH), landed := false)
    case Land(ids) => s.(vectors := LandOf(s, ids), landed := true)
    case EndPass(outcome) => EndOfPass(s, outcome)
    case StartCleanup(due) => s.(cleaning := map sid | sid in due && sid in s.cascade :: s.cascade[sid])
    case DeleteVector(sid, tid) =>
      var job := s.cleaning[sid];
      s.(vectors := s.vectors - {tid}, cleaning := s.cleaning[sid := job.(done := job.done + {tid})])
    case EndJob(sid, complete) =>
      var job := s.cleaning[sid];
      var t := if complete then Finish(s, sid, job) else SaveProgress(s, sid, job);
      t.(cleaning := t.cleaning - {sid})
    case SweepVector(tid) => s.(vectors := s.vectors - {tid})
  }

  // ---------------------------------------------------------------------------
  // Vectors of deleted sessions are never forgotten.
  // ---------------------------------------------------------------------------

  /** The cascade row of `sid` will still delete the vector of `tid`. */
  predicate Named(cascade: map<Id, Job>, cleaning: map<Id, Job>, tid: Id, sid: Id) {
    && sid in cascade && tid in cascade[sid].turnIds && tid !in cascade[sid].done
    && (sid in cleaning && cleaning[sid].gen == cascade[sid].gen ==> tid !in cleaning[sid].done)
  }

  predicate Covered(s: State, tid: Id, sid: Id) {
    && sid in s.used
    && (if IsLive(s.sessions, sid) then HasTurn(s.turns, tid, sid)
        else (s.landed && Doc(tid, sid) in s.attempted) || Named(s.cascade, s.cleaning, tid, sid))
  }

  predicate VectorsCovered(s: State) {
    forall tid | tid in s.vectors :: Covered(s, tid, s.vectors[tid])
  }

  predicate AttemptsKnown(s: State) {
    forall d | d in s.attempted ::
      d.session in s.used && (IsLive(s.sessions, d.session) ==> HasTurn(s.turns, d.id, d.session))
  }

  /** Rows of live sessions only; cascade rows of dead sessions only. */
  predicate RowsMatch(s: State) {
    && (forall sid | sid in s.sessions :: sid in s.used)
    && (forall t | t in s.turns :: IsLive(s.sessions, t.session))
    && (forall sid | sid in s.cascade :: sid in s.used && !IsLive(s.sessions, sid))
  }

  /** A job being cleaned is the row it was read from, or an older generation of it. */
  predicate JobsMatch(s: State) {
    forall sid | sid in s.cleaning ::
      && sid in s.cascade && s.cleaning[sid].gen <= s.cascade[sid].gen
      && (s.cleaning[sid].gen == s.cascade[sid].gen ==>
            s.cleaning[sid].turnIds == s.cascade[sid].turnIds && s.cascade[sid].done <= s.cleaning[sid].done)
  }

  predicate Inv(s: State) {
    VectorsCovered(s) && AttemptsKnown(s) && RowsMatch(s) && JobsMatch(s)
  }

  lemma KeepNewSession(s: State, sid: Id, full: bool)
    requires Inv(s) && Enabled(s, NewSession(sid, full))
    ensures Inv(Step(s, NewSession(sid, full)))
  {
  }

  lemma KeepSetTier(s: State, sid: Id, full: bool)
    requires Inv(s) && Enabled(s, SetTier(sid, full))
    ensures Inv(Step(s, SetTier(sid, full)))
  {
  }

  lemma KeepNewTurn(s: State, sid: Id, tid: Id)
    requires Inv(s) && Enabled(s, NewTurn(sid, tid))
    ensures Inv(Step(s, NewTurn(sid, tid)))
  {
  }

  lemma DeleteNames(s: State, tid: Id, of: Id, sid: Id)
    requires Covered(s, tid, of) && RowsMatch(s) && JobsMatch(s)
    ensures Covered(Delete(s, sid), tid, of)
  {
  }

  lemma DeleteKeepsRows(s: State, sid: Id)
    requires AttemptsKnown(s) && RowsMatch(s) && JobsMatch(s)
    ensures AttemptsKnown(Delete(s, sid)) && RowsMatch(Delete(s, sid)) && JobsMatch(Delete(s, sid))
  {
  }

  lemma KeepDelete(s: State, sid: Id)
    requires Inv(s)
    ensures Inv(Step(s, DeleteSession(sid)))
  {
    DeleteKeepsRows(s, sid);
    hide Covered, RowsMatch, JobsMatch, AttemptsKnown;
    forall tid | tid in s.vectors
      ensures Covered(Delete(s, sid), tid, s.vectors[tid])
    {
      DeleteNames(s, tid, s.vectors[tid], sid);
    }
  }

  lemma KeepStartPass(s: State)
    requires Inv(s) && Enabled(s, StartPass)
    ensures Inv(Step(s, StartPass))
  {
  }

  lemma KeepLand(s: State, ids: set<Id>)
    requires Inv(s) && Enabled(s, Land(ids))
    ensures Inv(Step(s, Land(ids)))
  {
  }

  lemma MarkKeepsTurns(turns: seq<Turn>, good: seq<Id>, bad: seq<Id>)
    ensures forall tid, sid :: HasTurn(turns, tid, sid) ==> HasTurn(MarkAll(turns, good, bad), tid, sid)
    ensures forall t | t in MarkAll(turns, good, bad) :: HasTurn(turns, t.id, t.session)
  {
    var marked := MarkAll(turns, good, bad);
    forall tid, sid | HasTurn(turns, tid, sid)
      ensures HasTurn(marked, tid, sid)
    {
      var t :| t in turns && t.id == tid && t.session == sid;
      var i :| 0 <= i < |turns| && turns[i] == t;
      assert marked[i] in marked;
    }
    forall t | t in marked
      ensures HasTurn(turns, t.id, t.session)
    {
      var i :| 0 <= i < |marked| && marked[i] == t;
      assert turns[i] in turns;
    }
  }

  /** Requeueing names every attempted write of a dead session, and forgets none named before. */
  lemma RequeueNames(s: State, tid: Id, sid: Id)
    requires JobsMatch(s) && !IsLive(s.sessions, sid)
    requires Doc(tid, sid) in s.attempted || Named(s.cascade, s.cleaning, tid, sid)
    ensures Named(RequeueDead(s.sessions, s.cascade, s.attempted), s.cleaning, tid, sid)
  {
    var dead := DeadIn(s.sessions, s.attempted);
    if Doc(tid, sid) in s.attempted {
      assert Doc(tid, sid).session in dead;
    }
    if sid in dead {
      assert tid in Requeued(s.cascade, sid, TurnsOf(s.attempted, sid)).turnIds;
    }
  }

  lemma KeepMissing(s: State)
    requires Inv(s) && Enabled(s, EndPass(Missing))
    ensures Inv(EndOfPass(s, Missing))
  {
  }

  lemma RequeueKeepsRows(s: State)
    requires AttemptsKnown(s) && RowsMatch(s) && JobsMatch(s)
    ensures RowsMatch(EndOfPass(s, Outage)) && JobsMatch(EndOfPass(s, Outage))
  {
    hide HasTurn, TurnsOf, AddAll;
  }

  lemma KeepOutage(s: State)
    requires Inv(s)
    ensures Inv(EndOfPass(s, Outage))
  {
    RequeueKeepsRows(s);
    hide Named, HasTurn, RequeueDead, RowsMatch, JobsMatch;
    var t := EndOfPass(s, Outage);
    forall tid | tid in t.vectors
      ensures Covered(t, tid, t.vectors[tid])
    {
      assert Covered(s, tid, s.vectors[tid]);
      if !IsLive(s.sessions, s.vectors[tid]) {
        RequeueNames(s, tid, s.vectors[tid]);
      }
    }
  }

  /** Rows may be rewritten as long as each stays the row of its turn. */
  lemma KeepRewrite(s: State, rows: seq<Turn>)
    requires Inv(s)
    requires forall tid, sid :: HasTurn(s.turns, tid, sid) ==> HasTurn(rows, tid, sid)
    requires forall t | t in rows :: HasTurn(s.turns, t.id, t.session)
    ensures Inv(s.(turns := rows))
  {
    hide Named;
    forall t | t in rows
      ensures IsLive(s.sessions, t.session)
    {
      var before :| before in s.turns && before.id == t.id && before.session == t.session;
    }
    hide HasTurn;
  }

  lemma KeepChecked(s: State, good: seq<Id>, bad: seq<Id>)
    requires Inv(s)
    ensures Inv(EndOfPass(s, Checked(good, bad)))
  {
    KeepOutage(s);
    MarkKeepsTurns(s.turns, good, bad);
    hide Inv, HasTurn, MarkAll, RequeueDead;
    KeepRewrite(EndOfPass(s, Outage), MarkAll(s.turns, good, bad));
  }

  lemma KeepEndPass(s: State, outcome: Outcome)
    requires Inv(s) && Enabled(s, EndPass(outcome))
    ensures Inv(Step(s, EndPass(outcome)))
  {
    hide Inv, EndOfPass;
    match outcome {
      case Missing => KeepMissing(s);
      case Outage => KeepOutage(s);
      case Checked(good, bad) => KeepChecked(s, good, bad);
    }
  }

  lemma KeepStartCleanup(s: State, due: set<Id>)
    requires Inv(s) && Enabled(s, StartCleanup(due))
    ensures Inv(Step(s, StartCleanup(due)))
  {
  }

  lemma KeepDeleteVector(s: State, sid: Id, tid: Id)
    requires Inv(s) && Enabled(s, DeleteVector(sid, tid))
    ensures Inv(Step(s, DeleteVector(sid, tid)))
  {
  }

  /** No vector rests on a job whose deletions are all done. */
  lemma FinishedNamesNothing(s: State, tid: Id, sid: Id, job: Id)
    requires Covered(s, tid, sid) && JobsMatch(s) && Enabled(s, EndJob(job, true))
    ensures var t := Finish(s, job, s.cleaning[job]);
            Covered(t.(cleaning := t.cleaning - {job}), tid, sid)
  {
    hide HasTurn;
  }

  lemma FinishKeepsRows(s: State, job: Id)
    requires RowsMatch(s) && JobsMatch(s) && AttemptsKnown(s) && job in s.cleaning
    ensures var t := Finish(s, job, s.cleaning[job]);
            var u := t.(cleaning := t.cleaning - {job});
            RowsMatch(u) && JobsMatch(u) && AttemptsKnown(u)
  {
    hide HasTurn;
  }

  lemma KeepFinish(s: State, sid: Id)
    requires Inv(s) && Enabled(s, EndJob(sid, true))
    ensures var t := Finish(s, sid, s.cleaning[sid]);
            Inv(t.(cleaning := t.cleaning - {sid}))
  {
    FinishKeepsRows(s, sid);
    hide Covered, RowsMatch, JobsMatch, AttemptsKnown;
    forall tid | tid in s.vectors
      ensures var t := Finish(s, sid, s.cleaning[sid]);
              Covered(t.(cleaning := t.cleaning - {sid}), tid, s.vectors[tid])
    {
      FinishedNamesNothing(s, tid, s.vectors[tid], sid);
    }
  }

  lemma ProgressStillNames(s: State, tid: Id, sid: Id, job: Id)
    requires Covered(s, tid, sid) && JobsMatch(s) && job in s.cleaning
    ensures var t := SaveProgress(s, job, s.cleaning[job]);
            Covered(t.(cleaning := t.cleaning - {job}), tid, sid)
  {
    hide HasTurn;
  }

  lemma ProgressKeepsRows(s: State, job: Id)
    requires RowsMatch(s) && JobsMatch(s) && AttemptsKnown(s) && job in s.cleaning
    ensures var t := SaveProgress(s, job, s.cleaning[job]);
            var u := t.(cleaning := t.cleaning - {job});
            RowsMatch(u) && JobsMatch(u) && AttemptsKnown(u)
  {
    hide HasTurn;
  }

  lemma KeepProgress(s: State, sid: Id)
    requires Inv(s) && sid in s.cleaning
    ensures var t := SaveProgress(s, sid, s.cleaning[sid]);
            Inv(t.(cleaning := t.cleaning - {sid}))
  {
    ProgressKeepsRows(s, sid);
    hide Covered, RowsMatch, JobsMatch, AttemptsKnown;
    forall tid | tid in s.vectors
      ensures var t := SaveProgress(s, sid, s.cleaning[sid]);
              Covered(t.(cleaning := t.cleaning - {sid}), tid, s.vectors[tid])
    {
      ProgressStillNames(s, tid, s.vectors[tid], sid);
    }
  }

  lemma KeepEndJob(s: State, sid: Id, complete: bool)
    requires Inv(s) && Enabled(s, EndJob(sid, complete))
    ensures Inv(Step(s, EndJob(sid, complete)))
  {
    hide Inv, Finish, SaveProgress;
    if complete {
      KeepFinish(s, sid);
    } else {
      KeepProgress(s, sid);
    }
  }

  lemma KeepSweep(s: State, tid: Id)
    requires Inv(s)
    ensures Inv(Step(s, SweepVector(tid)))
  {
  }

  lemma KeepInv(s: State, e: Event)
    requires Inv(s) && Enabled(s, e)
    ensures Inv(Step(s, e))
  {
    hide Inv, Step;
    match e {
      case NewSession(sid, full) => KeepNewSession(s, sid, full);
      case SetTier(sid, full) => KeepSetTier(s, sid, full);
      case NewTurn(sid, tid) => KeepNewTurn(s, sid, tid);
      case DeleteSession(sid) => KeepDelete(s, sid);
      case StartPass => KeepStartPass(s);
      case Land(ids) => KeepLand(s, ids);
      case EndPass(outcome) => KeepEndPass(s, outcome);
      case StartCleanup(due) => KeepStartCleanup(s, due);
      case DeleteVector(sid, tid) => KeepDeleteVector(s, sid, tid);
      case EndJob(sid, complete) => KeepEndJob(s, sid, complete);
      case SweepVector(tid) => KeepSweep(s, tid);
    }
  }

  const EMPTY := State(map[], {}, [], map[], map[], [], false, map[])

  /** The state after a run; `None` when some event could not happen. */
  function Run(events: seq<Event>): Option<State> {
    if |events| == 0 then Some(EMPTY) else
      match Run(events[..|events| - 1])
      case None => None
      case Some(s) => if Enabled(s, events[|events| - 1]) then Some(Step(s, events[|events| - 1])) else None
  }

  lemma {:induction false} RunKeepsInv(events: seq<Event>)
    requires Run(events).Some?
    ensures Inv(Run(events).value)
  {
    if |events| > 0 {
      RunKeepsInv(events[..|events| - 1]);
      hide Inv, Step, Enabled;
      KeepInv(Run(events[..|events| - 1]).value, events[|events| - 1]);
    }
  }

  /** In every interleaving of the embedding lane, the cleanup lane and the users: a vector whose session
      is no longer live is still named in the session's cascade row, with its deletion not recorded as
      done, or was attempted by the running pass, which will name it. */
  lemma DeadVectorsAreNamed(events: seq<Event>, tid: Id)
    requires Run(events).Some? && tid in Run(events).value.vectors
    ensures var s := Run(events).value;
            var sid := s.vectors[tid];
            || IsLive(s.sessions, sid)
            || Doc(tid, sid) in s.attempted
            || (sid in s.cascade && tid in s.cascade[sid].turnIds && tid !in s.cascade[sid].done)
  {
    RunKeepsInv(events);
    hide Run, HasTurn;
    var s := Run(events).value;
    assert Covered(s, tid, s.vectors[tid]);
  }

  // ---------------------------------------------------------------------------
  // The transactions.
  // ---------------------------------------------------------------------------

  /** One `UPDATE` of the rows with that id. */
  function Bump(rows: seq<Turn>, id: Id): (bumped: seq<Turn>)
    ensures |bumped| == |rows|
    ensures forall i | 0 <= i < |rows| :: bumped[i] == if rows[i].id == id then Marked(rows[i], [], [id]) else rows[i]
  {
    if |rows| == 0 then [] else
      [if rows[0].id != id then rows[0]
       else rows[0].(attempts := rows[0].attempts + 1,
                     embedded := if rows[0].attempts + 1 >= MAX_DOC_ATTEMPTS then -1 else rows[0].embedded)]
      + Bump(rows[1..], id)
  }

  function Store(rows: seq<Turn>, id: Id): (stored: seq<Turn>)
    ensures |stored| == |rows|
    ensures forall i | 0 <= i < |rows| :: stored[i] == if rows[i].id == id then rows[i].(embedded := 1) else rows[i]
  {
    if |rows| == 0 then [] else
      [if rows[0].id == id then rows[0].(embedded := 1) else rows[0]] + Store(rows[1..], id)
  }

  /** Count the rejected documents, then mark the stored ones. */
  method MarkTurns(turns: seq<Turn>, good: seq<Id>, bad: seq<Id>) returns (rows: seq<Turn>)
    requires Distinct(bad)
    ensures rows == MarkAll(turns, good, bad)
  {
    rows := turns;
    for i := 0 to |bad|
      invariant rows == MarkAll(turns, [], bad[..i])
    {
      BumpOne(turns, bad, i);
      rows := Bump(rows, bad[i]);
    }
    assert bad[..|bad|] == bad;
    for i := 0 to |good|
      invariant rows == MarkAll(turns, good[..i], bad)
    {
      StoreOne(turns, good, bad, i);
      rows := Store(rows, good[i]);
    }
    assert good[..|good|] == good;
  }

  lemma BumpOne(turns: seq<Turn>, bad: seq<Id>, i: nat)
    requires Distinct(bad) && i < |bad|
    ensures Bump(MarkAll(turns, [], bad[..i]), bad[i]) == MarkAll(turns, [], bad[..i + 1])
  {
    assert bad[..i + 1] == bad[..i] + [bad[i]];
    assert bad[i] !in bad[..i];
  }

  lemma StoreOne(turns: seq<Turn>, good: seq<Id>, bad: seq<Id>, i: nat)
    requires i < |good|
    ensures Store(MarkAll(turns, good[..i], bad), good[i]) == MarkAll(turns, good[..i + 1], bad)
  {
    assert good[..i + 1] == good[..i] + [good[i]];
  }

  /** The dead sessions among the attempted writes, each once, with their turns in order. */
  predicate Grouped(dead: seq<(Id, seq<Id>)>, sessions: map<Id, Session>, attempted: seq<Doc>) {
    EachOnce(dead) && GroupsExact(dead, attempted) && SidsOf(dead) == DeadIn(sessions, attempted)
  }

  predicate EachOnce(dead: seq<(Id, seq<Id>)>) {
    forall i, j | 0 <= i < j < |dead| :: dead[i].0 != dead[j].0
  }

  predicate GroupsExact(dead: seq<(Id, seq<Id>)>, attempted: seq<Doc>) {
    forall i | 0 <= i < |dead| :: dead[i].1 == TurnsOf(attempted, dead[i].0)
  }

  function SidsOf(dead: seq<(Id, seq<Id>)>): set<Id> {
    set d | d in dead :: d.0
  }

  method DeadSessions(sessions: map<Id, Session>, attempted: seq<Doc>) returns (dead: seq<(Id, seq<Id>)>)
    ensures Grouped(dead, sessions, attempted)
  {
    dead := [];
    for k := 0 to |attempted|
      invariant Grouped(dead, sessions, attempted[..k])
    {
      hide Grouped, IsLive;
      var d := attempted[k];
      assert attempted[..k + 1] == attempted[..k] + [d];
      if !IsLive(sessions, d.session) {
        var i := 0;
        while i < |dead| && dead[i].0 != d.session
          invariant i <= |dead| && forall j | 0 <= j < i :: dead[j].0 != d.session
        {
          i := i + 1;
        }
        if i < |dead| {
          GroupedMerge(dead, i, sessions, attempted[..k], d);
          dead := dead[i := (d.session, dead[i].1 + [d.id])];
        } else {
          GroupedNew(dead, sessions, attempted[..k], d);
          dead := dead + [(d.session, [d.id])];
        }
      } else {
        GroupedLive(dead, sessions, attempted[..k], d);
      }
    }
    assert attempted[..|attempted|] == attempted;
  }

  lemma {:induction false} TurnsOfAppend(attempted: seq<Doc>, d: Doc, sid: Id)
    ensures TurnsOf(attempted + [d], sid) == TurnsOf(attempted, sid) + if d.session == sid then [d.id] else []
  {
    if |attempted| > 0 {
      assert (attempted + [d])[1..] == attempted[1..] + [d];
      TurnsOfAppend(attempted[1..], d, sid);
    }
  }

  lemma GroupedLive(dead: seq<(Id, seq<Id>)>, sessions: map<Id, Session>, attempted: seq<Doc>, d: Doc)
    requires Grouped(dead, sessions, attempted) && IsLive(sessions, d.session)
    ensures Grouped(dead, sessions, attempted + [d])
  {
    assert DeadIn(sessions, attempted + [d]) == DeadIn(sessions, attempted);
    forall i | 0 <= i < |dead|
      ensures dead[i].1 == TurnsOf(attempted + [d], dead[i].0)
    {
      assert dead[i] in dead;
      assert dead[i].0 in SidsOf(dead);
      TurnsOfAppend(attempted, d, dead[i].0);
    }
  }

  lemma {:induction false} NoTurnsOf(attempted: seq<Doc>, sid: Id)
    requires forall d | d in attempted :: d.session != sid
    ensures TurnsOf(attempted, sid) == []
  {
    if |attempted| > 0 {
      assert attempted[0] in attempted;
      NoTurnsOf(attempted[1..], sid);
    }
  }

  lemma DeadInAppend(sessions: map<Id, Session>, attempted: seq<Doc>, d: Doc)
    requires !IsLive(sessions, d.session)
    ensures DeadIn(sessions, attempted + [d]) == DeadIn(sessions, attempted) + {d.session}
  {
  }

  /** A write of a dead session joins the group of its session. */
  lemma GroupedMerge(dead: seq<(Id, seq<Id>)>, i: nat, sessions: map<Id, Session>, attempted: seq<Doc>, d: Doc)
    requires Grouped(dead, sessions, attempted) && !IsLive(sessions, d.session)
    requires i < |dead| && dead[i].0 == d.session
    ensures Grouped(dead[i := (d.session, dead[i].1 + [d.id])], sessions, attempted + [d])
  {
    var next := dead[i := (d.session, dead[i].1 + [d.id])];
    DeadInAppend(sessions, attempted, d);
    SameSids(dead, i, next[i]);
    hide DeadIn, SidsOf, TurnsOf;
    forall j | 0 <= j < |next|
      ensures next[j].1 == TurnsOf(attempted + [d], next[j].0)
    {
      TurnsOfAppend(attempted, d, next[j].0);
      assert j != i ==> dead[j].0 != dead[i].0;
    }
  }

  lemma SameSids(dead: seq<(Id, seq<Id>)>, i: nat, group: (Id, seq<Id>))
    requires i < |dead| && group.0 == dead[i].0
    ensures SidsOf(dead[i := group]) == SidsOf(dead)
    ensures dead[i].0 in SidsOf(dead)
  {
    var next := dead[i := group];
    forall sid | sid in SidsOf(dead)
      ensures sid in SidsOf(next)
    {
      var j :| 0 <= j < |dead| && dead[j].0 == sid;
      assert next[j] in next && next[j].0 == sid;
    }
    forall sid | sid in SidsOf(next)
      ensures sid in SidsOf(dead)
    {
      var j :| 0 <= j < |next| && next[j].0 == sid;
      assert dead[j] in dead && dead[j].0 == sid;
    }
    assert dead[i] in dead;
  }

  /** A write of a dead session starts a group at the end. */
  lemma GroupedNew(dead: seq<(Id, seq<Id>)>, sessions: map<Id, Session>, attempted: seq<Doc>, d: Doc)
    requires Grouped(dead, sessions, attempted) && !IsLive(sessions, d.session)
    requires forall j | 0 <= j < |dead| :: dead[j].0 != d.session
    ensures Grouped(dead + [(d.session, [d.id])], sessions, attempted + [d])
  {
    var next := dead + [(d.session, [d.id])];
    assert SidsOf(next) == SidsOf(dead) + {d.session};
    assert d.session !in SidsOf(dead);
    assert forall other | other in attempted ::
      other.session == d.session ==> other.session in DeadIn(sessions, attempted);
    NoTurnsOf(attempted, d.session);
    DeadInAppend(sessions, attempted, d);
    hide DeadIn, SidsOf, TurnsOf;
    forall j | 0 <= j < |next|
      ensures next[j].1 == TurnsOf(attempted + [d], next[j].0)
    {
      TurnsOfAppend(attempted, d, next[j].0);
    }
  }

  /** Queue the cleanup of every session that died meanwhile. */
  method RequeueDeadSessions(sessions: map<Id, Session>, cascade: map<Id, Job>, attempted: seq<Doc>)
    returns (rows: map<Id, Job>)
    ensures rows == RequeueDead(sessions, cascade, attempted)
  {
    hide Requeued, TurnsOf, IsLive, SidsOf, DeadIn;
    var dead := DeadSessions(sessions, attempted);
    rows := cascade;
    NoSids();
    for i := 0 to |dead|
      invariant rows.Keys == cascade.Keys + SidsOf(dead[..i])
      invariant forall sid | sid in rows ::
        rows[sid] == if sid in SidsOf(dead[..i]) then Requeued(cascade, sid, TurnsOf(attempted, sid)) else cascade[sid]
    {
      var (sid, ids) := dead[i];
      NextSid(dead, i);
      SameRow(cascade, rows, sid, ids);
      rows := rows[sid := Requeued(rows, sid, ids)];
    }
    assert dead[..|dead|] == dead;
  }

  lemma NoSids()
    ensures SidsOf([]) == {}
  {
  }

  lemma NextSid(dead: seq<(Id, seq<Id>)>, i: nat)
    requires EachOnce(dead) && i < |dead|
    ensures dead[i].0 !in SidsOf(dead[..i])
    ensures SidsOf(dead[..i + 1]) == SidsOf(dead[..i]) + {dead[i].0}
  {
    assert dead[..i + 1] == dead[..i] + [dead[i]];
  }

  lemma SameRow(a: map<Id, Job>, b: map<Id, Job>, sid: Id, ids: seq<Id>)
    requires sid in a <==> sid in b
    requires sid in a ==> a[sid] == b[sid]
    ensures Requeued(a, sid, ids) == Requeued(b, sid, ids)
  {
  }

  // ---------------------------------------------------------------------------
  // The queue drains.
  // ---------------------------------------------------------------------------

  /** A row waits with fewer than three rejections, is stored, or is given up after exactly three. */
  predicate WellCounted(t: Turn) {
    || (t.embedded == 0 && t.attempts < MAX_DOC_ATTEMPTS)
    || (t.embedded == 1 && t.attempts <= MAX_DOC_ATTEMPTS)
    || (t.embedded == -1 && t.attempts == MAX_DOC_ATTEMPTS)
  }

  predicate Waits(turns: seq<Turn>, id: Id) {
    forall t | t in turns && t.id == id :: t.embedded == 0
  }

  predicate Counts(s: State) {
    && (forall t | t in s.turns :: WellCounted(t))
    && (forall d | d in s.attempted :: Waits(s.turns, d.id))
  }

  /** The rejections that the waiting turns can still take. */
  function Budget(sessions: map<Id, Session>, turns: seq<Turn>): nat {
    if |turns| == 0 then 0 else
      (if IsPending(sessions, turns[0]) && turns[0].attempts < MAX_DOC_ATTEMPTS
       then MAX_DOC_ATTEMPTS - turns[0].attempts else 0) + Budget(sessions, turns[1..])
  }

  predicate Unique(turns: seq<Turn>) {
    forall i, j | 0 <= i < j < |turns| :: turns[i].id != turns[j].id
  }

  /** The rows are sound: unique, well counted, and those being written still wait. */
  predicate Sound(s: State) {
    Unique(s.turns) && Counts(s)
  }

  lemma {:induction false} UniqueWithout(turns: seq<Turn>, sid: Id)
    requires Unique(turns)
    ensures Unique(WithoutSession(turns, sid))
  {
    if |turns| > 0 {
      UniqueWithout(turns[1..], sid);
      var rest := WithoutSession(turns[1..], sid);
      forall j | 0 <= j < |rest|
        ensures rest[j].id != turns[0].id
      {
        assert rest[j] in rest;
        var k :| 0 <= k < |turns[1..]| && turns[1..][k] == rest[j];
        assert turns[k + 1] == rest[j];
      }
    }
  }

  lemma UniqueRow(turns: seq<Turn>, a: Turn, b: Turn)
    requires Unique(turns) && a in turns && b in turns && a.id == b.id
    ensures a == b
  {
  }

  lemma SoundStart(s: State)
    requires Sound(s) && Enabled(s, StartPass)
    ensures Sound(Step(s, StartPass))
  {
    var docs := PendingTurns(s.sessions, s.turns, BATCH);
    forall d | d in docs
      ensures Waits(s.turns, d.id)
    {
      var row :| row in s.turns && row.id == d.id && IsPending(s.sessions, row);
      forall t | t in s.turns && t.id == d.id
        ensures t.embedded == 0
      {
        UniqueRow(s.turns, t, row);
      }
    }
  }

  lemma SoundChecked(s: State, good: seq<Id>, bad: seq<Id>)
    requires Sound(s) && IsSplit(s.attempted, good, bad)
    ensures Sound(EndOfPass(s, Checked(good, bad)))
  {
    hide RequeueDead;
    var rows := MarkAll(s.turns, good, bad);
    forall t | t in rows
      ensures WellCounted(t)
    {
      var i :| 0 <= i < |rows| && rows[i] == t;
      assert s.turns[i] in s.turns;
      if s.turns[i].id in bad {
        var d :| d in s.attempted && d.id == s.turns[i].id;
        assert Waits(s.turns, d.id);
      }
    }
  }

  lemma KeepSound(s: State, e: Event)
    requires Sound(s) && Enabled(s, e)
    ensures Sound(Step(s, e))
  {
    match e {
      case StartPass => SoundStart(s);
      case EndPass(Checked(good, bad)) => SoundChecked(s, good, bad);
      case DeleteSession(sid) => UniqueWithout(s.turns, sid);
      case _ =>
    }
  }

  /** Every run keeps every row waiting with at most two rejections, stored, or given up after three. */
  lemma {:induction false} RowsAreCounted(events: seq<Event>)
    requires Run(events).Some?
    ensures Sound(Run(events).value)
  {
    if |events| > 0 {
      RowsAreCounted(events[..|events| - 1]);
      hide Sound, Step, Enabled;
      KeepSound(Run(events[..|events| - 1]).value, events[|events| - 1]);
    }
  }

  /** Waiting rows among those judged. */
  function Judged(sessions: map<Id, Session>, turns: seq<Turn>, good: seq<Id>, bad: seq<Id>): nat {
    if |turns| == 0 then 0 else
      (if IsPending(sessions, turns[0]) && (turns[0].id in good || turns[0].id in bad) then 1 else 0)
      + Judged(sessions, turns[1..], good, bad)
  }

  lemma {:induction false} BudgetShrinks(sessions: map<Id, Session>, turns: seq<Turn>, good: seq<Id>, bad: seq<Id>)
    requires forall t | t in turns :: WellCounted(t) && (t.id in good || t.id in bad ==> t.embedded == 0)
    ensures Budget(sessions, MarkAll(turns, good, bad)) + Judged(sessions, turns, good, bad) <= Budget(sessions, turns)
  {
    if |turns| > 0 {
      assert turns[0] in turns;
      BudgetShrinks(sessions, turns[1..], good, bad);
    }
  }

  lemma {:induction false} SomeJudged(sessions: map<Id, Session>, turns: seq<Turn>, good: seq<Id>, bad: seq<Id>,
                                      t: Turn)
    requires t in turns && IsPending(sessions, t) && (t.id in good || t.id in bad)
    ensures Judged(sessions, turns, good, bad) > 0
  {
    if turns[0] != t {
      assert turns == [turns[0]] + turns[1..];
      SomeJudged(sessions, turns[1..], good, bad, t);
    }
  }

  /** A pass whose backend answers the probe shrinks what the queue can still cost, unless every turn it
      wrote has left the queue meanwhile. */
  lemma PassMakesProgress(s: State, good: seq<Id>, bad: seq<Id>, t: Turn)
    requires Sound(s) && IsSplit(s.attempted, good, bad)
    requires t in s.turns && IsPending(s.sessions, t) && IsAttempted(s.attempted, t.id)
    ensures var after := EndOfPass(s, Checked(good, bad));
            Budget(after.sessions, after.turns) < Budget(s.sessions, s.turns)
  {
    hide RequeueDead, MarkAll, Budget, Judged;
    forall row | row in s.turns && (row.id in good || row.id in bad)
      ensures row.embedded == 0
    {
      assert IsAttempted(s.attempted, row.id);
    }
    BudgetShrinks(s.sessions, s.turns, good, bad);
    SomeJudged(s.sessions, s.turns, good, bad, t);
  }

  /** Only a new turn or a change of tier makes the queue more costly; an outage leaves every row alone. */
  lemma QueueOnlyShrinks(s: State, e: Event)
    requires Inv(s) && Sound(s) && Enabled(s, e) && !e.NewTurn? && !e.SetTier?
    ensures var t := Step(s, e);
            && Budget(t.sessions, t.turns) <= Budget(s.sessions, s.turns)
            && (e.EndPass? && !e.outcome.Checked? ==> t.turns == s.turns)
  {
    hide Budget, MarkAll, RequeueDead;
    match e {
      case NewSession(sid, full) =>
        SameBudget(s.sessions, s.sessions[sid := Live(full)], s.turns);
      case DeleteSession(sid) =>
        if IsLive(s.sessions, sid) {
          BudgetWithout(s.sessions, s.turns, sid);
        }
      case EndPass(Checked(good, bad)) =>
        forall row | row in s.turns && (row.id in good || row.id in bad)
          ensures row.embedded == 0
        {
          assert IsAttempted(s.attempted, row.id);
        }
        BudgetShrinks(s.sessions, s.turns, good, bad);
      case EndJob(sid, complete) =>
        assert sid in s.cascade;
        SameBudget(s.sessions, s.sessions - {sid}, s.turns);
      case _ =>
    }
  }

  lemma {:induction false} SameBudget(a: map<Id, Session>, b: map<Id, Session>, turns: seq<Turn>)
    requires forall t | t in turns :: IsPending(a, t) <==> IsPending(b, t)
    ensures Budget(a, turns) == Budget(b, turns)
  {
    hide IsPending;
    if |turns| > 0 {
      assert turns[0] in turns;
      SameBudget(a, b, turns[1..]);
    }
  }

  lemma {:induction false} BudgetWithout(sessions: map<Id, Session>, turns: seq<Turn>, sid: Id)
    ensures Budget(sessions[sid := Deleting], WithoutSession(turns, sid)) <= Budget(sessions, turns)
  {
    if |turns| > 0 {
      BudgetWithout(sessions, turns[1..], sid);
      var left := WithoutSession(turns[1..], sid);
      assert [] + left == left && ([turns[0]] + left)[1..] == left;
    }
  }

  /** What the vector store says of the next document; it rejects those after the end of the script. */
  predicate Accepts(verdicts: seq<bool>, k: nat) {
    k < |verdicts| && verdicts[k]
  }

  /** One round of verdicts, document by document. */
  method Judge(docs: seq<Doc>, verdicts: seq<bool>) returns (good: seq<Id>, bad: seq<Id>)
    requires DistinctDocs(docs)
    ensures IsSplit(docs, good, bad)
    ensures forall k | 0 <= k < |docs| :: docs[k].id in good <==> Accepts(verdicts, k)
  {
    good, bad := [], [];
    for k := 0 to |docs|
      invariant IsSplit(docs[..k], good, bad)
      invariant forall j | 0 <= j < k :: docs[j].id in good <==> Accepts(verdicts, j)
    {
      SplitNext(docs, k, good, bad);
      if Accepts(verdicts, k) {
        good := good + [docs[k].id];
      } else {
        bad := bad + [docs[k].id];
      }
    }
    assert docs[..|docs|] == docs;
  }

  lemma SplitNext(docs: seq<Doc>, k: nat, good: seq<Id>, bad: seq<Id>)
    requires k < |docs| && IsSplit(docs[..k], good, bad)
    requires DistinctDocs(docs)
    ensures IsSplit(docs[..k + 1], good + [docs[k].id], bad)
    ensures IsSplit(docs[..k + 1], good, bad + [docs[k].id])
  {
    var id := docs[k].id;
    assert docs[..k + 1] == docs[..k] + [docs[k]];
    assert id !in good && id !in bad by {
      assert !IsAttempted(docs[..k], id);
    }
    forall other | other in good || other in bad
      ensures IsAttempted(docs[..k + 1], other)
    {
      var d :| d in docs[..k] && d.id == other;
      assert d in docs[..k + 1];
    }
    assert docs[k] in docs[..k + 1];
  }

  /** A row as its pass leaves it: stored, given up after exactly three rejections, or untouched because
      it was not in the queue. */
  predicate Settled(sessions: map<Id, Session>, before: Turn, after: Turn) {
    && after.id == before.id && after.session == before.session
    && if IsPending(sessions, before)
       then after.embedded == 1 || (after.embedded == -1 && after.attempts == MAX_DOC_ATTEMPTS)
       else after == before
  }

  predicate Evolved(sessions: map<Id, Session>, before: Turn, after: Turn) {
    && after.id == before.id && after.session == before.session
    && (!IsPending(sessions, before) ==> after == before)
    && (IsPending(sessions, before) ==> WellCounted(after))
  }

  lemma NotAgain(sessions: map<Id, Session>, turns: seq<Turn>, limit: nat, d: Doc)
    requires Unique(turns) && |turns| > 0 && d in PendingTurns(sessions, turns[1..], limit)
    ensures d.id != turns[0].id
  {
    hide IsPending;
    var t :| t in turns[1..] && t.id == d.id && IsPending(sessions, t);
    var k :| 0 <= k < |turns[1..]| && turns[1..][k] == t;
    assert turns[k + 1] == t;
  }

  lemma {:induction false} DocsAreDistinct(sessions: map<Id, Session>, turns: seq<Turn>, limit: nat)
    requires Unique(turns)
    ensures DistinctDocs(PendingTurns(sessions, turns, limit))
    decreases |turns|
  {
    hide IsPending;
    if |turns| > 0 && limit > 0 {
      DocsAreDistinct(sessions, turns[1..], limit);
      DocsAreDistinct(sessions, turns[1..], limit - 1);
      var rest := PendingTurns(sessions, turns[1..], limit - 1);
      forall j | 0 <= j < |rest|
        ensures rest[j].id != turns[0].id
      {
        NotAgain(sessions, turns, limit - 1, rest[j]);
      }
      var docs := PendingTurns(sessions, turns, limit);
      if IsPending(sessions, turns[0]) {
        assert docs == [Doc(turns[0].id, turns[0].session)] + rest;
      } else {
        assert docs == PendingTurns(sessions, turns[1..], limit);
      }
    }
  }

  lemma {:induction false} EmptyMeansNone(sessions: map<Id, Session>, turns: seq<Turn>, limit: nat)
    requires limit > 0 && PendingTurns(sessions, turns, limit) == []
    ensures forall t | t in turns :: !IsPending(sessions, t)
    decreases |turns|
  {
    hide IsPending;
    if |turns| > 0 {
      EmptyMeansNone(sessions, turns[1..], limit);
    }
  }

  /** The verdicts of one round, each with its document. */
  function Round(docs: seq<Doc>, verdicts: seq<bool>): (log: seq<(Id, bool)>)
    ensures |log| == |docs|
  {
    seq(|docs|, k requires 0 <= k < |docs| => (docs[k].id, Accepts(verdicts, k)))
  }

  function Drop<T>(s: seq<T>, n: nat): seq<T> {
    if n < |s| then s[n..] else []
  }

  /** The row after the verdicts in the log: each rejection is counted, and a row that waited is stored exactly
      when a verdict accepted it. */
  predicate Logged(before: Turn, after: Turn, log: seq<(Id, bool)>) {
    && after.attempts == before.attempts + multiset(log)[(before.id, false)]
    && (before.embedded == 0 ==> (after.embedded == 1 <==> (before.id, true) in log))
  }

  /** Passes over a fixed queue, with any verdicts: they end, and leave every waiting turn stored or given
      up after exactly three rejections, as the verdicts said. */
  method Drain(sessions: map<Id, Session>, turns: seq<Turn>, verdicts: seq<bool>)
    returns (rows: seq<Turn>, ghost log: seq<(Id, bool)>)
    requires Unique(turns) && forall t | t in turns :: WellCounted(t)
    ensures |rows| == |turns| && forall i | 0 <= i < |turns| :: Settled(sessions, turns[i], rows[i])
    ensures forall i | 0 <= i < |turns| :: Logged(turns[i], rows[i], log)
    ensures forall k | 0 <= k < |log| :: log[k].1 == Accepts(verdicts, k)
  {
    hide PendingTurns, MarkAll, Budget, Judged, IsPending, Logged, Accepts;
    rows, log := turns, [];
    var left := verdicts;
    NothingLogged(turns);
    while true
      invariant |rows| == |turns| && forall i | 0 <= i < |turns| :: Evolved(sessions, turns[i], rows[i])
      invariant Unique(rows) && forall t | t in rows :: WellCounted(t)
      invariant forall i | 0 <= i < |turns| :: Logged(turns[i], rows[i], log)
      invariant left == Drop(verdicts, |log|) && forall k | 0 <= k < |log| :: log[k].1 == Accepts(verdicts, k)
      decreases Budget(sessions, rows)
    {
      var docs := PendingTurns(sessions, rows, BATCH);
      if docs == [] {
        EmptyMeansNone(sessions, rows, BATCH);
        NoneWaits(sessions, turns, rows);
        return;
      }
      DocsAreDistinct(sessions, rows, BATCH);
      var good, bad := Judge(docs, left);
      RoundKeeps(sessions, turns, rows, docs, good, bad);
      RoundIsLogged(sessions, turns, rows, docs, left, good, bad, log);
      RoundContinues(docs, verdicts, |log|);
      log := log + Round(docs, left);
      left := Drop(left, |docs|);
      rows := MarkTurns(rows, good, bad);
    }
  }

  lemma NothingLogged(turns: seq<Turn>)
    requires forall t | t in turns :: WellCounted(t)
    ensures forall i | 0 <= i < |turns| :: Logged(turns[i], turns[i], [])
  {
  }

  lemma RoundContinues(docs: seq<Doc>, verdicts: seq<bool>, n: nat)
    ensures Drop(Drop(verdicts, n), |docs|) == Drop(verdicts, n + |docs|)
    ensures forall k | 0 <= k < |docs| :: Round(docs, Drop(verdicts, n))[k].1 == Accepts(verdicts, n + k)
  {
  }

  /** Each verdict of a round stands in it once. */
  lemma {:induction false} RoundCounts(docs: seq<Doc>, verdicts: seq<bool>, id: Id, accepted: bool)
    requires DistinctDocs(docs)
    ensures multiset(Round(docs, verdicts))[(id, accepted)] ==
            if exists k :: 0 <= k < |docs| && docs[k].id == id && Accepts(verdicts, k) == accepted then 1 else 0
  {
    if |docs| > 0 {
      var n := |docs| - 1;
      RoundCounts(docs[..n], verdicts, id, accepted);
      assert Round(docs, verdicts) == Round(docs[..n], verdicts) + [(docs[n].id, Accepts(verdicts, n))];
      assert forall k | 0 <= k < n :: docs[..n][k] == docs[k];
    }
  }

  lemma RowIsLogged(sessions: map<Id, Session>, before: Turn, row: Turn, docs: seq<Doc>, verdicts: seq<bool>,
                    good: seq<Id>, bad: seq<Id>, log: seq<(Id, bool)>)
    requires DistinctDocs(docs) && IsSplit(docs, good, bad)
    requires forall k | 0 <= k < |docs| :: docs[k].id in good <==> Accepts(verdicts, k)
    requires Evolved(sessions, before, row) && Logged(before, row, log)
    requires row.id in good || row.id in bad ==> IsPending(sessions, row)
    ensures Logged(before, Marked(row, good, bad), log + Round(docs, verdicts))
  {
    var (id, round) := (before.id, Round(docs, verdicts));
    RoundCounts(docs, verdicts, id, true);
    RoundCounts(docs, verdicts, id, false);
    assert multiset(log + round) == multiset(log) + multiset(round);
    assert (id, true) in log + round <==> multiset(log + round)[(id, true)] > 0;
    hide Round, Accepts;
    VerdictOf(docs, good, bad, id);
  }

  /** A judged document is one of those of the round. */
  lemma VerdictOf(docs: seq<Doc>, good: seq<Id>, bad: seq<Id>, id: Id)
    requires DistinctDocs(docs) && IsSplit(docs, good, bad)
    ensures id in good <==> exists k :: 0 <= k < |docs| && docs[k].id == id && docs[k].id in good
    ensures id in bad <==> exists k :: 0 <= k < |docs| && docs[k].id == id && docs[k].id !in good
  {
    assert forall k | 0 <= k < |docs| :: docs[k] in docs;
    if id in good || id in bad {
      assert IsAttempted(docs, id);
      var d :| d in docs && d.id == id;
      var k :| 0 <= k < |docs| && docs[k] == d;
    }
  }

  lemma RoundIsLogged(sessions: map<Id, Session>, turns: seq<Turn>, rows: seq<Turn>, docs: seq<Doc>,
                      verdicts: seq<bool>, good: seq<Id>, bad: seq<Id>, log: seq<(Id, bool)>)
    requires Unique(rows) && |rows| == |turns|
    requires forall i | 0 <= i < |turns| :: Evolved(sessions, turns[i], rows[i]) && Logged(turns[i], rows[i], log)
    requires docs == PendingTurns(sessions, rows, BATCH) && DistinctDocs(docs) && IsSplit(docs, good, bad)
    requires forall k | 0 <= k < |docs| :: docs[k].id in good <==> Accepts(verdicts, k)
    ensures forall i | 0 <= i < |turns| ::
              Logged(turns[i], MarkAll(rows, good, bad)[i], log + Round(docs, verdicts))
  {
    hide Evolved, Logged, IsPending, PendingTurns, Marked, Round, DistinctDocs, IsSplit, Accepts, MarkAll;
    forall i | 0 <= i < |turns|
      ensures Logged(turns[i], MarkAll(rows, good, bad)[i], log + Round(docs, verdicts))
    {
      assert rows[i] in rows;
      if rows[i].id in good || rows[i].id in bad {
        JudgedWait(sessions, rows, docs, good, bad, rows[i]);
      }
      RowIsLogged(sessions, turns[i], rows[i], docs, verdicts, good, bad, log);
    }
  }

  lemma NoneWaits(sessions: map<Id, Session>, turns: seq<Turn>, rows: seq<Turn>)
    requires |rows| == |turns| && forall i | 0 <= i < |turns| :: Evolved(sessions, turns[i], rows[i])
    requires forall t | t in rows :: !IsPending(sessions, t)
    ensures forall i | 0 <= i < |turns| :: Settled(sessions, turns[i], rows[i])
  {
    forall i | 0 <= i < |turns|
      ensures Settled(sessions, turns[i], rows[i])
    {
      assert rows[i] in rows;
    }
  }

  lemma JudgedWait(sessions: map<Id, Session>, rows: seq<Turn>, docs: seq<Doc>, good: seq<Id>, bad: seq<Id>, t: Turn)
    requires Unique(rows) && docs == PendingTurns(sessions, rows, BATCH) && IsSplit(docs, good, bad)
    requires t in rows && (t.id in good || t.id in bad)
    ensures IsPending(sessions, t)
  {
    assert IsAttempted(docs, t.id);
    var d :| d in docs && d.id == t.id;
    var row :| row in rows && row.id == d.id && IsPending(sessions, row);
    UniqueRow(rows, t, row);
  }

  lemma RowKeeps(sessions: map<Id, Session>, before: Turn, row: Turn, good: seq<Id>, bad: seq<Id>)
    requires WellCounted(row) && Evolved(sessions, before, row)
    requires row.id in good || row.id in bad ==> IsPending(sessions, row)
    ensures WellCounted(Marked(row, good, bad)) && Evolved(sessions, before, Marked(row, good, bad))
  {
  }

  lemma RoundKeeps(sessions: map<Id, Session>, turns: seq<Turn>, rows: seq<Turn>, docs: seq<Doc>,
                   good: seq<Id>, bad: seq<Id>)
    requires Unique(rows) && forall t | t in rows :: WellCounted(t)
    requires |rows| == |turns| && forall i | 0 <= i < |turns| :: Evolved(sessions, turns[i], rows[i])
    requires docs == PendingTurns(sessions, rows, BATCH) && docs != [] && IsSplit(docs, good, bad)
    ensures var next := MarkAll(rows, good, bad);
            && Unique(next) && (forall t | t in next :: WellCounted(t))
            && (forall i | 0 <= i < |turns| :: Evolved(sessions, turns[i], next[i]))
            && Budget(sessions, next) < Budget(sessions, rows)
  {
    hide WellCounted, Evolved, PendingTurns, Budget, Judged, Marked, MarkAll;
    var next := MarkAll(rows, good, bad);
    forall i | 0 <= i < |rows|
      ensures next[i].id == rows[i].id && WellCounted(next[i]) && Evolved(sessions, turns[i], next[i])
    {
      assert rows[i] in rows;
      if rows[i].id in good || rows[i].id in bad {
        JudgedWait(sessions, rows, docs, good, bad, rows[i]);
      }
      RowKeeps(sessions, turns[i], rows[i], good, bad);
      MarkedKeepsId(rows[i], good, bad);
    }
    RoundShrinks(sessions, rows, docs, good, bad);
  }

  lemma MarkedKeepsId(row: Turn, good: seq<Id>, bad: seq<Id>)
    ensures Marked(row, good, bad).id == row.id
  {
  }

  lemma RoundShrinks(sessions: map<Id, Session>, rows: seq<Turn>, docs: seq<Doc>, good: seq<Id>, bad: seq<Id>)
    requires Unique(rows) && forall t | t in rows :: WellCounted(t)
    requires docs == PendingTurns(sessions, rows, BATCH) && docs != [] && IsSplit(docs, good, bad)
    ensures Budget(sessions, MarkAll(rows, good, bad)) < Budget(sessions, rows)
  {
    hide WellCounted, Budget, Judged, MarkAll;
    assert docs[0] in docs;
    var first :| first in rows && first.id == docs[0].id && IsPending(sessions, first);
    forall t | t in rows && (t.id in good || t.id in bad)
      ensures t.embedded == 0
    {
      JudgedWait(sessions, rows, docs, good, bad, t);
    }
    BudgetShrinks(sessions, rows, good, bad);
    SomeJudged(sessions, rows, good, bad, first);
  }
}
