/** One embedding pass step by step. At every remote call the other lane and the users may do anything
    that module `Embed` allows them; what the vector store answers is an arbitrary script. */
module EmbedPass {
  import opened Embed
  import opened Text

  datatype Reply = Stored | PluginMissing | Failed

  /** An event of the embedding lane itself. */
  predicate IsOwn(e: Event) {
    e.StartPass? || e.Land? || e.EndPass?
  }

  lemma OthersKeepPass(s: State, e: Event)
    requires Enabled(s, e) && !IsOwn(e)
    ensures Step(s, e).attempted == s.attempted && Step(s, e).landed == s.landed
  {
  }

  // ---------------------------------------------------------------------------
  // What the answers of the vector store mean for the rows.
  // ---------------------------------------------------------------------------

  /** The store answers nothing after the end of its script. */
  function ReplyAt(replies: seq<Reply>, k: nat): Reply {
    if k < |replies| then replies[k] else Failed
  }

  function PlaceOf(docs: seq<Doc>, id: Id): (k: nat)
    requires IsAttempted(docs, id)
    ensures k < |docs| && docs[k].id == id
  {
    if docs[0].id == id then 0 else 1 + PlaceOf(docs[1..], id)
  }

  datatype Fate = Untouched | Kept | Rejected

  /** What becomes of a row in a pass over `docs`: the batch is stored as a whole, or left alone when the plugin is
      missing or its backend down; otherwise the row's own reply decides, the one after the batch's for the first
      document, and so on. */
  function FateOf(docs: seq<Doc>, replies: seq<Reply>, alive: bool, id: Id): Fate {
    if !IsAttempted(docs, id) then Untouched
    else
      match ReplyAt(replies, 0)
      case Stored => Kept
      case PluginMissing => Untouched
      case Failed =>
        if !alive then Untouched
        else if ReplyAt(replies, 1 + PlaceOf(docs, id)).Stored? then Kept
        else Rejected
  }

  /** The row after its fate: stored with no rejection counted, or one rejection more, given up with the third. */
  predicate Treated(before: Turn, after: Turn, fate: Fate) {
    && after.id == before.id && after.session == before.session
    && match fate
       case Untouched => after == before
       case Kept => after.embedded == 1 && after.attempts == before.attempts
       case Rejected =>
         && after.attempts == before.attempts + 1
         && after.embedded == if before.attempts + 1 >= 3 then -1 else before.embedded
  }

  predicate AllTreated(before: seq<Turn>, after: seq<Turn>, docs: seq<Doc>, replies: seq<Reply>, alive: bool) {
    && |after| == |before|
    && forall i | 0 <= i < |before| :: Treated(before[i], after[i], FateOf(docs, replies, alive, before[i].id))
  }

  /** What the others do to the rows: some go, new ones come, none changes. */
  predicate Moved(before: seq<Turn>, after: seq<Turn>) {
    forall t | t in after :: t in before || (t.embedded == 0 && t.attempts == 0)
  }

  lemma OthersMoveRows(s: State, e: Event)
    requires Enabled(s, e) && (!IsOwn(e) || e.Land?)
    ensures Moved(s.turns, Step(s, e).turns)
  {
  }

  lemma MovedTwice(a: seq<Turn>, b: seq<Turn>, c: seq<Turn>)
    requires Moved(a, b) && Moved(b, c)
    ensures Moved(a, c)
  {
  }

  /** The verdicts of a pass say what its replies say. */
  predicate VerdictsAre(docs: seq<Doc>, good: seq<Id>, bad: seq<Id>, replies: seq<Reply>, alive: bool) {
    && IsSplit(docs, good, bad)
    && forall k | 0 <= k < |docs| :: docs[k].id in good <==>
         ReplyAt(replies, 0).Stored? || (ReplyAt(replies, 0).Failed? && alive && ReplyAt(replies, 1 + k).Stored?)
  }

  lemma RowIsTreated(docs: seq<Doc>, good: seq<Id>, bad: seq<Id>, replies: seq<Reply>, alive: bool, row: Turn)
    requires DistinctDocs(docs) && VerdictsAre(docs, good, bad, replies, alive)
    requires ReplyAt(replies, 0).Stored? || (ReplyAt(replies, 0).Failed? && alive)
    ensures Treated(row, Marked(row, good, bad), FateOf(docs, replies, alive, row.id))
  {
    if IsAttempted(docs, row.id) {
      var k := PlaceOf(docs, row.id);
      assert docs[k] in docs;
    }
  }

  lemma CheckedTreats(rows: seq<Turn>, docs: seq<Doc>, good: seq<Id>, bad: seq<Id>, replies: seq<Reply>, alive: bool)
    requires DistinctDocs(docs) && VerdictsAre(docs, good, bad, replies, alive)
    requires ReplyAt(replies, 0).Stored? || (ReplyAt(replies, 0).Failed? && alive)
    ensures AllTreated(rows, MarkAll(rows, good, bad), docs, replies, alive)
  {
    hide VerdictsAre, Treated, Marked, MarkAll, FateOf, DistinctDocs;
    forall i | 0 <= i < |rows|
      ensures Treated(rows[i], MarkAll(rows, good, bad)[i], FateOf(docs, replies, alive, rows[i].id))
    {
      RowIsTreated(docs, good, bad, replies, alive, rows[i]);
    }
  }

  /** Without verdicts every row is left alone. */
  lemma NothingIsTreated(rows: seq<Turn>, docs: seq<Doc>, replies: seq<Reply>, alive: bool)
    requires docs == [] || ReplyAt(replies, 0).PluginMissing? || (ReplyAt(replies, 0).Failed? && !alive)
    ensures AllTreated(rows, rows, docs, replies, alive)
  {
  }

  // ---------------------------------------------------------------------------
  // The pass.
  // ---------------------------------------------------------------------------

  /** Every vector of a session that is no longer live is named, not yet deleted, in a cascade row. */
  predicate NoneForgotten(s: State) {
    forall tid | tid in s.vectors && !IsLive(s.sessions, s.vectors[tid]) ::
      Named(s.cascade, s.cleaning, tid, s.vectors[tid])
  }

  lemma IdleForgetsNone(s: State)
    requires Inv(s) && s.attempted == []
    ensures NoneForgotten(s)
  {
    forall tid | tid in s.vectors && !IsLive(s.sessions, s.vectors[tid])
      ensures Named(s.cascade, s.cleaning, tid, s.vectors[tid])
    {
      assert Covered(s, tid, s.vectors[tid]);
    }
  }

  /** `replies` and `probes` are what the vector store will answer: to the writes, and to the question whether its
      backend is well. */
  class Lane {
    var s: State
    var replies: seq<Reply>
    var probes: seq<bool>

    ghost predicate Ok()
      reads this
    {
      Inv(s) && Sound(s)
    }

    method Happen(e: Event)
      requires Ok() && Enabled(s, e)
      modifies this`s
      ensures Ok() && s == Step(old(s), e)
    {
      hide Inv, Sound, Enabled, Step;
      KeepInv(s, e);
      KeepSound(s, e);
      s := Step(s, e);
    }

    /** Backend trouble: only queue the cleanup of the sessions that died. */
    method EndInOutage()
      requires Ok() && Enabled(s, EndPass(Outage))
      modifies this`s
      ensures Ok() && s == Step(old(s), EndPass(Outage))
    {
      KeepInv(s, EndPass(Outage));
      KeepSound(s, EndPass(Outage));
      hide Inv, Sound, RequeueDead;
      var rows := RequeueDeadSessions(s.sessions, s.cascade, s.attempted);
      s := s.(cascade := rows, attempted := [], landed := false);
    }

    /** The closing transactions: count the rejections, mark the stored turns, queue the cleanup. */
    method EndChecked(good: seq<Id>, bad: seq<Id>)
      requires Ok() && Enabled(s, EndPass(Checked(good, bad)))
      modifies this`s
      ensures Ok() && s == Step(old(s), EndPass(Checked(good, bad)))
    {
      KeepInv(s, EndPass(Checked(good, bad)));
      KeepSound(s, EndPass(Checked(good, bad)));
      hide Inv, Sound, RequeueDead, MarkAll;
      var turns := MarkTurns(s.turns, good, bad);
      var rows := RequeueDeadSessions(s.sessions, s.cascade, s.attempted);
      s := s.(turns := turns, cascade := rows, attempted := [], landed := false);
    }

    /** Time passes: the others act. */
    method Await()
      requires Ok()
      modifies this`s
      ensures Ok() && s.attempted == old(s.attempted) && s.landed == old(s.landed)
      ensures Moved(old(s.turns), s.turns)
    {
      hide Inv, Sound, Moved;
      var n: nat :| true;
      NobodyMoves(s.turns);
      for i := 0 to n
        invariant Ok() && s.attempted == old(s.attempted) && s.landed == old(s.landed)
        invariant Moved(old(s.turns), s.turns)
      {
        assert Enabled(s, SweepVector("")) && !IsOwn(SweepVector(""));
        var e: Event :| Enabled(s, e) && !IsOwn(e);
        ghost var before := s.turns;
        OthersMoveRows(s, e);
        hide Enabled, Step;
        OthersKeepPass(s, e);
        Happen(e);
        MovedTwice(old(s.turns), before, s.turns);
      }
    }

    /** `vec_upsert_batch` of some of the attempted documents: whatever it answers, some of these writes may
        have landed by then, except that a missing plugin has written nothing. */
    method Upsert(docs: seq<Doc>) returns (reply: Reply)
      requires Ok() && s.attempted != [] && forall doc | doc in docs :: doc in s.attempted
      modifies this`s, this`replies
      ensures Ok() && s.attempted == old(s.attempted) && Moved(old(s.turns), s.turns)
      ensures reply.PluginMissing? ==> s.landed == old(s.landed)
      ensures reply == ReplyAt(old(replies), 0) && replies == Drop(old(replies), 1)
    {
      hide Inv, Sound, Step, Moved;
      Await();
      reply := ReplyAt(replies, 0);
      replies := Drop(replies, 1);
      if !reply.PluginMissing? {
        assert {} <= (set doc | doc in docs :: doc.id);
        var landed: set<Id> :| landed <= (set doc | doc in docs :: doc.id);
        LandKeepsPass(s, landed);
        ghost var before := s.turns;
        OthersMoveRows(s, Land(landed));
        Happen(Land(landed));
        MovedTwice(old(s.turns), before, s.turns);
      }
      ghost var middle := s.turns;
      Await();
      MovedTwice(old(s.turns), middle, s.turns);
    }

    /** `vec_stats`: whether the backend is well. */
    method Probe() returns (alive: bool)
      requires Ok()
      modifies this`s, this`probes
      ensures Ok() && s.attempted == old(s.attempted) && s.landed == old(s.landed)
      ensures Moved(old(s.turns), s.turns)
      ensures alive == Accepts(old(probes), 0) && probes == Drop(old(probes), 1)
    {
      hide Inv, Sound, Moved;
      Await();
      alive := Accepts(probes, 0);
      probes := Drop(probes, 1);
    }

    /** Embed the first waiting turns. The pass ends with every vector of a dead session named for cleanup,
        whatever happened meanwhile. `rows` are the rows when it closes; each has then the fate that the store's
        answers give it. */
    method EmbedTurns() returns (outcome: Option<Outcome>, ghost rows: seq<Turn>)
      requires Ok() && s.attempted == []
      modifies this
      ensures Ok() && s.attempted == [] && NoneForgotten(s)
      ensures outcome.None? <==> PendingTurns(old(s.sessions), old(s.turns), BATCH) == []
      ensures Moved(old(s.turns), rows)
      ensures var docs := PendingTurns(old(s.sessions), old(s.turns), BATCH);
              AllTreated(rows, s.turns, docs, old(replies), Accepts(old(probes), 0))
    {
      hide Inv, Step, Enabled, NoneForgotten, Counts, Moved, AllTreated, VerdictsAre, DistinctDocs, IsSplit;
      var docs := PendingTurns(s.sessions, s.turns, BATCH);
      ghost var script, well, first := replies, Accepts(probes, 0), s.turns;
      StartEnabled(s);
      DocsAreDistinct(s.sessions, s.turns, BATCH);
      Happen(StartPass);
      rows := s.turns;
      if docs == [] {
        NobodyMoves(rows);
        NothingIsTreated(rows, docs, script, well);
        IdleForgetsNone(s);
        return None, rows;
      }
      var batch := Upsert(docs);
      rows := s.turns;
      var good, bad: seq<Id> := [], [];
      if batch.Stored? {
        good := AllIds(docs);
        StoredVerdicts(docs, good, script, well);
      } else if batch.PluginMissing? {
        EndEnabled(s, Missing);
        Happen(EndPass(Missing));
        NothingIsTreated(rows, docs, script, well);
        IdleForgetsNone(s);
        return Some(Missing), rows;
      } else {
        var alive := Probe();
        MovedTwice(first, rows, s.turns);
        rows := s.turns;
        if !alive {
          EndEnabled(s, Outage);
          EndInOutage();
          NothingIsTreated(rows, docs, script, well);
          IdleForgetsNone(s);
          return Some(Outage), rows;
        }
        good, bad := OneByOne(docs);
        OwnVerdicts(docs, good, bad, script);
        MovedTwice(first, rows, s.turns);
        rows := s.turns;
      }
      Await();
      MovedTwice(first, rows, s.turns);
      rows := s.turns;
      EndEnabled(s, Checked(good, bad));
      EndChecked(good, bad);
      CheckedTreats(rows, docs, good, bad, script, well);
      IdleForgetsNone(s);
      return Some(Checked(good, bad)), rows;
    }

    /** The batch failed although the backend is well: write document by document. The good ones are exactly those
        whose own reply was `Stored`. */
    method OneByOne(docs: seq<Doc>) returns (good: seq<Id>, bad: seq<Id>)
      requires Ok() && s.attempted == docs && docs != []
      requires DistinctDocs(docs)
      modifies this`s, this`replies
      ensures Ok() && s.attempted == old(s.attempted) && Moved(old(s.turns), s.turns)
      ensures IsSplit(docs, good, bad)
      ensures forall k | 0 <= k < |docs| :: docs[k].id in good <==> ReplyAt(old(replies), k).Stored?
      ensures forall k | 0 <= k < |docs| :: docs[k].id in bad <==> !ReplyAt(old(replies), k).Stored?
      ensures replies == Drop(old(replies), |docs|)
    {
      hide Inv, Sound, IsSplit, Moved;
      good, bad := [], [];
      NoSplit();
      NobodyMoves(s.turns);
      for k := 0 to |docs|
        invariant Ok() && s.attempted == old(s.attempted) && Moved(old(s.turns), s.turns)
        invariant IsSplit(docs[..k], good, bad)
        invariant forall j | 0 <= j < k :: docs[j].id in good <==> ReplyAt(old(replies), j).Stored?
        invariant replies == Drop(old(replies), k)
      {
        ghost var before := s.turns;
        var one := Upsert([docs[k]]);
        MovedTwice(old(s.turns), before, s.turns);
        SplitNext(docs, k, good, bad);
        IdIsNew(docs, k, good, bad);
        if one.Stored? {
          good := good + [docs[k].id];
        } else {
          bad := bad + [docs[k].id];
        }
      }
      assert docs[..|docs|] == docs;
      BadAreTheRest(docs, good, bad);
    }
  }

  lemma NobodyMoves(rows: seq<Turn>)
    ensures Moved(rows, rows)
  {
  }

  lemma IdIsNew(docs: seq<Doc>, k: nat, good: seq<Id>, bad: seq<Id>)
    requires DistinctDocs(docs) && k < |docs| && IsSplit(docs[..k], good, bad)
    ensures docs[k].id !in good && docs[k].id !in bad
  {
    assert !IsAttempted(docs[..k], docs[k].id);
  }

  lemma BadAreTheRest(docs: seq<Doc>, good: seq<Id>, bad: seq<Id>)
    requires IsSplit(docs, good, bad)
    ensures forall k | 0 <= k < |docs| :: docs[k].id in bad <==> docs[k].id !in good
  {
    assert forall k | 0 <= k < |docs| :: docs[k] in docs;
  }

  lemma StoredVerdicts(docs: seq<Doc>, good: seq<Id>, replies: seq<Reply>, alive: bool)
    requires IsSplit(docs, good, []) && ReplyAt(replies, 0).Stored?
    ensures VerdictsAre(docs, good, [], replies, alive)
  {
    assert forall k | 0 <= k < |docs| :: docs[k] in docs;
  }

  lemma OwnVerdicts(docs: seq<Doc>, good: seq<Id>, bad: seq<Id>, replies: seq<Reply>)
    requires IsSplit(docs, good, bad) && ReplyAt(replies, 0).Failed?
    requires forall k | 0 <= k < |docs| :: docs[k].id in good <==> ReplyAt(Drop(replies, 1), k).Stored?
    ensures VerdictsAre(docs, good, bad, replies, true)
  {
    hide IsSplit;
    assert forall k | 0 <= k < |docs| :: ReplyAt(Drop(replies, 1), k) == ReplyAt(replies, 1 + k);
  }

  lemma NoSplit()
    ensures IsSplit([], [], [])
  {
  }

  method AllIds(docs: seq<Doc>) returns (ids: seq<Id>)
    requires DistinctDocs(docs)
    ensures IsSplit(docs, ids, [])
  {
    ids := [];
    NoSplit();
    for k := 0 to |docs|
      invariant IsSplit(docs[..k], ids, [])
    {
      SplitNext(docs, k, ids, []);
      ids := ids + [docs[k].id];
    }
    assert docs[..|docs|] == docs;
  }

  lemma LandKeepsPass(s: State, ids: set<Id>)
    requires s.attempted != []
    ensures Enabled(s, Land(ids)) && Step(s, Land(ids)).attempted == s.attempted
  {
  }

  lemma StartEnabled(s: State)
    requires s.attempted == []
    ensures Enabled(s, StartPass)
    ensures var t := Step(s, StartPass);
            t.attempted == PendingTurns(s.sessions, s.turns, BATCH) && !t.landed && t.turns == s.turns
  {
  }

  lemma EndEnabled(s: State, outcome: Outcome)
    requires s.attempted != []
    requires outcome.Missing? ==> !s.landed
    requires outcome.Checked? ==> IsSplit(s.attempted, outcome.good, outcome.bad)
    ensures Enabled(s, EndPass(outcome)) && Step(s, EndPass(outcome)).attempted == []
    ensures Step(s, EndPass(outcome)).turns ==
            if outcome.Checked? then MarkAll(s.turns, outcome.good, outcome.bad) else s.turns
  {
  }
}
