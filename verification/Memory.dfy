/** The agent's long-term memory: facts in the vector store and an index of their ids in the database.
    Operations on the index hold one lock; `forget` deletes from the store before it takes the lock. Whether each
    remote call of an operation works is an arbitrary script. Failed remote calls have no effect, index writes
    succeed, and ids are never used twice. */
module Memory {
  import opened Text

  type Id = string

  datatype Entry = Entry(id: Option<Id>, session: Option<string>)

  function IdsOf(index: seq<Entry>): set<Id> {
    set e | e in index && e.id.Some? :: e.id.value
  }

  predicate InSession(e: Entry, session: string) {
    e.session == Some(session)
  }

  /** The entries of other sessions. */
  function OutsideSession(index: seq<Entry>, session: string): (kept: seq<Entry>)
    ensures forall e :: e in kept <==> e in index && !InSession(e, session)
  {
    if |index| == 0 then [] else
      (if InSession(index[0], session) then [] else [index[0]]) + OutsideSession(index[1..], session)
  }

  /** The entries whose id is not among `gone`. */
  function Without(index: seq<Entry>, gone: set<Id>): (kept: seq<Entry>)
    ensures forall e :: e in kept <==> e in index && !(e.id.Some? && e.id.value in gone)
  {
    if |index| == 0 then [] else
      (if index[0].id.Some? && index[0].id.value in gone then [] else [index[0]]) + Without(index[1..], gone)
  }

  predicate Fresh(ids: seq<Id>, used: set<Id>) {
    && (forall i | 0 <= i < |ids| :: ids[i] !in used)
    && (forall i, j | 0 <= i < j < |ids| :: ids[i] != ids[j])
  }

  /** Whether remote call number `k` of an operation works; none does after the end of the script. */
  predicate Works(script: seq<bool>, k: nat) {
    k < |script| && script[k]
  }

  /** Entries for those of `ids` that were stored: remote call `i + 1` stores id `i`. */
  function Stored(ids: seq<Id>, session: Option<string>, script: seq<bool>): seq<Entry> {
    if |ids| == 0 then [] else
      var n := |ids| - 1;
      Stored(ids[..n], session, script) + if Works(script, 1 + n) then [Entry(Some(ids[n]), session)] else []
  }

  /** The ids that are deleted one by one: of every entry that has one, or of the session's entries. */
  function Targets(index: seq<Entry>, session: Option<string>): seq<Id> {
    if |index| == 0 then [] else
      var n, e := |index| - 1, index[|index| - 1];
      Targets(index[..n], session) +
      if e.id.Some? && (session.None? || e.session == session) then [e.id.value] else []
  }

  /** The index is read, and then each id deleted. */
  predicate AllWork(script: seq<bool>, targets: seq<Id>) {
    forall k | 0 <= k <= |targets| :: Works(script, k)
  }

  lemma NoTargets(index: seq<Entry>)
    ensures SetOf([]) == {} && forall session :: Targets(index[..0], session) == []
  {
  }

  lemma SessionIsTargeted(index: seq<Entry>, session: string)
    ensures forall e <- index | InSession(e, session) && e.id.Some? ::
              e.id.value in SetOf(Targets(index, Some(session)))
  {
    TargetsAre(index, Some(session));
  }

  lemma TargetsNext(index: seq<Entry>, i: nat, session: Option<string>)
    requires i < |index|
    ensures Targets(index[..i + 1], session) ==
            if index[i].id.Some? && (session.None? || index[i].session == session)
            then Targets(index[..i], session) + [index[i].id.value]
            else Targets(index[..i], session)
  {
    assert index[..i + 1][..i] == index[..i];
  }

  lemma {:induction false} TargetsGrow(index: seq<Entry>, i: nat, session: Option<string>)
    requires i <= |index|
    ensures Targets(index[..i], session) <= Targets(index, session)
  {
    if i == |index| {
      assert index[..i] == index;
    } else {
      TargetsGrow(index[..|index| - 1], i, session);
      assert index[..|index| - 1][..i] == index[..i];
    }
  }

  lemma {:induction false} TargetsAre(index: seq<Entry>, session: Option<string>)
    ensures forall id :: id in Targets(index, session) <==>
              exists e <- index :: e.id == Some(id) && (session.None? || e.session == session)
  {
    if |index| > 0 {
      var init, last := index[..|index| - 1], index[|index| - 1];
      TargetsAre(init, session);
      assert index == init + [last];
    }
  }

  function SetOf(ids: seq<Id>): set<Id> {
    set id | id in ids
  }

  /** What became of the facts that were there: `wiped` were deleted by the operation, each counted once, and the
      others of `targets` by a `forget`. */
  ghost predicate Accounted(before: set<Id>, facts: set<Id>, retired: set<Id>, targets: set<Id>, wiped: set<Id>) {
    && wiped <= before && wiped <= targets && wiped !! facts && wiped !! retired
    && targets !! facts && before * targets <= wiped + retired
  }

  /** One delete that works, with any number of `forget`s around it: `there` says whether it deleted the fact. */
  ghost predicate Deleted(before: set<Id>, facts: set<Id>, gone: set<Id>, retired: set<Id>, id: Id,
                          there: bool) {
    && id !in facts && facts <= before
    && retired == gone + (before - facts - if there then {id} else {})
    && (there ==> id in before && id !in retired)
    && (!there ==> id !in before || id in retired)
  }

  /** The same in the middle of an operation. */
  ghost predicate Swept(start: set<Id>, facts: set<Id>, retired: set<Id>, targets: seq<Id>, wiped: set<Id>) {
    Accounted(start, facts, retired, SetOf(targets), wiped) && facts <= start && start - facts <= retired + wiped
  }

  lemma NothingWiped(facts: set<Id>, retired: set<Id>)
    ensures Swept(facts, facts, retired, [], {})
  {
  }

  lemma OneMoreTarget(start: set<Id>, before: set<Id>, facts: set<Id>, gone: set<Id>, retired: set<Id>,
                      targets: seq<Id>, wiped: set<Id>, id: Id, there: bool)
    requires before !! gone && Swept(start, before, gone, targets, wiped)
    requires Deleted(before, facts, gone, retired, id, there)
    ensures Swept(start, facts, retired, targets + [id], wiped + if there then {id} else {})
    ensures there ==> id !in wiped
  {
    assert SetOf(targets + [id]) == SetOf(targets) + {id};
  }

  class Store {
    var facts: set<Id>
    var index: seq<Entry>
    /** Every id ever minted, and those that a `forget` has deleted from the store. */
    var used: set<Id>
    var retired: set<Id>

    constructor ()
      ensures Valid() && facts == {} && index == []
    {
      facts, index, used, retired := {}, [], {}, {};
    }

    ghost predicate Coherent()
      reads this
    {
      facts <= used && retired <= used && facts !! retired
    }

    /** What holds whenever the lock is free: every stored fact is in the index. */
    ghost predicate Valid()
      reads this
    {
      Coherent() && facts <= IdsOf(index)
    }

    // -------------------------------------------------------------------------
    // Remote calls. While one runs, any number of `forget`s may delete facts.
    // -------------------------------------------------------------------------

    method Others()
      requires Coherent()
      modifies `facts, `retired
      ensures Coherent() && facts <= old(facts) && old(retired) <= retired
      ensures retired == old(retired) + (old(facts) - facts)
    {
      var lost: set<Id> :| lost <= facts;
      facts, retired := facts - lost, retired + lost;
    }

    /** Delete an id: the answer says whether it was there. */
    method VecDelete(id: Id, works: bool) returns (reply: Result<bool>)
      requires Coherent()
      modifies `facts, `retired
      ensures Coherent() && facts <= old(facts) && old(retired) <= retired
      ensures reply.Ok? <==> works
      ensures works ==> Deleted(old(facts), facts, old(retired), retired, id, reply.value)
    {
      Others();
      if works {
        reply := Ok(id in facts);
        facts := facts - {id};
      } else {
        reply := Err("vec_delete failed");
      }
      Others();
    }

    /** One delete of an operation that has dealt with `targets` so far. */
    method Wipe(id: Id, works: bool, ghost start: set<Id>, ghost targets: seq<Id>, ghost wiped: set<Id>)
      returns (reply: Result<bool>, ghost more: set<Id>)
      requires Coherent() && Swept(start, facts, retired, targets, wiped)
      modifies `facts, `retired
      ensures Coherent() && facts <= old(facts) && old(retired) <= retired
      ensures reply.Ok? <==> works
      ensures works ==> Swept(start, facts, retired, targets + [id], more)
      ensures works ==> |more| == |wiped| + if reply.value then 1 else 0
    {
      hide Swept, Deleted;
      ghost var before, gone := facts, retired;
      reply := VecDelete(id, works);
      more := wiped;
      if works {
        OneMoreTarget(start, before, facts, gone, retired, targets, wiped, id, reply.value);
        more := wiped + if reply.value then {id} else {};
        assert !reply.value ==> wiped + {} == wiped;
      }
    }

    method VecUpsert(id: Id, works: bool) returns (stored: bool)
      requires Coherent() && id !in used
      modifies `facts, `retired, `used
      ensures Coherent() && used == old(used) + {id} && old(retired) <= retired
      ensures facts <= old(facts) + if stored then {id} else {}
      ensures old(facts) <= facts + retired && (stored ==> id in facts || id in retired)
      ensures stored == works
    {
      Others();
      stored := works;
      used := used + {id};
      if stored {
        facts := facts + {id};
      }
      Others();
    }

    // -------------------------------------------------------------------------
    // The operations under the lock.
    // -------------------------------------------------------------------------

    /** Store facts under the minted `ids` and index those that were stored. `false`: the index could not be read. */
    method Remember(ids: seq<Id>, session: Option<string>, script: seq<bool>) returns (readable: bool)
      requires Valid()
      requires Fresh(ids, used)
      modifies this
      ensures Valid() && old(retired) <= retired && old(used) <= used
      ensures used <= old(used) + set id | id in ids
      ensures readable <==> Works(script, 0)
      ensures readable ==> index == old(index) + Stored(ids, session, script)
      ensures readable ==> forall i | 0 <= i < |ids| ::
                if Works(script, 1 + i) then ids[i] in facts || ids[i] in retired else ids[i] !in facts
      ensures old(facts) <= facts + retired
      ensures !readable ==> index == old(index) && facts == old(facts)
    {
      readable := Works(script, 0);
      if !readable {
        return;
      }
      var entries := index;
      assert index + [] == index;
      for i := 0 to |ids|
        invariant Coherent() && facts <= IdsOf(entries) && index == old(index)
        invariant old(retired) <= retired && used == old(used) + set id | id in ids[..i]
        invariant entries == old(index) + Stored(ids[..i], session, script)
        invariant old(facts) <= facts + retired
        invariant forall j | 0 <= j < i ::
                    if Works(script, 1 + j) then ids[j] in facts || ids[j] in retired else ids[j] !in facts
      {
        assert ids[..i + 1] == ids[..i] + [ids[i]] && ids[..i + 1][..i] == ids[..i];
        var stored := VecUpsert(ids[i], Works(script, 1 + i));
        if stored {
          AppendIds(entries, Entry(Some(ids[i]), session));
          entries := entries + [Entry(Some(ids[i]), session)];
        }
      }
      assert ids[..|ids|] == ids;
      index := entries;
    }

    /** The locked half of `forget`: drop one id that has left the store. */
    method Unindex(id: Id, readable: bool) returns (done: Result<()>)
      requires Valid() && id in retired
      modifies `index
      ensures Valid()
      ensures done.Ok? <==> readable
      ensures done.Ok? ==> index == Without(old(index), {id})
      ensures done.Err? ==> index == old(index)
    {
      if !readable {
        return Err("index read failed");
      }
      WithoutIds(index, {id});
      index := Without(index, {id});
      return Ok(());
    }

    /** Delete every indexed fact, then the index, unless the read or a delete fails; a failure leaves the index as
        it was. The answer is the number of facts deleted. */
    method Clear(script: seq<bool>) returns (deleted: Result<nat>, ghost wiped: set<Id>)
      requires Valid()
      modifies this
      ensures Valid() && old(retired) <= retired && used == old(used)
      ensures deleted.Ok? <==> AllWork(script, Targets(old(index), None))
      ensures deleted.Ok? ==> facts == {} && index == [] && deleted.value == |wiped|
      ensures deleted.Ok? ==> Accounted(old(facts), facts, retired, SetOf(Targets(old(index), None)), wiped)
      ensures deleted.Err? ==> index == old(index)
    {
      hide Swept, AllWork, Works, Targets, SetOf, Accounted;
      wiped := {};
      if !Works(script, 0) {
        ReadFirst(script, Targets(index, None));
        return Err("index read failed"), wiped;
      }
      NothingWiped(facts, retired);
      NoTargets(index);
      ReadFirst(script, []);
      var count: nat, calls := 0, 1;
      for i := 0 to |index|
        invariant Valid() && index == old(index) && old(retired) <= retired && used == old(used)
        invariant calls == 1 + |Targets(index[..i], None)| && AllWork(script, Targets(index[..i], None))
        invariant count == |wiped| && Swept(old(facts), facts, retired, Targets(index[..i], None), wiped)
      {
        TargetsNext(index, i, None);
        TargetsGrow(index, i + 1, None);
        if index[i].id.Some? {
          ghost var targets := Targets(index[..i], None);
          var reply;
          reply, wiped := Wipe(index[i].id.value, Works(script, calls), old(facts), targets, wiped);
          NextWorks(script, targets, index[i].id.value, Targets(index, None));
          if reply.Err? {
            return Err(reply.error), wiped;
          }
          count := count + if reply.value then 1 else 0;
          calls := calls + 1;
        }
      }
      assert index[..|index|] == index;
      SweptIsAccounted(old(facts), facts, retired, Targets(index, None), wiped);
      AllAreTargets(index, facts);
      index := [];
      return Ok(count), wiped;
    }

    /** Delete the facts of one session. Success drops exactly the session's entries; after a failed delete exactly
        the entries of the ids deleted before it are gone. The answer is the number of facts deleted. */
    method ForgetSession(session: string, script: seq<bool>) returns (deleted: Result<nat>, ghost wiped: set<Id>)
      requires Valid()
      modifies this
      ensures Valid() && old(retired) <= retired && used == old(used)
      ensures deleted.Ok? <==> AllWork(script, Targets(old(index), Some(session)))
      ensures deleted.Ok? ==> index == OutsideSession(old(index), session) && deleted.value == |wiped|
      ensures deleted.Ok? ==>
                Accounted(old(facts), facts, retired, SetOf(Targets(old(index), Some(session))), wiped)
      ensures deleted.Err? && !Works(script, 0) ==> index == old(index)
      ensures deleted.Err? && Works(script, 0) ==> exists k: nat ::
                && k < |Targets(old(index), Some(session))| && !Works(script, 1 + k)
                && AllWork(script, Targets(old(index), Some(session))[..k])
                && index == Without(old(index), SetOf(Targets(old(index), Some(session))[..k]))
    {
      hide Swept, AllWork, Works, Targets, SetOf, Accounted;
      wiped := {};
      ReadFirst(script, Targets(index, Some(session)));
      if !Works(script, 0) {
        return Err("index read failed"), wiped;
      }
      NothingWiped(facts, retired);
      NoTargets(index);
      ReadFirst(script, []);
      ghost var targets := Targets(index, Some(session));
      var count: nat := 0;
      var gone: seq<Id> := [];
      var failure: Option<string> := None;
      var i := 0;
      while i < |index| && failure.None?
        invariant i <= |index|
        invariant Valid() && index == old(index) && old(retired) <= retired && used == old(used)
        invariant gone <= targets && AllWork(script, gone)
        invariant failure.None? ==> count == |wiped| && Swept(old(facts), facts, retired, gone, wiped)
        invariant SetOf(gone) !! facts
        invariant failure.None? ==> gone == Targets(index[..i], Some(session))
        invariant failure.Some? ==>
                    |gone| < |targets| && !Works(script, 1 + |gone|) && !AllWork(script, targets)
        decreases |index| - i, failure.None?
      {
        var e := index[i];
        TargetsNext(index, i, Some(session));
        TargetsGrow(index, i + 1, Some(session));
        if InSession(e, session) && e.id.Some? {
          var reply; ghost var more;
          reply, more := Wipe(e.id.value, Works(script, 1 + |gone|), old(facts), gone, wiped);
          NextWorks(script, gone, e.id.value, targets);
          if reply.Ok? {
            wiped := more;
            count := count + if reply.value then 1 else 0;
            gone := gone + [e.id.value];
            SweptIsAccounted(old(facts), facts, retired, gone, wiped);
          } else {
            failure := Some(reply.error);
          }
        }
        i := i + 1;
      }
      if failure.None? {
        SweptIsAccounted(old(facts), facts, retired, gone, wiped);
        assert index[..i] == index;
        SessionIsTargeted(index, session);
        OutsideIds(index, session, SetOf(gone));
        index := OutsideSession(index, session);
        return Ok(count), wiped;
      }
      assert gone == targets[..|gone|];
      WithoutIds(index, SetOf(gone));
      index := Without(index, SetOf(gone));
      return Err(failure.value), wiped;
    }

    /** What the other tasks do while a `forget` waits for the lock, the locked half of other `forget`s
        included. */
    method OtherOperations()
      requires Valid()
      modifies this
      ensures Valid() && old(retired) <= retired && old(used) <= used
    {
      var n: nat :| true;
      for i := 0 to n
        invariant Valid() && old(retired) <= retired && old(used) <= used
      {
        var which: nat :| true;
        if which == 0 {
          assert Fresh([], used);
          var ids: seq<Id> :| Fresh(ids, used);
          var session: Option<string> :| true;
          var script: seq<bool> :| true;
          var readable := Remember(ids, session, script);
        } else if which == 1 {
          var script: seq<bool> :| true;
          var deleted, _ := Clear(script);
        } else if which == 2 {
          var session: string :| true;
          var script: seq<bool> :| true;
          var deleted, _ := ForgetSession(session, script);
        } else if which == 3 && retired != {} {
          var id :| id in retired;
          var readable: bool :| true;
          var unindexed := Unindex(id, readable);
        } else {
          Others();
        }
      }
    }

    /** `forget`: delete the best hit, then, once the lock is free, drop it from the index. It answers with the hit
        exactly when the hit was stored and both calls work, and with an error exactly when one of them fails. */
    method Forget(hit: Option<Id>, script: seq<bool>) returns (forgotten: Result<Option<Id>>)
      requires Valid()
      modifies this
      ensures Valid() && old(retired) <= retired
      ensures hit.None? ==> forgotten == Ok(None)
      ensures hit.Some? && !Works(script, 0) ==> forgotten.Err?
      ensures hit.Some? && Works(script, 0) && hit.value !in old(facts) ==> forgotten == Ok(None)
      ensures hit.Some? && Works(script, 0) && hit.value in old(facts) ==>
                && hit.value !in facts
                && (if Works(script, 1) then forgotten == Ok(hit) && hit.value !in IdsOf(index) else forgotten.Err?)
      ensures hit.None? || !Works(script, 0) || hit.value !in old(facts) ==> facts == old(facts) && index == old(index)
    {
      if hit.None? {
        return Ok(None);
      }
      if !Works(script, 0) {
        return Err("vec_delete failed");
      }
      if hit.value !in facts {
        return Ok(None);
      }
      facts, retired := facts - {hit.value}, retired + {hit.value};
      OtherOperations();
      var done := Unindex(hit.value, Works(script, 1));
      if done.Err? {
        return Err(done.error);
      }
      return Ok(hit);
    }
  }

  lemma SweptIsAccounted(start: set<Id>, facts: set<Id>, retired: set<Id>, targets: seq<Id>, wiped: set<Id>)
    requires Swept(start, facts, retired, targets, wiped)
    ensures Accounted(start, facts, retired, SetOf(targets), wiped) && SetOf(targets) !! facts
  {
  }

  lemma ReadFirst(script: seq<bool>, targets: seq<Id>)
    ensures AllWork(script, targets) ==> Works(script, 0)
    ensures Works(script, 0) ==> AllWork(script, [])
  {
  }

  lemma NextWorks(script: seq<bool>, targets: seq<Id>, id: Id, all: seq<Id>)
    requires AllWork(script, targets) && targets + [id] <= all
    ensures AllWork(script, targets + [id]) <==> Works(script, 1 + |targets|)
    ensures !Works(script, 1 + |targets|) ==> !AllWork(script, all)
  {
  }

  lemma AllAreTargets(index: seq<Entry>, facts: set<Id>)
    requires facts <= IdsOf(index) && SetOf(Targets(index, None)) !! facts
    ensures facts == {}
  {
    TargetsAre(index, None);
  }

  lemma AppendIds(index: seq<Entry>, e: Entry)
    ensures IdsOf(index + [e]) == IdsOf(index) + if e.id.Some? then {e.id.value} else {}
  {
  }

  lemma WithoutIds(index: seq<Entry>, gone: set<Id>)
    ensures IdsOf(Without(index, gone)) == IdsOf(index) - gone
  {
    var kept := Without(index, gone);
    forall id | id in IdsOf(index) - gone
      ensures id in IdsOf(kept)
    {
      var e :| e in index && e.id == Some(id);
      assert e in kept;
    }
  }

  lemma OutsideIds(index: seq<Entry>, session: string, gone: set<Id>)
    requires forall e | e in index && InSession(e, session) && e.id.Some? :: e.id.value in gone
    ensures IdsOf(index) - gone <= IdsOf(OutsideSession(index, session))
  {
    var kept := OutsideSession(index, session);
    forall id | id in IdsOf(index) - gone
      ensures id in IdsOf(kept)
    {
      var e :| e in index && e.id == Some(id);
      assert e in kept;
    }
  }
}
