/** Masking of secret values in a JSON value before it enters a trace. Which keys are sensitive is a
    parameter. */
module Mask {
  import opened Json
  import opened Text

  const REDACTED := "[redacted]"

  function Masked(sensitive: string -> bool, v: Value): Value
    decreases v, 0
  {
    match v
    case Obj(members) => Obj(MaskedMembers(sensitive, members))
    case Arr(items) => Arr(MaskedItems(sensitive, items))
    case _ => v
  }

  function MaskedItems(sensitive: string -> bool, items: seq<Value>): (masked: seq<Value>)
    ensures |masked| == |items| && forall i | 0 <= i < |items| :: masked[i] == Masked(sensitive, items[i])
    decreases items, 1
  {
    if |items| == 0 then [] else [Masked(sensitive, items[0])] + MaskedItems(sensitive, items[1..])
  }

  function MaskedMember(sensitive: string -> bool, member: (string, Value)): (string, Value)
    decreases member, 1
  {
    (member.0, if sensitive(member.0) then Str(REDACTED) else Masked(sensitive, member.1))
  }

  function MaskedMembers(sensitive: string -> bool, members: seq<(string, Value)>): (masked: seq<(string, Value)>)
    ensures |masked| == |members| && forall i | 0 <= i < |members| :: masked[i] == MaskedMember(sensitive, members[i])
    decreases members, 2
  {
    if |members| == 0 then [] else
      [MaskedMember(sensitive, members[0])] + MaskedMembers(sensitive, members[1..])
  }

  /** The walk, member by member and item by item. */
  method MaskKeys(sensitive: string -> bool, v: Value) returns (masked: Value)
    ensures masked == Masked(sensitive, v)
    decreases v
  {
    match v {
      case Obj(members) =>
        var rest := members;
        for i := 0 to |members|
          invariant |rest| == |members| && rest[i..] == members[i..]
          invariant forall j | 0 <= j < i :: rest[j] == MaskedMember(sensitive, members[j])
        {
          var (key, value) := members[i];
          assert members[i] in members;
          if sensitive(key) {
            rest := rest[i := (key, Str(REDACTED))];
          } else {
            var inner := MaskKeys(sensitive, value);
            rest := rest[i := (key, inner)];
          }
        }
        assert rest == MaskedMembers(sensitive, members);
        masked := Obj(rest);
      case Arr(items) =>
        var rest := items;
        for i := 0 to |items|
          invariant |rest| == |items| && rest[i..] == items[i..]
          invariant forall j | 0 <= j < i :: rest[j] == Masked(sensitive, items[j])
        {
          var inner := MaskKeys(sensitive, items[i]);
          rest := rest[i := inner];
        }
        assert rest == MaskedItems(sensitive, items);
        masked := Arr(rest);
      case _ => masked := v;
    }
  }

  // ---------------------------------------------------------------------------
  // What masking hides and what it keeps.
  // ---------------------------------------------------------------------------

  /** `a` and `b` differ at most in values under sensitive keys, at any depth. */
  predicate SameButSecrets(sensitive: string -> bool, a: Value, b: Value)
    decreases a
  {
    match (a, b)
    case (Obj(m), Obj(n)) =>
      && |m| == |n|
      && (forall i | 0 <= i < |m| ::
            m[i].0 == n[i].0 && (sensitive(m[i].0) || SameButSecrets(sensitive, m[i].1, n[i].1)))
    case (Arr(x), Arr(y)) => |x| == |y| && forall i | 0 <= i < |x| :: SameButSecrets(sensitive, x[i], y[i])
    case _ => a == b
  }

  /** Masking shows nothing of the secrets, and nothing else is lost: two values mask to the same value
      exactly when they differ at most in secrets. */
  lemma {:induction false} MaskShowsNoSecret(sensitive: string -> bool, a: Value, b: Value)
    ensures Masked(sensitive, a) == Masked(sensitive, b) <==> SameButSecrets(sensitive, a, b)
    decreases a
  {
    match (a, b) {
      case (Obj(m), Obj(n)) =>
        var x, y := MaskedMembers(sensitive, m), MaskedMembers(sensitive, n);
        if |m| == |n| {
          forall i | 0 <= i < |m|
            ensures x[i] == y[i] <==>
                    m[i].0 == n[i].0 && (sensitive(m[i].0) || SameButSecrets(sensitive, m[i].1, n[i].1))
          {
            assert m[i] in m;
            MaskShowsNoSecret(sensitive, m[i].1, n[i].1);
          }
          assert x == y <==> forall i | 0 <= i < |m| :: x[i] == y[i];
        }
      case (Arr(p), Arr(q)) =>
        var x, y := MaskedItems(sensitive, p), MaskedItems(sensitive, q);
        if |p| == |q| {
          forall i | 0 <= i < |p|
            ensures x[i] == y[i] <==> SameButSecrets(sensitive, p[i], q[i])
          {
            MaskShowsNoSecret(sensitive, p[i], q[i]);
          }
          assert x == y <==> forall i | 0 <= i < |p| :: x[i] == y[i];
        }
      case _ =>
    }
  }

  /** Masking a masked value changes nothing. */
  lemma {:induction false} MaskIsIdempotent(sensitive: string -> bool, v: Value)
    ensures Masked(sensitive, Masked(sensitive, v)) == Masked(sensitive, v)
    decreases v
  {
    MaskIsSame(sensitive, v);
    MaskShowsNoSecret(sensitive, Masked(sensitive, v), v);
  }

  lemma {:induction false} MaskIsSame(sensitive: string -> bool, v: Value)
    ensures SameButSecrets(sensitive, Masked(sensitive, v), v)
    decreases v
  {
    match v {
      case Obj(members) =>
        forall i | 0 <= i < |members|
          ensures sensitive(members[i].0) || SameButSecrets(sensitive, Masked(sensitive, members[i].1), members[i].1)
        {
          assert members[i] in members;
          MaskIsSame(sensitive, members[i].1);
        }
      case Arr(items) =>
        forall i | 0 <= i < |items|
          ensures SameButSecrets(sensitive, Masked(sensitive, items[i]), items[i])
        {
          MaskIsSame(sensitive, items[i]);
        }
      case _ =>
    }
  }

  predicate ThroughSecret(sensitive: string -> bool, v: Value, path: seq<nat>)
    decreases |path|
  {
    |path| > 0 &&
    match v
    case Arr(items) => path[0] < |items| && ThroughSecret(sensitive, items[path[0]], path[1..])
    case Obj(members) =>
      path[0] < |members| &&
      (sensitive(members[path[0]].0) || ThroughSecret(sensitive, members[path[0]].1, path[1..]))
    case _ => false
  }

  /** Away from sensitive keys every place stays: the same places exist, and hold the masked value of what
      they held; below a sensitive key nothing but the mark is left. */
  lemma {:induction false} MaskKeepsPlaces(sensitive: string -> bool, v: Value, path: seq<nat>)
    ensures var after := At(Masked(sensitive, v), path);
            if ThroughSecret(sensitive, v, path) then after.None? || after == Some(Str(REDACTED))
            else after == (if At(v, path).Some? then Some(Masked(sensitive, At(v, path).value)) else None)
    decreases |path|
  {
    if |path| > 0 {
      match v {
        case Arr(items) =>
          if path[0] < |items| {
            MaskKeepsPlaces(sensitive, items[path[0]], path[1..]);
          }
        case Obj(members) =>
          if path[0] < |members| {
            MaskKeepsPlaces(sensitive, members[path[0]].1, path[1..]);
          }
        case _ =>
      }
    }
  }
}
