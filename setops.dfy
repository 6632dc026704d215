/** What each `Set` method does, as a function of the connection state and
    the handle's tag. The set operations take any number of operands; when
    every operand is another Set handle the store computes the result
    (SINTER, SUNION, SDIFF and their STORE forms), and otherwise `_reduce`
    makes each operand a set, checks its members, and folds the operands
    with Python's in-place operators. The `Set` class carries them out. */
module SetOps {
  import opened Values
  import opened Redis
  import opened Typing
  import opened Router
  import opened Handles

  /** An operand of a set operation: a plain value, or another Set handle,
      given by its key and its tag. */
  datatype Operand = Local(v: Value) | SetHandle(key: string, tag: TagState)

  /** The operator `_reduce` folds with: `ior`, `iand` or `isub`. */
  datatype Op = UnionOp | InterOp | DiffOp

  /** The set an operator makes of two sets. */
  function Combine<T(!new)>(op: Op, a: set<T>, b: set<T>): (r: set<T>)
    ensures op == UnionOp ==> forall x :: x in r <==> x in a || x in b
    ensures op == InterOp ==> forall x :: x in r <==> x in a && x in b
    ensures op == DiffOp ==> forall x :: x in r <==> x in a && x !in b
  {
    match op
    case UnionOp => a + b
    case InterOp => a * b
    case DiffOp => a - b
  }

  /** What SINTER, SUNION or SDIFF computes over keys. */
  function Computed(store: Store, op: Op, keys: seq<string>): Result<set<string>, Error>
    requires keys != []
  {
    match op
    case UnionOp => UnionOf(store, keys)
    case InterOp => InterOf(store, keys)
    case DiffOp => DiffOf(store, keys)
  }

  /** The command the store computes an operation with, when every operand
      is a Set handle. */
  function QueryName(op: Op): string
  {
    match op
    case UnionOp => "sunion"
    case InterOp => "sinter"
    case DiffOp => "sdiff"
  }

  /** `_all_redis`: every operand is a Set handle (true of no operands). */
  predicate AllRedis(vals: seq<Operand>)
  {
    forall k :: 0 <= k < |vals| ==> vals[k].SetHandle?
  }

  /** `[value.key for value in values]`. */
  function KeysOf(vals: seq<Operand>): (r: seq<string>)
    requires AllRedis(vals)
    ensures |r| == |vals| && forall k :: 0 <= k < |vals| ==> r[k] == vals[k].key
  {
    if vals == [] then [] else [vals[0].key] + KeysOf(vals[1..])
  }

  // ---------------------------------------------------------------------
  // Reading the handle and its operands

  /** `self.value`: SMEMBERS, typed with the handle's tag. */
  function Members(env: Env, c: Conn, tag: TagState, key: string): Answered
  {
    Proxied(env, SetKind, tag, c, "smembers", key, [])
  }

  /** An operand as a Python value: another Set handle's `value`, which has
      to be a value to be iterated or combined (a pipeline object is not). */
  function Materialized(env: Env, c: Conn, o: Operand): Got
  {
    match o
    case Local(v) => Got(c, Ok(v))
    case SetHandle(k, t) =>
      var m := Members(env, c, t, k);
      Got(m.conn, match m.result
        case Err(e) => Err(e)
        case Ok(Py(v)) => Ok(v)
        case Ok(_) => Err(TypeError))
  }

  /** `set(value)`: a text gives its characters, a list its items (which
      must be hashable), a set itself; an int or a bool is not iterable. */
  function SetOfValue(v: Value): (r: Result<set<Value>, Error>)
    ensures r.Ok? ==> forall x :: x in r.value ==> Hashable(x)
    ensures v.Int? || v.Bool? ==> r == Err(TypeError)
  {
    match v
    case Str(s) => Ok(set k | 0 <= k < |s| :: Str([s[k]]))
    case ListOf(xs) =>
      if forall k :: 0 <= k < |xs| ==> Hashable(xs[k]) then Ok(set k | 0 <= k < |xs| :: xs[k])
      else Err(TypeError)
    case SetOf(m) =>
      if forall x :: x in m ==> Hashable(x) then Ok(m) else Err(TypeError)
    case _ => Err(TypeError)
  }

  /** `set(operand)`. */
  function AsSet(env: Env, c: Conn, o: Operand): Got
  {
    var g := Materialized(env, c, o);
    Got(g.conn, match g.value
      case Err(e) => Err(e)
      case Ok(v) => match SetOfValue(v) case Ok(m) => Ok(SetOf(m)) case Err(e) => Err(e))
  }

  /** `*operand` or `list(operand)`: the texts the call sends. */
  datatype Spilled = Spilled(conn: Conn, texts: Result<seq<string>, Error>)

  function Listed(env: Env, c: Conn, o: Operand): Spilled
  {
    var g := Materialized(env, c, o);
    Spilled(g.conn, match g.value case Err(e) => Err(e) case Ok(v) => Unpacked(v))
  }

  // ---------------------------------------------------------------------
  // _reduce

  /** Once one operand fails the checks of `_reduce`, the later ones are
      not looked at. */
  lemma {:induction false} PrecheckStops(env: Env, c: Conn, tag: TagState, vals: seq<Operand>, i: nat)
    requires i <= |vals| && Precheck(env, c, tag, vals[..i]).result.Err?
    ensures Precheck(env, c, tag, vals) == Precheck(env, c, tag, vals[..i])
    decreases |vals|
  {
    if i == |vals| {
      assert vals[..i] == vals;
    } else {
      var init := vals[..|vals| - 1];
      assert init[..i] == vals[..i];
      PrecheckStops(env, c, tag, init, i);
    }
  }

  /** The loop of `_reduce` over its first n operands: each is made a set
      and its members are checked against the handle's tag, and the first
      failure is raised. */
  function Precheck(env: Env, c: Conn, tag: TagState, vals: seq<Operand>): Step
    decreases |vals|
  {
    if vals == [] then Step(c, tag, Ok(Nothing))
    else
      var p := Precheck(env, c, tag, vals[..|vals| - 1]);
      if p.result.Err? then p
      else
        var g := AsSet(env, p.conn, vals[|vals| - 1]);
        match g.value
        case Err(e) => Step(g.conn, p.tag, Err(e))
        case Ok(s) =>
          var ck := CheckLeaves(p.tag, Leaves(SetKind, s));
          Step(g.conn, ck.tag, if ck.ok then Ok(Nothing) else Err(TypeError))
  }

  /** One more operand of the loop of `_reduce`, after a passing prefix. */
  lemma PrecheckNext(env: Env, c0: Conn, tag: TagState, vals: seq<Operand>, i: nat, c: Conn, t: TagState)
    requires i < |vals| && Precheck(env, c0, tag, vals[..i]) == Step(c, t, Ok(Nothing))
    ensures var g := AsSet(env, c, vals[i]);
      && (g.value.Err? ==> Precheck(env, c0, tag, vals[..i + 1]) == Step(g.conn, t, Err(g.value.error)))
      && (g.value.Ok? ==>
            var ck := CheckLeaves(t, Leaves(SetKind, g.value.value));
            Precheck(env, c0, tag, vals[..i + 1]) == Step(g.conn, ck.tag, if ck.ok then Ok(Nothing) else Err(TypeError)))
  {
    assert vals[..i + 1][..i] == vals[..i] && vals[..i + 1][i] == vals[i];
  }

  /** One more step of the fold. */
  lemma FoldNext(env: Env, c: Conn, op: Op, a: Operand, rest: seq<Operand>, i: nat)
    requires i < |rest|
    ensures var s := Combined(env, c, op, a, rest[i]);
      && (s.result.Err? ==> Fold(env, c, op, a, rest[i..]) == Folded(s.conn, Err(s.result.error)))
      && (s.result.Ok? ==> Fold(env, c, op, a, rest[i..]) == Fold(env, s.conn, op, s.result.value, rest[i + 1..]))
  {
    assert rest[i..][0] == rest[i] && rest[i..][1..] == rest[i + 1..];
  }

  /** What `_reduce` leaves: the connection, the handle's tag, and the
      reduced operand. */
  datatype Reduced = Reduced(conn: Conn, tag: TagState, result: Result<Operand, Error>)

  datatype Folded = Folded(conn: Conn, result: Result<Operand, Error>)

  /** `_reduce(op, values)`: the checks, then `reduce(op, values)`, which
      raises TypeError on no operands and returns a single one as it is. */
  function Reduce(env: Env, c: Conn, tag: TagState, op: Op, vals: seq<Operand>): Reduced
    decreases |vals|, 1
  {
    var p := Precheck(env, c, tag, vals);
    if p.result.Err? then Reduced(p.conn, p.tag, Err(p.result.error))
    else if vals == [] then Reduced(p.conn, p.tag, Err(TypeError))
    else
      var f := Fold(env, p.conn, op, vals[0], vals[1..]);
      Reduced(f.conn, p.tag, f.result)
  }

  /** `reduce(op, rest, acc)`. */
  function Fold(env: Env, c: Conn, op: Op, acc: Operand, rest: seq<Operand>): Folded
    decreases |rest| + 1, 0
  {
    if rest == [] then Folded(c, Ok(acc))
    else
      var s := Combined(env, c, op, acc, rest[0]);
      match s.result
      case Err(e) => Folded(s.conn, Err(e))
      case Ok(next) => Fold(env, s.conn, op, next, rest[1..])
  }

  /** `op(acc, v)`. A Set handle on the left runs its own in-place method
      (`update`, `intersection_update`, `difference_update`) with v and
      stays the accumulator. A plain set with a plain set is combined; with
      a Set handle the handle's reflected operator combines it with the
      handle's value. Anything else is a TypeError, raised only after the
      reflected operator has fetched the handle's value. */
  function Combined(env: Env, c: Conn, op: Op, acc: Operand, v: Operand): Folded
    decreases 1, 3
  {
    match acc
    case SetHandle(k, t) =>
      var s := InPlace(env, c, t, k, op, [v]);
      Folded(s.conn, if s.result.Err? then Err(s.result.error) else Ok(SetHandle(k, s.tag)))
    case Local(a) =>
      var g := Materialized(env, c, v);
      Folded(g.conn, match (a, g.value)
        case (_, Err(e)) => Err(e)
        case (SetOf(x), Ok(SetOf(y))) => Ok(Local(SetOf(Combine(op, x, y))))
        case (_, _) => Err(TypeError))
  }

  /** `update(*values)` (op UnionOp), `intersection_update(*values)` (op
      InterOp) and `difference_update(*values)` (op DiffOp). The first adds
      the reduced operand's items with SADD. The other two ask the store
      (SINTERSTORE or SDIFFSTORE into the handle's own key, the handle's key
      first among the sources) when every operand is a Set handle, and
      otherwise send the items of the reduced operand to the
      set_intersection_update or set_difference_update script. None is
      returned (the last two return the handle itself). */
  function InPlace(env: Env, c: Conn, tag: TagState, key: string, op: Op, vals: seq<Operand>): Step
    decreases |vals|, 2
  {
    if op != UnionOp && AllRedis(vals) then
      var name := if op == InterOp then "sinterstore" else "sdiffstore";
      var a := Proxied(env, SetKind, tag, c, name, key, TextArgs([key] + KeysOf(vals)));
      Step(a.conn, tag, Dropped(a.result))
    else
      var r := Reduce(env, c, tag, op, vals);
      match r.result
      case Err(e) => Step(r.conn, r.tag, Err(e))
      case Ok(acc) =>
        var l := Listed(env, r.conn, acc);
        match l.texts
        case Err(e) => Step(l.conn, r.tag, Err(e))
        case Ok(ts) =>
          var name := match op
            case UnionOp => "sadd"
            case InterOp => "set_intersection_update"
            case DiffOp => "set_difference_update";
          var a := Proxied(env, SetKind, r.tag, l.conn, name, key, TextArgs(ts));
          Step(a.conn, r.tag, Dropped(a.result))
  }

  /** `intersection(*values)`, `union(*values)`, `difference(*values)`: the
      store's SINTER, SUNION or SDIFF over the handle's key and the
      operands' keys when every operand is a Set handle; otherwise the
      reduction of the handle's value with the operands. */
  function Combination(env: Env, c: Conn, tag: TagState, key: string, op: Op, vals: seq<Operand>): Step
  {
    if AllRedis(vals) then
      var a := Proxied(env, SetKind, tag, c, QueryName(op), key, TextArgs(KeysOf(vals)));
      Step(a.conn, tag, a.result)
    else
      var mine := Members(env, c, tag, key);
      match mine.result
      case Err(e) => Step(mine.conn, tag, Err(e))
      case Ok(Py(v)) =>
        var r := Reduce(env, mine.conn, tag, op, [Local(v)] + vals);
        Step(r.conn, r.tag, match r.result
          case Err(e) => Err(e)
          case Ok(Local(w)) => Ok(Py(w))
          case Ok(SetHandle(_, _)) => Err(TypeError))   // the accumulator starts as a plain value and stays one
      case Ok(_) => Step(mine.conn, tag, Err(TypeError))   // set(pipeline object)
  }

  // ---------------------------------------------------------------------
  // The other methods

  /** `add(v)`: `update([v])`. */
  function Add(env: Env, c: Conn, tag: TagState, key: string, v: Value): Step
  {
    InPlace(env, c, tag, key, UnionOp, [Local(ListOf([v]))])
  }

  /** `remove(v)`: check v, then SREM; an answer equal to 0 (nothing was
      removed) is raised as KeyError. */
  function Remove(env: Env, c: Conn, tag: TagState, key: string, v: Value): Step
  {
    var ck := CheckLeaves(tag, Leaves(SetKind, v));
    if !ck.ok then Step(c, ck.tag, Err(TypeError))
    else
      var a := Proxied(env, SetKind, ck.tag, c, "srem", key, [Val(v)]);
      Step(a.conn, ck.tag, match a.result
        case Err(e) => Err(e)
        case Ok(x) => if AnswerEq(x, Int(0)) then Err(KeyError) else Ok(Nothing))
  }

  /** `discard(v)`: `remove(v)` with KeyError, and only KeyError, ignored. */
  function Discard(env: Env, c: Conn, tag: TagState, key: string, v: Value): Step
  {
    var s := Remove(env, c, tag, key, v);
    if s.result == Err(KeyError) then s.(result := Ok(Nothing)) else s
  }

  /** A call whose answer is returned as it is. */
  function Ask(env: Env, c: Conn, tag: TagState, key: string, name: string, args: seq<Arg>): Answered
  {
    Proxied(env, SetKind, tag, c, name, key, args)
  }

  /** `clear()`: DEL of the handle's key, None returned. */
  function Clear(env: Env, c: Conn, tag: TagState, key: string): Answered
  {
    var a := Ask(env, c, tag, key, "delete", []);
    Answered(a.conn, Dropped(a.result))
  }

  /** `isdisjoint(o)`: `not self.intersection(o)`. */
  function IsDisjoint(env: Env, c: Conn, tag: TagState, key: string, o: Operand): Step
  {
    var s := Combination(env, c, tag, key, InterOp, [o]);
    s.(result := match s.result case Err(e) => Err(e) case Ok(a) => Ok(Py(Bool(!AnswerTruthy(a)))))
  }

  /** `o & s`, `o | s`, `o - s` with o on the left: a Set handle o runs its
      own operation with this handle as operand; a plain o is combined with
      this handle's value, o on the left. */
  function Reflected(env: Env, c: Conn, tag: TagState, key: string, op: Op, o: Operand): Answered
  {
    match o
    case SetHandle(k, t) =>
      var s := Combination(env, c, t, k, op, [SetHandle(key, tag)]);
      Answered(s.conn, s.result)
    case Local(a) =>
      var m := Members(env, c, tag, key);
      Answered(m.conn, match (a, m.result)
        case (_, Err(e)) => Err(e)
        case (SetOf(x), Ok(Py(SetOf(y)))) => Ok(Py(SetOf(Combine(op, x, y))))
        case (_, _) => Err(TypeError))
  }

  /** `s == o`: the handle's value against `_to_value(o)`. */
  function Equals(env: Env, c: Conn, tag: TagState, key: string, o: Operand): Answered
  {
    var mine := Members(env, c, tag, key);
    var theirs := Materialized(env, mine.conn, o);
    Answered(theirs.conn, match (mine.result, theirs.value)
      case (Err(e), _) => Err(e)
      case (_, Err(e)) => Err(e)
      case (Ok(a), Ok(v)) => Ok(Py(Bool(AnswerEq(a, v)))))
  }

  /** `Set(value, key)`: a value `iter()` refuses (an int, a bool) is
      ignored, and a truthy one is added with `update(value)`. The Step's
      tag is the new handle's. */
  function Init(env: Env, c: Conn, key: string, value: Option<Value>): Step
  {
    match value
    case None => Step(c, Unset, Ok(Nothing))
    case Some(v) =>
      if v.Int? || v.Bool? || !Truthy(v) then Step(c, Unset, Ok(Nothing))
      else InPlace(env, c, Unset, key, UnionOp, [Local(v)])
  }

  // ---------------------------------------------------------------------
  // What the Set methods promise

  lemma PrepareOne(key: string, v: Value)
    ensures Prepare("sismember", key, [Val(v)]) == Ok(SIsMember(key, Text(v)))
    ensures Prepare("srem", key, [Val(v)]) == Ok(SRem(key, [Text(v)]))
  {
    assert [Val(v)][1..] == [];
    assert ArgTexts([Val(v)]) == [Text(v)];
  }

  lemma PrepareNone(key: string)
    ensures Prepare("smembers", key, []) == Ok(SMembers(key))
    ensures Prepare("scard", key, []) == Ok(SCard(key))
    ensures Prepare("spop", key, []) == Ok(SPop(key))
    ensures Prepare("delete", key, []) == Ok(Del([key]))
  {
    assert ArgTexts([]) == [];
    assert [key] + [] == [key];
  }

  /** `s.remove(v)` outside a pipeline, v passing the check: KeyError
      exactly when the text of v was not a member; either way it is not a
      member afterwards and every other member stays. */
  lemma RemoveKeyError(env: Env, store: Store, tag: TagState, key: string, v: Value)
    requires SetAt(store, key).Ok? && CheckLeaves(tag, Leaves(SetKind, v)).ok
    requires ScalarTag(CheckLeaves(tag, Leaves(SetKind, v)).tag)
    ensures var s := Remove(env, Conn(store, None), tag, key, v);
      var m := SetAt(store, key).value;
      && (s.result == Err(KeyError) <==> Text(v) !in m)
      && (s.result == Ok(Nothing) <==> Text(v) in m)
      && s.conn == Conn(s.conn.store, None)
      && SetAt(s.conn.store, key) == Ok(m - {Text(v)})
  {
    var ck := CheckLeaves(tag, Leaves(SetKind, v));
    var m := SetAt(store, key).value;
    var cmd := SRem(key, [Text(v)]);
    PrepareOne(key, v);
    ProxiedAt(env, SetKind, ck.tag, store, "srem", key, [Val(v)], cmd);
    RemoveCount(store, key, [Text(v)]);
    RemoveThenAbsent(store, key, [Text(v)]);
    var n := |set x | x in [Text(v)] && x in m|;
    assert n == 0 <==> Text(v) !in m;
    CountAnswer(SetKind, ck.tag, n);
    OneText(Text(v));
  }


  lemma OneText(t: string)
    ensures (set x | x in [t] :: x) == {t}
    ensures (set x | x in [t]) == {t}
  {
    assert t in [t];
    forall x | x in [t] ensures x == t {
    }
  }

  /** SINTER, SUNION and SDIFF of one key answer that key's set. */
  lemma SingleKey(store: Store, key: string)
    ensures InterOf(store, [key]) == SetAt(store, key)
    ensures UnionOf(store, [key]) == SetAt(store, key)
    ensures DiffOf(store, [key]) == SetAt(store, key)
  {
    assert [key][1..] == [];
    assert UnionOf(store, []) == Ok({});
    if SetAt(store, key).Ok? {
      var m := SetAt(store, key).value;
      assert m + {} == m && m - {} == m;
    }
  }

  /** `s.discard(v)` lets every error but KeyError through: a value that
      fails the check still raises TypeError and sends nothing; outside a
      pipeline a value that passes is not a member afterwards, and nothing
      is raised. */
  lemma DiscardOnlyKeyError(env: Env, store: Store, tag: TagState, key: string, v: Value)
    requires SetAt(store, key).Ok?
    ensures var ck := CheckLeaves(tag, Leaves(SetKind, v));
      !ck.ok ==> Discard(env, Conn(store, None), tag, key, v) == Step(Conn(store, None), ck.tag, Err(TypeError))
    ensures var ck := CheckLeaves(tag, Leaves(SetKind, v));
      var s := Discard(env, Conn(store, None), tag, key, v);
      ck.ok && ScalarTag(ck.tag) ==>
        s.result == Ok(Nothing) && SetAt(s.conn.store, key) == Ok(SetAt(store, key).value - {Text(v)})
  {
    var ck := CheckLeaves(tag, Leaves(SetKind, v));
    if ck.ok && ScalarTag(ck.tag) {
      RemoveKeyError(env, store, tag, key, v);
    }
  }

  /** With no operands `_all_redis` is true, and each operation asks the
      store about the handle's key alone: the answer is the handle's own
      value. */
  lemma NoOperandsAnswerOwnSet(env: Env, store: Store, tag: TagState, key: string, op: Op)
    ensures var m := Members(env, Conn(store, None), tag, key);
      Combination(env, Conn(store, None), tag, key, op, []) == Step(m.conn, tag, m.result)
  {
    assert KeysOf([]) == [] && TextArgs([]) == [];
    assert AllRedis([]);
    SameQuery(store, op, key);
    PrepareQuery(op, key, []);
    assert [key] + [] == [key];
    PrepareNone(key);
    ProxiedAt(env, SetKind, tag, store, QueryName(op), key, [], QueryCommand(op, [key]));
    ProxiedAt(env, SetKind, tag, store, "smembers", key, [], SMembers(key));
  }

  /** Over the handle's key alone, each query answers SMEMBERS' answer. */
  lemma SameQuery(store: Store, op: Op, key: string)
    ensures Apply(store, QueryCommand(op, [key])) == Apply(store, SMembers(key))
  {
    SingleKey(store, key);
    assert Computed(store, op, [key]) == SetAt(store, key);
    if SetAt(store, key).Ok? {
      QueryAnswers(store, op, [key]);
    } else {
      QueryFails(store, op, [key]);
    }
  }



  /** `v in s` outside a pipeline, under a str tag or none yet: whether
      the text of v is a member of the stored set. */
  lemma ContainsIff(env: Env, store: Store, tag: TagState, key: string, v: Value)
    requires SetAt(store, key).Ok? && (tag == Unset || tag == Fixed(StrTag))
    ensures Ask(env, Conn(store, None), tag, key, "sismember", [Val(v)])
         == Answered(Conn(store, None), Ok(Py(Bool(Text(v) in SetAt(store, key).value))))
  {
    var m := SetAt(store, key).value;
    PrepareOne(key, v);
    ProxiedAt(env, SetKind, tag, store, "sismember", key, [Val(v)], SIsMember(key, Text(v)));
    assert Apply(store, SIsMember(key, Text(v))) == Outcome(store, Ok(BoolReply(Text(v) in m)));
    StrUnchanged(SetKind, tag, BoolReply(Text(v) in m));
  }


  /** `len(s)` outside a pipeline, under a str tag or none yet: the size of
      the stored set. */
  lemma LenCounts(env: Env, store: Store, tag: TagState, key: string)
    requires SetAt(store, key).Ok? && (tag == Unset || tag == Fixed(StrTag))
    ensures Ask(env, Conn(store, None), tag, key, "scard", [])
         == Answered(Conn(store, None), Ok(Py(Int(|SetAt(store, key).value|))))
  {
    var m := SetAt(store, key).value;
    PrepareNone(key);
    ProxiedAt(env, SetKind, tag, store, "scard", key, [], SCard(key));
    assert Apply(store, SCard(key)) == Outcome(store, Ok(IntReply(|m|)));
    StrUnchanged(SetKind, tag, IntReply(|m|));
  }


  /** `s.pop()` outside a pipeline, under a str tag or none yet: None from
      an empty set; otherwise one member, which is gone afterwards while
      every other member stays. */
  lemma PopTakesMember(env: Env, store: Store, tag: TagState, key: string)
    requires SetAt(store, key).Ok? && (tag == Unset || tag == Fixed(StrTag))
    ensures var a := Ask(env, Conn(store, None), tag, key, "spop", []);
      var m := SetAt(store, key).value;
      && a.conn.queue.None?
      && (m == {} ==> a.result == Ok(Nothing) && a.conn.store == store)
      && (m != {} ==> exists x :: x in m && a.result == Ok(Py(Str(x))) && SetAt(a.conn.store, key) == Ok(m - {x}))
  {
    PrepareNone(key);
    ProxiedAt(env, SetKind, tag, store, "spop", key, [], SPop(key));
    var m := SetAt(store, key).value;
    if m != {} {
      var x := Least(m);
      assert x in m;
      assert SetAt(PutSet(store, key, m - {x}), key) == Ok(m - {x});
    }
  }

  /** `s.clear()` outside a pipeline, under a scalar tag or none yet: the
      key is gone (an empty set), and nothing else in the store changes. */
  lemma ClearEmpties(env: Env, store: Store, tag: TagState, key: string)
    requires ScalarTag(tag)
    ensures Clear(env, Conn(store, None), tag, key) == Answered(Conn(store - {key}, None), Ok(Nothing))
  {
    PrepareNone(key);
    ProxiedAt(env, SetKind, tag, store, "delete", key, [], Del([key]));
    var n := if key in store then 1 else 0;
    DelOne(store, key);
    CountAnswer(SetKind, tag, n);
  }

  /** DEL of one key removes it and counts whether it was there. */
  lemma DelOne(store: Store, key: string)
    ensures Apply(store, Del([key])) == Outcome(store - {key}, Ok(IntReply(if key in store then 1 else 0)))
  {
    var gone := set k | k in [key] && k in store :: k;
    assert gone == (if key in store then {key} else {});
    assert store - gone == store - {key};
  }


  /** A set of plain strings. */
  predicate StrMembers(v: Value)
  {
    v.SetOf? && forall x :: x in v.members ==> x.Str?
  }

  lemma StrSetCombine(op: Op, a: set<string>, b: set<string>)
    ensures StrSet(Combine(op, a, b)) == Combine(op, StrSet(a), StrSet(b))
  {
    var l, r := StrSet(Combine(op, a, b)), Combine(op, StrSet(a), StrSet(b));
    forall x | x in r ensures x in l {
      assert x.Str? && x.s in Combine(op, a, b);
    }
    forall x | x in l ensures x in r {
      assert x.Str? && x.s in Combine(op, a, b);
    }
  }

  /** Two keys holding sets: the store combines them as the operator does. */
  lemma TwoKeys(store: Store, op: Op, a: string, b: string)
    requires SetAt(store, a).Ok? && SetAt(store, b).Ok?
    ensures Computed(store, op, [a, b]) == Ok(Combine(op, SetAt(store, a).value, SetAt(store, b).value))
  {
    var ma, mb := SetAt(store, a).value, SetAt(store, b).value;
    InterCommutes(store, a, b);
    assert [a, b][1..] == [b];
    SingleKey(store, b);
    assert mb + {} == mb;
  }

  /** With the str tag, or none yet, the handle's value is the stored set of
      strings, and reading it changes nothing. */
  lemma PlainMembers(env: Env, store: Store, tag: TagState, key: string)
    requires SetAt(store, key).Ok? && (tag == Unset || tag == Fixed(StrTag))
    ensures Members(env, Conn(store, None), tag, key) == Answered(Conn(store, None), Ok(Py(SetOf(StrSet(SetAt(store, key).value)))))
  {
    var m := SetAt(store, key).value;
    PrepareNone(key);
    ProxiedAt(env, SetKind, tag, store, "smembers", key, [], SMembers(key));
    assert Apply(store, SMembers(key)) == Outcome(store, Ok(SetReply(m)));
    StrUnchanged(SetKind, tag, SetReply(m));
  }


  /** The store's answer to an operation over the handle and one other Set
      handle, outside a pipeline. */
  lemma AskStore(env: Env, store: Store, tag: TagState, key: string, op: Op, k2: string, t2: TagState)
    requires SetAt(store, key).Ok? && SetAt(store, k2).Ok? && (tag == Unset || tag == Fixed(StrTag))
    ensures Combination(env, Conn(store, None), tag, key, op, [SetHandle(k2, t2)])
         == Step(Conn(store, None), tag, Ok(Py(SetOf(StrSet(Combine(op, SetAt(store, key).value, SetAt(store, k2).value))))))
  {
    var vals := [SetHandle(k2, t2)];
    assert KeysOf(vals) == [k2];
    assert [key] + [k2] == [key, k2];
    PrepareQuery(op, key, [k2]);
    TwoKeys(store, op, key, k2);
    QueryAnswers(store, op, [key, k2]);
    ProxiedAt(env, SetKind, tag, store, QueryName(op), key, TextArgs([k2]), QueryCommand(op, [key, k2]));
    StrUnchanged(SetKind, tag, SetReply(Combine(op, SetAt(store, key).value, SetAt(store, k2).value)));
  }


  /** The `_reduce` checks pass over plain sets of strings. */
  lemma {:induction false} PrecheckStrSets(env: Env, c: Conn, tag: TagState, vals: seq<Operand>)
    requires tag == Unset || tag == Fixed(StrTag)
    requires forall k :: 0 <= k < |vals| ==> vals[k].Local? && StrMembers(vals[k].v)
    ensures Precheck(env, c, tag, vals).conn == c && Precheck(env, c, tag, vals).result == Ok(Nothing)
    ensures Precheck(env, c, tag, vals).tag in {Unset, Fixed(StrTag)}
    decreases |vals|
  {
    if vals != [] {
      var init := vals[..|vals| - 1];
      PrecheckStrSets(env, c, tag, init);
      var p := Precheck(env, c, tag, init);
      var last := vals[|vals| - 1];
      assert SetOfValue(last.v) == Ok(last.v.members);
      StrMembersCheck(p.tag, last.v.members);
    }
  }

  /** `s == o` outside a pipeline: against another Set handle on strings,
      true exactly when the two stored sets are equal; against a plain set of
      strings, true exactly when it holds the stored members. */
  lemma EqualsIff(env: Env, store: Store, tag: TagState, key: string, k2: string, t2: TagState, b: set<string>)
    requires SetAt(store, key).Ok? && SetAt(store, k2).Ok?
    requires (tag == Unset || tag == Fixed(StrTag)) && (t2 == Unset || t2 == Fixed(StrTag))
    ensures Equals(env, Conn(store, None), tag, key, SetHandle(k2, t2))
         == Answered(Conn(store, None), Ok(Py(Bool(SetAt(store, key).value == SetAt(store, k2).value))))
    ensures Equals(env, Conn(store, None), tag, key, Local(SetOf(StrSet(b))))
         == Answered(Conn(store, None), Ok(Py(Bool(SetAt(store, key).value == b))))
  {
    PlainMembers(env, store, tag, key);
    PlainMembers(env, store, t2, k2);
    StrSetsEqual(SetAt(store, key).value, SetAt(store, k2).value);
    StrSetsEqual(SetAt(store, key).value, b);
  }

  lemma StrSetsEqual(a: set<string>, b: set<string>)
    ensures StrSet(a) == StrSet(b) <==> a == b
  {
    if StrSet(a) == StrSet(b) {
      forall x ensures x in a <==> x in b {
        assert x in a <==> Str(x) in StrSet(a);
        assert x in b <==> Str(x) in StrSet(b);
      }
    }
  }

  /** The same operation computed by `_reduce` over the handle's value and a
      plain set of strings, outside a pipeline. */
  lemma ReduceLocally(env: Env, store: Store, tag: TagState, key: string, op: Op, b: set<string>)
    requires SetAt(store, key).Ok? && (tag == Unset || tag == Fixed(StrTag))
    ensures Combination(env, Conn(store, None), tag, key, op, [Local(SetOf(StrSet(b)))]).result
         == Ok(Py(SetOf(Combine(op, StrSet(SetAt(store, key).value), StrSet(b)))))
  {
    var c := Conn(store, None);
    var sa, sb := StrSet(SetAt(store, key).value), StrSet(b);
    PlainMembers(env, store, tag, key);
    var vals := [Local(SetOf(sa)), Local(SetOf(sb))];
    assert [Local(SetOf(sa))] + [Local(SetOf(sb))] == vals;
    assert [Local(SetOf(sb))][0] == Local(SetOf(sb));
    assert !AllRedis([Local(SetOf(sb))]);
    PrecheckStrSets(env, c, tag, vals);
    assert vals[1..] == [Local(SetOf(sb))] && vals[1..][1..] == [];
    assert Fold(env, c, op, vals[0], vals[1..]) == Folded(c, Ok(Local(SetOf(Combine(op, sa, sb)))));
  }

  /** Delegation to the store is sound: when the operand is another Set
      handle the store's answer is the set `_reduce` computes from the two
      values. */
  lemma StoreAgreesWithLocal(env: Env, store: Store, tag: TagState, key: string, op: Op, k2: string, t2: TagState)
    requires SetAt(store, key).Ok? && SetAt(store, k2).Ok? && (tag == Unset || tag == Fixed(StrTag))
    ensures var b := SetAt(store, k2).value;
      Combination(env, Conn(store, None), tag, key, op, [SetHandle(k2, t2)]).result
        == Combination(env, Conn(store, None), tag, key, op, [Local(SetOf(StrSet(b)))]).result
  {
    AskStore(env, store, tag, key, op, k2, t2);
    ReduceLocally(env, store, tag, key, op, SetAt(store, k2).value);
    StrSetCombine(op, SetAt(store, key).value, SetAt(store, k2).value);
  }

  /** The STORE form of an operation, and the plain form. */
  function StoreCommand(op: Op, key: string, keys: seq<string>): Command
  {
    if op == InterOp then SInterStore(key, keys) else SDiffStore(key, keys)
  }

  function QueryCommand(op: Op, keys: seq<string>): Command
  {
    match op
    case UnionOp => SUnion(keys)
    case InterOp => SInter(keys)
    case DiffOp => SDiff(keys)
  }

  /** SINTER, SUNION and SDIFF answer what they compute and change nothing. */
  lemma QueryAnswers(store: Store, op: Op, keys: seq<string>)
    requires keys != [] && Computed(store, op, keys).Ok?
    ensures Apply(store, QueryCommand(op, keys)) == Outcome(store, Ok(SetReply(Computed(store, op, keys).value)))
  {
  }

  lemma QueryFails(store: Store, op: Op, keys: seq<string>)
    requires keys != [] && Computed(store, op, keys).Err?
    ensures Apply(store, QueryCommand(op, keys)) == Outcome(store, Err(Computed(store, op, keys).error))
  {
  }

  /** SINTERSTORE and SDIFFSTORE keep at dest what SINTER and SDIFF
      answer, and answer its size. */
  lemma StoreThenMembers(store: Store, op: Op, dest: string, keys: seq<string>)
    requires op != UnionOp && keys != [] && Computed(store, op, keys).Ok?
    ensures var o := Apply(store, StoreCommand(op, dest, keys));
      && Apply(o.store, SMembers(dest)).reply == Apply(store, QueryCommand(op, keys)).reply
      && o.reply == Ok(IntReply(|Computed(store, op, keys).value|))
  {
    var m := Computed(store, op, keys).value;
    if op == InterOp {
      InterStored(store, dest, keys);
    } else {
      DiffStored(store, dest, keys);
    }
    MembersAfterPut(store, dest, m);
  }

  lemma InterStored(store: Store, dest: string, keys: seq<string>)
    requires keys != [] && InterOf(store, keys).Ok?
    ensures var m := InterOf(store, keys).value;
      && Apply(store, SInterStore(dest, keys)) == Outcome(PutSet(store, dest, m), Ok(IntReply(|m|)))
      && Apply(store, SInter(keys)).reply == Ok(SetReply(m))
  {
  }

  lemma DiffStored(store: Store, dest: string, keys: seq<string>)
    requires keys != [] && DiffOf(store, keys).Ok?
    ensures var m := DiffOf(store, keys).value;
      && Apply(store, SDiffStore(dest, keys)) == Outcome(PutSet(store, dest, m), Ok(IntReply(|m|)))
      && Apply(store, SDiff(keys)).reply == Ok(SetReply(m))
  {
  }

  lemma MembersAfterPut(store: Store, key: string, m: set<string>)
    ensures Apply(PutSet(store, key, m), SMembers(key)).reply == Ok(SetReply(m))
  {
    PutSetAt(store, key, m);
  }

  lemma PrepareStore(op: Op, key: string, keys: seq<string>)
    requires op != UnionOp && keys != []
    ensures Prepare(if op == InterOp then "sinterstore" else "sdiffstore", key, TextArgs(keys)) == Ok(StoreCommand(op, key, keys))
  {
    TextArgsSent(keys);
  }

  lemma PrepareQuery(op: Op, key: string, keys: seq<string>)
    ensures Prepare(QueryName(op), key, TextArgs(keys)) == Ok(QueryCommand(op, [key] + keys))
  {
    TextArgsSent(keys);
  }

  /** `intersection_update` and `difference_update` over Set handles,
      outside a pipeline: afterwards the handle's value is what
      `intersection` or `difference` answered before, and under a scalar tag
      nothing is raised. */
  lemma UpdateInStore(env: Env, store: Store, tag: TagState, key: string, op: Op, vals: seq<Operand>)
    requires op != UnionOp && AllRedis(vals)
    requires Computed(store, op, [key] + KeysOf(vals)).Ok?
    ensures var s := InPlace(env, Conn(store, None), tag, key, op, vals);
      && Members(env, s.conn, tag, key).result == Combination(env, Conn(store, None), tag, key, op, vals).result
      && s.tag == tag && s.conn.queue.None?
      && (ScalarTag(tag) ==> s.result == Ok(Nothing))
  {
    var c := Conn(store, None);
    var keys := [key] + KeysOf(vals);
    var name := if op == InterOp then "sinterstore" else "sdiffstore";
    var stored := StoreCommand(op, key, keys);
    InPlaceStore(env, c, tag, key, op, vals);
    CombinationStore(env, c, tag, key, op, vals);
    PrepareStore(op, key, keys);
    PrepareQuery(op, key, KeysOf(vals));
    ProxiedAt(env, SetKind, tag, store, name, key, TextArgs(keys), stored);
    ProxiedAt(env, SetKind, tag, store, QueryName(op), key, TextArgs(KeysOf(vals)), QueryCommand(op, [key] + KeysOf(vals)));
    StoreThenMembers(store, op, key, keys);
    var after := Apply(store, stored).store;
    PrepareNone(key);
    ProxiedAt(env, SetKind, tag, after, "smembers", key, [], SMembers(key));
    if ScalarTag(tag) {
      CountAnswer(SetKind, tag, |Computed(store, op, keys).value|);
    }
  }

  /** The in-place operations over Set handles only go to the store. */
  lemma InPlaceStore(env: Env, c: Conn, tag: TagState, key: string, op: Op, vals: seq<Operand>)
    requires op != UnionOp && AllRedis(vals)
    ensures var a := Proxied(env, SetKind, tag, c, if op == InterOp then "sinterstore" else "sdiffstore", key, TextArgs([key] + KeysOf(vals)));
      InPlace(env, c, tag, key, op, vals) == Step(a.conn, tag, Dropped(a.result))
  {
  }

  /** So do the plain operations over Set handles only. */
  lemma CombinationStore(env: Env, c: Conn, tag: TagState, key: string, op: Op, vals: seq<Operand>)
    requires AllRedis(vals)
    ensures var a := Proxied(env, SetKind, tag, c, QueryName(op), key, TextArgs(KeysOf(vals)));
      Combination(env, c, tag, key, op, vals) == Step(a.conn, tag, a.result)
  {
  }

  /** `o & s` and `o | s` for another Set handle o with the same tag answer
      what `s & o` and `s | o` answer. */
  lemma ReflectedCommutes(env: Env, store: Store, tag: TagState, key: string, op: Op, k2: string)
    requires op != DiffOp && SetAt(store, key).Ok? && SetAt(store, k2).Ok? && (tag == Unset || tag == Fixed(StrTag))
    ensures Reflected(env, Conn(store, None), tag, key, op, SetHandle(k2, tag)).result
         == Combination(env, Conn(store, None), tag, key, op, [SetHandle(k2, tag)]).result
  {
    AskStore(env, store, tag, key, op, k2, tag);
    AskStore(env, store, tag, k2, op, key, tag);
    var a, b := SetAt(store, key).value, SetAt(store, k2).value;
    assert Combine(op, a, b) == Combine(op, b, a);
  }

  /** `s.isdisjoint(o)` for another Set handle o is true exactly when the
      two stored sets share no member. */
  lemma IsDisjointIff(env: Env, store: Store, tag: TagState, key: string, k2: string, t2: TagState)
    requires SetAt(store, key).Ok? && SetAt(store, k2).Ok? && (tag == Unset || tag == Fixed(StrTag))
    ensures IsDisjoint(env, Conn(store, None), tag, key, SetHandle(k2, t2)).result
         == Ok(Py(Bool(SetAt(store, key).value * SetAt(store, k2).value == {})))
  {
    AskStore(env, store, tag, key, InterOp, k2, t2);
    var m := SetAt(store, key).value * SetAt(store, k2).value;
    if m != {} {
      var x :| x in m;
      assert Str(x) in StrSet(m);
    }
  }

  /** One more operand for the checks of `_reduce`: when the earlier ones
      passed without touching the connection and the operand is a set
      read without touching it, its members are checked on the tag so far. */
  lemma PrecheckStep(env: Env, c: Conn, tag: TagState, vals: seq<Operand>, o: Operand, t: TagState, m: set<Value>)
    requires Precheck(env, c, tag, vals) == Step(c, t, Ok(Nothing))
    requires AsSet(env, c, o) == Got(c, Ok(SetOf(m)))
    ensures var ck := CheckLeaves(t, Leaves(SetKind, SetOf(m)));
      Precheck(env, c, tag, vals + [o]) == Step(c, ck.tag, if ck.ok then Ok(Nothing) else Err(TypeError))
  {
    assert (vals + [o])[..|vals|] == vals && (vals + [o])[|vals|] == o;
  }

  /** `set([v])` is `{v}`. */
  lemma AsSetOne(env: Env, c: Conn, v: Value)
    requires Hashable(v)
    ensures AsSet(env, c, Local(ListOf([v]))) == Got(c, Ok(SetOf({v})))
  {
    assert (set k | 0 <= k < |[v]| :: [v][k]) == {v} by {
      assert [v][0] == v;
    }
    assert SetOfValue(ListOf([v])) == Ok({v});
  }

  /** Checking the members of `{v}` is checking v. */
  lemma CheckOne(tag: TagState, v: Value)
    ensures CheckLeaves(tag, Leaves(SetKind, SetOf({v}))) == CheckLeaves(tag, [TypeOf(v)])
  {
    var ts := TagsPresent({v});
    assert TypeOf(v) in ts;
    forall k | 0 <= k < |ts| ensures ts[k] == TypeOf(v) {
      assert ts[k] in ts;
    }
    CheckUniform(tag, ts, TypeOf(v));
  }

  /** `_reduce` of the one operand `[v]`: v is checked, and the operand
      is returned as it is. */
  lemma ReduceOne(env: Env, c: Conn, tag: TagState, v: Value)
    requires Hashable(v)
    ensures var ck := CheckLeaves(tag, [TypeOf(v)]);
      ck.ok ==> Reduce(env, c, tag, UnionOp, [Local(ListOf([v]))]) == Reduced(c, ck.tag, Ok(Local(ListOf([v]))))
  {
    var o := Local(ListOf([v]));
    AsSetOne(env, c, v);
    CheckOne(tag, v);
    assert Precheck(env, c, tag, []) == Step(c, tag, Ok(Nothing));
    PrecheckStep(env, c, tag, [], o, tag, {v});
    assert [] + [o] == [o] && [o][0] == o && [o][1..] == [];
  }

  /** SADD of some texts outside a pipeline, as a Set handle call: the
      texts join the stored set and nothing else changes. */
  lemma AddTexts(env: Env, store: Store, tag: TagState, key: string, ts: seq<string>)
    requires SetAt(store, key).Ok? && ScalarTag(tag) && ts != []
    ensures var a := Proxied(env, SetKind, tag, Conn(store, None), "sadd", key, TextArgs(ts));
      && a.result.Ok?
      && a.conn == Conn(store[key := SetEntry(SetAt(store, key).value + set x | x in ts)], None)
  {
    PrepareAdd(key, ts);
    ProxiedAt(env, SetKind, tag, store, "sadd", key, TextArgs(ts), SAdd(key, ts));
    var m := SetAt(store, key).value;
    var added := set x | x in ts;
    ApplyAdd(store, key, ts);
    CountAnswer(SetKind, tag, |added - m|);
  }

  /** `update` of a Set handle whose type is unset or str, from one
      non-empty local set of strings, outside a pipeline: the strings join
      the stored set and the handle's type becomes str. */
  lemma UpdateLocalStrings(env: Env, store: Store, tag: TagState, key: string, b: set<string>)
    requires SetAt(store, key).Ok? && (tag == Unset || tag == Fixed(StrTag)) && b != {}
    ensures var s := InPlace(env, Conn(store, None), tag, key, UnionOp, [Local(SetOf(StrSet(b)))]);
      && s.result == Ok(Nothing)
      && s.tag == Fixed(StrTag)
      && s.conn == Conn(store[key := SetEntry(SetAt(store, key).value + b)], None)
  {
    var c := Conn(store, None);
    var o := Local(SetOf(StrSet(b)));
    ReduceLocalStrings(env, c, tag, b);
    var ts := ListedLocalStrings(env, c, b);
    InPlaceUnion(env, c, tag, key, [o], c, Fixed(StrTag), o, ts);
    AddTexts(env, store, Fixed(StrTag), key, ts);
  }

  lemma ReduceLocalStrings(env: Env, c: Conn, tag: TagState, b: set<string>)
    requires (tag == Unset || tag == Fixed(StrTag)) && b != {}
    ensures var o := Local(SetOf(StrSet(b)));
      Reduce(env, c, tag, UnionOp, [o]) == Reduced(c, Fixed(StrTag), Ok(o))
  {
    var m := StrSet(b);
    var o := Local(SetOf(m));
    assert SetOfValue(SetOf(m)) == Ok(m);
    assert Precheck(env, c, tag, []) == Step(c, tag, Ok(Nothing));
    PrecheckStep(env, c, tag, [], o, tag, m);
    assert [] + [o] == [o] && [o][0] == o && [o][1..] == [];
    StrMembersCheck(tag, m);
    StrSetFixesStr(tag, b);
  }

  /** A local set of strings spills as exactly those strings. */
  lemma ListedLocalStrings(env: Env, c: Conn, b: set<string>) returns (ts: seq<string>)
    requires b != {}
    ensures Listed(env, c, Local(SetOf(StrSet(b)))) == Spilled(c, Ok(ts))
    ensures ts != [] && (set x | x in ts) == b
  {
    var m := StrSet(b);
    UnpackedSet(m);
    ts := Unpacked(SetOf(m)).value;
    var y :| y in b;
    assert Str(y) in m && Text(Str(y)) == y;
    assert (set x | x in ts) == b by {
      forall x ensures x in ts <==> x in b {
        if x in b {
          assert Str(x) in m && Text(Str(x)) == x;
        }
      }
    }
  }

  /** A non-empty set of strings fixes an unset or str handle to str. */
  lemma StrSetFixesStr(tag: TagState, b: set<string>)
    requires (tag == Unset || tag == Fixed(StrTag)) && b != {}
    ensures CheckLeaves(tag, Leaves(SetKind, SetOf(StrSet(b)))).tag == Fixed(StrTag)
  {
    var m := StrSet(b);
    var ts := TagsPresent(m);
    assert Leaves(SetKind, SetOf(m)) == ts;
    var y :| y in b;
    assert Str(y) in m && TypeOf(Str(y)) == StrTag;
    assert StrTag in ts;
    forall k | 0 <= k < |ts| ensures ts[k] == StrTag {
      assert ts[k] in ts;
    }
    CheckUniform(tag, ts, StrTag);
    CheckFromUnset([StrTag]);
  }

  lemma PrepareAdd(key: string, ts: seq<string>)
    ensures Prepare("sadd", key, TextArgs(ts)) == Ok(SAdd(key, ts))
  {
    TextArgsSent(ts);
  }

  lemma ApplyAdd(store: Store, key: string, ts: seq<string>)
    requires SetAt(store, key).Ok? && ts != []
    ensures var m := SetAt(store, key).value;
      var added := set x | x in ts;
      Apply(store, SAdd(key, ts)) == Outcome(store[key := SetEntry(m + added)], Ok(IntReply(|added - m|)))
  {
    var cmd := SAdd(key, ts);
    assert ArityOk(cmd) && !ListCommand(cmd) && SetCommand(cmd);
    assert Apply(store, cmd) == ApplySet(store, cmd);
    assert (set v | v in ts :: v) == set x | x in ts;
  }

  /** `s.add(v)` outside a pipeline, for a scalar v that passes the check:
      the text of v joins the stored set, the tag is fixed to v's type if it
      was unset, and nothing is raised. */
  lemma AddStores(env: Env, store: Store, tag: TagState, key: string, v: Value)
    requires SetAt(store, key).Ok? && Hashable(v)
    requires CheckLeaves(tag, [TypeOf(v)]).ok && ScalarTag(CheckLeaves(tag, [TypeOf(v)]).tag)
    ensures var s := Add(env, Conn(store, None), tag, key, v);
      && s.result == Ok(Nothing)
      && s.tag == CheckLeaves(tag, [TypeOf(v)]).tag
      && s.conn == Conn(store[key := SetEntry(SetAt(store, key).value + {Text(v)})], None)
  {
    var ck := CheckLeaves(tag, [TypeOf(v)]);
    AddIsOneSAdd(env, store, tag, key, v);
    AddTexts(env, store, ck.tag, key, [Text(v)]);
    OneText(Text(v));
  }

  /** `s.add(v)` for a scalar v that passes the check is one SADD of its
      text, under the tag the check leaves. */
  lemma AddIsOneSAdd(env: Env, store: Store, tag: TagState, key: string, v: Value)
    requires Hashable(v) && CheckLeaves(tag, [TypeOf(v)]).ok
    ensures var t := CheckLeaves(tag, [TypeOf(v)]).tag;
      var a := Proxied(env, SetKind, t, Conn(store, None), "sadd", key, TextArgs([Text(v)]));
      Add(env, Conn(store, None), tag, key, v) == Step(a.conn, t, Dropped(a.result))
  {
    var ck := CheckLeaves(tag, [TypeOf(v)]);
    var c := Conn(store, None);
    var o := Local(ListOf([v]));
    ReduceOne(env, c, tag, v);
    ListedOne(env, c, v);
    InPlaceUnion(env, c, tag, key, [o], c, ck.tag, o, [Text(v)]);
  }


  /** A local one-element list spills to the text of its element. */
  lemma ListedOne(env: Env, c: Conn, v: Value)
    requires Hashable(v)
    ensures Listed(env, c, Local(ListOf([v]))) == Spilled(c, Ok([Text(v)]))
  {
    assert Texts([v]) == [Text(v)];
    assert Unpacked(ListOf([v])) == Ok([Text(v)]);
  }

  /** A union into a handle whose operands reduce to acc, which spills to
      ts, is one SADD of ts. */
  lemma InPlaceUnion(env: Env, c: Conn, tag: TagState, key: string, vals: seq<Operand>, c1: Conn, t: TagState, acc: Operand, ts: seq<string>)
    requires Reduce(env, c, tag, UnionOp, vals) == Reduced(c1, t, Ok(acc))
    requires Listed(env, c1, acc) == Spilled(c1, Ok(ts))
    ensures var a := Proxied(env, SetKind, t, c1, "sadd", key, TextArgs(ts));
      InPlace(env, c, tag, key, UnionOp, vals) == Step(a.conn, t, Dropped(a.result))
  {
  }

  /** `_reduce` checks a Set handle holding strings and then a plain string
      under a tag that is unset or str: both pass, and the tag is str. */
  lemma PrecheckHandleThenText(env: Env, store: Store, tag: TagState, k2: string, t2: TagState, w: string)
    requires SetAt(store, k2).Ok? && (tag == Unset || tag == Fixed(StrTag)) && (t2 == Unset || t2 == Fixed(StrTag))
    ensures Precheck(env, Conn(store, None), tag, [SetHandle(k2, t2), Local(ListOf([Str(w)]))])
         == Step(Conn(store, None), Fixed(StrTag), Ok(Nothing))
  {
    var c := Conn(store, None);
    var h, o := SetHandle(k2, t2), Local(ListOf([Str(w)]));
    PlainMembers(env, store, t2, k2);
    var sm := StrSet(SetAt(store, k2).value);
    assert SetOfValue(SetOf(sm)) == Ok(sm);
    assert AsSet(env, c, h) == Got(c, Ok(SetOf(sm)));
    StrMembersCheck(tag, sm);
    assert Precheck(env, c, tag, []) == Step(c, tag, Ok(Nothing));
    PrecheckStep(env, c, tag, [], h, tag, sm);
    assert [] + [h] == [h];
    var t := CheckLeaves(tag, Leaves(SetKind, SetOf(sm))).tag;
    AsSetOne(env, c, Str(w));
    CheckOne(t, Str(w));
    PrecheckStep(env, c, tag, [h], o, t, {Str(w)});
    assert [h] + [o] == [h, o];
    assert [StrTag][1..] == [];
  }

  /** `s.update(t, v)` with a Set handle t first and a plain operand after
      it: the fold runs `t |= v`, which is `t.update(v)`, so the text of v
      is added to t's stored set as well as to s's. */
  lemma UpdateWritesFirstHandle(env: Env, store: Store, key: string, k2: string, w: string)
    requires key != k2 && SetAt(store, key).Ok? && SetAt(store, k2).Ok?
    ensures var s := InPlace(env, Conn(store, None), Unset, key, UnionOp, [SetHandle(k2, Unset), Local(ListOf([Str(w)]))]);
      var mt := SetAt(store, k2).value + {w};
      && s.result == Ok(Nothing)
      && SetAt(s.conn.store, k2) == Ok(mt)
      && SetAt(s.conn.store, key) == Ok(SetAt(store, key).value + mt)
  {
    var c := Conn(store, None);
    var mt := SetAt(store, k2).value + {w};
    var store1 := store[k2 := SetEntry(mt)];
    var h := SetHandle(k2, Fixed(StrTag));
    ReduceHandleThenText(env, store, k2, w);
    SpillHandle(env, store1, k2, mt);
    var ts := Listed(env, Conn(store1, None), h).texts.value;
    InPlaceUnion(env, c, Unset, key, [SetHandle(k2, Unset), Local(ListOf([Str(w)]))], Conn(store1, None), Fixed(StrTag), h, ts);
    assert SetAt(store1, key) == SetAt(store, key);
    assert w in ts;
    AddTexts(env, store1, Fixed(StrTag), key, ts);
  }

  /** Spilling a Set handle on strings gives the texts of its stored set. */
  lemma SpillHandle(env: Env, store: Store, k: string, m: set<string>)
    requires SetAt(store, k) == Ok(m)
    ensures var l := Listed(env, Conn(store, None), SetHandle(k, Fixed(StrTag)));
      && l.conn == Conn(store, None) && l.texts.Ok? && (set x | x in l.texts.value) == m
  {
    PlainMembers(env, store, Fixed(StrTag), k);
    TextsOfStrSet(m);
  }

  /** The texts of a set of strings are those strings. */
  lemma TextsOfStrSet(m: set<string>)
    ensures Unpacked(SetOf(StrSet(m))).Ok?
    ensures (set x | x in Unpacked(SetOf(StrSet(m))).value) == m
  {
    UnpackedSet(StrSet(m));
    var ts := Unpacked(SetOf(StrSet(m))).value;
    forall x | x in m ensures x in ts {
      assert Str(x) in StrSet(m) && Text(Str(x)) == x;
    }
  }

  /** `_reduce(ior, (t, v))` with t a Set handle on strings: the checks
      pass, and folding runs `t |= v`, which adds the text of v to t's
      stored set and leaves t as the result. */
  lemma ReduceHandleThenText(env: Env, store: Store, k2: string, w: string)
    requires SetAt(store, k2).Ok?
    ensures var store1 := store[k2 := SetEntry(SetAt(store, k2).value + {w})];
      Reduce(env, Conn(store, None), Unset, UnionOp, [SetHandle(k2, Unset), Local(ListOf([Str(w)]))])
        == Reduced(Conn(store1, None), Fixed(StrTag), Ok(SetHandle(k2, Fixed(StrTag))))
  {
    var c := Conn(store, None);
    var h, o := SetHandle(k2, Unset), Local(ListOf([Str(w)]));
    PrecheckHandleThenText(env, store, Unset, k2, Unset, w);
    assert [StrTag][1..] == [];
    assert CheckLeaves(Unset, [TypeOf(Str(w))]) == Checked(Fixed(StrTag), true);
    AddStores(env, store, Unset, k2, Str(w));
    var store1 := store[k2 := SetEntry(SetAt(store, k2).value + {w})];
    var s := InPlace(env, c, Unset, k2, UnionOp, [o]);
    assert s == Add(env, c, Unset, k2, Str(w));
    CombinedHandle(env, c, UnionOp, k2, Unset, o);
    FoldOne(env, c, UnionOp, h, o, Conn(store1, None), SetHandle(k2, Fixed(StrTag)));
    ReduceSplit(env, c, Unset, UnionOp, [h, o], Fixed(StrTag));
    assert [h, o][0] == h && [h, o][1..] == [o];
  }

  /** A Set handle on the left of `op` runs its in-place method and stays
      the accumulator. */
  lemma CombinedHandle(env: Env, c: Conn, op: Op, k: string, t: TagState, v: Operand)
    ensures var s := InPlace(env, c, t, k, op, [v]);
      Combined(env, c, op, SetHandle(k, t), v) == Folded(s.conn, if s.result.Err? then Err(s.result.error) else Ok(SetHandle(k, s.tag)))
  {
  }

  lemma FoldOne(env: Env, c: Conn, op: Op, acc: Operand, v: Operand, c1: Conn, next: Operand)
    requires Combined(env, c, op, acc, v) == Folded(c1, Ok(next))
    ensures Fold(env, c, op, acc, [v]) == Folded(c1, Ok(next))
  {
    assert [v][0] == v && [v][1..] == [];
  }

  /** Once the checks pass, `_reduce` is the fold from the first operand. */
  lemma ReduceSplit(env: Env, c: Conn, tag: TagState, op: Op, vals: seq<Operand>, t: TagState)
    requires vals != [] && Precheck(env, c, tag, vals) == Step(c, t, Ok(Nothing))
    ensures var f := Fold(env, c, op, vals[0], vals[1..]);
      Reduce(env, c, tag, op, vals) == Reduced(f.conn, t, f.result)
  {
  }
}
