/** What each `List` method does, as a function of the connection state and
    the handle's tag: the commands it sends, the checks before them, and
    what it returns or raises. The `List` class carries them out. */
module ListOps {
  import opened Values
  import opened Redis
  import opened Typing
  import opened Router
  import opened Handles

  /** An operand of a list operator: a plain value, or another List handle,
      which `_to_value` materialises. */
  datatype Operand = Local(v: Value) | ListHandle(key: string, tag: TagState)

  /** `l[i]` or `l[start:stop]`. */
  datatype Index = At(i: int) | SliceOf(start: Option<int>, stop: Option<int>)

  function Or(o: Option<int>, d: int): int
  {
    if o.Some? then o.value else d
  }

  // ---------------------------------------------------------------------
  // Slices

  /** A Python slice bound against a length: negative counts from the end,
      and both directions are clamped to the list. */
  function Clamp(i: int, len: nat): (r: nat)
    ensures r <= len
  {
    if i < 0 then (if len + i < 0 then 0 else len + i) else if i > len then len else i
  }

  /** `xs[a:b]` in Python. */
  function PySlice(xs: seq<string>, a: int, b: int): seq<string>
  {
    var s := Clamp(a, |xs|);
    var e := Clamp(b, |xs|);
    if s >= e then [] else xs[s..e]
  }

  /** The LRANGE ends `__getitem__` asks for, as written: a missing start or
      stop is 0, and the stop is made inclusive by subtracting one. */
  function SliceBoundsAsWritten(start: Option<int>, stop: Option<int>): (int, int)
  {
    (Or(start, 0), Or(stop, 0) - 1)
  }

  /** The LRANGE ends for `l[start:stop]`, with a stop of 0 answered as the
      empty slice it is (None: nothing to ask the store). */
  function SliceBounds(start: Option<int>, stop: Option<int>): Option<(int, int)>
  {
    if stop == Some(0) then None else Some(SliceBoundsAsWritten(start, stop))
  }

  /** As written, a slice that stops at 0 asks for LRANGE start -1 and gets
      the whole tail of the list instead of nothing. */
  lemma SliceStopZero()
    ensures var (a, e) := SliceBoundsAsWritten(Some(0), Some(0));
      Range(["a", "b"], a, e) == ["a", "b"] && PySlice(["a", "b"], 0, 0) == []
  {
  }

  /** Every slice `l[start:stop]` asks the store for exactly the elements
      Python's slice of the list holds. */
  lemma SliceAgrees(xs: seq<string>, start: Option<int>, stop: Option<int>)
    ensures var a, b := Or(start, 0), Or(stop, |xs|);
      match SliceBounds(start, stop)
      case None => PySlice(xs, a, b) == []
      case Some((s, e)) => Range(xs, s, e) == PySlice(xs, a, b)
  {
  }

  // ---------------------------------------------------------------------
  // Reads

  /** `self.value`, which is `self[:]`: LRANGE 0 -1. */
  function ValueOf(env: Env, c: Conn, tag: TagState, key: string): Answered
  {
    Proxied(env, ListKind, tag, c, "lrange", key, [Val(Int(0)), Val(Int(-1))])
  }

  /** `l[i]`: LINDEX, with a nil answer raised as IndexError; `l[a:b]`:
      LRANGE over the slice's ends as written. */
  function GetItem(env: Env, c: Conn, tag: TagState, key: string, i: Index): Answered
  {
    match i
    case SliceOf(start, stop) =>
      var (a, e) := SliceBoundsAsWritten(start, stop);
      Proxied(env, ListKind, tag, c, "lrange", key, [Val(Int(a)), Val(Int(e))])
    case At(n) =>
      var r := Proxied(env, ListKind, tag, c, "lindex", key, [Val(Int(n))]);
      if r.result == Ok(Nothing) then Answered(r.conn, Err(IndexError)) else r
  }

  /** `len(l)`: LLEN. */
  function Len(env: Env, c: Conn, tag: TagState, key: string): Answered
  {
    Proxied(env, ListKind, tag, c, "llen", key, [])
  }

  /** `_to_value(o)`: another List handle is materialised, anything else is
      taken as it is. */
  function ToValue(env: Env, c: Conn, o: Operand): Got
  {
    match o
    case Local(v) => Got(c, Ok(v))
    case ListHandle(k, t) =>
      var r := ValueOf(env, c, t, k);
      Got(r.conn, match r.result
        case Err(e) => Err(e)
        case Ok(Py(v)) => Ok(v)
        case Ok(_) => Err(TypeError))
  }

  /** `l.index(v)`: the first position of v in the materialised list. */
  function IndexIn(env: Env, c: Conn, tag: TagState, key: string, v: Value): Answered
  {
    var r := ValueOf(env, c, tag, key);
    Answered(r.conn, match r.result
      case Err(e) => Err(e)
      case Ok(Py(ListOf(xs))) => (match IndexOf(xs, v) case Ok(k) => Ok(Py(Int(k))) case Err(e) => Err(e))
      case Ok(_) => Err(AttributeError("index")))
  }

  /** `l.count(v)`: how many elements of the materialised list equal v. */
  function CountIn(env: Env, c: Conn, tag: TagState, key: string, v: Value): Answered
  {
    var r := ValueOf(env, c, tag, key);
    Answered(r.conn, match r.result
      case Err(e) => Err(e)
      case Ok(Py(ListOf(xs))) => Ok(Py(Int(CountOf(xs, v))))
      case Ok(_) => Err(AttributeError("count")))
  }

  /** `l == o`: the materialised list against `_to_value(o)`. */
  function Equals(env: Env, c: Conn, tag: TagState, key: string, o: Operand): Answered
  {
    var mine := ValueOf(env, c, tag, key);
    var theirs := ToValue(env, mine.conn, o);
    Answered(theirs.conn, match (mine.result, theirs.value)
      case (Err(e), _) => Err(e)
      case (_, Err(e)) => Err(e)
      case (Ok(a), Ok(v)) => Ok(Py(Bool(AnswerEq(a, v)))))
  }

  // ---------------------------------------------------------------------
  // Writes: the type check comes first, and a failing check sends nothing

  /** `l[i] = v`: check v, then LSET; the store's refusal (index out of
      range, no such key) is raised as IndexError. */
  function SetItem(env: Env, c: Conn, tag: TagState, key: string, i: int, v: Value): Step
  {
    var ck := CheckLeaves(tag, Leaves(ListKind, v));
    if !ck.ok then Step(c, ck.tag, Err(TypeError))
    else
      var r := Proxied(env, ListKind, ck.tag, c, "lset", key, [Val(Int(i)), Val(v)]);
      Step(r.conn, ck.tag, if r.result == Err(ResponseError) then Err(IndexError) else Dropped(r.result))
  }

  /** `l.extend(v)`: check v, then RPUSH its items. */
  function Extend(env: Env, c: Conn, tag: TagState, key: string, v: Value): Step
  {
    var ck := CheckLeaves(tag, Leaves(ListKind, v));
    if !ck.ok then Step(c, ck.tag, Err(TypeError))
    else match Unpacked(v)
      case Err(e) => Step(c, ck.tag, Err(e))
      case Ok(ts) =>
        var r := Proxied(env, ListKind, ck.tag, c, "rpush", key, TextArgs(ts));
        Step(r.conn, ck.tag, Dropped(r.result))
  }

  /** `l.insert(i, v)`: check v, then the list_insert atom. */
  function Insert(env: Env, c: Conn, tag: TagState, key: string, i: int, v: Value): Step
  {
    var ck := CheckLeaves(tag, Leaves(ListKind, v));
    if !ck.ok then Step(c, ck.tag, Err(TypeError))
    else
      var r := Proxied(env, ListKind, ck.tag, c, "list_insert", key, [Val(Int(i)), Val(v)]);
      Step(r.conn, ck.tag, Dropped(r.result))
  }

  /** Which call `l.pop(i)` makes: RPOP for -1, LPOP for 0, the list_pop
      atom for any other index. */
  function PopCall(i: int): (string, seq<Arg>)
  {
    if i == -1 then ("rpop", []) else if i == 0 then ("lpop", []) else ("list_pop", [Val(Int(i))])
  }

  /** `l.pop(i)`. */
  function Pop(env: Env, c: Conn, tag: TagState, key: string, i: int): Answered
  {
    var (name, args) := PopCall(i);
    Proxied(env, ListKind, tag, c, name, key, args)
  }

  /** A call whose value the method drops. */
  function Run(env: Env, c: Conn, tag: TagState, key: string, name: string, args: seq<Arg>): Answered
  {
    var r := Proxied(env, ListKind, tag, c, name, key, args);
    Answered(r.conn, Dropped(r.result))
  }

  /** `l += o`: extend with `_to_value(o)`. */
  function IAdd(env: Env, c: Conn, tag: TagState, key: string, o: Operand): Step
  {
    var g := ToValue(env, c, o);
    match g.value
    case Err(e) => Step(g.conn, tag, Err(e))
    case Ok(v) => Extend(env, g.conn, tag, key, v)
  }

  /** `List(value, key)`: a value that `list()` refuses is ignored, and a
      truthy one is extended into the new list. The Step's tag is the new
      handle's. */
  function Init(env: Env, c: Conn, key: string, value: Option<Value>): Step
  {
    match value
    case None => Step(c, Unset, Ok(Nothing))
    case Some(v) =>
      if v.Int? || v.Bool? || !Truthy(v) then Step(c, Unset, Ok(Nothing))
      else Extend(env, c, Unset, key, v)
  }

  function RepeatList(xs: seq<Value>, n: int): (r: seq<Value>)
    ensures n <= 0 ==> r == []
    ensures n > 0 ==> |r| == n * |xs|
    decreases n
  {
    if n <= 0 then [] else xs + RepeatList(xs, n - 1)
  }

  /** `l + o`: a new List, under newKey, holding the materialised list
      followed by `_to_value(o)`. The Step's tag is the new handle's. */
  function Add(env: Env, c: Conn, tag: TagState, key: string, o: Operand, newKey: string): Step
  {
    var mine := ValueOf(env, c, tag, key);
    var theirs := ToValue(env, mine.conn, o);
    Concat(env, theirs.conn, mine.result, theirs.value, newKey)
  }

  /** The new List of `l + o`, from the two materialised operands. */
  function Concat(env: Env, c: Conn, mine: Result<Answer, Error>, theirs: Result<Value, Error>, newKey: string): Step
  {
    match (mine, theirs)
    case (Err(e), _) => Step(c, Unset, Err(e))
    case (_, Err(e)) => Step(c, Unset, Err(e))
    case (Ok(Py(ListOf(xs))), Ok(ListOf(ys))) => Init(env, c, newKey, Some(ListOf(xs + ys)))
    case (_, _) => Step(c, Unset, Err(TypeError))
  }

  /** `l * n`: a new List, under newKey, holding the materialised list n
      times over. The Step's tag is the new handle's. */
  function Mul(env: Env, c: Conn, tag: TagState, key: string, n: int, newKey: string): Step
  {
    var mine := ValueOf(env, c, tag, key);
    match mine.result
    case Err(e) => Step(mine.conn, Unset, Err(e))
    case Ok(Py(ListOf(xs))) => Init(env, mine.conn, newKey, Some(ListOf(RepeatList(xs, n))))
    case Ok(_) => Step(mine.conn, Unset, Err(TypeError))
  }

  // ---------------------------------------------------------------------
  // What the List methods promise

  /** A write whose type check fails raises TypeError before anything is
      sent: the store and the queue are as they were, and a tag that was
      already fixed is unchanged. */
  lemma CheckedBeforeWrite(env: Env, c: Conn, tag: TagState, key: string, i: int, v: Value)
    requires !CheckLeaves(tag, Leaves(ListKind, v)).ok
    ensures var s := SetItem(env, c, tag, key, i, v); s.conn == c && s.result == Err(TypeError)
    ensures var s := Extend(env, c, tag, key, v); s.conn == c && s.result == Err(TypeError)
    ensures var s := Insert(env, c, tag, key, i, v); s.conn == c && s.result == Err(TypeError)
    ensures tag.Fixed? ==> SetItem(env, c, tag, key, i, v).tag == tag && Extend(env, c, tag, key, v).tag == tag
                           && Insert(env, c, tag, key, i, v).tag == tag
  {
    if tag.Fixed? {
      CheckKeepsFixed(tag, Leaves(ListKind, v));
    }
  }

  /** Outside a pipeline, extending with a non-empty list of values that
      pass the check appends their texts to the stored list. */
  lemma ExtendAppends(env: Env, store: Store, tag: TagState, key: string, xs: seq<Value>)
    requires ListAt(store, key).Ok? && xs != []
    requires CheckLeaves(tag, Leaves(ListKind, ListOf(xs))).ok
    requires ScalarTag(CheckLeaves(tag, Leaves(ListKind, ListOf(xs))).tag)
    ensures var s := Extend(env, Conn(store, None), tag, key, ListOf(xs));
      && s.result == Ok(Nothing)
      && s.conn == Conn(store[key := ListEntry(ListAt(store, key).value + Texts(xs))], None)
      && s.tag == CheckLeaves(tag, Leaves(ListKind, ListOf(xs))).tag
  {
    var t := CheckLeaves(tag, Leaves(ListKind, ListOf(xs))).tag;
    var ts := Texts(xs);
    var cmd := RPush(key, ts);
    TextArgsSent(ts);
    assert Prepare("rpush", key, TextArgs(ts)) == Ok(cmd);
    ProxiedAt(env, ListKind, t, store, "rpush", key, TextArgs(ts), cmd);
    var n := |ListAt(store, key).value| + |ts|;
    assert Apply(store, cmd) == Outcome(store[key := ListEntry(ListAt(store, key).value + ts)], Ok(IntReply(n)));
    CountAnswer(ListKind, t, n);
  }


  /** Extending with an empty list sends an RPUSH with no values, which the
      store refuses. */
  lemma ExtendNothing(env: Env, store: Store, tag: TagState, key: string)
    ensures Extend(env, Conn(store, None), tag, key, ListOf([])) == Step(Conn(store, None), tag, Err(ResponseError))
  {
    assert Leaves(ListKind, ListOf([])) == [];
    TextArgsSent([]);
  }

  /** Inside a freshly opened `pipeline()`, extending does what it does
      with no pipeline open (the empty pipeline is false, so `client()` is
      the connection): the RPUSH runs at once and nothing is queued. */
  lemma ExtendInPipeline(env: Env, store: Store, tag: TagState, key: string, v: Value)
    ensures var s := Extend(env, Conn(store, Some([])), tag, key, v);
      var d := Extend(env, Conn(store, None), tag, key, v);
      s == Step(d.conn.(queue := Some([])), d.tag, d.result)
  {
    var ck := CheckLeaves(tag, Leaves(ListKind, v));
    if ck.ok && Unpacked(v).Ok? {
      EmptyPipelineRunsAtOnce(env, store, "rpush", key, TextArgs(Unpacked(v).value));
    }
  }

  /** `l[i] = v` outside a pipeline, v passing the check: IndexError exactly
      when the key holds no list or i is out of its range; otherwise
      `l[i]` then reads back the text of v. */
  lemma SetItemIndexError(env: Env, store: Store, tag: TagState, key: string, i: int, v: Value)
    requires CheckLeaves(tag, Leaves(ListKind, v)).ok && ScalarTag(CheckLeaves(tag, Leaves(ListKind, v)).tag)
    ensures var s := SetItem(env, Conn(store, None), tag, key, i, v);
      && (s.result == Err(IndexError) <==>
            !(key in store && store[key].ListEntry? && 0 <= Normalize(i, |store[key].items|) < |store[key].items|))
      && (s.result.Ok? ==> Apply(s.conn.store, LIndex(key, i)).reply == Ok(BulkReply(Text(v))))
      && (s.result.Err? ==> s.conn.store == store)
  {
    SetItemAt(env, store, tag, key, i, v);
    SetThenIndex(store, key, i, Text(v));
  }

  /** `l[i] = v` outside a pipeline is one LSET, whose failure is raised as
      IndexError. */
  lemma SetItemAt(env: Env, store: Store, tag: TagState, key: string, i: int, v: Value)
    requires CheckLeaves(tag, Leaves(ListKind, v)).ok && ScalarTag(CheckLeaves(tag, Leaves(ListKind, v)).tag)
    ensures var o := Apply(store, LSet(key, i, Text(v)));
      SetItem(env, Conn(store, None), tag, key, i, v)
        == Step(Conn(o.store, None), CheckLeaves(tag, Leaves(ListKind, v)).tag, if o.reply.Err? then Err(IndexError) else Ok(Nothing))
  {
    var t := CheckLeaves(tag, Leaves(ListKind, v)).tag;
    var args := [Val(Int(i)), Val(v)];
    var cmd := LSet(key, i, Text(v));
    assert AllValues(args);
    assert Prepare("lset", key, args) == Ok(cmd);
    ProxiedAt(env, ListKind, t, store, "lset", key, args, cmd);
    LSetReply(store, cmd);
    assert Wrap(ListKind, t, BoolReply(true)).Ok?;
  }

  lemma LSetReply(store: Store, cmd: Command)
    requires cmd.LSet?
    ensures Apply(store, cmd).reply.Ok? ==> Apply(store, cmd).reply == Ok(BoolReply(true))
    ensures Apply(store, cmd).reply.Err? ==> Apply(store, cmd).reply == Err(ResponseError)
  {
  }



  /** `l[i]` outside a pipeline raises IndexError exactly when i is out of
      the list's range. */
  lemma GetItemIndexError(env: Env, store: Store, tag: TagState, key: string, i: int)
    requires ListAt(store, key).Ok?
    ensures var xs := ListAt(store, key).value;
      var r := GetItem(env, Conn(store, None), tag, key, At(i));
      && (r.result == Err(IndexError) <==> !(0 <= Normalize(i, |xs|) < |xs|))
      && r.conn == Conn(store, None)
  {
    var xs := ListAt(store, key).value;
    var o := Apply(store, LIndex(key, i));
    if 0 <= Normalize(i, |xs|) < |xs| {
      NoneOnlyFromNil(ListKind, tag, o.reply.value);
    }
  }

  /** The materialised value is the whole stored list; with the str tag,
      or no tag yet, each element is the text stored. */
  lemma ValueIsWholeList(env: Env, store: Store, tag: TagState, key: string)
    requires ListAt(store, key).Ok? && (tag == Unset || tag == Fixed(StrTag))
    ensures ValueOf(env, Conn(store, None), tag, key) == Answered(Conn(store, None), Ok(Py(ListOf(Strs(ListAt(store, key).value)))))
  {
    RangeWhole(ListAt(store, key).value);
  }

  /** Integers appended to an int-tagged list come back as the same
      integers. */
  lemma AppendThenValue(env: Env, store: Store, key: string, ns: seq<int>, n: int)
    requires ListAt(store, key) == Ok(IntTexts(ns))
    ensures var s := Extend(env, Conn(store, None), Fixed(IntTag), key, ListOf([Int(n)]));
      && s.result == Ok(Nothing) && s.tag == Fixed(IntTag)
      && ValueOf(env, s.conn, Fixed(IntTag), key) == Answered(s.conn, Ok(Py(ListOf(Ints(ns + [n])))))
  {
    OneIntChecks(n);
    ExtendAppends(env, store, Fixed(IntTag), key, [Int(n)]);
    var s := Extend(env, Conn(store, None), Fixed(IntTag), key, ListOf([Int(n)]));
    assert Texts([Int(n)]) == [Decimal(n)];
    assert IntTexts(ns) + [Decimal(n)] == IntTexts(ns + [n]);
    ValueOfInts(env, s.conn.store, key, ns + [n]);
  }

  lemma OneIntChecks(n: int)
    ensures CheckLeaves(Fixed(IntTag), Leaves(ListKind, ListOf([Int(n)]))) == Checked(Fixed(IntTag), true)
  {
    assert [Int(n)][0] == Int(n) && [Int(n)][1..] == [];
    assert LeavesOf(ListKind, [Int(n)]) == [IntTag] + LeavesOf(ListKind, []);
    assert Leaves(ListKind, ListOf([Int(n)])) == [IntTag];
    assert [IntTag][0] == IntTag && [IntTag][1..] == [];
  }

  /** An int-tagged list handle reads back the integers its texts spell. */
  lemma ValueOfInts(env: Env, store: Store, key: string, ns: seq<int>)
    requires ListAt(store, key) == Ok(IntTexts(ns))
    ensures ValueOf(env, Conn(store, None), Fixed(IntTag), key) == Answered(Conn(store, None), Ok(Py(ListOf(Ints(ns)))))
  {
    var cmd := LRange(key, 0, -1);
    assert [Val(Int(0)), Val(Int(-1))][1..] == [Val(Int(-1))];
    assert Prepare("lrange", key, [Val(Int(0)), Val(Int(-1))]) == Ok(cmd);
    ProxiedAt(env, ListKind, Fixed(IntTag), store, "lrange", key, [Val(Int(0)), Val(Int(-1))], cmd);
    RangeWhole(IntTexts(ns));
    assert Apply(store, cmd) == Outcome(store, Ok(ListReply(IntTexts(ns))));
    IntListRoundTrip(ns);
    assert Texts(Ints(ns)) == IntTexts(ns);
  }


  /** `l.pop(-1)` takes the last element and `l.pop(0)` the first; any
      other index goes to the list_pop atom with that index. On an empty
      list RPOP and LPOP answer nil, so `pop` returns None: PopAt states
      the call for every store, empty lists included. */
  lemma PopDispatch(env: Env, store: Store, tag: TagState, key: string, i: int)
    requires ListAt(store, key).Ok? && ListAt(store, key).value != []
    ensures var xs := ListAt(store, key).value;
      && ListAt(Pop(env, Conn(store, None), tag, key, -1).conn.store, key) == Ok(xs[..|xs| - 1])
      && Pop(env, Conn(store, None), tag, key, -1).result == Wrap(ListKind, tag, BulkReply(xs[|xs| - 1]))
      && ListAt(Pop(env, Conn(store, None), tag, key, 0).conn.store, key) == Ok(xs[1..])
      && Pop(env, Conn(store, None), tag, key, 0).result == Wrap(ListKind, tag, BulkReply(xs[0]))
    ensures i != -1 && i != 0 && "list_pop" in env.scripts ==>
      Pop(env, Conn(store, None), tag, key, i).conn.store
        == env.run(env.scripts["list_pop"], [key], [Decimal(i)], store).store
  {
    PopLast(env, store, tag, key);
    PopFirst(env, store, tag, key);
    if i != -1 && i != 0 && "list_pop" in env.scripts {
      PopInside(env, store, tag, key, i);
    }
  }

  lemma PopLast(env: Env, store: Store, tag: TagState, key: string)
    requires ListAt(store, key).Ok? && ListAt(store, key).value != []
    ensures var xs := ListAt(store, key).value;
      && ListAt(Pop(env, Conn(store, None), tag, key, -1).conn.store, key) == Ok(xs[..|xs| - 1])
      && Pop(env, Conn(store, None), tag, key, -1).result == Wrap(ListKind, tag, BulkReply(xs[|xs| - 1]))
  {
    PopEnds(store, key);
    assert Prepare("rpop", key, []) == Ok(RPop(key));
    PopAt(env, store, tag, key, -1, RPop(key));
  }

  lemma PopFirst(env: Env, store: Store, tag: TagState, key: string)
    requires ListAt(store, key).Ok? && ListAt(store, key).value != []
    ensures var xs := ListAt(store, key).value;
      && ListAt(Pop(env, Conn(store, None), tag, key, 0).conn.store, key) == Ok(xs[1..])
      && Pop(env, Conn(store, None), tag, key, 0).result == Wrap(ListKind, tag, BulkReply(xs[0]))
  {
    PopEnds(store, key);
    assert Prepare("lpop", key, []) == Ok(LPop(key));
    PopAt(env, store, tag, key, 0, LPop(key));
  }

  lemma PopInside(env: Env, store: Store, tag: TagState, key: string, i: int)
    requires i != -1 && i != 0 && "list_pop" in env.scripts
    ensures Pop(env, Conn(store, None), tag, key, i).conn.store
         == env.run(env.scripts["list_pop"], [key], [Decimal(i)], store).store
  {
    assert [Val(Int(i))][1..] == [];
    assert ArgTexts([Val(Int(i))]) == [Decimal(i)];
  }


  /** `l.pop(i)` outside a pipeline, i an end of the list, runs its command
      at once. */
  lemma PopAt(env: Env, store: Store, tag: TagState, key: string, i: int, cmd: Command)
    requires i == -1 || i == 0
    requires Prepare(PopCall(i).0, key, []) == Ok(cmd)
    ensures var o := Apply(store, cmd);
      Pop(env, Conn(store, None), tag, key, i)
        == Answered(Conn(o.store, None), match o.reply case Err(e) => Err(e) case Ok(r) => Wrap(ListKind, tag, r))
  {
    ProxiedAt(env, ListKind, tag, store, PopCall(i).0, key, [], cmd);
  }

  // ---------------------------------------------------------------------
  // Reads over the materialised list

  /** `len(l)` outside a pipeline is the length of the stored list. */
  lemma LenIsLength(env: Env, store: Store, tag: TagState, key: string)
    requires ListAt(store, key).Ok? && (tag == Unset || tag == Fixed(StrTag))
    ensures Len(env, Conn(store, None), tag, key) == Answered(Conn(store, None), Ok(Py(Int(|ListAt(store, key).value|))))
  {
    var n := |ListAt(store, key).value|;
    assert Prepare("llen", key, []) == Ok(LLen(key));
    ProxiedAt(env, ListKind, tag, store, "llen", key, [], LLen(key));
    assert Apply(store, LLen(key)) == Outcome(store, Ok(IntReply(n)));
    StrUnchanged(ListKind, tag, IntReply(n));
  }

  /** `l.index(v)` outside a pipeline: the first position holding an element
      equal to v, and ValueError exactly when there is none. */
  lemma IndexFindsFirst(env: Env, store: Store, tag: TagState, key: string, v: Value)
    requires ListAt(store, key).Ok? && (tag == Unset || tag == Fixed(StrTag))
    ensures var xs := ListAt(store, key).value;
      var r := IndexIn(env, Conn(store, None), tag, key, v);
      && r.conn == Conn(store, None)
      && (r.result.Err? <==> forall k :: 0 <= k < |xs| ==> !PyEq(Str(xs[k]), v))
      && (r.result.Err? ==> r.result.error == ValueError)
      && (r.result.Ok? ==>
            (&& r.result.value.Py? && r.result.value.v.Int?
             && 0 <= r.result.value.v.i < |xs| && PyEq(Str(xs[r.result.value.v.i]), v)
             && forall j :: 0 <= j < r.result.value.v.i ==> !PyEq(Str(xs[j]), v)))
  {
    ValueIsWholeList(env, store, tag, key);
  }

  /** `l.count(v)` outside a pipeline: the number of positions of the
      stored list whose element equals v. */
  lemma CountCounts(env: Env, store: Store, tag: TagState, key: string, v: Value)
    requires ListAt(store, key).Ok? && (tag == Unset || tag == Fixed(StrTag))
    ensures var xs := ListAt(store, key).value;
      var r := CountIn(env, Conn(store, None), tag, key, v);
      && r.conn == Conn(store, None)
      && r.result == Ok(Py(Int(|Matches(Strs(xs), v)|)))
  {
    var xs := ListAt(store, key).value;
    ValueIsWholeList(env, store, tag, key);
    CountIsMatches(Strs(xs), v);
  }

  /** `l + o` with a plain list o outside a pipeline: the new List is made
      from the stored list followed by o. */
  lemma AddConcatenates(env: Env, store: Store, tag: TagState, key: string, ys: seq<Value>, newKey: string)
    requires ListAt(store, key).Ok? && (tag == Unset || tag == Fixed(StrTag))
    ensures Add(env, Conn(store, None), tag, key, Local(ListOf(ys)), newKey)
         == Init(env, Conn(store, None), newKey, Some(ListOf(Strs(ListAt(store, key).value) + ys)))
  {
    ValueIsWholeList(env, store, tag, key);
  }

  /** `l * n` outside a pipeline: the new List is made from the stored list
      repeated n times. */
  lemma MulRepeats(env: Env, store: Store, tag: TagState, key: string, n: int, newKey: string)
    requires ListAt(store, key).Ok? && (tag == Unset || tag == Fixed(StrTag))
    ensures Mul(env, Conn(store, None), tag, key, n, newKey)
         == Init(env, Conn(store, None), newKey, Some(ListOf(RepeatList(Strs(ListAt(store, key).value), n))))
  {
    ValueIsWholeList(env, store, tag, key);
  }

  /** Python's `xs * n`: copy q of xs (counting from 0) sits at q times the
      length of xs, so position q * |xs| + j holds xs[j]. */
  lemma {:induction false} RepeatAt(xs: seq<Value>, n: int, q: nat, j: nat)
    requires q < n && j < |xs|
    ensures q * |xs| + j < |RepeatList(xs, n)|
    ensures RepeatList(xs, n)[q * |xs| + j] == xs[j]
    decreases n
  {
    var len := |xs|;
    assert RepeatList(xs, n) == xs + RepeatList(xs, n - 1);
    if q > 0 {
      RepeatAt(xs, n - 1, q - 1, j);
      assert (q - 1) * len + j + len == q * len + j;
    }
  }

  /** `l == o` with o another List handle on strings, outside a pipeline:
      true exactly when the two stored lists are equal. */
  lemma EqualsIff(env: Env, store: Store, tag: TagState, key: string, k2: string, t2: TagState)
    requires ListAt(store, key).Ok? && ListAt(store, k2).Ok?
    requires (tag == Unset || tag == Fixed(StrTag)) && (t2 == Unset || t2 == Fixed(StrTag))
    ensures Equals(env, Conn(store, None), tag, key, ListHandle(k2, t2))
         == Answered(Conn(store, None), Ok(Py(Bool(ListAt(store, key).value == ListAt(store, k2).value))))
  {
    ValueIsWholeList(env, store, tag, key);
    ValueIsWholeList(env, store, t2, k2);
    StrListsEqual(ListAt(store, key).value, ListAt(store, k2).value);
  }

  lemma StrListsEqual(xs: seq<string>, ys: seq<string>)
    ensures PyEq(ListOf(Strs(xs)), ListOf(Strs(ys))) <==> xs == ys
  {
    if PyEq(ListOf(Strs(xs)), ListOf(Strs(ys))) {
      forall k | 0 <= k < |xs| ensures xs[k] == ys[k] {
        assert PyEq(Strs(xs)[k], Strs(ys)[k]);
      }
    }
  }
}
