/** What each `Dict` method does, as a function of the connection state.
    No Dict method checks the types of what it stores, so a Dict handle's
    tag is never fixed and every reply is typed with no tag. Some methods
    are defective as written (`values()` calls itself, `d[k] = v` never
    sends v, `d[k]` never returns the value) and are modelled that way.
    The `Dict` class carries them out. */
module DictOps {
  import opened Values
  import opened Redis
  import opened Typing
  import opened Router
  import opened Handles

  /** `self.<name>(*args)` on a Dict handle. */
  function Ask(env: Env, c: Conn, key: string, name: string, args: seq<Arg>): Answered
  {
    Proxied(env, DictKind, Unset, c, name, key, args)
  }

  /** A call whose value the method drops. */
  function Run(env: Env, c: Conn, key: string, name: string, args: seq<Arg>): Answered
  {
    var a := Ask(env, c, key, name, args);
    Answered(a.conn, Dropped(a.result))
  }

  /** `d.value`: HGETALL. */
  function ValueOf(env: Env, c: Conn, key: string): Answered
  {
    Ask(env, c, key, "hgetall", [])
  }

  /** `d.update(value)`: HMSET of the mapping. */
  function Update(env: Env, c: Conn, key: string, value: Arg): Answered
  {
    Run(env, c, key, "hmset", [value])
  }

  /** `d.keys()`: HKEYS. */
  function Keys(env: Env, c: Conn, key: string): Answered
  {
    Ask(env, c, key, "hkeys", [])
  }

  /** `d.values()` calls itself until Python gives up. */
  function ValuesOf(c: Conn): Answered
  {
    Answered(c, Err(RecursionError))
  }

  /** `d.items()`: the pairs of `d.value`, in key order. */
  datatype Itemized = Itemized(conn: Conn, items: Result<seq<(string, string)>, Error>)

  function Items(env: Env, c: Conn, key: string): Itemized
  {
    var a := ValueOf(env, c, key);
    Itemized(a.conn, match a.result
      case Err(e) => Err(e)
      case Ok(Hash(h)) => Ok(ItemsOf(h))
      case Ok(_) => Err(AttributeError("items")))   // the pipeline object has no items()
  }

  function ItemsOf(h: map<string, string>): (r: seq<(string, string)>)
  {
    var ks := Sorted(h.Keys);
    seq(|ks|, k requires 0 <= k < |ks| => (ks[k], h[ks[k]]))
  }

  /** `d.setdefault(name, v)`: HSETNX, and v only when it reports 1. */
  function Setdefault(env: Env, c: Conn, key: string, name: Value, v: Value): Answered
  {
    var a := Ask(env, c, key, "hsetnx", [Val(name), Val(v)]);
    Answered(a.conn, match a.result
      case Err(e) => Err(e)
      case Ok(x) => if AnswerEq(x, Int(1)) then Ok(Py(v)) else Ok(Nothing))
  }

  /** `d.get(name, default)`: `hget(name) or default`. */
  function Get(env: Env, c: Conn, key: string, name: Value, default: Answer): Answered
  {
    var a := Ask(env, c, key, "hget", [Val(name)]);
    Answered(a.conn, match a.result
      case Err(e) => Err(e)
      case Ok(x) => Ok(if AnswerTruthy(x) then x else default))
  }

  /** `d[name]`: KeyError when `get(name)` is None, and None otherwise. */
  function GetItem(env: Env, c: Conn, key: string, name: Value): Answered
  {
    var g := Get(env, c, key, name, Nothing);
    Answered(g.conn, match g.result
      case Err(e) => Err(e)
      case Ok(x) => if x == Nothing then Err(KeyError) else Ok(Nothing))
  }

  /** `d[name] = v`: `hset(name)`, without v. */
  function SetItem(env: Env, c: Conn, key: string, name: Value, v: Value): Answered
  {
    Run(env, c, key, "hset", [Val(name)])
  }

  /** `del d[name]`: HDEL. */
  function DelItem(env: Env, c: Conn, key: string, name: Value): Answered
  {
    Run(env, c, key, "hdel", [Val(name)])
  }

  // ---------------------------------------------------------------------
  // Dict(value, key)

  /** One element of the sequence given to `dict()`, as a key and a value:
      it must have exactly two items (ValueError otherwise), and a scalar
      or an unhashable key is a TypeError (None here). Keys are kept as the
      text the store will hold; a two-member set gives its members in
      ascending text order. */
  function PairOf(item: Value): Result<Option<(string, Value)>, Error>
  {
    match item
    case Int(_) => Ok(None)
    case Bool(_) => Ok(None)
    case Str(s) => if |s| == 2 then Ok(Some(([s[0]], Str([s[1]])))) else Err(ValueError)
    case ListOf(ys) =>
      if |ys| != 2 then Err(ValueError)
      else if !Hashable(ys[0]) then Ok(None)
      else Ok(Some((Text(ys[0]), ys[1])))
    case SetOf(ms) =>
      if |ms| != 2 then Err(ValueError)
      else
        TextsNotEmpty(ms);
        var ts := Sorted(TextsOf(ms));
        Ok(Some((ts[0], Str(ts[|ts| - 1]))))
  }

  function TextsOf(ms: set<Value>): set<string>
  {
    set x | x in ms :: Text(x)
  }

  lemma TextsNotEmpty(ms: set<Value>)
    requires ms != {}
    ensures |TextsOf(ms)| > 0
  {
    var y :| y in ms;
    var texts := TextsOf(ms);
    assert Text(y) in texts;
    assert texts != {};
  }

  /** `dict(items)`: the pairs in order, a later key replacing an earlier
      one; the first element that fails stops it. */
  function PairsOf(xs: seq<Value>): Result<Option<map<string, Value>>, Error>
    decreases |xs|
  {
    if xs == [] then Ok(Some(map[]))
    else
      match PairsOf(xs[..|xs| - 1])
      case Err(e) => Err(e)
      case Ok(None) => Ok(None)
      case Ok(Some(m)) =>
        match PairOf(xs[|xs| - 1])
        case Err(e) => Err(e)
        case Ok(None) => Ok(None)
        case Ok(Some(p)) => Ok(Some(m[p.0 := p.1]))
  }

  /** `dict(value)` for a value that is not a dict: None where it raises
      TypeError (which the constructor catches); a ValueError is raised. A
      text's elements are single characters. A set's members are visited
      with scalars other than strings first, then in text order. */
  function DictOf(v: Value): Result<Option<map<string, Value>>, Error>
  {
    match v
    case Int(_) => Ok(None)
    case Bool(_) => Ok(None)
    case Str(s) => if s == "" then Ok(Some(map[])) else Err(ValueError)
    case ListOf(xs) => PairsOf(xs)
    case SetOf(m) =>
      if exists x :: x in m && !x.Str? then Ok(None)
      else if exists x :: x in m && |x.s| != 2 then Err(ValueError)
      else
        var ts := Sorted(set x | x in m :: x.s);
        PairsOf(Strs(ts))
  }

  /** `Dict(value, key)`: a mapping as it is, another value through
      `dict()`; a non-empty result is written with `update`. */
  function Init(env: Env, c: Conn, key: string, value: Option<Arg>): Answered
  {
    match value
    case None => Answered(c, Ok(Nothing))
    case Some(Mapping(f)) =>
      if f == map[] then Answered(c, Ok(Nothing)) else Update(env, c, key, Mapping(f))
    case Some(Val(v)) =>
      match DictOf(v)
      case Err(e) => Answered(c, Err(e))
      case Ok(None) => Answered(c, Ok(Nothing))
      case Ok(Some(f)) =>
        if f == map[] then Answered(c, Ok(Nothing)) else Update(env, c, key, Mapping(f))
  }

  // ---------------------------------------------------------------------
  // Equality

  /** The right side of `d == o`: another Dict handle, or a local value. */
  datatype Operand = Local(a: Arg) | DictHandle(key: string)

  /** A local dict equals a hash when it has the same keys and each value
      is the stored text as a str. */
  predicate SameAsLocal(h: map<string, string>, f: map<string, Value>)
  {
    h.Keys == f.Keys && forall k :: k in f ==> f[k] == Str(h[k])
  }

  /** `d == o`: `d.value == _to_value(o)`, where only a Dict handle is
      unwrapped; a dict is never equal to a value of another type. */
  function Equals(env: Env, c: Conn, key: string, o: Operand): Answered
  {
    var mine := ValueOf(env, c, key);
    match mine.result
    case Err(e) => mine
    case Ok(a) =>
      match o
      case DictHandle(k) =>
        var theirs := ValueOf(env, mine.conn, k);
        Answered(theirs.conn, match theirs.result
          case Err(e) => Err(e)
          case Ok(b) => Ok(Py(Bool(a == b))))
      case Local(Mapping(f)) => Answered(mine.conn, Ok(Py(Bool(a.Hash? && SameAsLocal(a.fields, f)))))
      case Local(Val(_)) => Answered(mine.conn, Ok(Py(Bool(false))))
  }

  // ---------------------------------------------------------------------
  // What the Dict methods promise

  /** A Dict call outside a pipeline: the command runs at once and its
      reply is typed with no tag. */
  lemma AskAt(env: Env, store: Store, key: string, name: string, args: seq<Arg>, cmd: Command)
    requires Prepare(name, key, args) == Ok(cmd)
    ensures var o := Apply(store, cmd);
      Ask(env, Conn(store, None), key, name, args)
        == Answered(Conn(o.store, None), match o.reply case Err(e) => Err(e) case Ok(r) => Wrap(DictKind, Unset, r))
  {
    NativeRunsAtOnce(env, store, name, key, args);
  }

  lemma PrepareOneName(key: string, v: Value)
    ensures Prepare("hget", key, [Val(v)]) == Ok(HGet(key, Text(v)))
    ensures Prepare("hdel", key, [Val(v)]) == Ok(HDel(key, [Text(v)]))
  {
    assert [Val(v)][1..] == [];
    assert ArgTexts([Val(v)]) == [Text(v)];
  }

  lemma PrepareSetdefault(key: string, name: Value, v: Value)
    ensures Prepare("hsetnx", key, [Val(name), Val(v)]) == Ok(HSetNx(key, Text(name), Text(v)))
  {
    assert [Val(name), Val(v)][0] == Val(name) && [Val(name), Val(v)][1] == Val(v);
  }

  /** `d.value` outside a pipeline is the stored hash, every field and
      value a text. */
  lemma ValueIsHash(env: Env, store: Store, key: string)
    requires HashAt(store, key).Ok?
    ensures ValueOf(env, Conn(store, None), key) == Answered(Conn(store, None), Ok(Hash(HashAt(store, key).value)))
  {
    assert Prepare("hgetall", key, []) == Ok(HGetAll(key));
    AskAt(env, store, key, "hgetall", [], HGetAll(key));
    assert Apply(store, HGetAll(key)) == Outcome(store, Ok(HashReply(HashAt(store, key).value)));
  }

  /** `d.keys()` outside a pipeline: the stored fields, each once, as str. */
  lemma KeysListed(env: Env, store: Store, key: string)
    requires HashAt(store, key).Ok?
    ensures var a := Keys(env, Conn(store, None), key);
      var h := HashAt(store, key).value;
      && a.conn == Conn(store, None)
      && a.result.Ok? && a.result.value.Py? && a.result.value.v.ListOf?
      && |a.result.value.v.items| == |h|
      && forall x :: x in h <==> Str(x) in a.result.value.v.items
  {
    var h := HashAt(store, key).value;
    assert Prepare("hkeys", key, []) == Ok(HKeys(key));
    AskAt(env, store, key, "hkeys", [], HKeys(key));
    assert Apply(store, HKeys(key)) == Outcome(store, Ok(ListReply(Sorted(h.Keys))));
    StrsOfSorted(h.Keys);
  }

  lemma StrsOfSorted(s: set<string>)
    ensures |Strs(Sorted(s))| == |s|
    ensures forall x :: x in s <==> Str(x) in Strs(Sorted(s))
  {
    StrsHas(Sorted(s));
  }

  lemma StrsHas(xs: seq<string>)
    ensures forall x :: x in xs <==> Str(x) in Strs(xs)
  {
    var vs := Strs(xs);
    forall x ensures x in xs <==> Str(x) in vs {
      if x in xs {
        var k :| 0 <= k < |xs| && xs[k] == x;
        assert vs[k] == Str(x);
      }
      if Str(x) in vs {
        var k :| 0 <= k < |vs| && vs[k] == Str(x);
        assert xs[k] == x;
      }
    }
  }


  /** `d.update(f)` with a non-empty mapping, outside a pipeline: each field
      of f now holds the text of its value, the other fields stay, and None
      is returned. */
  lemma UpdateMerges(env: Env, store: Store, key: string, f: map<string, Value>)
    requires HashAt(store, key).Ok? && f != map[]
    ensures Update(env, Conn(store, None), key, Mapping(f))
         == Answered(Conn(store[key := HashEntry(HashAt(store, key).value + FieldTexts(f))], None), Ok(Nothing))
  {
    var cmd := HMSet(key, FieldTexts(f));
    PrepareUpdate(key, f);
    AskAt(env, store, key, "hmset", [Mapping(f)], cmd);
    ApplyUpdate(store, key, cmd.mapping);
    assert Wrap(DictKind, Unset, BoolReply(true)) == Ok(Py(Bool(true)));
  }

  lemma PrepareUpdate(key: string, f: map<string, Value>)
    requires f != map[]
    ensures Prepare("hmset", key, [Mapping(f)]) == Ok(HMSet(key, FieldTexts(f)))
    ensures FieldTexts(f) != map[]
  {
    var k0 :| k0 in f;
    assert k0 in FieldTexts(f);
  }

  /** HMSET merges a non-empty mapping into the hash. */
  lemma ApplyUpdate(store: Store, key: string, m: map<string, string>)
    requires HashAt(store, key).Ok? && m != map[]
    ensures Apply(store, HMSet(key, m)) == Outcome(store[key := HashEntry(HashAt(store, key).value + m)], Ok(BoolReply(true)))
  {
  }

  /** `d.update({})` is refused before anything is sent, in or out of a
      pipeline. */
  lemma UpdateEmptyRefused(env: Env, c: Conn, key: string)
    ensures Update(env, c, key, Mapping(map[])) == Answered(c, Err(DataError))
  {
  }

  /** `d.setdefault(name, v)` outside a pipeline: v exactly when the field
      was missing, and then the field holds the text of v; None when it was
      there, and then nothing changes. */
  lemma SetdefaultIff(env: Env, store: Store, key: string, name: Value, v: Value)
    requires HashAt(store, key).Ok?
    ensures var s := Setdefault(env, Conn(store, None), key, name, v);
      var h := HashAt(store, key).value;
      && (Text(name) !in h ==> s.result == Ok(Py(v)) && HashAt(s.conn.store, key) == Ok(h[Text(name) := Text(v)]))
      && (Text(name) in h ==> s.result == Ok(Nothing) && s.conn == Conn(store, None))
  {
    var f, t := Text(name), Text(v);
    var h := HashAt(store, key).value;
    PrepareSetdefault(key, name, v);
    AskAt(env, store, key, "hsetnx", [Val(name), Val(v)], HSetNx(key, f, t));
    SetFieldIfAbsent(store, key, f, t);
    if f in h {
      assert Wrap(DictKind, Unset, IntReply(0)) == Ok(Py(Int(0)));
    } else {
      assert Wrap(DictKind, Unset, IntReply(1)) == Ok(Py(Int(1)));
    }
  }

  /** HSETNX answers 1 and writes the field when it is missing, and answers
      0 and changes nothing when it is there. */
  lemma SetFieldIfAbsent(store: Store, key: string, f: string, t: string)
    requires HashAt(store, key).Ok?
    ensures var h := HashAt(store, key).value;
      var o := Apply(store, HSetNx(key, f, t));
      && (f in h ==> o == Outcome(store, Ok(IntReply(0))))
      && (f !in h ==> o.reply == Ok(IntReply(1)) && HashAt(o.store, key) == Ok(h[f := t]))
  {
    var h := HashAt(store, key).value;
    if f !in h {
      assert Apply(store, HSetNx(key, f, t)).store == store[key := HashEntry(h[f := t])];
    }
  }


  /** `d.get(name, default)` outside a pipeline: the stored text when the
      field is there and not empty, and default otherwise. */
  lemma GetOrDefault(env: Env, store: Store, key: string, name: Value, default: Answer)
    requires HashAt(store, key).Ok?
    ensures var h := HashAt(store, key).value;
      Get(env, Conn(store, None), key, name, default)
        == Answered(Conn(store, None), Ok(if Text(name) in h && h[Text(name)] != "" then Py(Str(h[Text(name)])) else default))
  {
    PrepareOneName(key, name);
    AskAt(env, store, key, "hget", [Val(name)], HGet(key, Text(name)));
    var h := HashAt(store, key).value;
    assert Apply(store, HGet(key, Text(name))) == Outcome(store, Ok(if Text(name) in h then BulkReply(h[Text(name)]) else NilReply));
  }

  /** `d[name]` outside a pipeline never gives the stored value: KeyError
      when the field is missing or empty, None otherwise. */
  lemma GetItemNeverValue(env: Env, store: Store, key: string, name: Value)
    requires HashAt(store, key).Ok?
    ensures var h := HashAt(store, key).value;
      var s := GetItem(env, Conn(store, None), key, name);
      && s.conn == Conn(store, None)
      && (s.result == Err(KeyError) <==> Text(name) !in h || h[Text(name)] == "")
      && (s.result != Err(KeyError) ==> s.result == Ok(Nothing))
  {
    GetOrDefault(env, store, key, name, Nothing);
  }

  /** `d[name] = v` always raises TypeError, sends nothing, and changes
      nothing, in or out of a pipeline. */
  lemma SetItemRaises(env: Env, c: Conn, key: string, name: Value, v: Value)
    ensures SetItem(env, c, key, name, v) == Answered(c, Err(TypeError))
  {
    assert |[Val(name)]| == 1;
  }

  /** `del d[name]` outside a pipeline: the field is gone and the others
      stay; no error when it was missing. */
  lemma DelItemRemoves(env: Env, store: Store, key: string, name: Value)
    requires HashAt(store, key).Ok?
    ensures var s := DelItem(env, Conn(store, None), key, name);
      && s.result == Ok(Nothing)
      && s.conn.queue.None?
      && HashAt(s.conn.store, key) == Ok(HashAt(store, key).value - {Text(name)})
  {
    PrepareOneName(key, name);
    AskAt(env, store, key, "hdel", [Val(name)], HDel(key, [Text(name)]));
    var n := DelField(store, key, Text(name));
    assert Wrap(DictKind, Unset, IntReply(n)) == Ok(Py(Int(n)));
  }

  /** HDEL of one field: the field is gone and the answer is a count. */
  lemma DelField(store: Store, key: string, f: string) returns (n: int)
    requires HashAt(store, key).Ok?
    ensures var o := Apply(store, HDel(key, [f]));
      o.reply == Ok(IntReply(n)) && HashAt(o.store, key) == Ok(HashAt(store, key).value - {f})
  {
    var h := HashAt(store, key).value;
    var gone := set g | g in [f] && g in h :: g;
    assert h - gone == h - {f};
    n := |gone|;
    assert Apply(store, HDel(key, [f])) == Outcome(PutHash(store, key, h - gone), Ok(IntReply(n)));
    assert HashAt(PutHash(store, key, h - gone), key) == Ok(h - gone);
  }


  /** `d.items()` outside a pipeline: each stored field once, with its
      value. */
  lemma ItemsListed(env: Env, store: Store, key: string)
    requires HashAt(store, key).Ok?
    ensures var s := Items(env, Conn(store, None), key);
      var h := HashAt(store, key).value;
      && s.conn == Conn(store, None) && s.items.Ok?
      && |s.items.value| == |h|
      && forall f, x :: (f, x) in s.items.value <==> f in h && h[f] == x
  {
    ValueIsHash(env, store, key);
    var h := HashAt(store, key).value;
    var ks := Sorted(h.Keys);
    var r := ItemsOf(h);
    forall f, x ensures (f, x) in r <==> f in h && h[f] == x {
      if f in h && h[f] == x {
        var k :| 0 <= k < |ks| && ks[k] == f;
        assert r[k] == (f, x);
      }
    }
  }

  /** Two Dict handles outside a pipeline are equal exactly when their
      stored hashes are. */
  lemma EqualsIff(env: Env, store: Store, key: string, k2: string)
    requires HashAt(store, key).Ok? && HashAt(store, k2).Ok?
    ensures Equals(env, Conn(store, None), key, DictHandle(k2)).result
         == Ok(Py(Bool(HashAt(store, key).value == HashAt(store, k2).value)))
  {
    ValueIsHash(env, store, key);
    ValueIsHash(env, store, k2);
  }

  /** A Dict handle outside a pipeline equals the local dict of its fields
      as str values, and no value that is not a dict. */
  lemma EqualsLocal(env: Env, store: Store, key: string, v: Value)
    requires HashAt(store, key).Ok?
    ensures var h := HashAt(store, key).value;
      Equals(env, Conn(store, None), key, Local(Mapping(map k | k in h :: Str(h[k])))).result == Ok(Py(Bool(true)))
    ensures Equals(env, Conn(store, None), key, Local(Val(v))).result == Ok(Py(Bool(false)))
  {
    ValueIsHash(env, store, key);
  }

  /** `Dict(value)` with an int or a bool: `dict()` raises TypeError, which
      is caught, and nothing is written. */
  lemma InitIgnoresScalars(env: Env, c: Conn, key: string, v: Value)
    requires v.Int? || v.Bool?
    ensures Init(env, c, key, Some(Val(v))) == Answered(c, Ok(Nothing))
  {
  }

  /** Lists of two items with a hashable first one: the pairs `dict()`
      takes without error. */
  predicate PairLists(xs: seq<Value>)
  {
    forall k :: 0 <= k < |xs| ==> xs[k].ListOf? && |xs[k].items| == 2 && Hashable(xs[k].items[0])
  }

  /** `dict()` of such a list: its keys are the texts of the first items. */
  lemma {:induction false} PairsKeys(xs: seq<Value>)
    requires PairLists(xs)
    ensures PairsOf(xs).Ok? && PairsOf(xs).value.Some?
    ensures forall f :: f in PairsOf(xs).value.value <==> exists k :: 0 <= k < |xs| && Text(xs[k].items[0]) == f
    decreases |xs|
  {
    if xs != [] {
      var init, last := xs[..|xs| - 1], xs[|xs| - 1];
      assert PairLists(init) by {
        forall k | 0 <= k < |init| ensures init[k] == xs[k] {}
      }
      PairsKeys(init);
      var m := PairsOf(init).value.value;
      assert PairOf(last) == Ok(Some((Text(last.items[0]), last.items[1])));
      var m2 := PairsOf(xs).value.value;
      assert m2 == m[Text(last.items[0]) := last.items[1]];
      forall f ensures f in m2 <==> exists k :: 0 <= k < |xs| && Text(xs[k].items[0]) == f {
        if f in m && f != Text(last.items[0]) {
          var k :| 0 <= k < |init| && Text(init[k].items[0]) == f;
          assert xs[k] == init[k];
        }
        if exists k :: 0 <= k < |xs| && Text(xs[k].items[0]) == f {
          var k :| 0 <= k < |xs| && Text(xs[k].items[0]) == f;
          if k < |init| {
            assert init[k] == xs[k];
          }
        }
      }
    }
  }

  /** ... and a later pair with the same key replaces an earlier one: the
      value of the pair at k stays when no later pair has its key. */
  lemma {:induction false} PairsLastWins(xs: seq<Value>, k: nat)
    requires PairLists(xs) && k < |xs|
    requires forall j :: k < j < |xs| ==> Text(xs[j].items[0]) != Text(xs[k].items[0])
    ensures PairsOf(xs).Ok? && PairsOf(xs).value.Some?
    ensures var m := PairsOf(xs).value.value;
      Text(xs[k].items[0]) in m && m[Text(xs[k].items[0])] == xs[k].items[1]
    decreases |xs|
  {
    var init, last := xs[..|xs| - 1], xs[|xs| - 1];
    assert PairLists(init) by {
      forall j | 0 <= j < |init| ensures init[j] == xs[j] {}
    }
    PairsKeys(init);
    assert PairOf(last) == Ok(Some((Text(last.items[0]), last.items[1])));
    if k < |init| {
      assert init[k] == xs[k];
      forall j | k < j < |init| ensures Text(init[j].items[0]) != Text(init[k].items[0]) {
        assert init[j] == xs[j];
      }
      PairsLastWins(init, k);
    }
  }
}
