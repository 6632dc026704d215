/** The collection handles: `List`, `Set` and `Dict` objects bound to a key
    of the store. Each method checks types on its handle's tag, calls through
    the router, and is proved to do what the matching function of ListOps,
    SetOps or DictOps says. */
module HotRedis {
  import opened Values
  import opened Redis
  import opened Typing
  import opened Router
  import opened Handles
  import ListOps
  import SetOps
  import DictOps

  class List {
    const base: Iterable

    predicate Valid()
    {
      base.kind == ListKind
    }

    /** A handle on key with no element type known yet. */
    constructor(key: string, server: Server)
      ensures Valid() && base.key == key && base.server == server && base.tag == Unset
      ensures fresh(base)
    {
      base := new Iterable(ListKind, key, server);
    }

    /** `List(value, key)`: a new handle, extended with value when `list()`
      takes it and it is not empty. */
    static method Create(key: string, server: Server, value: Option<Value>) returns (l: List, r: Result<Answer, Error>)
      modifies server
      ensures fresh(l) && fresh(l.base) && l.Valid() && l.base.key == key && l.base.server == server
      ensures Step(server.conn, l.base.tag, r) == ListOps.Init(server.env, old(server.conn), key, value)
    {
      l := new List(key, server);
      r := Ok(Nothing);
      match value
      case None =>
      case Some(v) =>
        if !(v.Int? || v.Bool? || !Truthy(v)) {
          r := l.ExtendBy(v);
        }
    }

    /** `l.value`. */
    method Value() returns (r: Result<Answer, Error>)
      requires Valid()
      modifies base.server
      ensures Answered(base.server.conn, r) == ListOps.ValueOf(base.server.env, old(base.server.conn), base.tag, base.key)
    {
      r := base.Proxy("lrange", [Val(Int(0)), Val(Int(-1))]);
    }

    /** `l[i]` and `l[start:stop]`. */
    method GetItem(i: ListOps.Index) returns (r: Result<Answer, Error>)
      requires Valid()
      modifies base.server
      ensures Answered(base.server.conn, r) == ListOps.GetItem(base.server.env, old(base.server.conn), base.tag, base.key, i)
    {
      match i
      case SliceOf(start, stop) =>
        var (a, e) := ListOps.SliceBoundsAsWritten(start, stop);
        r := base.Proxy("lrange", [Val(Int(a)), Val(Int(e))]);
      case At(n) =>
        r := base.Proxy("lindex", [Val(Int(n))]);
        if r == Ok(Nothing) {
          r := Err(IndexError);
        }
    }

    /** `l[i] = v`. */
    method SetItem(i: int, v: Value) returns (r: Result<Answer, Error>)
      requires Valid()
      modifies base, base.server
      ensures Step(base.server.conn, base.tag, r) == ListOps.SetItem(base.server.env, old(base.server.conn), old(base.tag), base.key, i, v)
    {
      var ok := base.CheckType(v);
      if !ok {
        return Err(TypeError);
      }
      r := base.Proxy("lset", [Val(Int(i)), Val(v)]);
      if r == Err(ResponseError) {
        r := Err(IndexError);
      } else {
        r := Dropped(r);
      }
    }

    /** `del l[i]`. */
    method DelItem(i: int) returns (r: Result<Answer, Error>)
      requires Valid()
      modifies base.server
      ensures Answered(base.server.conn, r) == ListOps.Run(base.server.env, old(base.server.conn), base.tag, base.key, ListOps.PopCall(i).0, ListOps.PopCall(i).1)
    {
      r := Pop(i);
      r := Dropped(r);
    }

    /** `l.extend(v)`. */
    method ExtendBy(v: Value) returns (r: Result<Answer, Error>)
      requires Valid()
      modifies base, base.server
      ensures Step(base.server.conn, base.tag, r) == ListOps.Extend(base.server.env, old(base.server.conn), old(base.tag), base.key, v)
    {
      var ok := base.CheckType(v);
      if !ok {
        return Err(TypeError);
      }
      match Unpacked(v)
      case Err(e) =>
        r := Err(e);
      case Ok(ts) =>
        r := base.Proxy("rpush", TextArgs(ts));
        r := Dropped(r);
    }

    /** `l.append(v)`: `l.extend([v])`. */
    method Append(v: Value) returns (r: Result<Answer, Error>)
      requires Valid()
      modifies base, base.server
      ensures Step(base.server.conn, base.tag, r) == ListOps.Extend(base.server.env, old(base.server.conn), old(base.tag), base.key, ListOf([v]))
    {
      r := ExtendBy(ListOf([v]));
    }

    /** `l.insert(i, v)`. */
    method Insert(i: int, v: Value) returns (r: Result<Answer, Error>)
      requires Valid()
      modifies base, base.server
      ensures Step(base.server.conn, base.tag, r) == ListOps.Insert(base.server.env, old(base.server.conn), old(base.tag), base.key, i, v)
    {
      var ok := base.CheckType(v);
      if !ok {
        return Err(TypeError);
      }
      r := base.Proxy("list_insert", [Val(Int(i)), Val(v)]);
      r := Dropped(r);
    }

    /** `l.pop(i)`. */
    method Pop(i: int) returns (r: Result<Answer, Error>)
      requires Valid()
      modifies base.server
      ensures Answered(base.server.conn, r) == ListOps.Pop(base.server.env, old(base.server.conn), base.tag, base.key, i)
    {
      if i == -1 {
        r := base.Proxy("rpop", []);
      } else if i == 0 {
        r := base.Proxy("lpop", []);
      } else {
        r := base.Proxy("list_pop", [Val(Int(i))]);
      }
    }

    /** `l.reverse()`. */
    method Reverse() returns (r: Result<Answer, Error>)
      requires Valid()
      modifies base.server
      ensures Answered(base.server.conn, r) == ListOps.Run(base.server.env, old(base.server.conn), base.tag, base.key, "list_reverse", [])
    {
      r := base.Proxy("list_reverse", []);
      r := Dropped(r);
    }

    /** `l *= n`. */
    method IMul(n: int) returns (r: Result<Answer, Error>)
      requires Valid()
      modifies base.server
      ensures Answered(base.server.conn, r) == ListOps.Run(base.server.env, old(base.server.conn), base.tag, base.key, "list_multiply", [Val(Int(n))])
    {
      r := base.Proxy("list_multiply", [Val(Int(n))]);
      r := Dropped(r);
    }

    /** `len(l)`. */
    method Len() returns (r: Result<Answer, Error>)
      requires Valid()
      modifies base.server
      ensures Answered(base.server.conn, r) == ListOps.Len(base.server.env, old(base.server.conn), base.tag, base.key)
    {
      r := base.Proxy("llen", []);
    }

    /** `l.index(v)`. */
    method Index(v: Value) returns (r: Result<Answer, Error>)
      requires Valid()
      modifies base.server
      ensures Answered(base.server.conn, r) == ListOps.IndexIn(base.server.env, old(base.server.conn), base.tag, base.key, v)
    {
      var a := Value();
      match a
      case Err(e) => r := Err(e);
      case Ok(Py(ListOf(xs))) =>
        match IndexOf(xs, v) {
          case Ok(k) => r := Ok(Py(Int(k)));
          case Err(e) => r := Err(e);
        }
      case Ok(_) => r := Err(AttributeError("index"));
    }

    /** `l.count(v)`. */
    method Count(v: Value) returns (r: Result<Answer, Error>)
      requires Valid()
      modifies base.server
      ensures Answered(base.server.conn, r) == ListOps.CountIn(base.server.env, old(base.server.conn), base.tag, base.key, v)
    {
      var a := Value();
      match a
      case Err(e) => r := Err(e);
      case Ok(Py(ListOf(xs))) => r := Ok(Py(Int(CountOf(xs, v))));
      case Ok(_) => r := Err(AttributeError("count"));
    }

    /** `_to_value(o)` for another List handle. */
    static method ToValue(server: Server, o: ListOps.Operand) returns (r: Result<Value, Error>)
      modifies server
      ensures Got(server.conn, r) == ListOps.ToValue(server.env, old(server.conn), o)
    {
      match o
      case Local(v) =>
        r := Ok(v);
      case ListHandle(k, t) =>
        var reply := server.Call("lrange", k, [Val(Int(0)), Val(Int(-1))]);
        match reply {
          case Err(e) => r := Err(e);
          case Ok(rep) =>
            match Wrap(ListKind, t, rep) {
              case Err(e) => r := Err(e);
              case Ok(Py(v)) => r := Ok(v);
              case Ok(_) => r := Err(TypeError);
            }
        }
    }

    /** `l == o`. */
    method Equals(o: ListOps.Operand) returns (r: Result<Answer, Error>)
      requires Valid()
      modifies base.server
      ensures Answered(base.server.conn, r) == ListOps.Equals(base.server.env, old(base.server.conn), base.tag, base.key, o)
    {
      var mine := Value();
      var theirs := ToValue(base.server, o);
      match (mine, theirs)
      case (Err(e), _) => r := Err(e);
      case (_, Err(e)) => r := Err(e);
      case (Ok(a), Ok(v)) => r := Ok(Py(Bool(AnswerEq(a, v))));
    }

    /** `l += o`. */
    method IAdd(o: ListOps.Operand) returns (r: Result<Answer, Error>)
      requires Valid()
      modifies base, base.server
      ensures Step(base.server.conn, base.tag, r) == ListOps.IAdd(base.server.env, old(base.server.conn), old(base.tag), base.key, o)
    {
      var v := ToValue(base.server, o);
      match v
      case Err(e) => r := Err(e);
      case Ok(x) => r := ExtendBy(x);
    }

    /** `l + o`: a new List under newKey (the source draws a fresh key). */
    method Add(o: ListOps.Operand, newKey: string) returns (l: List, r: Result<Answer, Error>)
      requires Valid()
      modifies base.server
      ensures fresh(l) && fresh(l.base) && l.Valid() && l.base.key == newKey && l.base.server == base.server
      ensures Step(base.server.conn, l.base.tag, r) == ListOps.Add(base.server.env, old(base.server.conn), base.tag, base.key, o, newKey)
    {
      var mine := Value();
      var theirs := ToValue(base.server, o);
      l, r := Concat(base.server, mine, theirs, newKey);
    }

    static method Concat(server: Server, mine: Result<Answer, Error>, theirs: Result<Value, Error>, newKey: string) returns (l: List, r: Result<Answer, Error>)
      modifies server
      ensures fresh(l) && fresh(l.base) && l.Valid() && l.base.key == newKey && l.base.server == server
      ensures Step(server.conn, l.base.tag, r) == ListOps.Concat(server.env, old(server.conn), mine, theirs, newKey)
    {
      match (mine, theirs) {
        case (Err(e), _) =>
          l := new List(newKey, server);
          r := Err(e);
        case (_, Err(e)) =>
          l := new List(newKey, server);
          r := Err(e);
        case (Ok(Py(ListOf(xs))), Ok(ListOf(ys))) =>
          l, r := Create(newKey, server, Some(ListOf(xs + ys)));
        case (_, _) =>
          l := new List(newKey, server);
          r := Err(TypeError);
      }
    }

    /** `l * n`: a new List under newKey holding the list n times over. */
    method Mul(n: int, newKey: string) returns (l: List, r: Result<Answer, Error>)
      requires Valid()
      modifies base.server
      ensures fresh(l) && fresh(l.base) && l.Valid() && l.base.key == newKey && l.base.server == base.server
      ensures Step(base.server.conn, l.base.tag, r) == ListOps.Mul(base.server.env, old(base.server.conn), base.tag, base.key, n, newKey)
    {
      var mine := Value();
      match mine {
        case Err(e) =>
          l := new List(newKey, base.server);
          r := Err(e);
        case Ok(Py(ListOf(xs))) =>
          l, r := Create(newKey, base.server, Some(ListOf(ListOps.RepeatList(xs, n))));
        case Ok(_) =>
          l := new List(newKey, base.server);
          r := Err(TypeError);
      }
    }
  }

  class Set {
    const base: Iterable

    predicate Valid()
    {
      base.kind == SetKind
    }

    /** A handle on key with no element type known yet. */
    constructor(key: string, server: Server)
      ensures Valid() && base.key == key && base.server == server && base.tag == Unset
      ensures fresh(base)
    {
      base := new Iterable(SetKind, key, server);
    }

    /** `Set(value, key)`: a new handle, updated with value when `iter()`
      takes it and it is not empty. */
    static method Create(key: string, server: Server, value: Option<Value>) returns (s: Set, r: Result<Answer, Error>)
      modifies server
      ensures fresh(s) && fresh(s.base) && s.Valid() && s.base.key == key && s.base.server == server
      ensures Step(server.conn, s.base.tag, r) == SetOps.Init(server.env, old(server.conn), key, value)
    {
      s := new Set(key, server);
      r := Ok(Nothing);
      match value
      case None =>
      case Some(v) =>
        if !(v.Int? || v.Bool? || !Truthy(v)) {
          r := s.Update([SetOps.Local(v)]);
        }
    }

    // -------------------------------------------------------------------
    // Calls on a handle given by its key and tag (the handle itself, or
    // another Set handle among the operands)

    /** `self.<name>(*args)` on the Set handle under key. */
    static method Ask(server: Server, tag: TagState, key: string, name: string, args: seq<Arg>) returns (r: Result<Answer, Error>)
      modifies server
      ensures Answered(server.conn, r) == SetOps.Ask(server.env, old(server.conn), tag, key, name, args)
    {
      var reply := server.Call(name, key, args);
      match reply
      case Err(e) => r := Err(e);
      case Ok(rep) => r := Wrap(SetKind, tag, rep);
    }

    /** An operand as a Python value. */
    static method Materialize(server: Server, o: SetOps.Operand) returns (r: Result<Value, Error>)
      modifies server
      ensures Got(server.conn, r) == SetOps.Materialized(server.env, old(server.conn), o)
    {
      match o
      case Local(v) =>
        r := Ok(v);
      case SetHandle(k, t) =>
        var a := Ask(server, t, k, "smembers", []);
        match a {
          case Err(e) => r := Err(e);
          case Ok(Py(v)) => r := Ok(v);
          case Ok(_) => r := Err(TypeError);
        }
    }

    /** `set(operand)`. */
    static method AsSet(server: Server, o: SetOps.Operand) returns (r: Result<Value, Error>)
      modifies server
      ensures Got(server.conn, r) == SetOps.AsSet(server.env, old(server.conn), o)
    {
      var g := Materialize(server, o);
      match g
      case Err(e) => r := Err(e);
      case Ok(v) =>
        match SetOps.SetOfValue(v) {
          case Ok(m) => r := Ok(SetOf(m));
          case Err(e) => r := Err(e);
        }
    }

    /** `*operand`: the texts a call sends. */
    static method Spill(server: Server, o: SetOps.Operand) returns (r: Result<seq<string>, Error>)
      modifies server
      ensures SetOps.Spilled(server.conn, r) == SetOps.Listed(server.env, old(server.conn), o)
    {
      var g := Materialize(server, o);
      match g
      case Err(e) => r := Err(e);
      case Ok(v) => r := Unpacked(v);
    }

    /** The loop of `_reduce`: each operand made a set and its members
      checked on the tag, stopping at the first failure. */
    static method Precheck(server: Server, tag: TagState, vals: seq<SetOps.Operand>) returns (t: TagState, r: Result<Answer, Error>)
      modifies server
      ensures Step(server.conn, t, r) == SetOps.Precheck(server.env, old(server.conn), tag, vals)
    {
      ghost var c0 := server.conn;
      t, r := tag, Ok(Nothing);
      var i := 0;
      assert vals[..0] == [];
      while i < |vals|
        invariant 0 <= i <= |vals|
        invariant SetOps.Precheck(server.env, c0, tag, vals[..i]) == Step(server.conn, t, Ok(Nothing))
      {
        SetOps.PrecheckNext(server.env, c0, tag, vals, i, server.conn, t);
        var g := AsSet(server, vals[i]);
        match g {
          case Err(e) =>
            r := Err(e);
            SetOps.PrecheckStops(server.env, c0, tag, vals, i + 1);
            return;
          case Ok(s) =>
            var ck := CheckLeaves(t, Leaves(SetKind, s));
            t := ck.tag;
            if !ck.ok {
              r := Err(TypeError);
              SetOps.PrecheckStops(server.env, c0, tag, vals, i + 1);
              return;
            }
        }
        i := i + 1;
      }
      assert vals[..i] == vals;
    }

    /** `_reduce(op, values)`. */
    static method Reduce(server: Server, tag: TagState, op: SetOps.Op, vals: seq<SetOps.Operand>) returns (t: TagState, r: Result<SetOps.Operand, Error>)
      modifies server
      ensures SetOps.Reduced(server.conn, t, r) == SetOps.Reduce(server.env, old(server.conn), tag, op, vals)
      decreases |vals|, 1
    {
      var p;
      t, p := Precheck(server, tag, vals);
      if p.Err? {
        return t, Err(p.error);
      }
      if vals == [] {
        return t, Err(TypeError);
      }
      r := Fold(server, op, vals[0], vals[1..]);
    }

    /** `reduce(op, rest, acc)`. */
    static method Fold(server: Server, op: SetOps.Op, acc: SetOps.Operand, rest: seq<SetOps.Operand>) returns (r: Result<SetOps.Operand, Error>)
      modifies server
      ensures SetOps.Folded(server.conn, r) == SetOps.Fold(server.env, old(server.conn), op, acc, rest)
      decreases |rest| + 1, 0
    {
      ghost var c0 := server.conn;
      var a := acc;
      var i := 0;
      while i < |rest|
        invariant 0 <= i <= |rest|
        invariant SetOps.Fold(server.env, server.conn, op, a, rest[i..]) == SetOps.Fold(server.env, c0, op, acc, rest)
      {
        SetOps.FoldNext(server.env, server.conn, op, a, rest, i);
        var s := Combined(server, op, a, rest[i]);
        if s.Err? {
          return s;
        }
        a := s.value;
        i := i + 1;
      }
      r := Ok(a);
    }

    /** `op(acc, v)`. */
    static method Combined(server: Server, op: SetOps.Op, acc: SetOps.Operand, v: SetOps.Operand) returns (r: Result<SetOps.Operand, Error>)
      modifies server
      ensures SetOps.Folded(server.conn, r) == SetOps.Combined(server.env, old(server.conn), op, acc, v)
      decreases 1, 3
    {
      match acc
      case SetHandle(k, t) =>
        var t2, s := InPlace(server, t, k, op, [v]);
        r := if s.Err? then Err(s.error) else Ok(SetOps.SetHandle(k, t2));
      case Local(a) =>
        var g := Materialize(server, v);
        match (a, g) {
          case (_, Err(e)) => r := Err(e);
          case (SetOf(x), Ok(SetOf(y))) => r := Ok(SetOps.Local(SetOf(SetOps.Combine(op, x, y))));
          case (_, _) => r := Err(TypeError);
        }
    }

    /** `update`, `intersection_update`, `difference_update` on the handle
      under key. */
    static method InPlace(server: Server, tag: TagState, key: string, op: SetOps.Op, vals: seq<SetOps.Operand>) returns (t: TagState, r: Result<Answer, Error>)
      modifies server
      ensures Step(server.conn, t, r) == SetOps.InPlace(server.env, old(server.conn), tag, key, op, vals)
      decreases |vals|, 2
    {
      if op != SetOps.UnionOp && SetOps.AllRedis(vals) {
        var name := if op == SetOps.InterOp then "sinterstore" else "sdiffstore";
        r := Ask(server, tag, key, name, TextArgs([key] + SetOps.KeysOf(vals)));
        return tag, Dropped(r);
      }
      var red;
      t, red := Reduce(server, tag, op, vals);
      match red {
        case Err(e) => r := Err(e);
        case Ok(acc) =>
          var l := Spill(server, acc);
          match l {
            case Err(e) => r := Err(e);
            case Ok(ts) =>
              var name := match op
                case UnionOp => "sadd"
                case InterOp => "set_intersection_update"
                case DiffOp => "set_difference_update";
              r := Ask(server, t, key, name, TextArgs(ts));
              r := Dropped(r);
          }
      }
    }

    /** `intersection`, `union`, `difference` on the handle under key. */
    static method Combination(server: Server, tag: TagState, key: string, op: SetOps.Op, vals: seq<SetOps.Operand>) returns (t: TagState, r: Result<Answer, Error>)
      modifies server
      ensures Step(server.conn, t, r) == SetOps.Combination(server.env, old(server.conn), tag, key, op, vals)
    {
      if SetOps.AllRedis(vals) {
        r := Ask(server, tag, key, SetOps.QueryName(op), TextArgs(SetOps.KeysOf(vals)));
        return tag, r;
      }
      var mine := Ask(server, tag, key, "smembers", []);
      match mine {
        case Err(e) =>
          return tag, Err(e);
        case Ok(Py(v)) =>
          var red;
          t, red := Reduce(server, tag, op, [SetOps.Local(v)] + vals);
          match red {
            case Err(e) => r := Err(e);
            case Ok(Local(w)) => r := Ok(Py(w));
            case Ok(SetHandle(_, _)) => r := Err(TypeError);
          }
        case Ok(_) =>
          return tag, Err(TypeError);
      }
    }

    // -------------------------------------------------------------------
    // The methods of a Set handle

    /** `s.value`. */
    method Value() returns (r: Result<Answer, Error>)
      requires Valid()
      modifies base.server
      ensures Answered(base.server.conn, r) == SetOps.Members(base.server.env, old(base.server.conn), base.tag, base.key)
    {
      r := base.Proxy("smembers", []);
    }

    /** `s.add(v)`. */
    method Add(v: Value) returns (r: Result<Answer, Error>)
      requires Valid()
      modifies base, base.server
      ensures Step(base.server.conn, base.tag, r) == SetOps.Add(base.server.env, old(base.server.conn), old(base.tag), base.key, v)
    {
      r := Update([SetOps.Local(ListOf([v]))]);
    }

    /** `s.update(*vals)` (also `s |= o`). */
    method Update(vals: seq<SetOps.Operand>) returns (r: Result<Answer, Error>)
      requires Valid()
      modifies base, base.server
      ensures Step(base.server.conn, base.tag, r) == SetOps.InPlace(base.server.env, old(base.server.conn), old(base.tag), base.key, SetOps.UnionOp, vals)
    {
      var t;
      t, r := InPlace(base.server, base.tag, base.key, SetOps.UnionOp, vals);
      base.tag := t;
    }

    /** `s.intersection_update(*vals)` (also `s &= o`). */
    method IntersectionUpdate(vals: seq<SetOps.Operand>) returns (r: Result<Answer, Error>)
      requires Valid()
      modifies base, base.server
      ensures Step(base.server.conn, base.tag, r) == SetOps.InPlace(base.server.env, old(base.server.conn), old(base.tag), base.key, SetOps.InterOp, vals)
    {
      var t;
      t, r := InPlace(base.server, base.tag, base.key, SetOps.InterOp, vals);
      base.tag := t;
    }

    /** `s.difference_update(*vals)` (also `s -= o`). */
    method DifferenceUpdate(vals: seq<SetOps.Operand>) returns (r: Result<Answer, Error>)
      requires Valid()
      modifies base, base.server
      ensures Step(base.server.conn, base.tag, r) == SetOps.InPlace(base.server.env, old(base.server.conn), old(base.tag), base.key, SetOps.DiffOp, vals)
    {
      var t;
      t, r := InPlace(base.server, base.tag, base.key, SetOps.DiffOp, vals);
      base.tag := t;
    }

    /** `s.intersection(*vals)`, `s.union(*vals)`, `s.difference(*vals)`
      (also `s & o`, `s | o`, `s - o`). */
    method Combine(op: SetOps.Op, vals: seq<SetOps.Operand>) returns (r: Result<Answer, Error>)
      requires Valid()
      modifies base, base.server
      ensures Step(base.server.conn, base.tag, r) == SetOps.Combination(base.server.env, old(base.server.conn), old(base.tag), base.key, op, vals)
    {
      var t;
      t, r := Combination(base.server, base.tag, base.key, op, vals);
      base.tag := t;
    }

    /** `o & s`, `o | s`, `o - s` with o on the left. */
    method Reflected(op: SetOps.Op, o: SetOps.Operand) returns (r: Result<Answer, Error>)
      requires Valid()
      modifies base.server
      ensures Answered(base.server.conn, r) == SetOps.Reflected(base.server.env, old(base.server.conn), base.tag, base.key, op, o)
    {
      match o
      case SetHandle(k, t) =>
        var t2;
        t2, r := Combination(base.server, t, k, op, [SetOps.SetHandle(base.key, base.tag)]);
      case Local(a) =>
        var m := Value();
        match (a, m) {
          case (_, Err(e)) => r := Err(e);
          case (SetOf(x), Ok(Py(SetOf(y)))) => r := Ok(Py(SetOf(SetOps.Combine(op, x, y))));
          case (_, _) => r := Err(TypeError);
        }
    }

    /** `s.isdisjoint(o)`. */
    method IsDisjoint(o: SetOps.Operand) returns (r: Result<Answer, Error>)
      requires Valid()
      modifies base, base.server
      ensures Step(base.server.conn, base.tag, r) == SetOps.IsDisjoint(base.server.env, old(base.server.conn), old(base.tag), base.key, o)
    {
      r := Combine(SetOps.InterOp, [o]);
      if r.Ok? {
        r := Ok(Py(Bool(!AnswerTruthy(r.value))));
      }
    }

    /** `s.remove(v)`. */
    method Remove(v: Value) returns (r: Result<Answer, Error>)
      requires Valid()
      modifies base, base.server
      ensures Step(base.server.conn, base.tag, r) == SetOps.Remove(base.server.env, old(base.server.conn), old(base.tag), base.key, v)
    {
      var ok := base.CheckType(v);
      if !ok {
        return Err(TypeError);
      }
      r := base.Proxy("srem", [Val(v)]);
      if r.Ok? {
        r := if AnswerEq(r.value, Int(0)) then Err(KeyError) else Ok(Nothing);
      }
    }

    /** `s.discard(v)`. */
    method Discard(v: Value) returns (r: Result<Answer, Error>)
      requires Valid()
      modifies base, base.server
      ensures Step(base.server.conn, base.tag, r) == SetOps.Discard(base.server.env, old(base.server.conn), old(base.tag), base.key, v)
    {
      r := Remove(v);
      if r == Err(KeyError) {
        r := Ok(Nothing);
      }
    }

    /** `s.pop()`, `s.clear()`, `len(s)` and `v in s`: SPOP, DEL, SCARD and
      SISMEMBER, answered as they come. */
    method Pop() returns (r: Result<Answer, Error>)
      requires Valid()
      modifies base.server
      ensures Answered(base.server.conn, r) == SetOps.Ask(base.server.env, old(base.server.conn), base.tag, base.key, "spop", [])
    {
      r := base.Proxy("spop", []);
    }

    method Clear() returns (r: Result<Answer, Error>)
      requires Valid()
      modifies base.server
      ensures Answered(base.server.conn, r) == SetOps.Clear(base.server.env, old(base.server.conn), base.tag, base.key)
    {
      r := base.Proxy("delete", []);
      r := Dropped(r);
    }

    method Len() returns (r: Result<Answer, Error>)
      requires Valid()
      modifies base.server
      ensures Answered(base.server.conn, r) == SetOps.Ask(base.server.env, old(base.server.conn), base.tag, base.key, "scard", [])
    {
      r := base.Proxy("scard", []);
    }

    method Contains(v: Value) returns (r: Result<Answer, Error>)
      requires Valid()
      modifies base.server
      ensures Answered(base.server.conn, r) == SetOps.Ask(base.server.env, old(base.server.conn), base.tag, base.key, "sismember", [Val(v)])
    {
      r := base.Proxy("sismember", [Val(v)]);
    }

    /** `s == o`. */
    method Equals(o: SetOps.Operand) returns (r: Result<Answer, Error>)
      requires Valid()
      modifies base.server
      ensures Answered(base.server.conn, r) == SetOps.Equals(base.server.env, old(base.server.conn), base.tag, base.key, o)
    {
      var mine := Value();
      var theirs := Materialize(base.server, o);
      match (mine, theirs)
      case (Err(e), _) => r := Err(e);
      case (_, Err(e)) => r := Err(e);
      case (Ok(a), Ok(v)) => r := Ok(Py(Bool(AnswerEq(a, v))));
    }
  }

  class Dict {
    const base: Iterable

    /** No Dict method checks types, so the tag stays unset. */
    predicate Valid()
      reads base
    {
      base.kind == DictKind && base.tag == Unset
    }

    constructor(key: string, server: Server)
      ensures Valid() && base.key == key && base.server == server
      ensures fresh(base)
    {
      base := new Iterable(DictKind, key, server);
    }

    /** `Dict(value, key)`. */
    static method Create(key: string, server: Server, value: Option<Arg>) returns (d: Dict, r: Result<Answer, Error>)
      modifies server
      ensures fresh(d) && fresh(d.base) && d.Valid() && d.base.key == key && d.base.server == server
      ensures Answered(server.conn, r) == DictOps.Init(server.env, old(server.conn), key, value)
    {
      d := new Dict(key, server);
      r := Ok(Nothing);
      match value {
        case None =>
        case Some(Mapping(f)) =>
          if f != map[] {
            r := d.Update(Mapping(f));
          }
        case Some(Val(v)) =>
          match DictOps.DictOf(v) {
            case Err(e) => r := Err(e);
            case Ok(None) =>
            case Ok(Some(f)) =>
              if f != map[] {
                r := d.Update(Mapping(f));
              }
          }
      }
    }

    method Ask(name: string, args: seq<Arg>) returns (r: Result<Answer, Error>)
      requires Valid()
      modifies base.server
      ensures Answered(base.server.conn, r) == DictOps.Ask(base.server.env, old(base.server.conn), base.key, name, args)
    {
      r := base.Proxy(name, args);
    }

    /** `d.value`. */
    method Value() returns (r: Result<Answer, Error>)
      requires Valid()
      modifies base.server
      ensures Answered(base.server.conn, r) == DictOps.ValueOf(base.server.env, old(base.server.conn), base.key)
    {
      r := Ask("hgetall", []);
    }

    /** `d.update(value)`. */
    method Update(value: Arg) returns (r: Result<Answer, Error>)
      requires Valid()
      modifies base.server
      ensures Answered(base.server.conn, r) == DictOps.Update(base.server.env, old(base.server.conn), base.key, value)
    {
      r := Ask("hmset", [value]);
      r := Dropped(r);
    }

    /** `d.keys()`. */
    method Keys() returns (r: Result<Answer, Error>)
      requires Valid()
      modifies base.server
      ensures Answered(base.server.conn, r) == DictOps.Keys(base.server.env, old(base.server.conn), base.key)
    {
      r := Ask("hkeys", []);
    }

    /** `d.values()`: it calls itself; Python stops it with RecursionError. */
    method Values() returns (r: Result<Answer, Error>)
      requires Valid()
      ensures Answered(base.server.conn, r) == DictOps.ValuesOf(base.server.conn)
    {
      r := Err(RecursionError);
    }

    /** `d.items()`. */
    method Items() returns (r: Result<seq<(string, string)>, Error>)
      requires Valid()
      modifies base.server
      ensures DictOps.Itemized(base.server.conn, r) == DictOps.Items(base.server.env, old(base.server.conn), base.key)
    {
      var a := Value();
      match a
      case Err(e) => r := Err(e);
      case Ok(Hash(h)) => r := Ok(DictOps.ItemsOf(h));
      case Ok(_) => r := Err(AttributeError("items"));
    }

    /** `d.setdefault(name, v)`. */
    method Setdefault(name: Value, v: Value) returns (r: Result<Answer, Error>)
      requires Valid()
      modifies base.server
      ensures Answered(base.server.conn, r) == DictOps.Setdefault(base.server.env, old(base.server.conn), base.key, name, v)
    {
      r := Ask("hsetnx", [Val(name), Val(v)]);
      if r.Ok? {
        r := if AnswerEq(r.value, Int(1)) then Ok(Py(v)) else Ok(Nothing);
      }
    }

    /** `d.get(name, default)`. */
    method Get(name: Value, default: Answer) returns (r: Result<Answer, Error>)
      requires Valid()
      modifies base.server
      ensures Answered(base.server.conn, r) == DictOps.Get(base.server.env, old(base.server.conn), base.key, name, default)
    {
      r := Ask("hget", [Val(name)]);
      if r.Ok? && !AnswerTruthy(r.value) {
        r := Ok(default);
      }
    }

    /** `d[name]`. */
    method GetItem(name: Value) returns (r: Result<Answer, Error>)
      requires Valid()
      modifies base.server
      ensures Answered(base.server.conn, r) == DictOps.GetItem(base.server.env, old(base.server.conn), base.key, name)
    {
      r := Get(name, Nothing);
      if r.Ok? {
        r := if r.value == Nothing then Err(KeyError) else Ok(Nothing);
      }
    }

    /** `d[name] = v`. */
    method SetItem(name: Value, v: Value) returns (r: Result<Answer, Error>)
      requires Valid()
      modifies base.server
      ensures Answered(base.server.conn, r) == DictOps.SetItem(base.server.env, old(base.server.conn), base.key, name, v)
    {
      r := Ask("hset", [Val(name)]);
      r := Dropped(r);
    }

    /** `del d[name]`. */
    method DelItem(name: Value) returns (r: Result<Answer, Error>)
      requires Valid()
      modifies base.server
      ensures Answered(base.server.conn, r) == DictOps.DelItem(base.server.env, old(base.server.conn), base.key, name)
    {
      r := Ask("hdel", [Val(name)]);
      r := Dropped(r);
    }

    /** `d == o`. */
    method Equals(o: DictOps.Operand) returns (r: Result<Answer, Error>)
      requires Valid()
      modifies base.server
      ensures Answered(base.server.conn, r) == DictOps.Equals(base.server.env, old(base.server.conn), base.key, o)
    {
      r := Value();
      if r.Err? {
        return;
      }
      var a := r.value;
      match o
      case DictHandle(k) =>
        var reply := base.server.Call("hgetall", k, []);
        match reply {
          case Err(e) => r := Err(e);
          case Ok(rep) =>
            var b := Wrap(DictKind, Unset, rep);
            r := if b.Err? then Err(b.error) else Ok(Py(Bool(a == b.value)));
        }
      case Local(Mapping(f)) =>
        r := Ok(Py(Bool(a.Hash? && DictOps.SameAsLocal(a.fields, f))));
      case Local(Val(_)) =>
        r := Ok(Py(Bool(false)));
    }
  }
}
