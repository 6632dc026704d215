/** The state the collection handles share: the module-level connection and
    pipeline (`redis`, `_pipeline`), and what every handle has, its key and
    its element-type tag (`Base`, `Iterable`). */
module Handles {
  import opened Values
  import opened Redis
  import opened Typing
  import opened Router

  /** A handle call's effect: the connection afterwards, the handle's tag
      afterwards, and what the call returns or raises. */
  datatype Step = Step(conn: Conn, tag: TagState, result: Result<Answer, Error>)

  datatype Answered = Answered(conn: Conn, result: Result<Answer, Error>)

  /** `self.<name>(*args)` on a collection handle: the router's call, then the
      wrapper that types the reply with the handle's tag. */
  function Proxied(env: Env, kind: Kind, tag: TagState, c: Conn, name: string, key: string, args: seq<Arg>): Answered
  {
    var called := Call(env, c, name, key, args);
    Answered(called.conn, match called.reply case Err(e) => Err(e) case Ok(r) => Wrap(kind, tag, r))
  }

  /** A value fetched from the store (`_to_value`, `set(handle)`), and the
      connection afterwards. */
  datatype Got = Got(conn: Conn, value: Result<Value, Error>)

  /** A call's value dropped: the method returns None unless it raised. */
  function Dropped(r: Result<Answer, Error>): (d: Result<Answer, Error>)
    ensures d.Ok? <==> r.Ok?
    ensures d.Err? ==> d == r
    ensures d.Ok? ==> d.value == Nothing
  {
    if r.Err? then r else Ok(Nothing)
  }

  /** Arguments that are texts already (`str()` leaves them as they are). */
  function TextArgs(ts: seq<string>): (r: seq<Arg>)
    ensures |r| == |ts| && AllValues(r)
    ensures forall k :: 0 <= k < |ts| ==> r[k] == Val(Str(ts[k]))
  {
    if ts == [] then [] else [Val(Str(ts[0]))] + TextArgs(ts[1..])
  }

  function ValueArgs(xs: seq<Value>): (r: seq<Arg>)
    ensures |r| == |xs| && AllValues(r)
    ensures forall k :: 0 <= k < |xs| ==> r[k] == Val(xs[k])
  {
    if xs == [] then [] else [Val(xs[0])] + ValueArgs(xs[1..])
  }

  lemma {:induction false} TextArgsSent(ts: seq<string>)
    ensures ArgTexts(TextArgs(ts)) == ts
  {
    var r := ArgTexts(TextArgs(ts));
    assert |r| == |ts|;
    assert forall k :: 0 <= k < |ts| ==> r[k] == ts[k];
  }

  function Repeat(t: string, n: nat): (r: seq<string>)
    ensures |r| == n && forall k :: 0 <= k < n ==> r[k] == t
  {
    if n == 0 then [] else [t] + Repeat(t, n - 1)
  }

  /** The texts of a set's members, each as often as members print as it. */
  function Spread(ts: seq<string>, m: set<Value>): seq<string>
  {
    if ts == [] then [] else Repeat(ts[0], |set y | y in m && Text(y) == ts[0]|) + Spread(ts[1..], m)
  }

  /** What `*value` sends: the items of a list, the characters of a text, the
      members of a set (in the order of their texts); an int or a bool cannot
      be unpacked. */
  function Unpacked(v: Value): Result<seq<string>, Error>
  {
    match v
    case ListOf(xs) => Ok(Texts(xs))
    case Str(s) => Ok(Texts(Chars(s)))
    case SetOf(m) => Ok(Spread(Sorted(set x | x in m :: Text(x)), m))
    case _ => Err(TypeError)
  }

  lemma {:induction false} SpreadMembers(ts: seq<string>, m: set<Value>)
    ensures forall x :: x in Spread(ts, m) <==> x in ts && exists y :: y in m && Text(y) == x
    decreases |ts|
  {
    if ts != [] {
      SpreadMembers(ts[1..], m);
      var same := set y | y in m && Text(y) == ts[0];
      var n := |same|;
      if exists y :: y in m && Text(y) == ts[0] {
        var y :| y in m && Text(y) == ts[0];
        assert y in same;
        assert same != {};
      } else {
        assert same == {};
      }
      assert n > 0 <==> exists y :: y in m && Text(y) == ts[0];
      forall x ensures x in Spread(ts, m) <==> x in ts && exists y :: y in m && Text(y) == x {
        assert x in Spread(ts, m) <==> x in Repeat(ts[0], n) || x in Spread(ts[1..], m);
        assert x in ts <==> x == ts[0] || x in ts[1..];
      }
    }
  }

  /** `*s` for a Python set s sends the texts of its members, and nothing
      else. */
  lemma UnpackedSet(m: set<Value>)
    ensures Unpacked(SetOf(m)).Ok?
    ensures forall x :: x in Unpacked(SetOf(m)).value <==> exists y :: y in m && Text(y) == x
  {
    var texts := set x | x in m :: Text(x);
    SpreadMembers(Sorted(texts), m);
    forall x ensures x in Unpacked(SetOf(m)).value <==> exists y :: y in m && Text(y) == x {
      if exists y :: y in m && Text(y) == x {
        var y :| y in m && Text(y) == x;
        assert x in texts;
      }
    }
  }

  /** Python `==` between what a handle materialised and a plain value. */
  predicate AnswerEq(a: Answer, v: Value)
  {
    a.Py? && PyEq(a.v, v)
  }

  /** Python truthiness of what a call returned. The pipeline object's length
      is its queue, which holds at least the call that answered with it. */
  predicate AnswerTruthy(a: Answer)
  {
    match a
    case Nothing => false
    case Py(v) => Truthy(v)
    case Hash(h) => h != map[]
    case PipelineObject => true
  }

  /** A count reply (SREM, SADD, HSETNX) under a scalar tag comes back as
      a number or a bool that equals 0 exactly when the count is 0. */
  lemma CountAnswer(kind: Kind, tag: TagState, n: int)
    requires ScalarTag(tag)
    ensures Wrap(kind, tag, IntReply(n)).Ok?
    ensures AnswerEq(Wrap(kind, tag, IntReply(n)).value, Int(0)) <==> n == 0
  {
  }

  // ---------------------------------------------------------------------
  // The connection

  /** A handle's call outside a pipeline: the command runs at once and its
      reply is typed with the handle's tag (a Dict's hash with the corrected
      `SetType`). */
  lemma ProxiedAt(env: Env, kind: Kind, tag: TagState, store: Store, name: string, key: string, args: seq<Arg>, cmd: Command)
    requires Prepare(name, key, args) == Ok(cmd)
    ensures var o := Apply(store, cmd);
      Proxied(env, kind, tag, Conn(store, None), name, key, args)
        == Answered(Conn(o.store, None), match o.reply case Err(e) => Err(e) case Ok(r) => Wrap(kind, tag, r))
  {
    NativeRunsAtOnce(env, store, name, key, args);
  }

  /** The module's connection and pipeline; every handle calls through it. */
  class Server {
    var conn: Conn
    const env: Env

    constructor(env: Env, store: Store)
      ensures this.env == env && conn == Conn(store, None)
    {
      this.env := env;
      conn := Conn(store, None);
    }

    method Call(name: string, key: string, args: seq<Arg>) returns (r: Result<Reply, Error>)
      modifies this
      ensures Called(conn, r) == Router.Call(env, old(conn), name, key, args)
    {
      var c := Router.Call(env, conn, name, key, args);
      conn := c.conn;
      r := c.reply;
    }

    /** Entering `pipeline()`. */
    method OpenPipeline()
      modifies this
      ensures conn == Enter(old(conn)) && conn.store == old(conn.store) && conn.queue == Some([])
    {
      conn := conn.(queue := Some([]));
    }

    /** Leaving `pipeline()` normally: `_pipeline.execute()`, then
      `_pipeline = None`, which an execute that raises never reaches. A
      pipeline that was opened and never queued anything (as written, every
      pipeline) closes without running anything. */
    method ClosePipeline() returns (error: Option<Error>)
      modifies this
      ensures Closed(conn, error) == ExitAsWritten(old(conn))
      ensures old(conn.queue) == Some([]) ==> conn == Conn(old(conn.store), None) && error.None?
    {
      match conn.queue
      case None =>
        error := Some(AttributeError("execute"));
      case Some(q) =>
        var x := Exec(conn.store, q);
        error := x.error;
        if x.error.Some? {
          conn := Conn(x.store, Some([]));
        } else {
          conn := Conn(x.store, None);
        }
    }

    /** Leaving `pipeline()` because its body raised: the exception passes
      through and `_pipeline` stays as it is. */
    method AbandonPipeline()
      ensures conn == AbortAsWritten(old(conn))
    {
    }
  }

  // ---------------------------------------------------------------------
  // What every collection handle has

  class Iterable {
    const kind: Kind
    const key: string
    const server: Server
    var tag: TagState

    /** `Iterable.__init__`: the key is given (the source draws a uuid when
      none is), and no element type is known yet. */
    constructor(kind: Kind, key: string, server: Server)
      ensures this.kind == kind && this.key == key && this.server == server && tag == Unset
    {
      this.kind := kind;
      this.key := key;
      this.server := server;
      tag := Unset;
    }

    /** `self.<name>(*args)`. */
    method Proxy(name: string, args: seq<Arg>) returns (r: Result<Answer, Error>)
      modifies server
      ensures Answered(server.conn, r) == Proxied(server.env, kind, tag, old(server.conn), name, key, args)
    {
      var reply := server.Call(name, key, args);
      match reply
      case Err(e) => r := Err(e);
      case Ok(rep) => r := Wrap(kind, tag, rep);
    }

    /** One scalar of type t: fixes an unset tag, refuses another type. */
    method CheckScalar(t: Tag) returns (ok: bool)
      modifies this
      ensures Checked(tag, ok) == CheckLeaves(old(tag), [t])
    {
      assert [t][1..] == [];
      match tag
      case Unset =>
        tag := Fixed(t);
        ok := true;
      case Fixed(u) =>
        ok := t == u;
    }

    /** `_check_type(value)`: false where the source raises TypeError. A
      container of the handle's own kind is checked element by element and
      the check stops at the first element that fails. */
    method CheckType(v: Value) returns (ok: bool)
      modifies this
      ensures Checked(tag, ok) == CheckLeaves(old(tag), Leaves(kind, v))
      decreases v
    {
      if kind == ListKind && v.ListOf? {
        var xs := v.items;
        ghost var start := old(tag);
        var i := 0;
        ok := true;
        while i < |xs| && ok
          invariant 0 <= i <= |xs|
          invariant Checked(tag, ok) == CheckLeaves(start, LeavesOf(kind, xs[..i]))
        {
          assert xs[i] < v;
          ok := CheckType(xs[i]);
          CheckAppend(start, LeavesOf(kind, xs[..i]), Leaves(kind, xs[i]));
          LeavesOfSnoc(kind, xs[..i], xs[i]);
          assert xs[..i + 1] == xs[..i] + [xs[i]];
          i := i + 1;
        }
        LeavesOfSplit(kind, xs, i);
        CheckAppend(start, LeavesOf(kind, xs[..i]), LeavesOf(kind, xs[i..]));
        assert xs[i..] == [] ==> xs[..i] == xs;
      } else if kind == SetKind && v.SetOf? {
        var ts := TagsPresent(v.members);
        ghost var start := old(tag);
        var i := 0;
        ok := true;
        while i < |ts| && ok
          invariant 0 <= i <= |ts|
          invariant Checked(tag, ok) == CheckLeaves(start, ts[..i])
        {
          ok := CheckScalar(ts[i]);
          CheckAppend(start, ts[..i], [ts[i]]);
          assert ts[..i + 1] == ts[..i] + [ts[i]];
          i := i + 1;
        }
        CheckAppend(start, ts[..i], ts[i..]);
        assert ts[..i] + ts[i..] == ts;
      } else {
        ok := CheckScalar(TypeOf(v));
      }
    }
  }

  lemma {:induction false} LeavesOfSplit(kind: Kind, xs: seq<Value>, i: nat)
    requires i <= |xs|
    ensures LeavesOf(kind, xs) == LeavesOf(kind, xs[..i]) + LeavesOf(kind, xs[i..])
    decreases i
  {
    if i == 0 {
      assert xs[..0] == [] && xs[0..] == xs;
    } else {
      LeavesOfSplit(kind, xs, i - 1);
      LeavesOfSnoc(kind, xs[..i - 1], xs[i - 1]);
      assert xs[..i - 1] + [xs[i - 1]] == xs[..i];
      assert xs[i - 1..] == [xs[i - 1]] + xs[i..];
      assert LeavesOf(kind, xs[i - 1..]) == Leaves(kind, xs[i - 1]) + LeavesOf(kind, xs[i..]);
    }
  }
}
