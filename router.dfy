/** How a handle's attribute becomes a call (`Base._proxy`), what `client()`
    answers, and the `pipeline()` context that is meant to queue commands
    and execute them on exit. */
module Router {
  import opened Values
  import opened Redis

  /** A Lua atom as the store runs it: from its code, keys, arguments and the
      store before, the store after and the reply. The atoms' bodies are not
      part of this model, so every property below holds for any of them. */
  type Atom = (string, seq<string>, seq<string>, Store) -> Outcome

  /** The script table the loader filled, and the store's way of running a
      script. */
  datatype Env = Env(scripts: map<string, string>, run: Atom)

  /** The module state a call sees: the store, and the open pipeline's queue
      (`_pipeline`; None when no pipeline is open, so that `client()` is the
      connection). */
  datatype Conn = Conn(store: Store, queue: Option<seq<Command>>)

  datatype Called = Called(conn: Conn, reply: Result<Reply, Error>)

  /** Where `_proxy(name)` finds the callable. */
  datatype Resolution = Native | Script(code: string) | Missing

  /** `getattr(client(), name)` first, the script table second, and an
      AttributeError last. The connection and a pipeline have the same
      command methods, so the answer does not depend on `client()`. */
  function Resolve(scripts: map<string, string>, name: string): (r: Resolution)
    ensures r == Native <==> name in Natives
    ensures r.Script? <==> name !in Natives && name in scripts
    ensures r.Script? ==> r.code == scripts[name]
  {
    if name in Natives then Native
    else if name in scripts then Script(scripts[name])
    else Missing
  }

  /** `self.<name>(*args)`. A native command gets the handle's key as its
      first argument and goes to `client()`, which is `_pipeline or redis`:
      a pipeline object is false while its queue is empty (its length is its
      queue), so the command is queued (and the call answers with the
      pipeline) only when an open pipeline already holds a command, and runs
      at once otherwise. A script gets `keys=[key]` and the arguments as
      `args`, and redis-py runs it on the connection it was registered with
      even inside `pipeline()`. */
  function Call(env: Env, c: Conn, name: string, key: string, args: seq<Arg>): Called
  {
    match Resolve(env.scripts, name)
    case Native =>
      (match Prepare(name, key, args)
       case Err(e) => Called(c, Err(e))
       case Ok(cmd) =>
         if c.queue.Some? && c.queue.value != [] then Called(c.(queue := Some(c.queue.value + [cmd])), Ok(PipelineReply))
         else var o := Apply(c.store, cmd); Called(c.(store := o.store), o.reply))
    case Script(code) => RunScript(env, c, code, key, args)
    case Missing => Called(c, Err(AttributeError(name)))
  }

  /** A script call: `keys=[key]`, the arguments' texts as `args`. */
  function RunScript(env: Env, c: Conn, code: string, key: string, args: seq<Arg>): Called
  {
    if !AllValues(args) then Called(c, Err(TypeError))
    else var o := env.run(code, [key], ArgTexts(args), c.store); Called(c.(store := o.store), o.reply)
  }

  /** The call with `client()` as `_pipeline if _pipeline is not None else
      redis`: every native command made while a pipeline is open is queued. */
  function BatchedCall(env: Env, c: Conn, name: string, key: string, args: seq<Arg>): Called
  {
    match Resolve(env.scripts, name)
    case Native =>
      (match Prepare(name, key, args)
       case Err(e) => Called(c, Err(e))
       case Ok(cmd) =>
         if c.queue.Some? then Called(c.(queue := Some(c.queue.value + [cmd])), Ok(PipelineReply))
         else var o := Apply(c.store, cmd); Called(c.(store := o.store), o.reply))
    case Script(code) => RunScript(env, c, code, key, args)
    case Missing => Called(c, Err(AttributeError(name)))
  }

  // ---------------------------------------------------------------------
  // MULTI/EXEC

  datatype Executed = Executed(store: Store, error: Option<Error>)

  /** Every command in order; redis-py raises the first error reply once all
      of them have run. */
  function RunAll(store: Store, q: seq<Command>): Executed
    decreases |q|
  {
    if q == [] then Executed(store, None)
    else
      var o := Apply(store, q[0]);
      var rest := RunAll(o.store, q[1..]);
      Executed(rest.store, if o.reply.Err? then Some(o.reply.error) else rest.error)
  }

  /** `execute()`: a command the server refused when it was queued aborts the
      whole transaction (EXECABORT) and nothing runs. */
  function Exec(store: Store, q: seq<Command>): (r: Executed)
    ensures (exists k :: 0 <= k < |q| && !ArityOk(q[k])) ==> r == Executed(store, Some(ResponseError))
  {
    if exists k :: 0 <= k < |q| && !ArityOk(q[k]) then Executed(store, Some(ResponseError))
    else RunAll(store, q)
  }

  /** Running two queues one after the other is running their concatenation;
      the first error of the two is the one raised. */
  lemma {:induction false} RunAllAppend(store: Store, p: seq<Command>, q: seq<Command>)
    ensures var first := RunAll(store, p);
      var second := RunAll(first.store, q);
      RunAll(store, p + q) == Executed(second.store, if first.error.Some? then first.error else second.error)
    decreases |p|
  {
    if p == [] {
      assert p + q == q;
    } else {
      assert (p + q)[0] == p[0] && (p + q)[1..] == p[1..] + q;
      RunAllAppend(Apply(store, p[0]).store, p[1..], q);
    }
  }

  /** Executing one queued command does what running it at once does. */
  lemma RunOne(store: Store, cmd: Command)
    ensures RunAll(store, [cmd]).store == Apply(store, cmd).store
    ensures RunAll(store, [cmd]).error.Some? <==> Apply(store, cmd).reply.Err?
  {
    assert [cmd][1..] == [];
  }

  // ---------------------------------------------------------------------
  // pipeline()

  /** Entering `pipeline()`: a fresh pipeline becomes `_pipeline`, replacing
      one that is already open together with its queue. */
  function Enter(c: Conn): Conn
  {
    c.(queue := Some([]))
  }

  datatype Closed = Closed(conn: Conn, error: Option<Error>)

  /** Leaving `pipeline()` normally, as written: `_pipeline.execute()` and
      then `_pipeline = None`. With no pipeline open (an inner `pipeline()`
      already cleared it) the first step is an AttributeError on None; when
      execute raises, the second step is never reached and the reset, empty
      pipeline stays in `_pipeline`. */
  function ExitAsWritten(c: Conn): Closed
  {
    match c.queue
    case None => Closed(c, Some(AttributeError("execute")))
    case Some(q) =>
      var x := Exec(c.store, q);
      if x.error.Some? then Closed(Conn(x.store, Some([])), x.error)
      else Closed(Conn(x.store, None), None)
  }

  /** Leaving `pipeline()` when its body raised, as written: the exception
      passes through the generator and `_pipeline` keeps the pipeline with
      everything queued so far. */
  function AbortAsWritten(c: Conn): Conn
  {
    c
  }

  /** Leaving `pipeline()` normally, with `_pipeline` cleared whatever
      execute does. */
  function Exit(c: Conn): (r: Closed)
    ensures r.conn.queue.None?
  {
    match c.queue
    case None => Closed(c, Some(AttributeError("execute")))
    case Some(q) =>
      var x := Exec(c.store, q);
      Closed(Conn(x.store, None), x.error)
  }

  /** Leaving `pipeline()` when its body raised, with the queued commands
      dropped and `_pipeline` cleared. */
  function Abort(c: Conn): (r: Conn)
    ensures r.queue.None? && r.store == c.store
  {
    c.(queue := None)
  }

  // ---------------------------------------------------------------------
  // What the router promises

  /** A native command wins over a script of the same name: the script table
      plays no part in a call of a native name. */
  lemma NativeWins(env: Env, c: Conn, name: string, key: string, args: seq<Arg>)
    requires name in Natives
    ensures Call(env, c, name, key, args) == Call(env.(scripts := map[]), c, name, key, args)
  {
  }

  /** A name that is neither a command nor a script raises AttributeError(name)
      and changes nothing. */
  lemma MissingName(env: Env, c: Conn, name: string, key: string, args: seq<Arg>)
    requires name !in Natives && name !in env.scripts
    ensures Call(env, c, name, key, args) == Called(c, Err(AttributeError(name)))
  {
  }

  /** Without a pipeline a native call runs its command on the store at once,
      with the handle's key as the command's key. */
  lemma NativeRunsAtOnce(env: Env, store: Store, name: string, key: string, args: seq<Arg>)
    requires Prepare(name, key, args).Ok?
    ensures var cmd := Prepare(name, key, args).value;
      Call(env, Conn(store, None), name, key, args) == Called(Conn(Apply(store, cmd).store, None), Apply(store, cmd).reply)
  {
  }

  /** As written, a freshly opened pipeline is the connection: a call made
      in it does exactly what it does with no pipeline open, and the
      pipeline stays empty. */
  lemma {:induction false} EmptyPipelineRunsAtOnce(env: Env, store: Store, name: string, key: string, args: seq<Arg>)
    ensures var d := Call(env, Conn(store, None), name, key, args);
      Call(env, Conn(store, Some([])), name, key, args) == Called(d.conn.(queue := Some([])), d.reply)
  {
  }

  /** With the batched client, a native call inside a pipeline changes
      nothing in the store: it adds its command to the end of the queue and
      answers with the pipeline. */
  lemma BatchedCallQueues(env: Env, store: Store, q: seq<Command>, name: string, key: string, args: seq<Arg>)
    requires Prepare(name, key, args).Ok?
    ensures BatchedCall(env, Conn(store, Some(q)), name, key, args)
         == Called(Conn(store, Some(q + [Prepare(name, key, args).value])), Ok(PipelineReply))
  {
  }

  /** A script runs on the store at once, with `keys=[key]`, whether a
      pipeline is open or not, and leaves the queue alone. */
  lemma ScriptRunsAtOnce(env: Env, c: Conn, name: string, key: string, args: seq<Arg>)
    requires name !in Natives && name in env.scripts && AllValues(args)
    ensures var o := env.run(env.scripts[name], [key], ArgTexts(args), c.store);
      Call(env, c, name, key, args) == Called(Conn(o.store, c.queue), o.reply)
  {
  }

  /** With the batched client, queue two calls in a pipeline and leave it:
      the store ends as if the commands had run one after the other, and the
      pipeline is closed. */
  lemma BatchIsSequential(env: Env, store: Store, n1: string, k1: string, a1: seq<Arg>,
                          n2: string, k2: string, a2: seq<Arg>)
    requires Prepare(n1, k1, a1).Ok? && Prepare(n2, k2, a2).Ok?
    requires ArityOk(Prepare(n1, k1, a1).value) && ArityOk(Prepare(n2, k2, a2).value)
    ensures var c1 := BatchedCall(env, Enter(Conn(store, None)), n1, k1, a1).conn;
      var c2 := BatchedCall(env, c1, n2, k2, a2).conn;
      var direct1 := Call(env, Conn(store, None), n1, k1, a1);
      var direct2 := Call(env, direct1.conn, n2, k2, a2);
      Exit(c2).conn == direct2.conn
      && (Exit(c2).error.None? <==> direct1.reply.Ok? && direct2.reply.Ok?)
  {
    var cmd1, cmd2 := Prepare(n1, k1, a1).value, Prepare(n2, k2, a2).value;
    assert [cmd1] + [cmd2] == [cmd1, cmd2];
    assert [cmd1, cmd2][1..] == [cmd2];
    RunOne(Apply(store, cmd1).store, cmd2);
    assert [] + [cmd1] == [cmd1];
    var q := [cmd1, cmd2];
    assert forall k :: 0 <= k < |q| ==> ArityOk(q[k]);
  }

  /** With the batched client, two appends inside one pipeline change
      nothing until the pipeline is left, and then leave the list with both
      values at its end. */
  lemma BatchedAppends(env: Env, store: Store, key: string, a: string, b: string)
    requires ListAt(store, key).Ok?
    ensures var c1 := BatchedCall(env, Enter(Conn(store, None)), "rpush", key, [Val(Str(a))]).conn;
      var c2 := BatchedCall(env, c1, "rpush", key, [Val(Str(b))]).conn;
      && c2.store == store
      && Exit(c2) == Closed(Conn(store[key := ListEntry(ListAt(store, key).value + [a, b])], None), None)
  {
    var xs := ListAt(store, key).value;
    assert ArgTexts([Val(Str(a))]) == [a];
    assert ArgTexts([Val(Str(b))]) == [b];
    BatchIsSequential(env, store, "rpush", key, [Val(Str(a))], "rpush", key, [Val(Str(b))]);
    var s1 := store[key := ListEntry(xs + [a])];
    assert Apply(store, RPush(key, [a])) == Outcome(s1, Ok(IntReply(|xs| + 1)));
    assert ListAt(s1, key) == Ok(xs + [a]);
    assert (xs + [a]) + [b] == xs + [a, b];
  }

  /** As written, two appends inside one pipeline each run at once, in two
      round trips: the first value is stored before the second call, the
      pipeline stays empty, and leaving it executes nothing. */
  lemma PipelinedAppendsRunAtOnce(env: Env, store: Store, key: string, a: string, b: string)
    requires ListAt(store, key).Ok?
    ensures var xs := ListAt(store, key).value;
      var c1 := Call(env, Enter(Conn(store, None)), "rpush", key, [Val(Str(a))]).conn;
      var c2 := Call(env, c1, "rpush", key, [Val(Str(b))]).conn;
      && c1 == Conn(store[key := ListEntry(xs + [a])], Some([]))
      && c2 == Conn(store[key := ListEntry(xs + [a, b])], Some([]))
      && ExitAsWritten(c2) == Closed(Conn(c2.store, None), None)
  {
    var xs := ListAt(store, key).value;
    assert ArgTexts([Val(Str(a))]) == [a];
    assert ArgTexts([Val(Str(b))]) == [b];
    var s1 := store[key := ListEntry(xs + [a])];
    assert Apply(store, RPush(key, [a])) == Outcome(s1, Ok(IntReply(|xs| + 1)));
    assert ListAt(s1, key) == Ok(xs + [a]);
    assert (xs + [a]) + [b] == xs + [a, b];
    assert s1[key := ListEntry(xs + [a, b])] == store[key := ListEntry(xs + [a, b])];
  }

  /** A `pipeline()` inside another: entering the inner one drops what the
      outer one had queued, leaving the inner one closes the pipeline, and
      leaving the outer one then raises AttributeError on None. */
  lemma NestedPipeline(store: Store, q: seq<Command>)
    ensures var inner := ExitAsWritten(Enter(Conn(store, Some(q))));
      && inner == Closed(Conn(store, None), None)
      && ExitAsWritten(inner.conn).error == Some(AttributeError("execute"))
  {
  }

  /** As written, a body that raises leaves its (empty) pipeline set, which
      is harmless only because an empty pipeline is false: later calls still
      run at once. With the batched client they would be queued and never
      run; clearing the pipeline on the way out makes them run. */
  lemma AbortLeavesPipelineOpen(env: Env, store: Store, name: string, key: string, args: seq<Arg>)
    requires Prepare(name, key, args).Ok?
    ensures AbortAsWritten(Conn(store, Some([]))).queue == Some([])
    ensures Call(env, AbortAsWritten(Conn(store, Some([]))), name, key, args).conn.store
         == Apply(store, Prepare(name, key, args).value).store
    ensures BatchedCall(env, AbortAsWritten(Conn(store, Some([]))), name, key, args).conn.store == store
    ensures BatchedCall(env, AbortAsWritten(Conn(store, Some([]))), name, key, args).reply == Ok(PipelineReply)
    ensures BatchedCall(env, Abort(Conn(store, Some([]))), name, key, args).conn.store
         == Apply(store, Prepare(name, key, args).value).store
  {
  }

  /** As written, an execute that raises (a refused command in the queue,
      which only the batched client can build) leaves the pipeline set; the
      corrected exit clears it. */
  lemma FailedExecLeavesPipelineSet(store: Store, q: seq<Command>, k: nat)
    requires k < |q| && !ArityOk(q[k])
    ensures ExitAsWritten(Conn(store, Some(q))) == Closed(Conn(store, Some([])), Some(ResponseError))
    ensures Exit(Conn(store, Some(q))) == Closed(Conn(store, None), Some(ResponseError))
  {
  }
}
