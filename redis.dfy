/** The backing store and the client library the core calls through, given
    the meaning the Redis command reference gives them. `Prepare` is the
    redis-py method layer (argument checks and `str()` encoding, before
    anything is sent); `Apply` is what the Redis server does with a command. */
module Redis {
  import opened Values

  /** What one key of the store holds. */
  datatype Entry =
    | StringEntry(s: string)
    | ListEntry(items: seq<string>)
    | SetEntry(members: set<string>)
    | HashEntry(fields: map<string, string>)

  type Store = map<string, Entry>

  /** An entry Redis can hold: a list, set or hash is never empty. */
  predicate Full(e: Entry)
  {
    match e
    case StringEntry(_) => true
    case ListEntry(xs) => xs != []
    case SetEntry(m) => m != {}
    case HashEntry(h) => h != map[]
  }

  /** Redis never keeps an empty list, set or hash: removing the last
      element removes the key. */
  ghost predicate Canonical(store: Store)
  {
    forall k :: k in store ==> Full(store[k])
  }

  /** A reply as redis-py hands it back (after its per-command callbacks). */
  datatype Reply =
    | NilReply
    | IntReply(n: int)
    | BoolReply(b: bool)
    | BulkReply(s: string)
    | ListReply(xs: seq<string>)
    | SetReply(m: set<string>)
    | HashReply(h: map<string, string>)
    | PipelineReply          // a queued call answers with the pipeline object itself

  datatype Command =
    | LRange(key: string, start: int, stop: int)
    | LIndex(key: string, index: int)
    | LSet(key: string, index: int, value: string)
    | RPush(key: string, values: seq<string>)
    | LPop(key: string)
    | RPop(key: string)
    | LLen(key: string)
    | SAdd(key: string, values: seq<string>)
    | SRem(key: string, values: seq<string>)
    | SPop(key: string)
    | SCard(key: string)
    | SIsMember(key: string, value: string)
    | SMembers(key: string)
    | SInter(keys: seq<string>)
    | SUnion(keys: seq<string>)
    | SDiff(keys: seq<string>)
    | SInterStore(dest: string, keys: seq<string>)
    | SDiffStore(dest: string, keys: seq<string>)
    | HGetAll(key: string)
    | HKeys(key: string)
    | HGet(key: string, field: string)
    | HSet(key: string, field: string, value: string)
    | HSetNx(key: string, field: string, value: string)
    | HDel(key: string, fields: seq<string>)
    | HMSet(key: string, mapping: map<string, string>)
    | Del(keys: seq<string>)

  datatype Outcome = Outcome(store: Store, reply: Result<Reply, Error>)

  /** An argument of a call through the router: a Python value, or the dict
      that `hmset` takes. */
  datatype Arg = Val(v: Value) | Mapping(fields: map<string, Value>)

  // ---------------------------------------------------------------------
  // The redis-py method layer

  /** The command methods of the client (and of its pipeline) that the
      collection handles call. redis-py has many more, which
      `getattr(client(), name)` would also find; the model treats every other
      name as one the client does not have. */
  const Natives: set<string> := {
    "lrange", "lindex", "lset", "rpush", "lpop", "rpop", "llen",
    "sadd", "srem", "spop", "scard", "sismember", "smembers",
    "sinter", "sunion", "sdiff", "sinterstore", "sdiffstore",
    "hgetall", "hkeys", "hget", "hset", "hsetnx", "hdel", "hmset", "delete"
  }

  predicate AllValues(args: seq<Arg>)
  {
    forall k :: 0 <= k < |args| ==> args[k].Val?
  }

  /** `str()` of each positional argument. */
  function ArgTexts(args: seq<Arg>): (r: seq<string>)
    requires AllValues(args)
    ensures |r| == |args| && forall k :: 0 <= k < |args| ==> r[k] == Text(args[k].v)
  {
    if args == [] then [] else [Text(args[0].v)] + ArgTexts(args[1..])
  }

  /** The command a client method sends for `method(key, *args)`, or the
      exception the method raises before sending anything: a Python
      TypeError for a wrong number of arguments, a DataError for an empty
      `hmset` mapping (an AttributeError for a non-empty one that is not a
      dict). An index that is not an int is refused by the server
      ("value is not an integer"). */
  function Prepare(name: string, key: string, args: seq<Arg>): (r: Result<Command, Error>)
    ensures name !in Natives ==> r == Err(AttributeError(name))
  {
    var n := |args|;
    if name !in Natives then Err(AttributeError(name))
    else if !AllValues(args) && name != "hmset" then Err(TypeError)
    else match name
      case "lrange" =>
        if n != 2 then Err(TypeError)
        else if !args[0].v.Int? || !args[1].v.Int? then Err(ResponseError)
        else Ok(LRange(key, args[0].v.i, args[1].v.i))
      case "lindex" =>
        if n != 1 then Err(TypeError)
        else if !args[0].v.Int? then Err(ResponseError)
        else Ok(LIndex(key, args[0].v.i))
      case "lset" =>
        if n != 2 then Err(TypeError)
        else if !args[0].v.Int? then Err(ResponseError)
        else Ok(LSet(key, args[0].v.i, Text(args[1].v)))
      case "rpush" => Ok(RPush(key, ArgTexts(args)))
      case "lpop" => if n != 0 then Err(TypeError) else Ok(LPop(key))
      case "rpop" => if n != 0 then Err(TypeError) else Ok(RPop(key))
      case "llen" => if n != 0 then Err(TypeError) else Ok(LLen(key))
      case "sadd" => Ok(SAdd(key, ArgTexts(args)))
      case "srem" => Ok(SRem(key, ArgTexts(args)))
      case "spop" => if n != 0 then Err(TypeError) else Ok(SPop(key))
      case "scard" => if n != 0 then Err(TypeError) else Ok(SCard(key))
      case "sismember" => if n != 1 then Err(TypeError) else Ok(SIsMember(key, Text(args[0].v)))
      case "smembers" => if n != 0 then Err(TypeError) else Ok(SMembers(key))
      case "sinter" => Ok(SInter([key] + ArgTexts(args)))
      case "sunion" => Ok(SUnion([key] + ArgTexts(args)))
      case "sdiff" => Ok(SDiff([key] + ArgTexts(args)))
      case "sinterstore" => if n == 0 then Err(TypeError) else Ok(SInterStore(key, ArgTexts(args)))
      case "sdiffstore" => if n == 0 then Err(TypeError) else Ok(SDiffStore(key, ArgTexts(args)))
      case "hgetall" => if n != 0 then Err(TypeError) else Ok(HGetAll(key))
      case "hkeys" => if n != 0 then Err(TypeError) else Ok(HKeys(key))
      case "hget" => if n != 1 then Err(TypeError) else Ok(HGet(key, Text(args[0].v)))
      case "hset" => if n != 2 then Err(TypeError) else Ok(HSet(key, Text(args[0].v), Text(args[1].v)))
      case "hsetnx" => if n != 2 then Err(TypeError) else Ok(HSetNx(key, Text(args[0].v), Text(args[1].v)))
      case "hdel" => Ok(HDel(key, ArgTexts(args)))
      case "hmset" =>
        if n != 1 then Err(TypeError)
        else if args[0].Val? then (if Truthy(args[0].v) then Err(AttributeError("iteritems")) else Err(DataError))
        else if args[0].fields == map[] then Err(DataError)
        else Ok(HMSet(key, FieldTexts(args[0].fields)))
      case "delete" => Ok(Del([key] + ArgTexts(args)))
      case _ => Err(AttributeError(name))
  }

  /** A mapping as HMSET sends it: every value as its text. */
  function FieldTexts(fields: map<string, Value>): map<string, string>
  {
    map f | f in fields :: Text(fields[f])
  }

  // ---------------------------------------------------------------------
  // The server

  /** Commands the server rejects when they are queued, for a wrong number of
      arguments: a MULTI/EXEC transaction holding one is not run at all. */
  predicate ArityOk(cmd: Command)
  {
    match cmd
    case RPush(_, vs) => vs != []
    case SAdd(_, vs) => vs != []
    case SRem(_, vs) => vs != []
    case HDel(_, fs) => fs != []
    case SInter(ks) => ks != []
    case SUnion(ks) => ks != []
    case SDiff(ks) => ks != []
    case SInterStore(_, ks) => ks != []
    case SDiffStore(_, ks) => ks != []
    case Del(ks) => ks != []
    case HMSet(_, m) => m != map[]
    case _ => true
  }

  /** A negative list index counts from the end. */
  function Normalize(index: int, len: nat): int
  {
    if index < 0 then len + index else index
  }

  /** LRANGE: both ends inclusive, negative ends counted from the end, an end
      past the last element clamped to it, an empty answer when start is past
      stop or past the end. */
  function Range(xs: seq<string>, start: int, stop: int): (r: seq<string>)
    ensures |r| <= |xs|
  {
    var len := |xs|;
    var s := Normalize(start, len);
    var e := Normalize(stop, len);
    var s' := if s < 0 then 0 else s;
    if s' > e || s' >= len then []
    else
      var e' := if e >= len then len - 1 else e;
      xs[s'..e' + 1]
  }

  function Lookup(store: Store, key: string): Option<Entry>
  {
    if key in store then Some(store[key]) else None
  }

  /** The list under key: missing means empty; another type is WRONGTYPE. */
  function ListAt(store: Store, key: string): Result<seq<string>, Error>
  {
    match Lookup(store, key)
    case None => Ok([])
    case Some(ListEntry(xs)) => Ok(xs)
    case Some(_) => Err(ResponseError)
  }

  function SetAt(store: Store, key: string): Result<set<string>, Error>
  {
    match Lookup(store, key)
    case None => Ok({})
    case Some(SetEntry(m)) => Ok(m)
    case Some(_) => Err(ResponseError)
  }

  function HashAt(store: Store, key: string): Result<map<string, string>, Error>
  {
    match Lookup(store, key)
    case None => Ok(map[])
    case Some(HashEntry(h)) => Ok(h)
    case Some(_) => Err(ResponseError)
  }

  /** Store a list, set or hash under key, or remove the key when it is empty. */
  function PutList(store: Store, key: string, xs: seq<string>): Store
  {
    if xs == [] then store - {key} else store[key := ListEntry(xs)]
  }

  function PutSet(store: Store, key: string, m: set<string>): Store
  {
    if m == {} then store - {key} else store[key := SetEntry(m)]
  }

  function PutHash(store: Store, key: string, h: map<string, string>): Store
  {
    if h == map[] then store - {key} else store[key := HashEntry(h)]
  }

  /** SINTER scans its keys in order: a missing key makes the answer empty at
      once, a key of another type is WRONGTYPE at once. */
  function InterOf(store: Store, keys: seq<string>): Result<set<string>, Error>
    requires keys != []
  {
    match Lookup(store, keys[0])
    case None => Ok({})
    case Some(SetEntry(m)) =>
      if |keys| == 1 then Ok(m)
      else (match InterOf(store, keys[1..])
            case Ok(rest) => Ok(m * rest)
            case Err(e) => Err(e))
    case Some(_) => Err(ResponseError)
  }

  /** SUNION and SDIFF look every key up first: any key of another type is
      WRONGTYPE; a missing key is an empty set. */
  function UnionOf(store: Store, keys: seq<string>): Result<set<string>, Error>
  {
    if keys == [] then Ok({})
    else match (SetAt(store, keys[0]), UnionOf(store, keys[1..]))
      case (Ok(m), Ok(rest)) => Ok(m + rest)
      case (Err(e), _) => Err(e)
      case (_, Err(e)) => Err(e)
  }

  function DiffOf(store: Store, keys: seq<string>): Result<set<string>, Error>
    requires keys != []
  {
    match (SetAt(store, keys[0]), UnionOf(store, keys[1..]))
    case (Ok(m), Ok(rest)) => Ok(m - rest)
    case (Err(e), _) => Err(e)
    case (_, Err(e)) => Err(e)
  }

  function Unchanged(store: Store, r: Result<Reply, Error>): Outcome
  {
    Outcome(store, r)
  }

  predicate ListCommand(cmd: Command)
  {
    cmd.LRange? || cmd.LIndex? || cmd.LSet? || cmd.RPush? || cmd.LPop? || cmd.RPop? || cmd.LLen?
  }

  predicate SetCommand(cmd: Command)
  {
    cmd.SAdd? || cmd.SRem? || cmd.SPop? || cmd.SCard? || cmd.SIsMember? || cmd.SMembers?
    || cmd.SInter? || cmd.SUnion? || cmd.SDiff? || cmd.SInterStore? || cmd.SDiffStore?
  }

  /** What the server does with one command. */
  function Apply(store: Store, cmd: Command): Outcome
  {
    if !ArityOk(cmd) then Unchanged(store, Err(ResponseError))
    else if ListCommand(cmd) then ApplyList(store, cmd)
    else if SetCommand(cmd) then ApplySet(store, cmd)
    else ApplyHash(store, cmd)
  }

  function ApplyList(store: Store, cmd: Command): Outcome
    requires ListCommand(cmd)
  {
    match cmd
      case LRange(key, start, stop) =>
        (match ListAt(store, key)
         case Ok(xs) => Unchanged(store, Ok(ListReply(Range(xs, start, stop))))
         case Err(e) => Unchanged(store, Err(e)))
      case LIndex(key, index) =>
        (match ListAt(store, key)
         case Ok(xs) =>
           var j := Normalize(index, |xs|);
           Unchanged(store, Ok(if 0 <= j < |xs| then BulkReply(xs[j]) else NilReply))
         case Err(e) => Unchanged(store, Err(e)))
      case LSet(key, index, value) =>
        (match Lookup(store, key)
         case Some(ListEntry(xs)) =>
           var j := Normalize(index, |xs|);
           if 0 <= j < |xs| then Outcome(store[key := ListEntry(xs[j := value])], Ok(BoolReply(true)))
           else Unchanged(store, Err(ResponseError))    // index out of range
         case _ => Unchanged(store, Err(ResponseError)))  // no such key, or WRONGTYPE
      case RPush(key, values) =>
        (match ListAt(store, key)
         case Ok(xs) => Outcome(store[key := ListEntry(xs + values)], Ok(IntReply(|xs| + |values|)))
         case Err(e) => Unchanged(store, Err(e)))
      case LPop(key) =>
        (match ListAt(store, key)
         case Ok(xs) =>
           if xs == [] then Unchanged(store, Ok(NilReply))
           else Outcome(PutList(store, key, xs[1..]), Ok(BulkReply(xs[0])))
         case Err(e) => Unchanged(store, Err(e)))
      case RPop(key) =>
        (match ListAt(store, key)
         case Ok(xs) =>
           if xs == [] then Unchanged(store, Ok(NilReply))
           else Outcome(PutList(store, key, xs[..|xs| - 1]), Ok(BulkReply(xs[|xs| - 1])))
         case Err(e) => Unchanged(store, Err(e)))
      case LLen(key) =>
        (match ListAt(store, key)
         case Ok(xs) => Unchanged(store, Ok(IntReply(|xs|)))
         case Err(e) => Unchanged(store, Err(e)))
  }

  function ApplySet(store: Store, cmd: Command): Outcome
    requires SetCommand(cmd) && ArityOk(cmd)
  {
    match cmd
      case SAdd(key, values) =>
        (match SetAt(store, key)
         case Ok(m) =>
           var added := set v | v in values :: v;
           Outcome(store[key := SetEntry(m + added)], Ok(IntReply(|added - m|)))
         case Err(e) => Unchanged(store, Err(e)))
      case SRem(key, values) =>
        (match SetAt(store, key)
         case Ok(m) =>
           var gone := set v | v in values :: v;
           Outcome(PutSet(store, key, m - gone), Ok(IntReply(|m * gone|)))
         case Err(e) => Unchanged(store, Err(e)))
      case SPop(key) =>
        (match SetAt(store, key)
         case Ok(m) =>
           if m == {} then Unchanged(store, Ok(NilReply))
           else
             var x := Least(m);
             Outcome(PutSet(store, key, m - {x}), Ok(BulkReply(x)))
         case Err(e) => Unchanged(store, Err(e)))
      case SCard(key) =>
        (match SetAt(store, key)
         case Ok(m) => Unchanged(store, Ok(IntReply(|m|)))
         case Err(e) => Unchanged(store, Err(e)))
      case SIsMember(key, value) =>
        (match SetAt(store, key)
         case Ok(m) => Unchanged(store, Ok(BoolReply(value in m)))
         case Err(e) => Unchanged(store, Err(e)))
      case SMembers(key) =>
        (match SetAt(store, key)
         case Ok(m) => Unchanged(store, Ok(SetReply(m)))
         case Err(e) => Unchanged(store, Err(e)))
      case SInter(keys) =>
        (match InterOf(store, keys)
         case Ok(m) => Unchanged(store, Ok(SetReply(m)))
         case Err(e) => Unchanged(store, Err(e)))
      case SUnion(keys) =>
        (match UnionOf(store, keys)
         case Ok(m) => Unchanged(store, Ok(SetReply(m)))
         case Err(e) => Unchanged(store, Err(e)))
      case SDiff(keys) =>
        (match DiffOf(store, keys)
         case Ok(m) => Unchanged(store, Ok(SetReply(m)))
         case Err(e) => Unchanged(store, Err(e)))
      case SInterStore(dest, keys) =>
        (match InterOf(store, keys)
         case Ok(m) => Outcome(PutSet(store, dest, m), Ok(IntReply(|m|)))
         case Err(e) => Unchanged(store, Err(e)))
      case SDiffStore(dest, keys) =>
        (match DiffOf(store, keys)
         case Ok(m) => Outcome(PutSet(store, dest, m), Ok(IntReply(|m|)))
         case Err(e) => Unchanged(store, Err(e)))
  }

  /** The hash commands, and DEL. */
  function ApplyHash(store: Store, cmd: Command): Outcome
    requires !ListCommand(cmd) && !SetCommand(cmd)
  {
    match cmd
      case HGetAll(key) =>
        (match HashAt(store, key)
         case Ok(h) => Unchanged(store, Ok(HashReply(h)))
         case Err(e) => Unchanged(store, Err(e)))
      case HKeys(key) =>
        (match HashAt(store, key)
         case Ok(h) => Unchanged(store, Ok(ListReply(Sorted(h.Keys))))
         case Err(e) => Unchanged(store, Err(e)))
      case HGet(key, field) =>
        (match HashAt(store, key)
         case Ok(h) => Unchanged(store, Ok(if field in h then BulkReply(h[field]) else NilReply))
         case Err(e) => Unchanged(store, Err(e)))
      case HSet(key, field, value) =>
        (match HashAt(store, key)
         case Ok(h) => Outcome(store[key := HashEntry(h[field := value])], Ok(IntReply(if field in h then 0 else 1)))
         case Err(e) => Unchanged(store, Err(e)))
      case HSetNx(key, field, value) =>
        (match HashAt(store, key)
         case Ok(h) =>
           if field in h then Unchanged(store, Ok(IntReply(0)))
           else Outcome(store[key := HashEntry(h[field := value])], Ok(IntReply(1)))
         case Err(e) => Unchanged(store, Err(e)))
      case HDel(key, fields) =>
        (match HashAt(store, key)
         case Ok(h) =>
           var gone := set f | f in fields && f in h :: f;
           Outcome(PutHash(store, key, h - gone), Ok(IntReply(|gone|)))
         case Err(e) => Unchanged(store, Err(e)))
      case HMSet(key, mapping) =>
        (match HashAt(store, key)
         case Ok(h) => Outcome(store[key := HashEntry(h + mapping)], Ok(BoolReply(true)))
         case Err(e) => Unchanged(store, Err(e)))
      case Del(keys) =>
        var gone := set k | k in keys && k in store :: k;
        Outcome(store - gone, Ok(IntReply(|gone|)))
  }

  // ---------------------------------------------------------------------
  // What the command reference promises, stated over Apply

  lemma PutCanonical(store: Store, key: string, e: Entry)
    requires Canonical(store) && Full(e)
    ensures Canonical(store[key := e])
  {
  }

  lemma RemoveCanonical(store: Store, keys: set<string>)
    requires Canonical(store)
    ensures Canonical(store - keys)
  {
  }

  lemma ListCanonical(store: Store, cmd: Command)
    requires Canonical(store) && ListCommand(cmd) && ArityOk(cmd)
    ensures Canonical(ApplyList(store, cmd).store)
  {
    match cmd
    case LSet(key, i, v) =>
      if key in store && store[key].ListEntry? {
        var xs := store[key].items;
        var j := Normalize(i, |xs|);
        if 0 <= j < |xs| {
          PutCanonical(store, key, ListEntry(xs[j := v]));
        }
      }
    case RPush(key, vs) =>
      if ListAt(store, key).Ok? {
        PutCanonical(store, key, ListEntry(ListAt(store, key).value + vs));
      }
    case _ =>
  }

  lemma SetCanonical(store: Store, cmd: Command)
    requires Canonical(store) && SetCommand(cmd) && ArityOk(cmd)
    ensures Canonical(ApplySet(store, cmd).store)
  {
    match cmd
    case SAdd(key, vs) =>
      if SetAt(store, key).Ok? {
        var added := set v | v in vs :: v;
        assert vs[0] in vs;
        assert vs[0] in added;
        PutCanonical(store, key, SetEntry(SetAt(store, key).value + added));
      }
    case SRem(key, vs) =>
      if SetAt(store, key).Ok? {
        PutSetCanonical(store, key, SetAt(store, key).value - set v | v in vs :: v);
      }
    case SPop(key) =>
      if SetAt(store, key).Ok? && SetAt(store, key).value != {} {
        var m := SetAt(store, key).value;
        PutSetCanonical(store, key, m - {Least(m)});
      }
    case SInterStore(dest, keys) =>
      if InterOf(store, keys).Ok? {
        PutSetCanonical(store, dest, InterOf(store, keys).value);
      }
    case SDiffStore(dest, keys) =>
      if DiffOf(store, keys).Ok? {
        PutSetCanonical(store, dest, DiffOf(store, keys).value);
      }
    case _ =>
  }

  lemma PutSetCanonical(store: Store, key: string, m: set<string>)
    requires Canonical(store)
    ensures Canonical(PutSet(store, key, m))
    ensures SetAt(PutSet(store, key, m), key) == Ok(m)
  {
    if m != {} {
      PutCanonical(store, key, SetEntry(m));
    }
  }

  lemma HashCanonical(store: Store, cmd: Command)
    requires Canonical(store) && !ListCommand(cmd) && !SetCommand(cmd) && ArityOk(cmd)
    ensures Canonical(ApplyHash(store, cmd).store)
  {
    match cmd
    case HSet(key, f, v) =>
      if HashAt(store, key).Ok? {
        var h := HashAt(store, key).value[f := v];
        assert f in h;
        PutCanonical(store, key, HashEntry(h));
      }
    case HSetNx(key, f, v) =>
      if HashAt(store, key).Ok? {
        var h := HashAt(store, key).value[f := v];
        assert f in h;
        PutCanonical(store, key, HashEntry(h));
      }
    case HMSet(key, mapping) =>
      if HashAt(store, key).Ok? {
        var h := HashAt(store, key).value + mapping;
        var f :| f in mapping;
        assert f in h;
        PutCanonical(store, key, HashEntry(h));
      }
    case Del(keys) =>
      RemoveCanonical(store, set k | k in keys && k in store :: k);
    case _ =>
  }

  /** No command leaves an empty list, set or hash behind. */
  lemma ApplyCanonical(store: Store, cmd: Command)
    requires Canonical(store)
    ensures Canonical(Apply(store, cmd).store)
  {
    if !ArityOk(cmd) {
    } else if ListCommand(cmd) {
      ListCanonical(store, cmd);
    } else if SetCommand(cmd) {
      SetCanonical(store, cmd);
    } else {
      HashCanonical(store, cmd);
    }
  }

  /** LRANGE 0 -1 is the whole list. */
  lemma RangeWhole(xs: seq<string>)
    ensures Range(xs, 0, -1) == xs
  {
  }

  /** LINDEX i answers the one element LRANGE i i answers, and nil exactly
      when that range is empty. */
  lemma IndexIsRange(xs: seq<string>, i: int)
    ensures var j := Normalize(i, |xs|);
      (0 <= j < |xs| ==> Range(xs, i, i) == [xs[j]])
      && (!(0 <= j < |xs|) ==> Range(xs, i, i) == [])
  {
  }

  /** After LSET key i v succeeds, LINDEX key i answers v and the rest of the
      list is as it was; it fails exactly when i is out of range or the key
      holds no list. */
  lemma SetThenIndex(store: Store, key: string, i: int, v: string)
    ensures var o := Apply(store, LSet(key, i, v));
      o.reply.Ok? <==> (key in store && store[key].ListEntry?
                        && 0 <= Normalize(i, |store[key].items|) < |store[key].items|)
    ensures var o := Apply(store, LSet(key, i, v));
      o.reply.Ok? ==>
        && Apply(o.store, LIndex(key, i)).reply == Ok(BulkReply(v))
        && var xs := store[key].items;
           var ys := o.store[key].items;
           |ys| == |xs| && forall k :: 0 <= k < |xs| && k != Normalize(i, |xs|) ==> ys[k] == xs[k]
    ensures var o := Apply(store, LSet(key, i, v));
      o.reply.Err? ==> o.store == store && o.reply.error == ResponseError
  {
  }

  /** RPUSH appends: the whole list afterwards is the old list followed by
      the pushed values, and the reply is the new length. */
  lemma PushThenRange(store: Store, key: string, vs: seq<string>)
    requires vs != [] && ListAt(store, key).Ok?
    ensures var o := Apply(store, RPush(key, vs));
      && Apply(o.store, LRange(key, 0, -1)).reply == Ok(ListReply(ListAt(store, key).value + vs))
      && o.reply == Ok(IntReply(|ListAt(store, key).value| + |vs|))
  {
    var o := Apply(store, RPush(key, vs));
    RangeWhole(ListAt(store, key).value + vs);
    assert ListAt(o.store, key) == Ok(ListAt(store, key).value + vs);
  }

  /** LPOP and RPOP take the first and the last element off; the rest keeps
      its order. */
  lemma PopEnds(store: Store, key: string)
    requires ListAt(store, key).Ok? && ListAt(store, key).value != []
    ensures var xs := ListAt(store, key).value;
      && Apply(store, LPop(key)).reply == Ok(BulkReply(xs[0]))
      && ListAt(Apply(store, LPop(key)).store, key) == Ok(xs[1..])
      && Apply(store, RPop(key)).reply == Ok(BulkReply(xs[|xs| - 1]))
      && ListAt(Apply(store, RPop(key)).store, key) == Ok(xs[..|xs| - 1])
  {
  }

  lemma NoneShared(m: set<string>, vs: seq<string>)
    ensures |set v | v in vs && v in m| == 0 <==> forall v :: v in vs ==> v !in m
  {
    var both := set v | v in vs && v in m;
    if |both| == 0 {
      forall v | v in vs ensures v !in m {
        assert v in m ==> v in both;
      }
    } else {
      var v :| v in both;
    }
  }

  /** SREM answers how many of the given values were members: 0 exactly
      when none of them was. */
  lemma RemoveCount(store: Store, key: string, vs: seq<string>)
    requires vs != [] && SetAt(store, key).Ok?
    ensures var o := Apply(store, SRem(key, vs));
      var m := SetAt(store, key).value;
      && o.reply == Ok(IntReply(|set v | v in vs && v in m|))
      && (o.reply == Ok(IntReply(0)) <==> forall v :: v in vs ==> v !in m)
  {
    var m := SetAt(store, key).value;
    var gone := set v | v in vs :: v;
    assert m * gone == set v | v in vs && v in m;
    assert Apply(store, SRem(key, vs)).reply == Ok(IntReply(|m * gone|));
    NoneShared(m, vs);
  }

  /** After SREM none of the given values is a member, and every other
      member stays. */
  lemma RemoveThenAbsent(store: Store, key: string, vs: seq<string>)
    requires vs != [] && SetAt(store, key).Ok?
    ensures var o := Apply(store, SRem(key, vs));
      SetAt(o.store, key) == Ok(SetAt(store, key).value - set v | v in vs :: v)
    ensures var o := Apply(store, SRem(key, vs));
      forall v :: v in vs ==> Apply(o.store, SIsMember(key, v)).reply == Ok(BoolReply(false))
  {
    var m := SetAt(store, key).value;
    var gone := set v | v in vs :: v;
    var o := Apply(store, SRem(key, vs));
    assert o.store == PutSet(store, key, m - gone);
    PutSetAt(store, key, m - gone);
    forall v | v in vs
      ensures Apply(o.store, SIsMember(key, v)).reply == Ok(BoolReply(false))
    {
      assert v in gone;
    }
  }

  /** A set put under key is what the key then holds. */
  lemma PutSetAt(store: Store, key: string, m: set<string>)
    ensures SetAt(PutSet(store, key, m), key) == Ok(m)
  {
  }


  /** SPOP answers a member and removes it, and nothing else. */
  lemma PopMember(store: Store, key: string)
    requires SetAt(store, key).Ok? && SetAt(store, key).value != {}
    ensures var o := Apply(store, SPop(key));
      var m := SetAt(store, key).value;
      && o.reply.Ok? && o.reply.value.BulkReply? && o.reply.value.s in m
      && SetAt(o.store, key) == Ok(m - {o.reply.value.s})
  {
  }

  /** HSETNX writes a field only when it is absent: it answers 1 and stores
      the value then, and answers 0 leaving the store as it was otherwise. A
      second HSETNX of the same field therefore changes nothing. */
  lemma SetIfAbsent(store: Store, key: string, f: string, v: string, w: string)
    requires HashAt(store, key).Ok?
    ensures var o := Apply(store, HSetNx(key, f, v));
      var h := HashAt(store, key).value;
      && (f !in h ==> o.reply == Ok(IntReply(1)) && Apply(o.store, HGet(key, f)).reply == Ok(BulkReply(v)))
      && (f in h ==> o.reply == Ok(IntReply(0)) && o.store == store)
      && Apply(o.store, HSetNx(key, f, w)) == Outcome(o.store, Ok(IntReply(0)))
  {
  }

  /** SINTER of two keys does not depend on their order. */
  lemma InterCommutes(store: Store, a: string, b: string)
    requires SetAt(store, a).Ok? && SetAt(store, b).Ok?
    ensures Apply(store, SInter([a, b])) == Apply(store, SInter([b, a]))
    ensures Apply(store, SInter([a, b])).reply == Ok(SetReply(SetAt(store, a).value * SetAt(store, b).value))
  {
    var ma, mb := SetAt(store, a).value, SetAt(store, b).value;
    assert [a, b][1..] == [b];
    assert [b, a][1..] == [a];
    assert InterOf(store, [b]) == Ok(mb);
    assert InterOf(store, [a]) == Ok(ma);
    if a !in store {
      assert ma == {} && ma * mb == {};
    } else if b !in store {
      assert mb == {} && mb * ma == {};
    }
    assert InterOf(store, [a, b]) == Ok(ma * mb);
    assert InterOf(store, [b, a]) == Ok(mb * ma);
    assert ma * mb == mb * ma;
  }

  /** SINTERSTORE keeps at dest what SINTER answers, and answers its size. */
  lemma InterStoreAgrees(store: Store, dest: string, keys: seq<string>)
    requires keys != [] && InterOf(store, keys).Ok?
    ensures var o := Apply(store, SInterStore(dest, keys));
      && Apply(o.store, SMembers(dest)).reply == Apply(store, SInter(keys)).reply
      && o.reply == Ok(IntReply(|InterOf(store, keys).value|))
  {
  }
}
