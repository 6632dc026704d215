/** The element-type tag of a collection handle (`Iterable.type`) and the two
    things done with it: `_check_type` fixes it from the first scalar written
    and refuses scalars of another type afterwards, and `_set_type` rebuilds
    typed values from the text replies of the store. */
module Typing {
  import opened Values
  import opened Redis

  /** `self.type`: None until the first scalar is checked. */
  datatype TagState = Unset | Fixed(t: Tag)

  /** The class of a handle. */
  datatype Kind = ListKind | SetKind | DictKind

  /** `_is_many`: the value's type name is the handle class's name in lower
      case, so a list handle looks inside lists and a set handle inside sets.
      (Dict handles never check values.) */
  predicate IsMany(kind: Kind, v: Value)
  {
    (kind == ListKind && v.ListOf?) || (kind == SetKind && v.SetOf?)
  }

  // ---------------------------------------------------------------------
  // _check_type

  /** The tags of the member types present in a set, in the order of Tag. A
      Python set holds hashable members only, so none is itself a set; and
      checking several members of one type is the same as checking one. */
  function TagsPresent(m: set<Value>): (ts: seq<Tag>)
    ensures forall t :: t in ts <==> exists x :: x in m && TypeOf(x) == t
  {
    EveryTagListed();
    Present(m, [IntTag, StrTag, BoolTag, ListTag, SetTag])
  }

  lemma EveryTagListed()
    ensures forall t: Tag :: t in [IntTag, StrTag, BoolTag, ListTag, SetTag]
  {
    forall t: Tag ensures t in [IntTag, StrTag, BoolTag, ListTag, SetTag] {
      match t
      case IntTag =>
      case StrTag =>
      case BoolTag =>
      case ListTag =>
      case SetTag =>
    }
  }

  function Present(m: set<Value>, order: seq<Tag>): (ts: seq<Tag>)
    ensures forall t :: t in ts <==> t in order && exists x :: x in m && TypeOf(x) == t
  {
    if order == [] then []
    else (if exists x :: x in m && TypeOf(x) == order[0] then [order[0]] else [])
         + Present(m, order[1..])
  }

  /** The types `_check_type` meets, in the order it meets them: the scalar
      itself, or, inside a container of the handle's own kind, the leaves of
      each element in turn. */
  function Leaves(kind: Kind, v: Value): seq<Tag>
    decreases v
  {
    if kind == ListKind && v.ListOf? then LeavesOf(kind, v.items)
    else if kind == SetKind && v.SetOf? then TagsPresent(v.members)
    else [TypeOf(v)]
  }

  function LeavesOf(kind: Kind, xs: seq<Value>): seq<Tag>
    decreases xs
  {
    if xs == [] then [] else Leaves(kind, xs[0]) + LeavesOf(kind, xs[1..])
  }

  /** The tag after a check, and whether it passed (false: TypeError). */
  datatype Checked = Checked(tag: TagState, ok: bool)

  /** Checking a run of scalar types: the first one fixes an unset tag, and
      the first one that differs from the tag stops the check. */
  function CheckLeaves(tag: TagState, ts: seq<Tag>): Checked
    decreases |ts|
  {
    if ts == [] then Checked(tag, true)
    else match tag
      case Unset => CheckLeaves(Fixed(ts[0]), ts[1..])
      case Fixed(t) => if ts[0] == t then CheckLeaves(tag, ts[1..]) else Checked(tag, false)
  }

  /** The tag every checked scalar must carry: the fixed tag, or the first
      scalar's own type when the tag is unset. */
  function Expected(tag: TagState, ts: seq<Tag>): Tag
    requires tag.Fixed? || ts != []
  {
    if tag.Fixed? then tag.t else ts[0]
  }

  /** A fixed tag is never changed. */
  lemma {:induction false} CheckKeepsFixed(tag: TagState, ts: seq<Tag>)
    requires tag.Fixed?
    ensures CheckLeaves(tag, ts).tag == tag
    decreases |ts|
  {
    if ts != [] && ts[0] == tag.t {
      CheckKeepsFixed(tag, ts[1..]);
    }
  }

  /** An unset tag becomes the type of the first scalar met, and stays unset
      when no scalar is met at all. */
  lemma CheckFromUnset(ts: seq<Tag>)
    ensures ts == [] ==> CheckLeaves(Unset, ts) == Checked(Unset, true)
    ensures ts != [] ==> CheckLeaves(Unset, ts).tag == Fixed(ts[0])
  {
    if ts != [] {
      CheckKeepsFixed(Fixed(ts[0]), ts[1..]);
    }
  }

  /** The check passes exactly when every scalar has the expected type. */
  lemma {:induction false} CheckPassesIff(tag: TagState, ts: seq<Tag>)
    requires tag.Fixed? || ts != []
    ensures CheckLeaves(tag, ts).ok <==> forall k :: 0 <= k < |ts| ==> ts[k] == Expected(tag, ts)
    decreases |ts|
  {
    if ts != [] {
      var t := Expected(tag, ts);
      if |ts| > 1 {
        CheckPassesIff(Fixed(t), ts[1..]);
        assert Expected(Fixed(t), ts[1..]) == t;
      }
      assert forall k :: 1 <= k < |ts| ==> ts[k] == ts[1..][k - 1];
    }
  }

  /** Checking two runs one after the other is checking their concatenation:
      the second run starts from the tag the first one left, unless the first
      one failed. */
  lemma {:induction false} CheckAppend(tag: TagState, a: seq<Tag>, b: seq<Tag>)
    ensures CheckLeaves(tag, a + b) ==
      (var c := CheckLeaves(tag, a); if c.ok then CheckLeaves(c.tag, b) else c)
    decreases |a|
  {
    if a == [] {
      assert a + b == b;
    } else {
      assert (a + b)[0] == a[0] && (a + b)[1..] == a[1..] + b;
      match tag
      case Unset => CheckAppend(Fixed(a[0]), a[1..], b);
      case Fixed(t) => if a[0] == t { CheckAppend(tag, a[1..], b); }
    }
  }

  lemma {:induction false} LeavesOfSnoc(kind: Kind, xs: seq<Value>, x: Value)
    ensures LeavesOf(kind, xs + [x]) == LeavesOf(kind, xs) + Leaves(kind, x)
    decreases |xs|
  {
    if xs == [] {
      assert [x][1..] == [];
    } else {
      assert (xs + [x])[0] == xs[0] && (xs + [x])[1..] == xs[1..] + [x];
      LeavesOfSnoc(kind, xs[1..], x);
    }
  }

  /** A container of the handle's kind with no scalar inside, however deeply
      nested, leaves the tag unset. */
  lemma EmptyKeepsUnset(kind: Kind)
    requires kind != DictKind
    ensures CheckLeaves(Unset, Leaves(kind, if kind == ListKind then ListOf([]) else SetOf({}))) == Checked(Unset, true)
    ensures CheckLeaves(Unset, Leaves(ListKind, ListOf([ListOf([]), ListOf([ListOf([])])]))) == Checked(Unset, true)
  {
    assert Leaves(ListKind, ListOf([ListOf([])])) == [];
    assert Leaves(ListKind, ListOf([ListOf([]), ListOf([ListOf([])])])) == [];
    if kind == SetKind {
      assert TagsPresent({}) == [];
    }
  }

  /** A tag under which the count and status replies of writes convert
      without error (`list(5)` and `set(5)` raise TypeError). */
  predicate ScalarTag(tag: TagState)
  {
    tag == Unset || tag == Fixed(IntTag) || tag == Fixed(StrTag) || tag == Fixed(BoolTag)
  }

  /** Checking one type several times over is checking it once. */
  lemma {:induction false} CheckSame(t: Tag, ts: seq<Tag>)
    requires forall k :: 0 <= k < |ts| ==> ts[k] == t
    ensures CheckLeaves(Fixed(t), ts) == Checked(Fixed(t), true)
    decreases |ts|
  {
    if ts != [] {
      CheckSame(t, ts[1..]);
    }
  }

  /** A run of one type checks as that type alone. */
  lemma CheckUniform(tag: TagState, ts: seq<Tag>, t: Tag)
    requires ts != [] && forall k :: 0 <= k < |ts| ==> ts[k] == t
    ensures CheckLeaves(tag, ts) == CheckLeaves(tag, [t])
  {
    assert [t][1..] == [];
    CheckSame(t, ts[1..]);
    CheckSame(t, []);
  }

  /** A set of strings passes the check of a handle whose tag is unset or
      str, and leaves it unset or str. */
  lemma StrMembersCheck(tag: TagState, m: set<Value>)
    requires tag == Unset || tag == Fixed(StrTag)
    requires forall x :: x in m ==> x.Str?
    ensures CheckLeaves(tag, Leaves(SetKind, SetOf(m))).ok
    ensures CheckLeaves(tag, Leaves(SetKind, SetOf(m))).tag in {Unset, Fixed(StrTag)}
  {
    var ts := TagsPresent(m);
    assert Leaves(SetKind, SetOf(m)) == ts;
    forall k | 0 <= k < |ts| ensures ts[k] == StrTag {
      assert ts[k] in ts;
    }
    if ts != [] {
      CheckUniform(tag, ts, StrTag);
      assert [StrTag][1..] == [];
    }
  }

  // ---------------------------------------------------------------------
  // _set_type

  /** A value as the handle returns it: None, a Python value, a dict (from
      HGETALL), or the pipeline object a queued call answers with. */
  datatype Answer = Nothing | Py(v: Value) | Hash(fields: map<string, string>) | PipelineObject

  function StrSet(m: set<string>): set<Value>
  {
    set x | x in m :: Str(x)
  }

  /** A reply as it comes back untyped. */
  function Decoded(r: Reply): Answer
  {
    match r
    case NilReply => Nothing
    case IntReply(n) => Py(Int(n))
    case BoolReply(b) => Py(Bool(b))
    case BulkReply(s) => Py(Str(s))
    case ListReply(xs) => Py(ListOf(Strs(xs)))
    case SetReply(m) => Py(SetOf(StrSet(m)))
    case HashReply(h) => Hash(h)
    case PipelineReply => PipelineObject
  }

  /** `t(text)` for a text the store returned: int() parses it, bool() is
      its truthiness, list() and set() take its characters. */
  function ConvertText(t: Tag, s: string): Result<Value, Error>
  {
    match t
    case IntTag => (match ParseInt(s) case Ok(i) => Ok(Int(i)) case Err(e) => Err(e))
    case StrTag => Ok(Str(s))
    case BoolTag => Ok(Bool(s != ""))
    case ListTag => Ok(ListOf(Chars(s)))
    case SetTag => Ok(SetOf(set k | 0 <= k < |s| :: Str([s[k]])))
  }

  /** `t(reply)` for a reply that is not a container of the handle's kind. */
  function Convert(t: Tag, r: Reply): Result<Answer, Error>
  {
    match (t, r)
    case (StrTag, _) => Ok(Decoded(r))
    case (_, BulkReply(s)) => (match ConvertText(t, s) case Ok(v) => Ok(Py(v)) case Err(e) => Err(e))
    case (IntTag, IntReply(n)) => Ok(Py(Int(n)))
    case (IntTag, BoolReply(b)) => Ok(Py(Int(if b then 1 else 0)))
    case (IntTag, _) => Err(TypeError)
    case (BoolTag, NilReply) => Ok(Py(Bool(false)))
    case (BoolTag, IntReply(n)) => Ok(Py(Bool(n != 0)))
    case (BoolTag, BoolReply(b)) => Ok(Py(Bool(b)))
    case (BoolTag, ListReply(xs)) => Ok(Py(Bool(xs != [])))
    case (BoolTag, SetReply(m)) => Ok(Py(Bool(m != {})))
    case (BoolTag, HashReply(h)) => Ok(Py(Bool(h != map[])))
    case (BoolTag, PipelineReply) => Ok(Py(Bool(true)))   // the pipeline's length: at least the queued call
    case (ListTag, ListReply(xs)) => Ok(Py(ListOf(Strs(xs))))
    case (ListTag, SetReply(m)) => Ok(Py(ListOf(Strs(Sorted(m)))))
    case (ListTag, HashReply(h)) => Ok(Py(ListOf(Strs(Sorted(h.Keys)))))
    case (SetTag, ListReply(xs)) => Ok(Py(SetOf(set k | 0 <= k < |xs| :: Str(xs[k]))))
    case (SetTag, SetReply(m)) => Ok(Py(SetOf(StrSet(m))))
    case (SetTag, HashReply(h)) => Ok(Py(SetOf(StrSet(h.Keys))))
    case (_, _) => Err(TypeError)         // int(None), list(5), set(True), list(pipeline), ...
  }

  /** `_set_type` on each text of a list reply, in order; the first failure
      is raised. */
  function ConvertTexts(t: Tag, xs: seq<string>): (r: Result<seq<Value>, Error>)
    ensures r.Ok? ==> |r.value| == |xs| && forall k :: 0 <= k < |xs| ==> ConvertText(t, xs[k]) == Ok(r.value[k])
    ensures r.Err? <==> exists k :: 0 <= k < |xs| && ConvertText(t, xs[k]).Err?
  {
    if xs == [] then Ok([])
    else match (ConvertText(t, xs[0]), ConvertTexts(t, xs[1..]))
      case (Err(e), _) => Err(e)
      case (Ok(v), Ok(vs)) => Ok([v] + vs)
      case (Ok(_), Err(e)) => Err(e)
  }

  /** `_set_type` on each member of a set reply, rebuilt into a set: int()
      fails on the first member that is not a decimal, and a set cannot hold
      the lists or sets that list() and set() make. */
  function ConvertMembers(t: Tag, m: set<string>): Result<Value, Error>
  {
    match t
    case IntTag =>
      if forall s :: s in m ==> ParseInt(s).Ok?
      then Ok(SetOf(set s | s in m :: Int(ParseInt(s).value)))
      else Err(ValueError)
    case StrTag => Ok(SetOf(StrSet(m)))
    case BoolTag => Ok(SetOf(set s | s in m :: Bool(s != "")))
    case _ => if m == {} then Ok(SetOf({})) else Err(TypeError)
  }

  /** `dict(seq)` for a sequence of two-character strings: each one is a
      (key, value) pair, a later pair replacing an earlier one. */
  function Pairs(ks: seq<string>): map<string, string>
    requires forall k :: 0 <= k < |ks| ==> |ks[k]| == 2
  {
    if ks == [] then map[]
    else Pairs(ks[..|ks| - 1])[[ks[|ks| - 1][0]] := [ks[|ks| - 1][1]]]
  }

  /** `_set_type(reply)` as written. For a hash reply to a Dict handle the
      map over the dict visits its keys, and `dict(keys)` then needs every key
      to be a two-character string. */
  function SetTypeAsWritten(kind: Kind, tag: TagState, r: Reply): Result<Answer, Error>
  {
    if tag == Fixed(StrTag) then Ok(Decoded(r))
    else if kind == ListKind && r.ListReply? then
      if tag.Unset? then Ok(Decoded(r))
      else (match ConvertTexts(tag.t, r.xs) case Ok(vs) => Ok(Py(ListOf(vs))) case Err(e) => Err(e))
    else if kind == SetKind && r.SetReply? then
      if tag.Unset? then Ok(Decoded(r))
      else (match ConvertMembers(tag.t, r.m) case Ok(v) => Ok(Py(v)) case Err(e) => Err(e))
    else if kind == DictKind && r.HashReply? then
      var ks := Sorted(r.h.Keys);
      if forall k :: 0 <= k < |ks| ==> |ks[k]| == 2 then Ok(Hash(Pairs(ks))) else Err(ValueError)
    else if tag.Unset? then Ok(Decoded(r))
    else Convert(tag.t, r)
  }

  /** `_set_type(reply)` with a hash reply returned as the dict it is. */
  function SetType(kind: Kind, tag: TagState, r: Reply): (a: Result<Answer, Error>)
    ensures kind == DictKind && r.HashReply? && tag != Fixed(StrTag) ==> a == Ok(Hash(r.h))
    ensures !(kind == DictKind && r.HashReply?) ==> a == SetTypeAsWritten(kind, tag, r)
  {
    if kind == DictKind && r.HashReply? && tag != Fixed(StrTag) then Ok(Hash(r.h))
    else SetTypeAsWritten(kind, tag, r)
  }

  /** The wrapper around every call of a collection handle, as written: a
      None reply comes back as None, any other reply through `_set_type`. */
  function WrapAsWritten(kind: Kind, tag: TagState, r: Reply): Result<Answer, Error>
  {
    if r.NilReply? then Ok(Nothing) else SetTypeAsWritten(kind, tag, r)
  }

  /** The wrapper with a Dict's hash reply returned as the hash (`SetType`);
      every other reply is wrapped as written. */
  function Wrap(kind: Kind, tag: TagState, r: Reply): (a: Result<Answer, Error>)
    ensures r.NilReply? ==> a == Ok(Nothing)
    ensures !(kind == DictKind && r.HashReply?) ==> a == WrapAsWritten(kind, tag, r)
  {
    if r.NilReply? then Ok(Nothing) else SetType(kind, tag, r)
  }

  // ---------------------------------------------------------------------
  // What reconstruction promises

  /** A list reply to a list handle is rebuilt element by element, every
      text converted with the tag's type, in the same order. */
  lemma ListRebuilt(t: Tag, xs: seq<string>)
    requires t != StrTag
    ensures var a := Wrap(ListKind, Fixed(t), ListReply(xs));
      && (a.Ok? <==> forall k :: 0 <= k < |xs| ==> ConvertText(t, xs[k]).Ok?)
      && (a.Ok? ==> a.value.Py? && a.value.v.ListOf? && |a.value.v.items| == |xs|
                    && forall k :: 0 <= k < |xs| ==> ConvertText(t, xs[k]) == Ok(a.value.v.items[k]))
  {
  }

  /** With the str tag, or no tag yet, a reply comes back as the store sent it. */
  lemma StrUnchanged(kind: Kind, tag: TagState, r: Reply)
    requires tag == Fixed(StrTag) || tag == Unset
    requires !(kind == DictKind && r.HashReply?)
    ensures Wrap(kind, tag, r) == Ok(Decoded(r))
  {
  }

  lemma {:induction false} IntTextsRoundTrip(xs: seq<int>)
    ensures ConvertTexts(IntTag, IntTexts(xs)) == Ok(Ints(xs))
    decreases |xs|
  {
    if xs != [] {
      DecimalRoundTrip(xs[0]);
      IntTextsRoundTrip(xs[1..]);
      assert IntTexts(xs)[1..] == IntTexts(xs[1..]);
    }
  }

  function IntTexts(xs: seq<int>): (r: seq<string>)
    ensures |r| == |xs| && forall k :: 0 <= k < |xs| ==> r[k] == Decimal(xs[k])
  {
    if xs == [] then [] else [Decimal(xs[0])] + IntTexts(xs[1..])
  }

  function Ints(xs: seq<int>): (r: seq<Value>)
    ensures |r| == |xs| && forall k :: 0 <= k < |xs| ==> r[k] == Int(xs[k])
  {
    if xs == [] then [] else [Int(xs[0])] + Ints(xs[1..])
  }

  /** Integers written to a list handle come back as the same integers: the
      text `str()` sends is what `int()` parses back. */
  lemma IntListRoundTrip(xs: seq<int>)
    ensures Wrap(ListKind, Fixed(IntTag), ListReply(Texts(Ints(xs)))) == Ok(Py(ListOf(Ints(xs))))
  {
    assert Texts(Ints(xs)) == IntTexts(xs);
    IntTextsRoundTrip(xs);
  }

  /** Strings written to a list handle come back as the same strings. */
  lemma StrListRoundTrip(xs: seq<string>)
    ensures Wrap(ListKind, Fixed(StrTag), ListReply(Texts(Strs(xs)))) == Ok(Py(ListOf(Strs(xs))))
  {
    assert Texts(Strs(xs)) == xs;
  }

  /** Booleans do not survive the trip: False is sent as the text "False",
      and bool() of a non-empty text is True. */
  lemma BoolNotPreserved()
    ensures Wrap(ListKind, Fixed(BoolTag), ListReply(Texts([Bool(false)]))) == Ok(Py(ListOf([Bool(true)])))
  {
    assert Texts([Bool(false)]) == ["False"];
    assert ConvertText(BoolTag, "False") == Ok(Bool(true));
    var xs := ["False"];
    assert xs[0] == "False" && xs[1..] == [];
    assert ConvertTexts(BoolTag, []) == Ok([]);
    assert ConvertTexts(BoolTag, xs) == Ok([Bool(true)] + []);
    assert [Bool(true)] + [] == [Bool(true)];
    assert SetTypeAsWritten(ListKind, Fixed(BoolTag), ListReply(xs)) == Ok(Py(ListOf([Bool(true)])));
  }

  /** A queued call answers with the pipeline object, and on a handle whose
      tag is int, list or set the wrapper raises TypeError converting it,
      although the command was queued; with the str tag or no tag it is
      returned as it is. */
  lemma QueuedCallFails(kind: Kind, tag: TagState)
    ensures (tag == Fixed(IntTag) || tag == Fixed(ListTag) || tag == Fixed(SetTag))
            <==> Wrap(kind, tag, PipelineReply) == Err(TypeError)
    ensures tag == Unset || tag == Fixed(StrTag) ==> Wrap(kind, tag, PipelineReply) == Ok(PipelineObject)
  {
  }

  /** The materialised value of a Dict handle as written: a hash with a key
      that is not two characters long raises ValueError; the corrected
      reconstruction returns the hash itself. */
  lemma DictValueFails()
    ensures SetTypeAsWritten(DictKind, Unset, HashReply(map["a" := "1"])) == Err(ValueError)
    ensures SetType(DictKind, Unset, HashReply(map["a" := "1"])) == Ok(Hash(map["a" := "1"]))
  {
    assert map["a" := "1"].Keys == {"a"};
    assert Sorted({"a"}) == ["a"];
  }

  /** Only a nil reply comes back as None, so "the wrapper answered None" and
      "the store answered nil" are the same thing. */
  lemma NoneOnlyFromNil(kind: Kind, tag: TagState, r: Reply)
    ensures Wrap(kind, tag, r) == Ok(Nothing) <==> r.NilReply?
  {
  }
}
