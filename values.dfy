/** Python values as the collection handles see them, the exceptions the core
    raises, and the text conversions that happen on the way to and from the
    store: redis-py sends every argument as `str(value)`, and a reply is turned
    back into a typed value with the tag's constructor (`int(text)`, ...). */
module Values {

  datatype Option<+T> = None | Some(value: T)

  datatype Result<+T, +E> = Ok(value: T) | Err(error: E)

  /** The Python exceptions that reach a caller of the core. */
  datatype Error =
    | TypeError
    | ValueError
    | IndexError
    | KeyError
    | AttributeError(name: string)
    | ResponseError      // the store rejected a command (redis.exceptions.ResponseError)
    | DataError          // redis-py refused the arguments before sending them
    | RecursionError     // "maximum recursion depth exceeded"

  /** A Python value a caller can store: the scalars int, str and bool, and the
      containers list and set. Python sets hold only hashable (scalar) members. */
  datatype Value =
    | Int(i: int)
    | Str(s: string)
    | Bool(b: bool)
    | ListOf(items: seq<Value>)
    | SetOf(members: set<Value>)

  /** The Python type of a value, which is what a handle's type tag records. */
  datatype Tag = IntTag | StrTag | BoolTag | ListTag | SetTag

  function TypeOf(v: Value): Tag
  {
    match v
    case Int(_) => IntTag
    case Str(_) => StrTag
    case Bool(_) => BoolTag
    case ListOf(_) => ListTag
    case SetOf(_) => SetTag
  }

  predicate Hashable(v: Value)
  {
    v.Int? || v.Str? || v.Bool?
  }

  /** Python truthiness (`if x:`, `x or y`, `not x`). */
  predicate Truthy(v: Value)
  {
    match v
    case Int(i) => i != 0
    case Str(s) => s != ""
    case Bool(b) => b
    case ListOf(xs) => xs != []
    case SetOf(m) => m != {}
  }

  /** Python `==` between two values: numbers compare by value (True == 1),
      lists element by element, sets by membership. */
  predicate PyEq(a: Value, b: Value)
    decreases a
  {
    match (a, b)
    case (Int(_) , Int(_)) => a.i == b.i
    case (Int(i), Bool(c)) => i == (if c then 1 else 0)
    case (Bool(c), Int(i)) => i == (if c then 1 else 0)
    case (Bool(c), Bool(d)) => c == d
    case (Str(s), Str(t)) => s == t
    case (ListOf(xs), ListOf(ys)) =>
      |xs| == |ys| && forall k :: 0 <= k < |xs| ==> PyEq(xs[k], ys[k])
    case (SetOf(m), SetOf(n)) => m == n
    case _ => false
  }

  /** `list.count(v)`. */
  function CountOf(xs: seq<Value>, v: Value): (n: nat)
    ensures n <= |xs|
    ensures n == 0 <==> forall k :: 0 <= k < |xs| ==> !PyEq(xs[k], v)
  {
    if xs == [] then 0
    else (if PyEq(xs[0], v) then 1 else 0) + CountOf(xs[1..], v)
  }

  /** Counting one more element adds one exactly when it equals v. */
  lemma {:induction false} CountSnoc(xs: seq<Value>, x: Value, v: Value)
    ensures CountOf(xs + [x], v) == CountOf(xs, v) + (if PyEq(x, v) then 1 else 0)
    decreases |xs|
  {
    if xs == [] {
      assert [x][1..] == [];
    } else {
      assert (xs + [x])[0] == xs[0] && (xs + [x])[1..] == xs[1..] + [x];
      CountSnoc(xs[1..], x, v);
    }
  }

  /** The positions of xs whose element equals v. */
  function Matches(xs: seq<Value>, v: Value): set<nat>
  {
    set k: nat | k < |xs| && PyEq(xs[k], v)
  }

  /** `list.count(v)` is the number of positions whose element equals v. */
  lemma {:induction false} CountIsMatches(xs: seq<Value>, v: Value)
    ensures CountOf(xs, v) == |Matches(xs, v)|
    decreases |xs|
  {
    if xs != [] {
      var n := |xs| - 1;
      var ys := xs[..n];
      assert xs == ys + [xs[n]];
      CountSnoc(ys, xs[n], v);
      CountIsMatches(ys, v);
      if PyEq(xs[n], v) {
        assert Matches(xs, v) == Matches(ys, v) + {n};
        assert n !in Matches(ys, v);
      } else {
        assert Matches(xs, v) == Matches(ys, v);
      }
    } else {
      assert Matches(xs, v) == {};
    }
  }

  /** `list.index(v)`: the first position holding a value equal to v, or
      ValueError when there is none. */
  function IndexOf(xs: seq<Value>, v: Value): (r: Result<nat, Error>)
    ensures r.Ok? ==> r.value < |xs| && PyEq(xs[r.value], v)
                      && forall k :: 0 <= k < r.value ==> !PyEq(xs[k], v)
    ensures r.Err? ==> r.error == ValueError && forall k :: 0 <= k < |xs| ==> !PyEq(xs[k], v)
  {
    if xs == [] then Err(ValueError)
    else if PyEq(xs[0], v) then Ok(0)
    else match IndexOf(xs[1..], v)
      case Ok(k) => Ok(k + 1)
      case Err(e) => Err(e)
  }

  // ---------------------------------------------------------------------
  // Decimal text: str(int) on the way out, int(text) on the way back

  function DigitChar(d: nat): char
    requires d < 10
  {
    "0123456789"[d]
  }

  predicate IsDigit(c: char)
  {
    '0' <= c <= '9'
  }

  function DigitValue(c: char): nat
    requires IsDigit(c)
  {
    (c as int - '0' as int) as nat
  }

  /** The decimal digits of n, most significant first, without leading zeros. */
  function Digits(n: nat): (ds: string)
    ensures |ds| > 0 && forall k :: 0 <= k < |ds| ==> IsDigit(ds[k])
  {
    if n < 10 then [DigitChar(n)] else Digits(n / 10) + [DigitChar(n % 10)]
  }

  /** Python's `str(i)` for an int. */
  function Decimal(i: int): string
  {
    if i < 0 then "-" + Digits(-i) else Digits(i)
  }

  /** The number a run of decimal digits spells. */
  function DigitsValue(ds: string): nat
    requires forall k :: 0 <= k < |ds| ==> IsDigit(ds[k])
  {
    if ds == [] then 0 else DigitsValue(ds[..|ds| - 1]) * 10 + DigitValue(ds[|ds| - 1])
  }

  predicate IsSpace(c: char)
  {
    c == ' ' || c == '\t' || c == '\n' || c == '\r' || c as int == 11 || c as int == 12
  }

  /** Python 2's `str.strip()`: drop ASCII whitespace at both ends. */
  function Strip(s: string): (r: string)
    ensures |r| <= |s|
    ensures r != [] ==> !IsSpace(r[0]) && !IsSpace(r[|r| - 1])
  {
    if s == [] then s
    else if IsSpace(s[0]) then Strip(s[1..])
    else if IsSpace(s[|s| - 1]) then Strip(s[..|s| - 1])
    else s
  }

  /** Only whitespace lies outside s[i..j]. */
  predicate SpaceOutside(s: string, i: nat, j: nat)
    requires i <= j <= |s|
  {
    (forall k :: 0 <= k < i ==> IsSpace(s[k])) && (forall k :: j <= k < |s| ==> IsSpace(s[k]))
  }

  lemma SpaceOutsideFront(s: string, i: nat, j: nat)
    requires s != [] && IsSpace(s[0]) && i <= j <= |s| - 1 && SpaceOutside(s[1..], i, j)
    ensures SpaceOutside(s, i + 1, j + 1) && s[1..][i..j] == s[i + 1..j + 1]
  {
    forall k | 0 < k < i + 1 ensures IsSpace(s[k]) {
      assert s[k] == s[1..][k - 1];
    }
    forall k | j + 1 <= k < |s| ensures IsSpace(s[k]) {
      assert s[k] == s[1..][k - 1];
    }
  }

  lemma SpaceOutsideBack(s: string, i: nat, j: nat)
    requires s != [] && IsSpace(s[|s| - 1]) && i <= j <= |s| - 1 && SpaceOutside(s[..|s| - 1], i, j)
    ensures SpaceOutside(s, i, j) && s[..|s| - 1][i..j] == s[i..j]
  {
    forall k | 0 <= k < i ensures IsSpace(s[k]) {
      assert s[k] == s[..|s| - 1][k];
    }
    forall k | j <= k < |s| - 1 ensures IsSpace(s[k]) {
      assert s[k] == s[..|s| - 1][k];
    }
  }

  /** `strip()` removes only whitespace, and only at the two ends: what it
      returns is a slice of its input with nothing but whitespace before and
      after it. */
  lemma {:induction false} StripTrims(s: string)
    ensures exists i: nat, j: nat :: i <= j <= |s| && Strip(s) == s[i..j] && SpaceOutside(s, i, j)
    decreases |s|
  {
    if s == [] {
      assert Strip(s) == s[0..0] && SpaceOutside(s, 0, 0);
    } else if IsSpace(s[0]) {
      StripTrims(s[1..]);
      var i: nat, j: nat :| i <= j <= |s| - 1 && Strip(s[1..]) == s[1..][i..j] && SpaceOutside(s[1..], i, j);
      SpaceOutsideFront(s, i, j);
      assert Strip(s) == s[i + 1..j + 1];
    } else if IsSpace(s[|s| - 1]) {
      StripTrims(s[..|s| - 1]);
      var i: nat, j: nat :| i <= j <= |s| - 1 && Strip(s[..|s| - 1]) == s[..|s| - 1][i..j] && SpaceOutside(s[..|s| - 1], i, j);
      SpaceOutsideBack(s, i, j);
      assert Strip(s) == s[i..j];
    } else {
      assert Strip(s) == s[0..|s|] && SpaceOutside(s, 0, |s|);
    }
  }

  /** Python's `int(text)`: surrounding whitespace, an optional sign, then one
      or more decimal digits; anything else is a ValueError. */
  function ParseInt(text: string): Result<int, Error>
  {
    var t := Strip(text);
    var sign := if t != [] && (t[0] == '-' || t[0] == '+') then 1 else 0;
    var ds := t[sign..];
    if ds != [] && forall k :: 0 <= k < |ds| ==> IsDigit(ds[k]) then
      Ok(if sign == 1 && t[0] == '-' then 0 - DigitsValue(ds) as int else DigitsValue(ds))
    else Err(ValueError)
  }

  lemma {:induction false} DigitsRoundTrip(n: nat)
    ensures DigitsValue(Digits(n)) == n
  {
    var ds := Digits(n);
    if n < 10 {
      assert ds[..0] == [];
    } else {
      DigitsRoundTrip(n / 10);
      assert ds[..|ds| - 1] == Digits(n / 10);
    }
  }

  lemma StripUnchanged(s: string)
    requires s != [] && !IsSpace(s[0]) && !IsSpace(s[|s| - 1])
    ensures Strip(s) == s
  {
  }

  /** Reading back what was written: int(str(i)) == i. */
  lemma {:induction false} DecimalRoundTrip(i: int)
    ensures ParseInt(Decimal(i)) == Ok(i)
  {
    var t := Decimal(i);
    var ds := Digits(if i < 0 then -i else i);
    StripUnchanged(t);
    DigitsRoundTrip(if i < 0 then -i else i);
    if i < 0 {
      assert t[1..] == ds;
    } else {
      assert t[0..] == ds;
    }
  }

  // ---------------------------------------------------------------------
  // A fixed order on text, used wherever Python or Redis enumerate an
  // unordered collection in an order the program does not control

  /** Lexicographic order on strings by code point. */
  predicate LexLe(a: string, b: string)
    decreases |a|
  {
    a == [] || (b != [] && (a[0] < b[0] || (a[0] == b[0] && LexLe(a[1..], b[1..]))))
  }

  lemma {:induction false} LexReflexive(a: string)
    ensures LexLe(a, a)
    decreases |a|
  {
    if a != [] { LexReflexive(a[1..]); }
  }

  lemma {:induction false} LexTotal(a: string, b: string)
    ensures LexLe(a, b) || LexLe(b, a)
    decreases |a|
  {
    if a != [] && b != [] && a[0] == b[0] { LexTotal(a[1..], b[1..]); }
  }

  lemma {:induction false} LexAntisymmetric(a: string, b: string)
    requires LexLe(a, b) && LexLe(b, a)
    ensures a == b
    decreases |a|
  {
    if a != [] && b != [] {
      LexAntisymmetric(a[1..], b[1..]);
      assert a == [a[0]] + a[1..] && b == [b[0]] + b[1..];
    }
  }

  lemma {:induction false} LexTransitive(a: string, b: string, c: string)
    requires LexLe(a, b) && LexLe(b, c)
    ensures LexLe(a, c)
    decreases |a|
  {
    if a != [] && b != [] && c != [] && a[0] == b[0] && b[0] == c[0] {
      LexTransitive(a[1..], b[1..], c[1..]);
    }
  }

  predicate IsLeast(m: string, s: set<string>)
  {
    m in s && forall x :: x in s ==> LexLe(m, x)
  }

  lemma {:induction false} LeastExists(s: set<string>)
    requires s != {}
    ensures exists m :: IsLeast(m, s)
    decreases |s|
  {
    var y :| y in s;
    var rest := s - {y};
    if rest == {} {
      LexReflexive(y);
      assert s == {y};
      assert IsLeast(y, s);
    } else {
      LeastExists(rest);
      var m :| IsLeast(m, rest);
      LexTotal(y, m);
      if LexLe(y, m) {
        LexReflexive(y);
        forall x | x in s ensures LexLe(y, x) {
          if x != y { LexTransitive(y, m, x); }
        }
        assert IsLeast(y, s);
      } else {
        assert IsLeast(m, s);
      }
    }
  }

  lemma LeastUnique(s: set<string>)
    ensures forall m, n :: IsLeast(m, s) && IsLeast(n, s) ==> m == n
  {
    forall m, n | IsLeast(m, s) && IsLeast(n, s) ensures m == n {
      LexAntisymmetric(m, n);
    }
  }

  /** The least member of a non-empty set of strings. */
  function Least(s: set<string>): (m: string)
    requires s != {}
    ensures m in s && forall x :: x in s ==> LexLe(m, x)
  {
    LeastExists(s);
    LeastUnique(s);
    var m :| IsLeast(m, s); m
  }

  /** The members of a set of strings, each once, in ascending order. */
  function Sorted(s: set<string>): (r: seq<string>)
    ensures |r| == |s|
    ensures forall x :: x in s <==> x in r
    decreases |s|
  {
    if s == {} then []
    else
      var m := Least(s);
      [m] + Sorted(s - {m})
  }

  // ---------------------------------------------------------------------
  // str(): the text redis-py sends for an argument

  function Join(parts: seq<string>): string
  {
    if parts == [] then ""
    else if |parts| == 1 then parts[0]
    else parts[0] + ", " + Join(parts[1..])
  }

  /** Python 2's `str(value)`. Strings are sent as they are; containers as
      their printed form. */
  function Text(v: Value): string
    decreases v, 1
  {
    match v
    case Int(i) => Decimal(i)
    case Str(s) => s
    case Bool(b) => if b then "True" else "False"
    case ListOf(xs) => "[" + Join(Reprs(xs)) + "]"
    case SetOf(m) => "set([" + Join(Sorted(set x | x in m :: Repr(x))) + "])"
  }

  /** Python's `repr(value)`, as it appears inside a printed container. */
  function Repr(v: Value): string
    decreases v, 2
  {
    if v.Str? then "'" + v.s + "'" else Text(v)
  }

  function Reprs(xs: seq<Value>): seq<string>
    decreases xs
  {
    if xs == [] then [] else [Repr(xs[0])] + Reprs(xs[1..])
  }

  function Texts(xs: seq<Value>): (r: seq<string>)
    ensures |r| == |xs| && forall k :: 0 <= k < |xs| ==> r[k] == Text(xs[k])
  {
    if xs == [] then [] else [Text(xs[0])] + Texts(xs[1..])
  }

  /** The characters of a string as one-character strings (`list(text)`). */
  function Chars(s: string): (r: seq<Value>)
    ensures |r| == |s| && forall k :: 0 <= k < |s| ==> r[k] == Str([s[k]])
  {
    if s == [] then [] else [Str([s[0]])] + Chars(s[1..])
  }

  function Strs(xs: seq<string>): (r: seq<Value>)
    ensures |r| == |xs| && forall k :: 0 <= k < |xs| ==> r[k] == Str(xs[k])
  {
    if xs == [] then [] else [Str(xs[0])] + Strs(xs[1..])
  }
}
