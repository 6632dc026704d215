/** The loader that reads the Lua atoms at import time and fills the
    name -> script table. Only the parsing is modelled: it is given the file's
    text; registering a script with the server is recorded as keeping its code. */
module Loader {
  import opened Values

  /** `sep` occurs in `s` at position i. */
  predicate OccursAt(s: string, sep: string, i: int)
  {
    0 <= i && i + |sep| <= |s| && s[i..i + |sep|] == sep
  }

  /** The first position at or after i where sep occurs. */
  function FindFrom(s: string, sep: string, i: nat): (r: Option<nat>)
    ensures r.Some? ==> i <= r.value && OccursAt(s, sep, r.value)
                        && forall j :: i <= j < r.value ==> !OccursAt(s, sep, j)
    ensures r.None? ==> forall j :: i <= j ==> !OccursAt(s, sep, j)
    decreases |s| - i
  {
    if i + |sep| > |s| then None
    else if s[i..i + |sep|] == sep then Some(i)
    else FindFrom(s, sep, i + 1)
  }

  /** The position of the first occurrence of sep in s. */
  function Find(s: string, sep: string): (r: Option<nat>)
    ensures r.Some? ==> OccursAt(s, sep, r.value) && forall j :: 0 <= j < r.value ==> !OccursAt(s, sep, j)
    ensures r.None? ==> forall j :: !OccursAt(s, sep, j)
  {
    FindFrom(s, sep, 0)
  }

  /** The last position at or before i where sep occurs. */
  function FindLastFrom(s: string, sep: string, i: int): (r: Option<nat>)
    ensures r.Some? ==> r.value <= i && OccursAt(s, sep, r.value)
                        && forall j :: r.value < j <= i ==> !OccursAt(s, sep, j)
    ensures r.None? ==> forall j :: j <= i ==> !OccursAt(s, sep, j)
    decreases i + 1
  {
    if i < 0 then None
    else if OccursAt(s, sep, i) then Some(i)
    else FindLastFrom(s, sep, i - 1)
  }

  /** The position of the last occurrence of sep in s. */
  function FindLast(s: string, sep: string): (r: Option<nat>)
    ensures r.Some? ==> OccursAt(s, sep, r.value) && forall j :: r.value < j ==> !OccursAt(s, sep, j)
    ensures r.None? ==> forall j :: !OccursAt(s, sep, j)
  {
    FindLastFrom(s, sep, |s| - |sep|)
  }

  /** Python's `s.split(sep)`: the pieces between the occurrences of sep,
      found left to right. */
  function Split(s: string, sep: string): (r: seq<string>)
    requires sep != []
    ensures |r| >= 1
    decreases |s|
  {
    match Find(s, sep)
    case None => [s]
    case Some(i) => [s[..i]] + Split(s[i + |sep|..], sep)
  }

  /** The inverse of Split: the pieces glued back together with sep. */
  function JoinWith(parts: seq<string>, sep: string): string
    requires |parts| >= 1
  {
    if |parts| == 1 then parts[0] else parts[0] + sep + JoinWith(parts[1..], sep)
  }

  lemma Around(s: string, sep: string, i: nat)
    requires OccursAt(s, sep, i)
    ensures s == s[..i] + sep + s[i + |sep|..]
  {
    assert s == s[..i] + s[i..i + |sep|] + s[i + |sep|..];
  }

  lemma SplitAt(s: string, sep: string, i: nat)
    requires sep != [] && Find(s, sep) == Some(i)
    ensures Split(s, sep) == [s[..i]] + Split(s[i + |sep|..], sep)
  {
  }

  /** Splitting loses nothing: the pieces and the separators between them
      make up the original text. */
  lemma {:induction false} SplitJoin(s: string, sep: string)
    requires sep != []
    ensures JoinWith(Split(s, sep), sep) == s
    decreases |s|
  {
    match Find(s, sep)
    case None =>
    case Some(i) =>
      var rest := s[i + |sep|..];
      SplitJoin(rest, sep);
      SplitAt(s, sep, i);
      Around(s, sep, i);
      var parts := Split(s, sep);
      assert parts[0] == s[..i] && parts[1..] == Split(rest, sep);
  }

  /** The text of a line up to the first `(` (all of it when there is none),
      stripped: `name.split("(")[0].strip()`. */
  function Header(line: string): string
  {
    match Find(line, "(")
    case None => Strip(line)
    case Some(i) => Strip(line[..i])
  }

  /** The text before the last `end` (all of it when there is none), stripped:
      `code.rsplit("end", 1)[0].strip()`. */
  function Body(code: string): string
  {
    match FindLast(code, "end")
    case None => Strip(code)
    case Some(i) => Strip(code[..i])
  }

  /** A fragment can be unpacked into a header line and code exactly when it
      holds a newline (`func.split("\n", 1)`). */
  predicate HasNewline(p: string)
  {
    Find(p, "\n").Some?
  }

  /** The script name a fragment declares. */
  function FragmentName(p: string): string
    requires HasNewline(p)
  {
    Header(p[..Find(p, "\n").value])
  }

  /** The script code a fragment declares. */
  function FragmentCode(p: string): string
    requires HasNewline(p)
  {
    Body(p[Find(p, "\n").value + 1..])
  }

  /** The fragments of the script file: its stripped text split on "function ". */
  function Fragments(text: string): seq<string>
  {
    Split(Strip(text), "function ")
  }

  /** Among the first n fragments, fragment k is the last one that declares `name`. */
  predicate LastDeclaration(ps: seq<string>, n: nat, k: int, name: string)
    requires n <= |ps|
  {
    0 <= k < n && ps[k] != [] && HasNewline(ps[k]) && FragmentName(ps[k]) == name
    && forall j :: k < j < n && ps[j] != [] && HasNewline(ps[j]) ==> FragmentName(ps[j]) != name
  }

  /** What the table holds after the loop has handled the first n
      fragments; decl records which fragment each entry came from. */
  ghost predicate Loaded(ps: seq<string>, n: nat, funcs: map<string, string>, decl: map<string, nat>)
    requires n <= |ps|
  {
    && (forall k :: 0 <= k < n && ps[k] != [] ==> HasNewline(ps[k]))
    && (forall k :: 0 <= k < n && ps[k] != [] ==> FragmentName(ps[k]) in funcs)
    && (forall name :: name in funcs ==> name in decl && LastDeclaration(ps, n, decl[name], name)
                                         && funcs[name] == FragmentCode(ps[decl[name]]))
  }

  lemma LastDeclarationSkip(ps: seq<string>, n: nat, k: int, name: string)
    requires n < |ps| && ps[n] == [] && LastDeclaration(ps, n, k, name)
    ensures LastDeclaration(ps, n + 1, k, name)
  {
  }

  lemma LoadedSkip(ps: seq<string>, n: nat, funcs: map<string, string>, decl: map<string, nat>)
    requires n < |ps| && ps[n] == [] && Loaded(ps, n, funcs, decl)
    ensures Loaded(ps, n + 1, funcs, decl)
  {
    forall name | name in funcs ensures LastDeclaration(ps, n + 1, decl[name], name) {
      LastDeclarationSkip(ps, n, decl[name], name);
    }
  }

  lemma LastDeclarationOther(ps: seq<string>, n: nat, k: int, name: string)
    requires n < |ps| && ps[n] != [] && HasNewline(ps[n]) && FragmentName(ps[n]) != name
    requires LastDeclaration(ps, n, k, name)
    ensures LastDeclaration(ps, n + 1, k, name)
  {
  }

  lemma LoadedAdd(ps: seq<string>, n: nat, funcs: map<string, string>, decl: map<string, nat>)
    requires n < |ps| && ps[n] != [] && HasNewline(ps[n]) && Loaded(ps, n, funcs, decl)
    ensures Loaded(ps, n + 1, funcs[FragmentName(ps[n]) := FragmentCode(ps[n])],
                   decl[FragmentName(ps[n]) := n])
  {
    var name := FragmentName(ps[n]);
    var funcs', decl' := funcs[name := FragmentCode(ps[n])], decl[name := n];
    forall m | m in funcs'
      ensures m in decl' && LastDeclaration(ps, n + 1, decl'[m], m) && funcs'[m] == FragmentCode(ps[decl'[m]])
    {
      if m == name {
        assert LastDeclaration(ps, n + 1, n, name);
      } else {
        LastDeclarationOther(ps, n, decl[m], m);
      }
    }
    forall k | 0 <= k < n + 1 && ps[k] != [] ensures FragmentName(ps[k]) in funcs' {
    }
  }

  /** What a load of the fragments ps returns. */
  ghost predicate LoadOutcome(ps: seq<string>, r: Result<map<string, string>, Error>)
  {
    && (r.Err? <==> exists k :: 0 <= k < |ps| && ps[k] != [] && !HasNewline(ps[k]))
    && (r.Err? ==> r.error == ValueError)
    && (r.Ok? ==> forall k :: 0 <= k < |ps| && ps[k] != [] ==> FragmentName(ps[k]) in r.value)
    && (r.Ok? ==> forall name :: name in r.value ==>
          exists k :: LastDeclaration(ps, |ps|, k, name) && r.value[name] == FragmentCode(ps[k]))
  }

  lemma LoadedComplete(ps: seq<string>, funcs: map<string, string>, decl: map<string, nat>)
    requires Loaded(ps, |ps|, funcs, decl)
    ensures LoadOutcome(ps, Ok(funcs))
  {
    forall name | name in funcs
      ensures exists k :: LastDeclaration(ps, |ps|, k, name) && funcs[name] == FragmentCode(ps[k])
    {
      assert LastDeclaration(ps, |ps|, decl[name], name);
    }
  }

  lemma LoadFails(ps: seq<string>, i: nat)
    requires i < |ps| && ps[i] != [] && !HasNewline(ps[i])
    ensures LoadOutcome(ps, Err(ValueError))
  {
  }

  /** The loader loop. Empty fragments are skipped; a non-empty fragment
      without a newline cannot be unpacked and stops the load with a
      ValueError; every other fragment registers its code under its name, a
      later declaration of a name replacing an earlier one. */
  method LoadScripts(text: string) returns (r: Result<map<string, string>, Error>)
    ensures LoadOutcome(Fragments(text), r)
  {
    var ps := Fragments(text);
    var funcs: map<string, string> := map[];
    ghost var decl: map<string, nat> := map[];
    var i := 0;
    while i < |ps|
      invariant 0 <= i <= |ps|
      invariant Loaded(ps, i, funcs, decl)
    {
      var func := ps[i];
      if func == [] {
        LoadedSkip(ps, i, funcs, decl);
      } else {
        var nl := Find(func, "\n");
        if nl.None? {
          LoadFails(ps, i);
          return Err(ValueError);
        }
        var name := Header(func[..nl.value]);
        var code := Body(func[nl.value + 1..]);
        LoadedAdd(ps, i, funcs, decl);
        funcs := funcs[name := code];
        decl := decl[name := i];
      }
      i := i + 1;
    }
    LoadedComplete(ps, funcs, decl);
    return Ok(funcs);
  }
}
