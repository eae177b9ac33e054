/** Endpoints of a local app-server: which strings are accepted, and what an accepted one looks like. */
module Endpoints {
  import S = SplitUTF8

  const SCHEME := "unix://"
  const LONGEST_PATH: nat := 100

  function Prepend(c: char, parts: seq<string>): seq<string>
    requires parts != []
  {
    [[c] + parts[0]] + parts[1..]
  }

  /** strings.Split at slashes. */
  function Split(s: string): (parts: seq<string>)
    ensures parts != []
  {
    if s == "" then [""]
    else if s[0] == '/' then [""] + Split(s[1..])
    else Prepend(s[0], Split(s[1..]))
  }

  function Join(parts: seq<string>): string {
    if parts == [] then ""
    else if |parts| == 1 then parts[0]
    else parts[0] + "/" + Join(parts[1..])
  }

  /** The segments of a rooted path that filepath.Clean keeps: a parent takes back the one before. */
  function Reduce(parts: seq<string>): seq<string> {
    if parts == [] then [] else
    var kept, last := Reduce(parts[..|parts| - 1]), parts[|parts| - 1];
    if last == "" || last == "." then kept
    else if last == ".." then (if kept == [] then [] else kept[..|kept| - 1])
    else kept + [last]
  }

  /** filepath.Clean on a rooted path. */
  function Clean(path: string): string
    requires path != "" && path[0] == '/'
  {
    "/" + Join(Reduce(Split(path[1..])))
  }

  predicate HasParentSegment(path: string) { ".." in Split(path) }

  /** validateLocalEndpoint. */
  predicate ValidEndpoint(endpoint: string) {
    SCHEME + "/" <= endpoint &&
    var path := endpoint[|SCHEME|..];
    S.Size(path) < LONGEST_PATH && Clean(path) == path && !HasParentSegment(path) && '\0' !in path
  }

  method ValidateLocalEndpoint(endpoint: string) returns (ok: bool)
    ensures ok <==> ValidEndpoint(endpoint)
  {
    if !(SCHEME + "/" <= endpoint) { return false; }
    var path := endpoint[|SCHEME|..];
    if S.Size(path) >= LONGEST_PATH || Clean(path) != path || HasParentSegment(path) { return false; }
    return '\0' !in path;
  }

  // ----- what is accepted -----

  /** A segment that names something: not empty, not the directory itself or its parent. */
  predicate Plain(part: string) { part != "" && part != "." && part != ".." && '/' !in part }

  ghost predicate AllPlain(parts: seq<string>) { forall i :: 0 <= i < |parts| ==> Plain(parts[i]) }

  ghost predicate NoSlashes(parts: seq<string>) { forall i :: 0 <= i < |parts| ==> '/' !in parts[i] }

  lemma {:induction false} SplitHasNoSlashes(s: string)
    ensures NoSlashes(Split(s))
  {
    if s != "" { SplitHasNoSlashes(s[1..]); }
  }

  lemma {:induction false} JoinSplit(s: string)
    ensures Join(Split(s)) == s
  {
    if s != "" {
      JoinSplit(s[1..]);
      var rest := Split(s[1..]);
      if s[0] == '/' {
        assert ([""] + rest)[1..] == rest;
      } else if |rest| > 1 {
        assert Prepend(s[0], rest)[1..] == rest[1..];
        assert [s[0]] + (rest[0] + "/" + Join(rest[1..])) == ([s[0]] + rest[0]) + "/" + Join(rest[1..]);
      }
    }
  }

  lemma {:induction false} SplitPart(part: string)
    requires '/' !in part
    ensures Split(part) == [part]
  {
    if part != "" {
      assert part == [part[0]] + part[1..];
      SplitPart(part[1..]);
    }
  }

  lemma {:induction false} SplitAtSlash(part: string, rest: string)
    requires '/' !in part
    ensures Split(part + "/" + rest) == [part] + Split(rest)
  {
    var all := part + "/" + rest;
    if part == "" {
      assert all[1..] == rest;
    } else {
      assert all[1..] == part[1..] + "/" + rest && part == [part[0]] + part[1..];
      SplitAtSlash(part[1..], rest);
      assert ([part[1..]] + Split(rest))[1..] == Split(rest);
    }
  }

  lemma {:induction false} SplitJoin(parts: seq<string>)
    requires parts != [] && NoSlashes(parts)
    ensures Split(Join(parts)) == parts
  {
    if |parts| == 1 {
      SplitPart(parts[0]);
    } else {
      SplitJoin(parts[1..]);
      SplitAtSlash(parts[0], Join(parts[1..]));
      assert parts == [parts[0]] + parts[1..];
    }
  }

  lemma {:induction false} ReducedArePlain(parts: seq<string>)
    requires NoSlashes(parts)
    ensures AllPlain(Reduce(parts))
  {
    if parts != [] { ReducedArePlain(parts[..|parts| - 1]); }
  }

  lemma {:induction false} PlainStay(parts: seq<string>)
    requires AllPlain(parts)
    ensures Reduce(parts) == parts
  {
    if parts != [] {
      PlainStay(parts[..|parts| - 1]);
      assert parts == parts[..|parts| - 1] + [parts[|parts| - 1]];
    }
  }

  /** Cleaning leaves a rooted path alone exactly if it is the root or made of plain segments only. */
  lemma CleanPaths(path: string)
    requires path != "" && path[0] == '/'
    ensures Clean(path) == path <==> path == "/" || AllPlain(Split(path[1..]))
  {
    var rest := path[1..];
    var parts := Split(rest);
    assert path == "/" + rest;
    SplitHasNoSlashes(rest);
    ReducedArePlain(parts);
    JoinSplit(rest);
    if AllPlain(parts) { PlainStay(parts); }
    if Clean(path) == path {
      assert Clean(path)[1..] == Join(Reduce(parts));
      assert Join(Reduce(parts)) == rest;
      if Reduce(parts) != [] { SplitJoin(Reduce(parts)); }
    }
    assert Reduce([""]) == [] by { assert [""][..0] == []; }
  }

  lemma NoParents(path: string)
    requires path != "" && path[0] == '/' && (path == "/" || AllPlain(Split(path[1..])))
    ensures !HasParentSegment(path)
  {
    var rest := Split(path[1..]);
    assert Split(path) == [""] + rest;
    if path == "/" { assert rest == [""]; }
  }

  /** The accepted endpoints: the scheme and a rooted path under a hundred bytes, without NUL, that is the
      root or consists of plain segments. The check for parent segments turns nothing more away. */
  lemma AcceptedEndpoints(endpoint: string)
    ensures ValidEndpoint(endpoint) <==>
      && SCHEME + "/" <= endpoint && S.Size(endpoint[|SCHEME|..]) < LONGEST_PATH && '\0' !in endpoint[|SCHEME|..]
      && (endpoint[|SCHEME|..] == "/" || AllPlain(Split(endpoint[|SCHEME| + 1..])))
  {
    if SCHEME + "/" <= endpoint {
      var path := endpoint[|SCHEME|..];
      assert endpoint[|SCHEME|] == (SCHEME + "/")[|SCHEME|];
      assert path[1..] == endpoint[|SCHEME| + 1..];
      CleanPaths(path);
      if path == "/" || AllPlain(Split(path[1..])) { NoParents(path); }
    }
  }
}
