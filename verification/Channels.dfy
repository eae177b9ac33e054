/** Channel names in normal form, the validated channel list, and joining and parting. */
module Channels {
  import opened Prelude
  import Text

  // ----- names -----

  predicate Allowed(c: char) { 'a' <= c <= 'z' || '0' <= c <= '9' || c == '-' }

  predicate IsDash(c: char) { c == '-' }

  /** Every run of characters that are not allowed becomes one hyphen. */
  function Squeeze(s: string): string {
    if s == "" then ""
    else
      var n := |s| - 1;
      var rest := Squeeze(s[..n]);
      if Allowed(s[n]) then rest + [s[n]]
      else if n > 0 && !Allowed(s[n - 1]) then rest
      else rest + "-"
  }

  /** The name before it is cut to length. */
  function Stem(lower: char -> char, name: string): string {
    Bare(Text.TrimPrefix(Text.Map(lower, Text.TrimSpace(name)), "#"))
  }

  function Bare(plain: string): string { OrLobby(Text.Trim(Squeeze(plain), IsDash)) }

  function OrLobby(s: string): string { if s == "" then "lobby" else s }

  const LONGEST: nat := 47

  function NormalizeChannel(lower: char -> char, name: string): string {
    Cut(Stem(lower, name))
  }

  function Cut(stem: string): string {
    "#" + if |stem| > LONGEST then stem[..LONGEST] else stem
  }

  /** The facts of lower case that matter to channel names. */
  ghost predicate LowerCase(lower: char -> char) {
    lower('#') == '#' && forall c :: Allowed(c) ==> lower(c) == c
  }

  ghost predicate AllAllowed(s: string) { forall i :: 0 <= i < |s| ==> Allowed(s[i]) }

  ghost predicate Plain(name: string) {
    1 < |name| && name[0] == '#' && name[1] != '-' && AllAllowed(name[1..])
  }

  /** What every normal form looks like. */
  ghost predicate WellShaped(name: string) { Plain(name) && |name| <= 1 + LONGEST }

  /** The names that normalizing leaves alone. */
  ghost predicate Settled(name: string) { WellShaped(name) && name[|name| - 1] != '-' }

  /** Only allowed characters come out, and a string of those is left alone. */
  lemma {:induction false} SqueezeIs(s: string)
    ensures AllAllowed(Squeeze(s)) && (AllAllowed(s) ==> Squeeze(s) == s)
  {
    if s != "" {
      SqueezeIs(s[..|s| - 1]);
      assert s == s[..|s| - 1] + [s[|s| - 1]];
    }
  }

  lemma DashesTrimmed(s: string)
    requires AllAllowed(s)
    ensures var t := Text.Trim(s, IsDash); AllAllowed(t) && (t != "" ==> t[0] != '-' && t[|t| - 1] != '-')
  {
    Text.TrimIsTrimmed(s, IsDash);
    var l := Text.TrimLeft(s, IsDash);
    var r := Text.TrimRight(l, IsDash);
    forall i | 0 <= i < |r| ensures Allowed(r[i]) { assert r[i] == l[i] == s[|s| - |l| + i]; }
  }

  ghost predicate StemLike(s: string) { s != "" && s[0] != '-' && s[|s| - 1] != '-' && AllAllowed(s) }

  lemma StemFrom(s: string)
    requires AllAllowed(s)
    ensures StemLike(OrLobby(Text.Trim(s, IsDash)))
  {
    DashesTrimmed(s);
    assert StemLike("lobby");
  }

  lemma StemShape(lower: char -> char, name: string)
    ensures StemLike(Stem(lower, name))
  {
    var s := Text.TrimPrefix(Text.Map(lower, Text.TrimSpace(name)), "#");
    SqueezeIs(s);
    StemFrom(Squeeze(s));
  }

  lemma CutShape(stem: string)
    requires StemLike(stem)
    ensures WellShaped(Cut(stem))
    ensures Cut(stem)[|Cut(stem)| - 1] == '-' <==> |stem| > LONGEST && stem[LONGEST - 1] == '-'
  {
  }

  lemma NormalFormShape(lower: char -> char, name: string)
    ensures WellShaped(NormalizeChannel(lower, name))
  {
    StemShape(lower, name);
    CutShape(Stem(lower, name));
  }

  lemma ShapedIsLower(lower: char -> char, name: string)
    requires LowerCase(lower) && Plain(name)
    ensures Text.Map(lower, name) == name
  {
    forall i | 0 <= i < |name| ensures lower(name[i]) == name[i] { assert i > 0 ==> Allowed(name[1..][i - 1]); }
  }

  lemma ShapedIsTrimmed(name: string)
    requires Plain(name)
    ensures Text.TrimSpace(name) == name
  {
    ShapedHasNoEdgeSpace(name);
    Text.TrimIsTrimmed(name, Text.IsSpace);
  }

  lemma ShapedHasNoEdgeSpace(name: string)
    requires Plain(name)
    ensures Text.Trimmed(name, Text.IsSpace)
  {
    var last := name[|name| - 1];
    assert Allowed(last) by { assert last == name[1..][|name| - 2]; }
  }

  lemma OnlyRightDashes(rest: string)
    requires rest != "" && rest[0] != '-'
    ensures Text.Trim(rest, IsDash) == Text.TrimRight(rest, IsDash) != ""
  {
    assert !IsDash(rest[0]);
  }

  lemma BareIs(rest: string, stem: string)
    requires Squeeze(rest) == rest && Text.Trim(rest, IsDash) == stem != ""
    ensures Bare(rest) == stem
  {
  }

  lemma DropMark(name: string, rest: string)
    requires name == "#" + rest
    ensures Text.TrimPrefix(name, "#") == rest
  {
    assert "#" <= name;
  }

  lemma StemIs(lower: char -> char, name: string, rest: string)
    requires Text.Map(lower, Text.TrimSpace(name)) == name && Text.TrimPrefix(name, "#") == rest
    ensures Stem(lower, name) == Bare(rest)
  {
  }

  lemma BareOfPlain(rest: string)
    requires rest != "" && rest[0] != '-' && AllAllowed(rest)
    ensures Bare(rest) == Text.TrimRight(rest, IsDash) != ""
  {
    SqueezeIs(rest);
    OnlyRightDashes(rest);
    BareIs(rest, Text.TrimRight(rest, IsDash));
  }

  /** A name in plain form only loses its trailing hyphens. */
  lemma StemOfShaped(lower: char -> char, name: string)
    requires LowerCase(lower) && Plain(name)
    ensures Stem(lower, name) == Text.TrimRight(name[1..], IsDash) != ""
  {
    ShapedIsTrimmed(name);
    ShapedIsLower(lower, name);
    DropMark(name, name[1..]);
    StemIs(lower, name, name[1..]);
    BareOfPlain(name[1..]);
  }

  lemma CutAgain(name: string)
    requires WellShaped(name)
    ensures var r := Text.TrimRight(name[1..], IsDash);
      r != "" ==> Settled(Cut(r)) && (Cut(r) == name <==> Settled(name))
  {
    var r := Text.TrimRight(name[1..], IsDash);
    assert Cut(r) == "#" + r;
    assert name == "#" + name[1..];
    if r != "" {
      assert r == name[1..][..|r|];
      forall i | 0 <= i < |r| ensures Allowed(r[i]) { assert r[i] == name[1..][i]; }
    }
  }

  lemma NormalizeShaped(lower: char -> char, name: string)
    requires LowerCase(lower) && WellShaped(name)
    ensures Settled(NormalizeChannel(lower, name)) && (NormalizeChannel(lower, name) == name <==> Settled(name))
  {
    StemOfShaped(lower, name);
    CutAgain(name);
  }

  /** The fixed points are exactly the well-shaped names without a trailing hyphen. */
  lemma FixedPoints(lower: char -> char, name: string)
    requires LowerCase(lower)
    ensures NormalizeChannel(lower, name) == name <==> Settled(name)
  {
    NormalFormShape(lower, name);
    if WellShaped(name) { NormalizeShaped(lower, name); }
  }

  ghost predicate CutAtDash(stem: string) { |stem| > LONGEST && stem[LONGEST - 1] == '-' }

  /** Normalizing again changes the result exactly when the cut left a hyphen at its end, and what it
      gives then is a fixed point. */
  lemma NormalizeTwice(lower: char -> char, name: string)
    requires LowerCase(lower)
    ensures var once := NormalizeChannel(lower, name);
      && (NormalizeChannel(lower, once) != once <==> CutAtDash(Stem(lower, name)))
      && Settled(NormalizeChannel(lower, once))
  {
    NormalFormShape(lower, name);
    NormalizeShaped(lower, NormalizeChannel(lower, name));
    StemShape(lower, name);
    CutShape(Stem(lower, name));
  }

  lemma NormalizeWith(lower: char -> char, rest: string, kept: string)
    requires LowerCase(lower) && Plain("#" + rest) && kept == Text.TrimRight(rest, IsDash)
    ensures NormalizeChannel(lower, "#" + rest) == Cut(kept)
  {
    assert ("#" + rest)[1..] == rest;
    StemOfShaped(lower, "#" + rest);
  }

  lemma PlainTail(a: string, tail: string)
    requires StemLike(a) && AllAllowed(tail)
    ensures Plain("#" + (a + tail))
  {
    var rest := a + tail;
    assert ("#" + rest)[1..] == rest;
    assert forall i :: 0 <= i < |rest| ==> Allowed(rest[i]);
  }

  lemma CutToDash(lower: char -> char, a: string)
    requires LowerCase(lower) && StemLike(a) && |a| == 46
    ensures NormalizeChannel(lower, "#" + (a + "-b")) == "#" + (a + "-")
  {
    PlainTail(a, "-b");
    assert (a + "-b")[..47] == a + "-";
    NormalizeWith(lower, a + "-b", a + "-b");
  }

  lemma DashIsTrimmed(lower: char -> char, a: string)
    requires LowerCase(lower) && StemLike(a) && |a| == 46
    ensures NormalizeChannel(lower, "#" + (a + "-")) == "#" + a
  {
    PlainTail(a, "-");
    assert (a + "-")[..46] == a;
    NormalizeWith(lower, a + "-", a);
  }

  /** Names whose normal form is not a fixed point: forty-six characters, a hyphen, and one more. */
  lemma NotIdempotent(lower: char -> char, a: string)
    requires LowerCase(lower) && StemLike(a) && |a| == 46
    ensures var once := NormalizeChannel(lower, "#" + (a + "-b"));
      once == "#" + (a + "-") && NormalizeChannel(lower, once) == "#" + a
  {
    CutToDash(lower, a);
    DashIsTrimmed(lower, a);
  }

  // ----- what becomes of the other characters -----

  ghost predicate NoneAllowed(s: string) { forall i :: 0 <= i < |s| ==> !Allowed(s[i]) }

  lemma {:induction false} SqueezeWord(x: string, word: string)
    requires AllAllowed(word)
    ensures Squeeze(x + word) == Squeeze(x) + word
  {
    if word == "" {
      assert x + word == x;
    } else {
      var init := word[..|word| - 1];
      SqueezeWord(x, init);
      assert (x + word)[..|x + word| - 1] == x + init && word == init + [word[|word| - 1]];
    }
  }

  lemma {:induction false} SqueezeGap(x: string, gap: string)
    requires gap != "" && NoneAllowed(gap) && (x == "" || Allowed(x[|x| - 1]))
    ensures Squeeze(x + gap) == Squeeze(x) + "-"
  {
    var init := gap[..|gap| - 1];
    assert (x + gap)[..|x + gap| - 1] == x + init;
    if init == "" { assert x + init == x; } else { SqueezeGap(x, init); }
  }

  /** A run of characters that are not allowed becomes one hyphen between what surrounds it. */
  lemma SqueezeRun(a: string, gap: string, c: string)
    requires AllAllowed(a) && AllAllowed(c) && gap != "" && NoneAllowed(gap)
    ensures Squeeze(a + gap + c) == a + "-" + c
  {
    SqueezeIs(a);
    SqueezeGap(a, gap);
    SqueezeWord(a + gap, c);
  }

  /** Words in turn with what stands between them. */
  function Weave(words: seq<string>, gaps: seq<string>): string
    requires |words| == |gaps| + 1
  {
    if gaps == [] then words[0]
    else Weave(words[..|words| - 1], gaps[..|gaps| - 1]) + gaps[|gaps| - 1] + words[|words| - 1]
  }

  function Dashed(words: seq<string>): string
    requires words != []
  {
    if |words| == 1 then words[0] else Dashed(words[..|words| - 1]) + "-" + words[|words| - 1]
  }

  /** Words of allowed characters, only the first and the last of which may be empty, and between them
      runs of others. */
  ghost predicate Alternates(words: seq<string>, gaps: seq<string>) {
    && |words| == |gaps| + 1
    && (forall i :: 0 <= i < |words| ==> AllAllowed(words[i]) && (0 < i < |words| - 1 ==> words[i] != ""))
    && (forall i :: 0 <= i < |gaps| ==> gaps[i] != "" && NoneAllowed(gaps[i]))
  }

  lemma EndsInWord(words: seq<string>, gaps: seq<string>)
    requires Alternates(words, gaps) && (gaps == [] || words[|words| - 1] != "")
    ensures Weave(words, gaps) == "" || Allowed(Weave(words, gaps)[|Weave(words, gaps)| - 1])
  {
    var last := words[|words| - 1];
    assert last != "" ==> Allowed(last[|last| - 1]);
  }

  /** However words and runs of other characters alternate, the runs become one hyphen each. */
  lemma {:induction false} SqueezeWoven(words: seq<string>, gaps: seq<string>)
    requires Alternates(words, gaps)
    ensures Squeeze(Weave(words, gaps)) == Dashed(words)
  {
    var n := |gaps|;
    if n == 0 {
      SqueezeIs(words[0]);
    } else {
      var init, between := words[..n], gaps[..n - 1];
      assert Alternates(init, between);
      SqueezeWoven(init, between);
      EndsInWord(init, between);
      SqueezeGap(Weave(init, between), gaps[n - 1]);
      SqueezeWord(Weave(init, between) + gaps[n - 1], words[n]);
    }
  }

  function Lowered(lower: char -> char, name: string): string {
    Text.TrimPrefix(Text.Map(lower, Text.TrimSpace(name)), "#")
  }

  /** Every text can be told so. */
  lemma {:induction false} EveryTextIsWoven(s: string) returns (words: seq<string>, gaps: seq<string>)
    ensures Alternates(words, gaps) && Weave(words, gaps) == s
  {
    if s == "" { return [""], []; }
    var c, before := s[|s| - 1], s[..|s| - 1];
    words, gaps := EveryTextIsWoven(before);
    var n := |gaps|;
    if Allowed(c) {
      words := words[n := words[n] + [c]];
      if n > 0 { assert words[..n] == words[..|words| - 1]; }
    } else if words[n] != "" || n == 0 {
      assert (words + [""])[..n + 1] == words && (gaps + [[c]])[..n] == gaps;
      words, gaps := words + [""], gaps + [[c]];
    } else {
      gaps := gaps[n - 1 := gaps[n - 1] + [c]];
    }
    assert s == before + [c];
  }

  /** A name whose lower-case spelling, without surrounding white space and a leading `#`, is words in turn
      with runs of other characters, becomes those words joined by hyphens, cut to length; hyphens
      around them are dropped. */
  lemma NormalizeWords(lower: char -> char, name: string, words: seq<string>, gaps: seq<string>, x: string,
                       core: string, y: string)
    requires Alternates(words, gaps) && Lowered(lower, name) == Weave(words, gaps)
    requires Dashed(words) == x + core + y && Text.AllCut(x, IsDash) && Text.AllCut(y, IsDash)
    requires core != "" && core[0] != '-' && core[|core| - 1] != '-'
    ensures NormalizeChannel(lower, name) == "#" + if |core| > 47 then core[..47] else core
  {
    SqueezeWoven(words, gaps);
    Text.TrimStrips(x, core, y, IsDash);
  }

  /** Surrounding white space and one leading `#` go first, whatever the case of the rest. */
  lemma LoweredIs(lower: char -> char, x: string, plain: string, y: string)
    requires lower('#') == '#' && Text.AllCut(x, Text.IsSpace) && Text.AllCut(y, Text.IsSpace)
    requires plain != "" && Text.Trimmed(plain, Text.IsSpace)
    ensures lower(plain[0]) != '#' ==> Lowered(lower, x + plain + y) == Text.Map(lower, plain)
    ensures Lowered(lower, x + ("#" + plain) + y) == Text.Map(lower, plain)
  {
    Text.TrimStrips(x, plain, y, Text.IsSpace);
    MarkGoes(lower, x, plain, y);
  }

  lemma MarkGoes(lower: char -> char, x: string, plain: string, y: string)
    requires lower('#') == '#' && Text.AllCut(x, Text.IsSpace) && Text.AllCut(y, Text.IsSpace)
    requires plain != "" && Text.Trimmed(plain, Text.IsSpace)
    ensures Lowered(lower, x + ("#" + plain) + y) == Text.Map(lower, plain)
  {
    var m := "#" + plain;
    assert m[0] == '#' && m[|m| - 1] == plain[|plain| - 1];
    Text.TrimStrips(x, m, y, Text.IsSpace);
    MarkLowered(lower, plain);
  }

  lemma MarkLowered(lower: char -> char, plain: string)
    requires lower('#') == '#'
    ensures Text.TrimPrefix(Text.Map(lower, "#" + plain), "#") == Text.Map(lower, plain)
  {
    assert Text.Map(lower, "#" + plain)[1..] == Text.Map(lower, plain);
  }

  lemma {:induction false} SqueezedToDashes(s: string)
    requires forall i :: 0 <= i < |s| ==> !Allowed(s[i]) || s[i] == '-'
    ensures forall i :: 0 <= i < |Squeeze(s)| ==> Squeeze(s)[i] == '-'
  {
    if s != "" { SqueezedToDashes(s[..|s| - 1]); }
  }

  lemma {:induction false} DashesTrimmedAway(s: string)
    requires forall i :: 0 <= i < |s| ==> s[i] == '-'
    ensures Text.Trim(s, IsDash) == ""
  {
    if s != "" { DashesTrimmedAway(s[1..]); }
  }

  lemma BareOfNothing(plain: string)
    requires forall i :: 0 <= i < |plain| ==> !Allowed(plain[i]) || plain[i] == '-'
    ensures Bare(plain) == "lobby"
  {
    SqueezedToDashes(plain);
    DashesTrimmedAway(Squeeze(plain));
  }

  /** A name with nothing in it but hyphens and characters that are not allowed is the lobby. */
  lemma NothingLeftIsLobby(lower: char -> char, name: string)
    requires forall i :: 0 <= i < |Lowered(lower, name)| ==>
      !Allowed(Lowered(lower, name)[i]) || Lowered(lower, name)[i] == '-'
    ensures NormalizeChannel(lower, name) == "#lobby"
  {
    BareOfNothing(Lowered(lower, name));
  }

  // ----- the list -----

  datatype State = State(home: string, channels: seq<string>)

  datatype ListError = Duplicate(name: string) | HomeNotFirst

  ghost predicate DistinctNames(canon: string -> string, channels: seq<string>, n: nat)
    requires n <= |channels|
  {
    forall i, j :: 0 <= i < j < n ==> canon(channels[i]) != canon(channels[j])
  }

  ghost predicate ValidList(canon: string -> string, channels: seq<string>, home: string) {
    channels == [] || (canon(channels[0]) == canon(home) && DistinctNames(canon, channels, |channels|))
  }

  /** Channel `j` is the first to repeat an earlier one, under this name. */
  ghost predicate FirstRepeat(canon: string -> string, channels: seq<string>, j: nat, name: string)
    requires j < |channels|
  {
    && canon(channels[j]) == name && DistinctNames(canon, channels, j)
    && exists i :: 0 <= i < j && canon(channels[i]) == name
  }

  method ValidateChannels(canon: string -> string, channels: seq<string>, home: string) returns (e: Option<ListError>)
    ensures e.None? <==> ValidList(canon, channels, home)
    ensures e == Some(HomeNotFirst) <==> channels != [] && canon(channels[0]) != canon(home)
    ensures e.Some? && e.value.Duplicate? ==>
      exists j :: 0 < j < |channels| && FirstRepeat(canon, channels, j, e.value.name)
  {
    if |channels| == 0 { return None; }
    var expected := canon(home);
    var seen: set<string> := {};
    for i := 0 to |channels|
      invariant DistinctNames(canon, channels, i)
      invariant forall n :: n in seen <==> exists k :: 0 <= k < i && canon(channels[k]) == n
      invariant i > 0 ==> canon(channels[0]) == expected
    {
      var n := canon(channels[i]);
      if n in seen {
        assert FirstRepeat(canon, channels, i, n);
        return Some(Duplicate(n));
      }
      seen := seen + {n};
      if i == 0 && n != expected { return Some(HomeNotFirst); }
    }
    return None;
  }

  predicate CanPart(canon: string -> string, channel: string, home: string) { canon(channel) != canon(home) }

  // ----- join and part -----

  ghost predicate ValidSession(canon: string -> string, st: State) {
    st.home != "" && st.channels != [] && ValidList(canon, st.channels, st.home)
  }

  datatype Reply = Unsent | Refused | Confirmed

  datatype Error = Unreadable | Invalid | HomeProtected | Failed | Unconfirmed | Unwritten

  /** Can the session be loaded, or recovered, and can its file be written? */
  datatype Disk = Disk(loaded: bool, written: bool)

  datatype Outcome = Unchanged | Saved(state: State) | Error(error: Error)

  ghost function Save(canon: string -> string, st: State, written: bool): Outcome {
    if !ValidSession(canon, st) then Error(Invalid) else if written then Saved(st) else Error(Unwritten)
  }

  ghost function Join(canon: string -> string, st: State, channel: string, reply: Reply, disk: Disk): Outcome {
    if !disk.loaded then Error(Unreadable)
    else if !ValidSession(canon, st) then Error(Invalid)
    else if canon(channel) in st.channels then Unchanged
    else match reply
      case Unsent => Error(Failed)
      case Refused => Error(Unconfirmed)
      case Confirmed => Save(canon, st.(channels := st.channels + [canon(channel)]), disk.written)
  }

  function Without(channels: seq<string>, target: string): seq<string> {
    if channels == [] then [] else
    var rest := Without(channels[..|channels| - 1], target);
    if channels[|channels| - 1] == target then rest else rest + [channels[|channels| - 1]]
  }

  ghost function Part(canon: string -> string, st: State, channel: string, reply: Reply, disk: Disk): Outcome {
    if !disk.loaded then Error(Unreadable)
    else if !ValidSession(canon, st) then Error(Invalid)
    else if !CanPart(canon, channel, st.home) then Error(HomeProtected)
    else if reply.Unsent? then Error(Failed)
    else Save(canon, st.(channels := Without(st.channels, canon(channel))), disk.written)
  }

  /** The channel that a part asks the server to leave. */
  ghost predicate Leaves(canon: string -> string, st: State, channel: string, target: string) {
    ValidSession(canon, st) && CanPart(canon, channel, st.home) && target == canon(channel)
  }

  /** The session file, and the two operations on it. */
  class Session {
    var stored: State

    constructor (st: State)
      ensures stored == st
    {
      stored := st;
    }

    /** How the file and the returned error follow from an outcome. */
    ghost predicate Follows(outcome: Outcome, was: State, error: Option<Error>)
      reads this
    {
      match outcome
      case Unchanged => stored == was && error == None
      case Saved(st) => stored == st && error == None
      case Error(e) => stored == was && error == Some(e)
    }

    method Validate(canon: string -> string, st: State) returns (ok: bool)
      ensures ok <==> ValidSession(canon, st)
    {
      if st.home == "" || |st.channels| == 0 { return false; }
      var e := ValidateChannels(canon, st.channels, st.home);
      ok := e.None?;
    }

    method SaveState(canon: string -> string, st: State, written: bool) returns (error: Option<Error>)
      modifies this
      ensures Follows(Save(canon, st, written), old(stored), error)
    {
      var ok := Validate(canon, st);
      if !ok { return Some(Invalid); }
      if !written { return Some(Unwritten); }
      stored := st;
      return None;
    }

    method JoinChannel(canon: string -> string, channel: string, reply: Reply, disk: Disk)
      returns (error: Option<Error>)
      modifies this
      ensures Follows(Join(canon, old(stored), channel, reply, disk), old(stored), error)
    {
      if !disk.loaded { return Some(Unreadable); }
      var st := stored;
      var ok := Validate(canon, st);
      if !ok { return Some(Invalid); }
      var target := canon(channel);
      for i := 0 to |st.channels|
        invariant stored == st && forall k :: 0 <= k < i ==> st.channels[k] != target
      {
        if st.channels[i] == target { return None; }
      }
      if reply == Unsent { return Some(Failed); }
      if reply == Refused { return Some(Unconfirmed); }
      error := SaveState(canon, st.(channels := st.channels + [target]), disk.written);
    }

    method PartChannel(canon: string -> string, channel: string, reply: Reply, disk: Disk)
      returns (error: Option<Error>)
      modifies this
      ensures Follows(Part(canon, old(stored), channel, reply, disk), old(stored), error)
    {
      if !disk.loaded { return Some(Unreadable); }
      var st := stored;
      var ok := Validate(canon, st);
      if !ok { return Some(Invalid); }
      if !CanPart(canon, channel, st.home) { return Some(HomeProtected); }
      var target := canon(channel);
      var kept := [];
      for i := 0 to |st.channels|
        invariant stored == st && kept == Without(st.channels[..i], target)
      {
        assert st.channels[..i + 1][..i] == st.channels[..i];
        if st.channels[i] != target { kept := kept + [st.channels[i]]; }
      }
      assert st.channels[..|st.channels|] == st.channels;
      if reply == Unsent { return Some(Failed); }
      error := SaveState(canon, st.(channels := kept), disk.written);
    }
  }

  // ----- runs -----

  /** Home first, no name twice, and every name its own normal form. */
  ghost predicate Good(canon: string -> string, home: string, st: State) {
    && st.home == home && st.channels != [] && st.channels[0] == home
    && Distinct(st.channels)
    && forall i :: 0 <= i < |st.channels| ==> canon(st.channels[i]) == st.channels[i]
  }

  lemma GoodIsValid(canon: string -> string, home: string, st: State)
    requires home != "" && Good(canon, home, st)
    ensures ValidSession(canon, st)
  {
  }

  lemma {:induction false} WithoutHas(channels: seq<string>, target: string, x: string)
    ensures x in Without(channels, target) <==> x in channels && x != target
  {
    if channels != [] {
      var init, last := channels[..|channels| - 1], channels[|channels| - 1];
      WithoutHas(init, target, x);
      assert channels == init + [last];
    }
  }

  lemma {:induction false} WithoutKeeps(channels: seq<string>, target: string)
    ensures Distinct(channels) ==> Distinct(Without(channels, target))
    ensures channels != [] && channels[0] != target ==>
      Without(channels, target) != [] && Without(channels, target)[0] == channels[0]
  {
    if channels != [] {
      var init, last := channels[..|channels| - 1], channels[|channels| - 1];
      WithoutKeeps(init, target);
      WithoutHas(init, target, last);
      if Distinct(channels) { assert last !in init; }
    }
  }

  lemma WithoutIs(channels: seq<string>, target: string)
    ensures var r := Without(channels, target);
      && (forall x :: x in r <==> x in channels && x != target)
      && (Distinct(channels) ==> Distinct(r))
      && (channels != [] && channels[0] != target ==> r != [] && r[0] == channels[0])
  {
    forall x ensures x in Without(channels, target) <==> x in channels && x != target {
      WithoutHas(channels, target, x);
    }
    WithoutKeeps(channels, target);
  }

  datatype Op =
    | DoJoin(seen: nat, channel: string, reply: Reply, disk: Disk)
    | DoPart(seen: nat, channel: string, reply: Reply, disk: Disk)

  /** One call acts on the file as it was when the call read it, which another call may have replaced
      since: `files` is everything the file ever held. */
  ghost function Result(canon: string -> string, files: seq<State>, op: Op): Outcome
    requires op.seen < |files|
  {
    match op
    case DoJoin(seen, channel, reply, disk) => Join(canon, files[seen], channel, reply, disk)
    case DoPart(seen, channel, reply, disk) => Part(canon, files[seen], channel, reply, disk)
  }

  ghost predicate AllGood(canon: string -> string, home: string, files: seq<State>) {
    forall i :: 0 <= i < |files| ==> Good(canon, home, files[i])
  }

  ghost predicate Runs(canon: string -> string, files: seq<State>, ops: seq<Op>, all: seq<State>)
    decreases |ops|
  {
    if ops == [] then all == files
    else if ops[0].seen >= |files| then false
    else
      var r := Result(canon, files, ops[0]);
      Runs(canon, if r.Saved? then files + [r.state] else files, ops[1..], all)
  }

  /** The names a run uses are fixed points. */
  ghost predicate Steady(canon: string -> string, op: Op) { canon(canon(op.channel)) == canon(op.channel) }

  /** A call on a good file keeps it good, fails only for the server or to protect home, and never
      asks the server to leave home. */
  lemma CallKeepsGood(canon: string -> string, home: string, st: State, channel: string, reply: Reply, disk: Disk)
    requires home != "" && Good(canon, home, st) && canon(canon(channel)) == canon(channel)
    ensures var j, p := Join(canon, st, channel, reply, disk), Part(canon, st, channel, reply, disk);
      && (j.Saved? ==> Good(canon, home, j.state) && j.state.channels == st.channels + [canon(channel)])
      && (p.Saved? ==> Good(canon, home, p.state))
      && j != Error(Invalid) && p != Error(Invalid)
    ensures !Leaves(canon, st, channel, home)
  {
    GoodIsValid(canon, home, st);
    if canon(channel) !in st.channels {
      GoodIsValid(canon, home, st.(channels := st.channels + [canon(channel)]));
    }
    if canon(channel) != home {
      var kept := Without(st.channels, canon(channel));
      WithoutIs(st.channels, canon(channel));
      forall i | 0 <= i < |kept| ensures canon(kept[i]) == kept[i] { assert kept[i] in st.channels; }
      GoodIsValid(canon, home, st.(channels := kept));
    }
  }

  /** In every run over fixed-point names, with calls overlapping as they may, every file ever saved
      has home first and no name twice. */
  lemma {:induction false} RunsStayGood(canon: string -> string, home: string, files: seq<State>, ops: seq<Op>,
                                        all: seq<State>)
    requires home != "" && AllGood(canon, home, files) && Runs(canon, files, ops, all)
    requires forall i :: 0 <= i < |ops| ==> Steady(canon, ops[i])
    ensures AllGood(canon, home, all)
    decreases |ops|
  {
    if ops != [] {
      var r := Result(canon, files, ops[0]);
      assert Good(canon, home, files[ops[0].seen]) && Steady(canon, ops[0]);
      CallKeepsGood(canon, home, files[ops[0].seen], ops[0].channel, ops[0].reply, ops[0].disk);
      RunsStayGood(canon, home, if r.Saved? then files + [r.state] else files, ops[1..], all);
    }
  }

  /** Home is protected for every argument exactly when it is its own normal form or no normal form
      at all: otherwise its own name gets past the guard, the server is asked to leave home, and the
      save that follows is refused because the list has lost its home. */
  lemma HomeCanBeParted(canon: string -> string, st: State, channel: string, reply: Reply, disk: Disk)
    requires ValidSession(canon, st) && st.channels[0] == st.home
    ensures Leaves(canon, st, channel, st.home) <==> canon(channel) == st.home && canon(st.home) != st.home
    ensures Leaves(canon, st, channel, st.home) && disk.loaded && !reply.Unsent? ==>
      Part(canon, st, channel, reply, disk) == Error(Invalid)
  {
    if Leaves(canon, st, channel, st.home) {
      var kept := Without(st.channels, st.home);
      WithoutIs(st.channels, st.home);
      if kept != [] {
        assert kept[0] in kept;
        var i :| 0 <= i < |st.channels| && st.channels[i] == kept[0];
        assert i > 0;
      }
    }
  }

  /** A confirmed join is lost, though the server has carried it out, exactly when the list already
      holds another spelling of the same channel. */
  lemma JoinIsLost(canon: string -> string, st: State, channel: string, disk: Disk)
    requires ValidSession(canon, st)
    ensures Join(canon, st, channel, Confirmed, disk) == Error(Invalid) <==>
      && disk.loaded && canon(channel) !in st.channels
      && exists i :: 0 <= i < |st.channels| && canon(st.channels[i]) == canon(canon(channel))
  {
    var more := st.channels + [canon(channel)];
    if i :| 0 <= i < |st.channels| && canon(st.channels[i]) == canon(canon(channel)) {
      assert more[i] == st.channels[i] && more[|st.channels|] == canon(channel);
    } else {
      assert forall i :: 0 <= i < |st.channels| ==> more[i] == st.channels[i];
    }
  }

  lemma SettledName(lower: char -> char, a: string)
    requires LowerCase(lower) && StemLike(a) && |a| <= LONGEST
    ensures NormalizeChannel(lower, "#" + a) == "#" + a
  {
    var name := "#" + a;
    assert name[1..] == a;
    FixedPoints(lower, name);
  }

  lemma UnsettledName(canon: string -> string, typed: string, cut: string, short: string, disk: Disk)
    requires canon(typed) == cut && canon(cut) == short && canon(short) == short && cut != short && "" !in {cut, short}
    requires disk.loaded
    ensures Leaves(canon, State(cut, [cut]), typed, cut)
    ensures Part(canon, State(cut, [cut]), typed, Confirmed, disk) == Error(Invalid)
    ensures Join(canon, State(short, [short]), typed, Confirmed, disk) == Error(Invalid)
  {
    HomeCanBeParted(canon, State(cut, [cut]), typed, Confirmed, disk);
    assert State(short, [short]).channels[0] == short;
    JoinIsLost(canon, State(short, [short]), typed, disk);
  }

  /** With forty-six characters, a hyphen and one more: as the home it is parted and the save fails;
      joined while the name without the hyphen is on the list, it is lost. */
  lemma HyphenatedNames(lower: char -> char, canon: string -> string, a: string, typed: string, cut: string,
                        short: string, disk: Disk)
    requires disk.loaded && LowerCase(lower)
    requires canon(typed) == NormalizeChannel(lower, typed) && canon(cut) == NormalizeChannel(lower, cut)
    requires canon(short) == NormalizeChannel(lower, short)
    requires StemLike(a) && |a| == 46 && typed == "#" + (a + "-b") && cut == "#" + (a + "-") && short == "#" + a
    ensures Leaves(canon, State(cut, [cut]), typed, cut)
    ensures Part(canon, State(cut, [cut]), typed, Confirmed, disk) == Error(Invalid)
    ensures Join(canon, State(short, [short]), typed, Confirmed, disk) == Error(Invalid)
  {
    CutToDash(lower, a);
    DashIsTrimmed(lower, a);
    SettledName(lower, a);
    assert |cut| == 48 && |short| == 47;
    UnsettledName(canon, typed, cut, short, disk);
  }

  // ----- what a call comes to -----

  /** A join changes the file exactly if the session loads, the channel is new and not there in another
      spelling, the server has confirmed it, and the file can be written; and each of its errors has its
      own cause. */
  lemma JoinOutcomes(canon: string -> string, st: State, channel: string, reply: Reply, disk: Disk)
    requires ValidSession(canon, st)
    ensures var out, t := Join(canon, st, channel, reply, disk), canon(channel);
      var asked := disk.loaded && t !in st.channels;
      && (out == Unchanged <==> disk.loaded && t in st.channels)
      && (out.Saved? <==> asked && reply == Confirmed && disk.written && NoOtherSpelling(canon, st.channels, t))
      && (out.Saved? ==> out.state == State(st.home, st.channels + [t]))
      && (out == Error(Unreadable) <==> !disk.loaded)
      && (out == Error(Failed) <==> asked && reply == Unsent)
      && (out == Error(Unconfirmed) <==> asked && reply == Refused)
      && (out == Error(Unwritten) <==>
            asked && reply == Confirmed && NoOtherSpelling(canon, st.channels, t) && !disk.written)
  {
    JoinIsLost(canon, st, channel, disk);
  }

  ghost predicate NoOtherSpelling(canon: string -> string, channels: seq<string>, t: string) {
    forall i :: 0 <= i < |channels| ==> canon(channels[i]) != canon(t)
  }

  /** A part of a channel other than home, over fixed-point names, takes exactly that channel off the list,
      if the session loads, the request is sent and the file can be written. */
  lemma PartOutcomes(canon: string -> string, home: string, st: State, channel: string, reply: Reply, disk: Disk)
    requires home != "" && Good(canon, home, st) && canon(canon(channel)) == canon(channel)
    ensures var out, t := Part(canon, st, channel, reply, disk), canon(channel);
      && (out == Error(Unreadable) <==> !disk.loaded)
      && (out == Error(HomeProtected) <==> disk.loaded && t == home)
      && (out == Error(Failed) <==> disk.loaded && t != home && reply == Unsent)
      && (out == Error(Unwritten) <==> disk.loaded && t != home && reply != Unsent && !disk.written)
      && (out.Saved? <==> disk.loaded && t != home && reply != Unsent && disk.written)
      && (out.Saved? ==> out.state.home == home && forall c :: c in out.state.channels <==> c in st.channels && c != t)
  {
    GoodIsValid(canon, home, st);
    WithoutIs(st.channels, canon(channel));
    CallKeepsGood(canon, home, st, channel, reply, disk);
    CallKeepsGood(canon, home, st, channel, Confirmed, Disk(true, true));
  }
}
