/** IRC lines, sections 2.3 and 2.3.1 of RFC 2812: formatting, parsing, and what survives both. */
module Wire {
  import opened Prelude
  import opened Text

  datatype Message = Message(prefix: string, command: string, params: seq<string>, trailing: bool)

  // ----- strings.Fields -----

  /** The longest suffix without white space. */
  function LastWord(s: string): (w: string)
    ensures |w| <= |s| && s[|s| - |w|..] == w && NoSpace(w)
    ensures |w| < |s| ==> IsSpace(s[|s| - |w| - 1])
  {
    if s == "" || IsSpace(s[|s| - 1]) then ""
    else
      var w := LastWord(s[..|s| - 1]);
      assert s[|s| - |w| - 1..] == s[..|s| - 1][|s| - 1 - |w|..] + [s[|s| - 1]];
      w + [s[|s| - 1]]
  }

  function Fields(s: string): seq<string> {
    if s == "" then []
    else if IsSpace(s[|s| - 1]) then Fields(s[..|s| - 1])
    else Fields(s[..|s| - |LastWord(s)|]) + [LastWord(s)]
  }

  predicate Word(s: string) { s != "" && NoSpace(s) }

  lemma {:induction false} FieldsAreWords(s: string)
    ensures forall i :: 0 <= i < |Fields(s)| ==> Word(Fields(s)[i])
  {
    if s != "" {
      if IsSpace(s[|s| - 1]) { FieldsAreWords(s[..|s| - 1]); } else { FieldsAreWords(s[..|s| - |LastWord(s)|]); }
    }
  }

  lemma LastWordSnoc(s: string, c: char)
    requires !IsSpace(c)
    ensures LastWord(s + [c]) == LastWord(s) + [c]
  {
    assert (s + [c])[..|s|] == s;
  }

  lemma {:induction false} LastWordAfter(t: string, w: string)
    requires NoSpace(w) && (t == "" || IsSpace(t[|t| - 1]))
    ensures LastWord(t + w) == w
  {
    if w == "" {
      assert t + w == t;
    } else {
      var init, c := w[..|w| - 1], w[|w| - 1];
      LastWordAfter(t, init);
      assert t + w == (t + init) + [c];
      LastWordSnoc(t + init, c);
    }
  }

  lemma LastWordIs(s: string, w: string)
    requires NoSpace(w)
    ensures LastWord(s + [' '] + w) == w && LastWord(w) == w
  {
    LastWordAfter(s + [' '], w);
    LastWordAfter("", w);
    assert "" + w == w;
  }

  lemma FieldsSnoc(s: string, w: string)
    requires Word(w)
    ensures Fields(s + [' '] + w) == Fields(s) + [w] && Fields(w) == [w]
  {
    LastWordIs(s, w);
    var all := s + [' '] + w;
    assert all[..|all| - |w|] == s + [' '];
    assert (s + [' '])[..|s|] == s;
    assert w[..0] == "";
  }

  ghost predicate Blank(s: string) { forall i :: 0 <= i < |s| ==> IsSpace(s[i]) }

  lemma {:induction false} FieldsGap(s: string, gap: string)
    requires Blank(gap)
    ensures Fields(s + gap) == Fields(s)
  {
    if gap == "" {
      assert s + gap == s;
    } else {
      assert (s + gap)[..|s + gap| - 1] == s + gap[..|gap| - 1];
      FieldsGap(s, gap[..|gap| - 1]);
    }
  }

  /** Any white space between words separates them, and any around them is dropped. */
  lemma FieldsApart(s: string, gap: string, w: string, tail: string)
    requires Blank(gap) && Blank(tail) && Word(w) && (s == "" || gap != "")
    ensures Fields(s + gap + w + tail) == Fields(s) + [w]
  {
    FieldsGap(s + gap + w, tail);
    FieldsGap(s, gap);
    LastWordAfter(s + gap, w);
    var all := s + gap + w;
    assert all[..|all| - |w|] == s + gap;
  }

  lemma {:induction false} NoFields(s: string)
    ensures Fields(s) == [] <==> Blank(s)
  {
    if s != "" && IsSpace(s[|s| - 1]) { NoFields(s[..|s| - 1]); }
  }

  // ----- parsing -----

  /** strings.Index for " :" from `i` on; the length when there is none. */
  function ColonAt(s: string, i: nat): (c: nat)
    requires i <= |s|
    ensures i <= c <= |s| && (c < |s| ==> c + 1 < |s|)
    decreases |s| - i
  {
    if i + 1 >= |s| then |s| else if s[i] == ' ' && s[i + 1] == ':' then i else ColonAt(s, i + 1)
  }

  function SpaceAt(s: string, i: nat): (r: nat)
    requires i <= |s|
    ensures i <= r <= |s|
    decreases |s| - i
  {
    if i == |s| || s[i] == ' ' then i else SpaceAt(s, i + 1)
  }

  function Assemble(upper: string -> string, prefix: string, fields: seq<string>,
                    trailing: Option<string>): Option<Message> {
    if fields == [] then None
    else match trailing
      case None => Some(Message(prefix, upper(fields[0]), fields[1..], false))
      case Some(t) => Some(Message(prefix, upper(fields[0]), fields[1..] + [t], true))
  }

  function ParseBody(upper: string -> string, prefix: string, body: string): Option<Message> {
    var c := ColonAt(body, 0);
    if c < |body| then Assemble(upper, prefix, Fields(body[..c]), Some(body[c + 2..]))
    else Assemble(upper, prefix, Fields(body), None)
  }

  function Parse(upper: string -> string, raw: string): Option<Message> {
    var line := TrimRight(raw, IsLineEnd);
    if line == "" then None
    else if line[0] != ':' then ParseBody(upper, "", line)
    else
      var sp := SpaceAt(line, 0);
      if sp == |line| then None else ParseBody(upper, line[1..sp], line[sp + 1..])
  }

  /** Up to the mark of the last parameter, or the end, there is no command. */
  ghost predicate NoCommand(body: string) { Blank(body[..ColonAt(body, 0)]) }

  lemma BodyHasNone(upper: string -> string, prefix: string, body: string)
    ensures ParseBody(upper, prefix, body).None? <==> NoCommand(body)
  {
    NoFields(body[..ColonAt(body, 0)]);
    if ColonAt(body, 0) == |body| { assert body[..|body|] == body; }
  }

  /** A prefix with nothing behind it, or with no command. */
  ghost predicate PrefixAlone(line: string) {
    ' ' !in line || exists p, body :: IsSplit(line, p, body) && NoCommand(body)
  }

  ghost predicate IsSplit(line: string, p: string, body: string) { line == p + " " + body && ' ' !in p }

  lemma SplitIsUnique(line: string, p: string, body: string)
    requires IsSplit(line, p, body)
    ensures SpaceAt(line, 0) == |p| < |line| && body == line[|p| + 1..]
  {
    SpaceAtIs(line, 0, |p|);
  }

  lemma PrefixedHasNone(upper: string -> string, line: string)
    requires line != "" && line[0] == ':' && TrimRight(line, IsLineEnd) == line
    ensures Parse(upper, line).None? <==> PrefixAlone(line)
  {
    FirstSpace(line, 0);
    var sp := SpaceAt(line, 0);
    assert line[0..sp] == line[..sp];
    if sp < |line| {
      var p, body := line[..sp], line[sp + 1..];
      assert IsSplit(line, p, body);
      BodyHasNone(upper, line[1..sp], body);
      forall q, rest | IsSplit(line, q, rest) ensures rest == body { SplitIsUnique(line, q, rest); }
    }
  }

  lemma TrimmedStays(raw: string)
    ensures TrimRight(TrimRight(raw, IsLineEnd), IsLineEnd) == TrimRight(raw, IsLineEnd)
  {
  }

  /** A line is malformed exactly if, without its line end, it has no command, or is a prefix without. */
  lemma MalformedExactly(upper: string -> string, raw: string)
    ensures var line := TrimRight(raw, IsLineEnd);
      Parse(upper, raw).None? <==> if line == "" || line[0] != ':' then NoCommand(line) else PrefixAlone(line)
  {
    var line := TrimRight(raw, IsLineEnd);
    TrimmedStays(raw);
    if line != "" && line[0] != ':' { BodyHasNone(upper, "", line); }
    if line != "" && line[0] == ':' { PrefixedHasNone(upper, line); }
  }

  lemma {:induction false} FirstSpace(s: string, i: nat)
    requires i <= |s|
    ensures ' ' !in s[i..SpaceAt(s, i)]
    ensures SpaceAt(s, i) < |s| ==> s[SpaceAt(s, i)] == ' '
    decreases |s| - i
  {
    if i < |s| && s[i] != ' ' { FirstSpace(s, i + 1); }
  }

  /** What follows the mark is the last parameter, whatever it holds. */
  lemma TrailingVerbatim(upper: string -> string, prefix: string, head: string, t: string)
    requires NoMark(head) && !Blank(head)
    ensures Fields(head) != []
    ensures ParseBody(upper, prefix, head + " :" + t)
         == Some(Message(prefix, upper(Fields(head)[0]), Fields(head)[1..] + [t], true))
  {
    MarkedSlices(head, t);
    NoFields(head);
  }

  method ParseLine(upper: string -> string, raw: string) returns (msg: Option<Message>)
    ensures msg == Parse(upper, raw)
  {
    var line := TrimRight(raw, IsLineEnd);
    if line == "" { return None; }
    var prefix := "";
    if line[0] == ':' {
      var sp := SpaceAt(line, 0);
      if sp == |line| { return None; }
      prefix := line[1..sp];
      line := line[sp + 1..];
    }
    msg := ParseRest(upper, prefix, line);
  }

  method ParseRest(upper: string -> string, prefix: string, line: string) returns (msg: Option<Message>)
    ensures msg == ParseBody(upper, prefix, line)
  {
    var rest := line;
    var idx := ColonAt(rest, 0);
    if idx < |rest| {
      var trailing := rest[idx + 2..];
      rest := rest[..idx];
      var fields := Fields(rest);
      if |fields| == 0 { return None; }
      return Some(Message(prefix, upper(fields[0]), fields[1..] + [trailing], true));
    }
    var fields := Fields(rest);
    if |fields| == 0 { return None; }
    return Some(Message(prefix, upper(fields[0]), fields[1..], false));
  }

  // ----- formatting -----

  /** The last parameter is marked when it could not be read back as a middle one. */
  predicate NeedsColon(p: string) { p == "" || (exists i :: 0 <= i < |p| && p[i] == ' ') || p[0] == ':' }

  function Piece(params: seq<string>, i: nat): string
    requires i < |params|
  {
    " " + (if i == |params| - 1 && NeedsColon(params[i]) then ":" else "") + params[i]
  }

  function FormatFrom(params: seq<string>, i: nat, b: string): string
    decreases |params| - i
  {
    if i >= |params| then b else FormatFrom(params, i + 1, b + Piece(params, i))
  }

  function Format(command: string, params: seq<string>): string { FormatFrom(params, 0, command) }

  method FormatLine(command: string, params: seq<string>) returns (b: string)
    ensures b == Format(command, params)
  {
    b := command;
    for i := 0 to |params|
      invariant FormatFrom(params, i, b) == Format(command, params)
    {
      ghost var before := b;
      b := b + " ";
      var p := params[i];
      if i == |params| - 1 && NeedsColon(p) { b := b + ":"; }
      b := b + p;
      assert b == before + Piece(params, i);
    }
  }

  // ----- the round trip -----

  /** A command or middle parameter that can stand alone: no white space, no leading colon. */
  predicate Middle(s: string) { Word(s) && s[0] != ':' }

  function Words(words: seq<string>): string
    requires words != []
  {
    if |words| == 1 then words[0] else Words(words[..|words| - 1]) + [' '] + words[|words| - 1]
  }

  ghost predicate AllMiddle(words: seq<string>) {
    words != [] && forall i :: 0 <= i < |words| ==> Middle(words[i])
  }

  lemma {:induction false} FieldsOfWords(words: seq<string>)
    requires AllMiddle(words)
    ensures Fields(Words(words)) == words
  {
    var init, last := words[..|words| - 1], words[|words| - 1];
    if init == [] {
      FieldsSnoc("", last);
      assert words == [last];
    } else {
      FieldsOfWords(init);
      FieldsSnoc(Words(init), last);
      assert words == init + [last];
    }
  }

  /** No " :" anywhere. */
  ghost predicate NoMark(s: string) {
    forall i :: 0 <= i < |s| - 1 ==> !(s[i] == ' ' && s[i + 1] == ':')
  }

  lemma {:induction false} WordsHaveNoMark(words: seq<string>)
    requires AllMiddle(words)
    ensures NoMark(Words(words)) && Words(words) != "" && Words(words)[0] != ':'
    ensures !IsSpace(Words(words)[|Words(words)| - 1])
  {
    var init, last := words[..|words| - 1], words[|words| - 1];
    if init != [] {
      WordsHaveNoMark(init);
      assert Words(words) == Words(init) + [' '] + last;
    }
  }

  lemma {:induction false} ColonAtIs(s: string, i: nat, c: nat)
    requires i <= c <= |s| && (c < |s| ==> c + 1 < |s| && s[c] == ' ' && s[c + 1] == ':')
    requires forall k :: i <= k < c && k + 1 < |s| ==> !(s[k] == ' ' && s[k + 1] == ':')
    ensures ColonAt(s, i) == c
    decreases c - i
  {
    if i < c { ColonAtIs(s, i + 1, c); }
  }

  lemma {:induction false} FormatIs(words: seq<string>, params: seq<string>, i: nat)
    requires words != [] && i <= |params| && params != []
    ensures FormatFrom(params, i, Words(words))
         == if i == |params| then Words(words) else Words(words + params[i..|params| - 1]) + Piece(params, |params| - 1)
    decreases |params| - i
  {
    if i + 1 == |params| {
      assert words + params[i..i] == words;
    } else if i < |params| {
      var more := words + [params[i]];
      assert more[..|words|] == words;
      assert Words(words) + Piece(params, i) == Words(more);
      FormatIs(more, params, i + 1);
      assert more + params[i + 1..|params| - 1] == words + params[i..|params| - 1];
    }
  }

  lemma {:induction false} TrimRightSuffix(x: string, y: string)
    requires x != "" && !IsLineEnd(x[|x| - 1])
    ensures TrimRight(x + y, IsLineEnd) == x + TrimRight(y, IsLineEnd)
  {
    if y == "" {
      assert x + y == x;
    } else {
      assert (x + y)[..|x + y| - 1] == x + y[..|y| - 1];
      TrimRightSuffix(x, y[..|y| - 1]);
    }
  }

  /** What the parser sees of a formatted line. */
  function Body(words: seq<string>, last: string): string
    requires words != []
  {
    Words(words) + (if NeedsColon(last) then " :" else " ") + TrimRight(last, IsLineEnd)
  }

  lemma MarkedSlices(w: string, t: string)
    requires NoMark(w)
    ensures var body := w + " :" + t; ColonAt(body, 0) == |w| && body[..|w|] == w && body[|w| + 2..] == t
  {
    ColonAtIs(w + " :" + t, 0, |w|);
  }

  lemma ParseMarked(upper: string -> string, prefix: string, words: seq<string>, last: string)
    requires AllMiddle(words) && NeedsColon(last)
    ensures ParseBody(upper, prefix, Body(words, last))
         == Some(Message(prefix, upper(words[0]), words[1..] + [TrimRight(last, IsLineEnd)], true))
  {
    WordsHaveNoMark(words);
    FieldsOfWords(words);
    MarkedSlices(Words(words), TrimRight(last, IsLineEnd));
  }

  /** Trimming line ends leaves an unmarked parameter without a mark. */
  lemma UnmarkedSlices(w: string, last: string)
    requires NoMark(w) && !NeedsColon(last)
    ensures var body := w + " " + TrimRight(last, IsLineEnd); ColonAt(body, 0) == |body|
  {
    var t := TrimRight(last, IsLineEnd);
    assert forall i :: 0 <= i < |t| ==> t[i] == last[i];
    ColonAtIs(w + " " + t, 0, |w + " " + t|);
  }

  lemma ParseUnmarked(upper: string -> string, prefix: string, words: seq<string>, last: string)
    requires AllMiddle(words) && !NeedsColon(last)
    ensures ParseBody(upper, prefix, Body(words, last)) == Assemble(upper, prefix, Fields(Body(words, last)), None)
    ensures NoSpace(last) ==> Fields(Body(words, last)) == words + [last]
  {
    WordsHaveNoMark(words);
    UnmarkedSlices(Words(words), last);
    if NoSpace(last) {
      FieldsOfWords(words);
      FieldsSnoc(Words(words), last);
    }
  }

  ghost predicate OneWord(prefix: Option<string>) {
    prefix.Some? ==> forall k :: 0 <= k < |prefix.value| ==> prefix.value[k] != ' '
  }

  function WithPrefix(prefix: Option<string>, line: string): string {
    match prefix case None => line case Some(p) => ":" + p + " " + line
  }

  lemma {:induction false} SpaceAtIs(s: string, i: nat, c: nat)
    requires i <= c < |s| && s[c] == ' ' && forall k :: i <= k < c ==> s[k] != ' '
    ensures SpaceAt(s, i) == c
    decreases c - i
  {
    if i < c { SpaceAtIs(s, i + 1, c); }
  }

  lemma PrefixSlices(p: string, body: string)
    requires OneWord(Some(p))
    ensures var line := ":" + p + " " + body;
      SpaceAt(line, 0) == |p| + 1 && line[1..|p| + 1] == p && line[|p| + 2..] == body
  {
    var line := ":" + p + " " + body;
    assert forall k :: 1 <= k <= |p| ==> line[k] == p[k - 1];
    SpaceAtIs(line, 0, |p| + 1);
  }

  lemma ParsePrefixed(upper: string -> string, prefix: Option<string>, line: string, body: string)
    requires body == TrimRight(line, IsLineEnd) && body != "" && body[0] != ':' && OneWord(prefix)
    ensures Parse(upper, WithPrefix(prefix, line)) == ParseBody(upper, prefix.GetOr(""), body)
  {
    if prefix.Some? {
      var p := prefix.value;
      TrimRightSuffix(":" + p + " ", line);
      PrefixSlices(p, body);
    }
  }

  lemma FormattedBody(command: string, params: seq<string>, words: seq<string>, last: string)
    requires params != [] && words == [command] + params[..|params| - 1] && last == params[|params| - 1]
    requires AllMiddle(words)
    ensures TrimRight(Format(command, params), IsLineEnd) == Body(words, last)
    ensures Body(words, last) != "" && Body(words, last)[0] != ':'
  {
    assert Words([command]) == command;
    FormatIs([command], params, 0);
    WordsHaveNoMark(words);
    var head := Words(words) + (if NeedsColon(last) then " :" else " ");
    assert Format(command, params) == head + last;
    TrimHead(head, last);
  }

  lemma TrimHead(head: string, last: string)
    requires head != "" && head[|head| - 1] in " :"
    ensures TrimRight(head + last, IsLineEnd) == head + TrimRight(last, IsLineEnd)
  {
    TrimRightSuffix(head, last);
  }

  /** Exactly the last parameters that come back: marked ones not ending in a line break, and
      unmarked ones without any white space. */
  predicate Survives(last: string) {
    if NeedsColon(last) then last == "" || !IsLineEnd(last[|last| - 1]) else NoSpace(last)
  }

  lemma SameLast(a: seq<string>, x: string, b: seq<string>, y: string)
    requires a + [x] == b + [y]
    ensures x == y
  {
    assert (a + [x])[|a + [x]| - 1] == x;
    assert (b + [y])[|b + [y]| - 1] == y;
  }

  lemma MarkedParses(upper: string -> string, prefix: string, words: seq<string>, last: string)
    requires AllMiddle(words) && NeedsColon(last)
    ensures ReadsBack(ParseBody(upper, prefix, Body(words, last)), prefix, upper(words[0]), words[1..], last)
  {
    ParseMarked(upper, prefix, words, last);
    var t := TrimRight(last, IsLineEnd);
    if words[1..] + [t] == words[1..] + [last] { SameLast(words[1..], t, words[1..], last); }
  }

  /** The parsed message holds these parameters exactly when the last one survives, and then all
      of it is what was formatted. */
  ghost predicate ReadsBack(parsed: Option<Message>, prefix: string, command: string, init: seq<string>, last: string) {
    && (Survives(last) ==> parsed == Some(Message(prefix, command, init + [last], NeedsColon(last))))
    && (parsed.Some? && parsed.value.params == init + [last] ==> Survives(last))
  }

  lemma LastIsWord(fields: seq<string>, init: seq<string>, last: string)
    requires fields != [] && fields[1..] == init + [last]
    requires forall i :: 0 <= i < |fields| ==> Word(fields[i])
    ensures NoSpace(last)
  {
    assert fields[1..][|init|] == last;
    assert Word(fields[|init| + 1]);
  }

  lemma UnmarkedParses(upper: string -> string, prefix: string, words: seq<string>, last: string)
    requires AllMiddle(words) && !NeedsColon(last)
    ensures ReadsBack(ParseBody(upper, prefix, Body(words, last)), prefix, upper(words[0]), words[1..], last)
  {
    ParseUnmarked(upper, prefix, words, last);
    var fields := Fields(Body(words, last));
    FieldsAreWords(Body(words, last));
    if NoSpace(last) { assert (words + [last])[1..] == words[1..] + [last]; }
    if fields != [] && fields[1..] == words[1..] + [last] { LastIsWord(fields, words[1..], last); }
  }

  /** With or without a prefix, a formatted line parses back to its command, in upper case, and its
      parameters if and only if its last parameter survives. */
  lemma RoundTrip(upper: string -> string, prefix: Option<string>, command: string, params: seq<string>)
    requires params != [] && AllMiddle([command] + params[..|params| - 1])
    requires OneWord(prefix)
    ensures ReadsBack(Parse(upper, WithPrefix(prefix, Format(command, params))), prefix.GetOr(""), upper(command),
                      params[..|params| - 1], params[|params| - 1])
  {
    var init, last := params[..|params| - 1], params[|params| - 1];
    var words := [command] + init;
    FormattedBody(command, params, words, last);
    ParsePrefixed(upper, prefix, Format(command, params), Body(words, last));
    assert words[0] == command && words[1..] == init;
    if NeedsColon(last) { MarkedParses(upper, prefix.GetOr(""), words, last); }
    else { UnmarkedParses(upper, prefix.GetOr(""), words, last); }
  }

  lemma NoMarkNoColon(s: string)
    requires NoMark(s)
    ensures ColonAt(s, 0) == |s|
  {
    ColonAtIs(s, 0, |s|);
  }

  lemma BareParses(upper: string -> string, prefix: string, command: string)
    requires Middle(command)
    ensures ParseBody(upper, prefix, command) == Some(Message(prefix, upper(command), [], false))
  {
    assert Words([command]) == command;
    WordsHaveNoMark([command]);
    FieldsOfWords([command]);
    NoMarkNoColon(command);
    assert [command][1..] == [];
  }

  /** A command alone always comes back. */
  lemma RoundTripBare(upper: string -> string, prefix: Option<string>, command: string)
    requires Middle(command) && OneWord(prefix)
    ensures Parse(upper, WithPrefix(prefix, Format(command, [])))
         == Some(Message(prefix.GetOr(""), upper(command), [], false))
  {
    BareParses(upper, prefix.GetOr(""), command);
    ParsePrefixed(upper, prefix, command, command);
  }

  lemma AloneMustSurvive(upper: string -> string, command: string, last: string, parsed: Option<Message>)
    requires Middle(command) && !Survives(last)
    requires parsed == Parse(upper, Format(command, [last]))
    ensures parsed.Some? ==> parsed.value.params != [last]
  {
    var params := [last];
    assert params[..0] == [] && [command] + [] == [command] && [] + [last] == params;
    RoundTrip(upper, None, command, params);
  }

  lemma TabDoesNotSurvive(last: string)
    requires last == "a\tb"
    ensures !Survives(last)
  {
    assert last[1] == '\t';
  }

  /** A tab without a blank is not marked, so it splits the parameter it is in. */
  lemma TabIsLost(upper: string -> string, command: string, last: string, parsed: Option<Message>)
    requires Middle(command) && last == "a\tb"
    requires parsed == Parse(upper, Format(command, [last]))
    ensures parsed.Some? ==> parsed.value.params != [last]
  {
    TabDoesNotSurvive(last);
    AloneMustSurvive(upper, command, last, parsed);
  }
}
