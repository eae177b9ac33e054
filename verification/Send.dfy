/** Sending a message: from the text somebody says to the lines on the wire and what they read as. */
module Send {
  import opened Prelude
  import opened Text
  import opened Channels
  import S = SplitUTF8
  import W = Wire

  const LIMIT: nat := 400
  const LINE_LIMIT: nat := 512

  datatype SendError = NotJoined(target: string) | NothingToSay | NotAccepted

  function Target(canon: string -> string, st: State, channel: string): string {
    if channel == "" then st.home else canon(channel)
  }

  function Parts(text: string): seq<string> { S.SplitLines(S.Lines(text), 0, LIMIT, []) }

  function Line(target: string, part: string): string { W.Format("PRIVMSG", [target, part]) }

  /** The lines of a leading part of the parts, in order. */
  ghost predicate LinesOf(line: string -> string, parts: seq<string>, lines: seq<string>) {
    |lines| <= |parts| && forall k :: 0 <= k < |lines| ==> lines[k] == line(parts[k])
  }

  /** One request per part, until one is not accepted; `lines` is what was accepted. */
  method SendText(canon: string -> string, st: State, channel: string, text: string, accepts: nat -> bool)
    returns (error: Option<SendError>, lines: seq<string>)
    ensures Target(canon, st, channel) !in st.channels ==>
      error == Some(NotJoined(Target(canon, st, channel))) && lines == []
    ensures Target(canon, st, channel) in st.channels ==>
      && LinesOf(p => Line(Target(canon, st, channel), p), Parts(text), lines)
      && (error == None <==> Parts(text) != [] && |lines| == |Parts(text)|)
      && (error == Some(NothingToSay) <==> Parts(text) == [])
      && (error == Some(NotAccepted) <==> |lines| < |Parts(text)|)
      && (error == Some(NotAccepted) ==> !accepts(|lines|))
  {
    var target := st.home;
    if channel != "" { target := canon(channel); }
    lines := [];
    var found := false;
    for i := 0 to |st.channels|
      invariant !found && forall k :: 0 <= k < i ==> st.channels[k] != target
    {
      if st.channels[i] == target { found := true; break; }
    }
    if !found { return Some(NotJoined(target)), lines; }
    var parts := S.Split(text, LIMIT);
    if |parts| == 0 { return Some(NothingToSay), lines; }
    lines := SendParts(target, parts, accepts);
    error := if |lines| < |parts| then Some(NotAccepted) else None;
  }

  method SendParts(target: string, parts: seq<string>, accepts: nat -> bool) returns (lines: seq<string>)
    ensures LinesOf(p => Line(target, p), parts, lines)
    ensures |lines| < |parts| ==> !accepts(|lines|)
    ensures forall k :: 0 <= k < |lines| ==> accepts(k)
  {
    lines := [];
    for i := 0 to |parts|
      invariant |lines| == i && LinesOf(p => Line(target, p), parts, lines)
      invariant forall k :: 0 <= k < |lines| ==> accepts(k)
    {
      if !accepts(i) { return; }
      var line := W.FormatLine("PRIVMSG", [target, parts[i]]);
      lines := lines + [line];
    }
  }

  lemma {:induction false} AsciiSize(s: string)
    requires forall i :: 0 <= i < |s| ==> (s[i] as int) < 0x80
    ensures S.Size(s) == |s|
  {
    if s != "" { AsciiSize(s[..|s| - 1]); }
  }

  lemma LineIs(target: string, part: string)
    ensures Line(target, part) == "PRIVMSG " + target + (if W.NeedsColon(part) then " :" else " ") + part
  {
    var params := [target, part];
    var one := "PRIVMSG" + W.Piece(params, 0);
    var two := one + W.Piece(params, 1);
    assert W.FormatFrom(params, 2, two) == two;
    assert W.FormatFrom(params, 1, one) == two;
    assert W.FormatFrom(params, 0, "PRIVMSG") == two;
    assert one == "PRIVMSG " + target;
  }

  /** Without a channel a message goes to the home channel, else to the channel's normal form. */
  lemma LineGoesTo(canon: string -> string, st: State, channel: string, part: string)
    ensures channel == "" ==> "PRIVMSG " + st.home + " " <= Line(Target(canon, st, channel), part)
    ensures channel != "" ==> "PRIVMSG " + canon(channel) + " " <= Line(Target(canon, st, channel), part)
  {
    LineIs(Target(canon, st, channel), part);
  }

  /** A text is sent line by line, each line in as few messages of at most 400 bytes as there can be. */
  lemma PartsAreFewest(text: string, line: string, parts: seq<string>)
    requires line in S.Lines(text) && S.Concat(parts) == line
    requires forall k :: 0 <= k < |parts| ==> S.Size(parts[k]) <= 400
    ensures Parts(text) == S.ByLine(S.Lines(text), 0, 400) && |S.Chunks(line, 400)| <= |parts|
  {
    S.SplitByLine(S.Lines(text), 0, LIMIT, []);
    assert forall k :: 0 <= k < |parts| ==> S.Fits(parts[k], 400);
    S.ChunksAreOptimal(line, 400, parts);
  }

  lemma HeadSize(target: string, mark: string)
    requires WellShaped(target) && mark in {" ", " :"}
    ensures S.Size("PRIVMSG " + target + mark) <= 8 + 1 + LONGEST + 2
  {
    var head := "PRIVMSG " + target + mark;
    forall i | 0 <= i < |head| ensures (head[i] as int) < 0x80 {
      if 9 <= i < 8 + |target| { assert Allowed(target[1..][i - 9]); }
    }
    AsciiSize(head);
  }

  /** A line to a channel, with its CR and LF, is well within what section 2.3 of RFC 2812 allows. */
  lemma LinesFit(target: string, text: string, k: nat)
    requires WellShaped(target) && k < |Parts(text)|
    ensures S.Size(Line(target, Parts(text)[k])) + 2 <= 461 <= LINE_LIMIT
  {
    var part := Parts(text)[k];
    S.SplitIs(text, LIMIT);
    assert S.Fits(part, LIMIT);
    LineIs(target, part);
    var mark := if W.NeedsColon(part) then " :" else " ";
    HeadSize(target, mark);
    S.SizeConcat("PRIVMSG " + target + mark, part);
  }

  // ----- what the lines read as -----

  ghost predicate Over(p: char -> bool, s: string) { forall i :: 0 <= i < |s| ==> p(s[i]) }

  ghost predicate AllOver(p: char -> bool, parts: seq<string>) { forall k :: 0 <= k < |parts| ==> Over(p, parts[k]) }

  lemma {:induction false} GreedyOver(p: char -> bool, line: string, i: nat, limit: nat, current: string,
                                      out: seq<string>)
    requires Over(p, line) && Over(p, current) && AllOver(p, out)
    ensures AllOver(p, S.Greedy(line, i, limit, current, out))
    decreases |line| - i
  {
    if i < |line| {
      if S.Size(current) + S.RuneSize(line[i]) > limit && current != "" {
        GreedyOver(p, line, i + 1, limit, [line[i]], out + [current]);
      } else {
        GreedyOver(p, line, i + 1, limit, current + [line[i]], out);
      }
    }
  }

  lemma {:induction false} SplitOver(p: char -> bool, lines: seq<string>, j: nat, limit: nat, out: seq<string>,
                                     r: seq<string>)
    requires AllOver(p, lines) && AllOver(p, out) && r == S.SplitLines(lines, j, limit, out)
    ensures AllOver(p, r)
    decreases |lines| - j
  {
    if j < |lines| {
      if S.Blank(lines[j]) { SplitOver(p, lines, j + 1, limit, out, r); }
      else {
        GreedyOver(p, lines[j], 0, limit, "", out);
        SplitOver(p, lines, j + 1, limit, S.Greedy(lines[j], 0, limit, "", out), r);
      }
    }
  }

  /** Lines are made of the text's characters other than newline. */
  lemma {:induction false} LinesOver(p: char -> bool, text: string, i: nat, line: string, done: seq<string>)
    requires forall k :: 0 <= k < |text| && text[k] != '\n' ==> p(text[k])
    requires Over(p, line) && AllOver(p, done)
    ensures AllOver(p, S.LinesFrom(text, i, line, done))
    decreases |text| - i
  {
    if i < |text| {
      if text[i] == '\n' { LinesOver(p, text, i + 1, "", done + [line]); }
      else { LinesOver(p, text, i + 1, line + [text[i]], done); }
    }
  }

  /** White space only as blanks. */
  predicate Printable(c: char) { c == ' ' || !IsSpace(c) }

  /** White space only as blanks and newlines. */
  ghost predicate Typed(text: string) {
    forall k :: 0 <= k < |text| && text[k] != '\n' ==> Printable(text[k])
  }

  lemma PrintableSurvives(part: string)
    requires Over(Printable, part)
    ensures W.Survives(part)
  {
    if W.NeedsColon(part) {
      if part != "" { assert Printable(part[|part| - 1]); }
    } else {
      forall i | 0 <= i < |part| ensures !IsSpace(part[i]) { assert Printable(part[i]); }
    }
  }

  lemma TargetIsMiddle(target: string)
    requires WellShaped(target)
    ensures W.Middle(target)
  {
    forall i | 0 <= i < |target| ensures !IsSpace(target[i]) { if i > 0 { assert Allowed(target[1..][i - 1]); } }
  }

  lemma LineReadsBack(upper: string -> string, target: string, part: string)
    requires WellShaped(target) && W.Survives(part) && upper("PRIVMSG") == "PRIVMSG"
    ensures W.Parse(upper, Line(target, part)) == Some(W.Message("", "PRIVMSG", [target, part], W.NeedsColon(part)))
  {
    var params := [target, part];
    TargetIsMiddle(target);
    assert params[..1] == [target];
    assert W.AllMiddle(["PRIVMSG"] + [target]);
    W.RoundTrip(upper, None, "PRIVMSG", params);
    assert [target] + [part] == params;
  }

  /** Every part of typed text survives being sent. */
  lemma TypedSurvives(text: string, k: nat)
    requires Typed(text) && k < |Parts(text)|
    ensures W.Survives(Parts(text)[k])
  {
    LinesOver(Printable, text, 0, "", []);
    SplitOver(Printable, S.Lines(text), 0, LIMIT, [], Parts(text));
    assert Over(Printable, Parts(text)[k]);
    PrintableSurvives(Parts(text)[k]);
  }

  /** What is said is what is read: for typed text, every line parses to a message to the channel,
      and the texts of those messages together are the lines that were not blank. */
  lemma SaidIsRead(upper: string -> string, target: string, text: string)
    requires WellShaped(target) && Typed(text) && upper("PRIVMSG") == "PRIVMSG"
    ensures forall k :: 0 <= k < |Parts(text)| ==>
      W.Parse(upper, Line(target, Parts(text)[k]))
        == Some(W.Message("", "PRIVMSG", [target, Parts(text)[k]], W.NeedsColon(Parts(text)[k])))
    ensures S.Concat(Parts(text)) == S.Spoken(S.Lines(text), 0, "")
  {
    S.SplitIs(text, LIMIT);
    forall k | 0 <= k < |Parts(text)|
      ensures W.Parse(upper, Line(target, Parts(text)[k]))
           == Some(W.Message("", "PRIVMSG", [target, Parts(text)[k]], W.NeedsColon(Parts(text)[k])))
    {
      TypedSurvives(text, k);
      LineReadsBack(upper, target, Parts(text)[k]);
    }
  }
}
