/** Cutting outgoing text into messages: by line, then at rune boundaries under a byte limit. Text is
    a sequence of Unicode scalar values; Go's range loop turns invalid bytes into U+FFFD before that. */
module SplitUTF8 {
  import opened Prelude
  import Text

  /** Bytes of a code point in UTF-8, section 3 of RFC 3629. */
  function RuneSize(c: char): (n: nat)
    ensures 1 <= n <= 4
  {
    var v := c as int;
    if v < 0x80 then 1 else if v < 0x800 then 2 else if v < 0x10000 then 3 else 4
  }

  function Size(s: string): nat {
    if s == "" then 0 else Size(s[..|s| - 1]) + RuneSize(s[|s| - 1])
  }

  function Lines(text: string): seq<string> {
    LinesFrom(text, 0, "", [])
  }

  /** strings.Split on newlines: the finished lines and the one being read. */
  function LinesFrom(text: string, i: nat, line: string, done: seq<string>): seq<string>
    decreases |text| - i
  {
    if i >= |text| then done + [line]
    else if text[i] == '\n' then LinesFrom(text, i + 1, "", done + [line])
    else LinesFrom(text, i + 1, line + [text[i]], done)
  }

  /** Nothing but white space. */
  predicate Blank(line: string) { forall i :: 0 <= i < |line| ==> Text.IsSpace(line[i]) }

  lemma {:induction false} LeftTrimmedAway(line: string)
    ensures Blank(line) <==> Text.TrimLeft(line, Text.IsSpace) == ""
  {
    if line != "" && Text.IsSpace(line[0]) {
      LeftTrimmedAway(line[1..]);
      assert line == [line[0]] + line[1..];
    }
  }

  /** Such lines are what strings.TrimSpace leaves nothing of. */
  lemma BlankIsTrimmedAway(line: string)
    ensures Blank(line) <==> Text.TrimSpace(line) == ""
  {
    LeftTrimmedAway(line);
    var left := Text.TrimLeft(line, Text.IsSpace);
    if left != "" { assert !Text.IsSpace(left[0]); }
  }

  /** The code's loop over the runes of a line: what is pending and what is out. */
  function Greedy(line: string, i: nat, limit: nat, current: string, out: seq<string>): seq<string>
    decreases |line| - i
  {
    if i >= |line| then (if current == "" then out else out + [current])
    else if Size(current) + RuneSize(line[i]) > limit && current != ""
    then Greedy(line, i + 1, limit, [line[i]], out + [current])
    else Greedy(line, i + 1, limit, current + [line[i]], out)
  }

  function SplitLines(lines: seq<string>, j: nat, limit: nat, out: seq<string>): seq<string>
    decreases |lines| - j
  {
    if j >= |lines| then out
    else SplitLines(lines, j + 1, limit, if Blank(lines[j]) then out else Greedy(lines[j], 0, limit, "", out))
  }

  method Split(text: string, limit: nat) returns (out: seq<string>)
    ensures out == SplitLines(Lines(text), 0, limit, [])
  {
    out := [];
    var lines := Lines(text);
    for j := 0 to |lines|
      invariant SplitLines(lines, j, limit, out) == SplitLines(lines, 0, limit, [])
    {
      BlankIsTrimmedAway(lines[j]);
      if Text.TrimSpace(lines[j]) == "" { continue; }
      out := SplitLine(lines[j], limit, out);
    }
  }

  method SplitLine(line: string, limit: nat, before: seq<string>) returns (out: seq<string>)
    ensures out == Greedy(line, 0, limit, "", before)
  {
    out := before;
    var current, size := "", 0;
    for i := 0 to |line|
      invariant Greedy(line, i, limit, current, out) == Greedy(line, 0, limit, "", before)
      invariant size == Size(current)
    {
      var n := RuneSize(line[i]);
      if size + n > limit && |current| > 0 {
        out := out + [current];
        current := "";
        size := 0;
      }
      current := current + [line[i]];
      size := size + n;
    }
    if |current| > 0 { out := out + [current]; }
  }

  // ----- what a split line is -----

  function Concat(parts: seq<string>): string {
    if parts == [] then "" else Concat(parts[..|parts| - 1]) + parts[|parts| - 1]
  }

  ghost predicate Fits(part: string, limit: nat) { Size(part) <= limit }

  ghost predicate AllFit(parts: seq<string>, limit: nat) {
    forall k :: 0 <= k < |parts| ==> Fits(parts[k], limit)
  }

  ghost predicate NoneEmpty(parts: seq<string>) {
    forall k :: 0 <= k < |parts| ==> parts[k] != ""
  }

  lemma {:induction false} SizeConcat(a: string, b: string)
    ensures Size(a + b) == Size(a) + Size(b)
  {
    if b == "" {
      assert a + b == a;
    } else {
      assert (a + b)[..|a + b| - 1] == a + b[..|b| - 1];
      SizeConcat(a, b[..|b| - 1]);
    }
  }

  lemma {:induction false} ConcatSnoc(parts: seq<string>, last: string)
    ensures Concat(parts + [last]) == Concat(parts) + last
  {
    assert (parts + [last])[..|parts|] == parts;
  }

  /** The chunks of a line, appended to whatever came before: non-empty, within the limit, and
      together exactly the line. */
  lemma {:induction false} GreedyIs(line: string, i: nat, limit: nat, current: string, out: seq<string>)
    requires limit >= 4 && i <= |line| && Fits(current, limit) && AllFit(out, limit) && NoneEmpty(out)
    ensures var r := Greedy(line, i, limit, current, out);
      out <= r && AllFit(r, limit) && NoneEmpty(r) && Concat(r) == Concat(out) + current + line[i..]
    decreases |line| - i
  {
    if i == |line| {
      if current != "" { ConcatSnoc(out, current); }
    } else {
      var c := [line[i]];
      assert line[i..] == c + line[i + 1..];
      assert Size(c) == RuneSize(line[i]) by { assert c[..0] == ""; }
      if Size(current) + RuneSize(line[i]) > limit && current != "" {
        GreedyIs(line, i + 1, limit, c, out + [current]);
        ConcatSnoc(out, current);
        assert Concat(out) + current + (c + line[i + 1..]) == Concat(out + [current]) + c + line[i + 1..];
      } else {
        SizeConcat(current, c);
        GreedyIs(line, i + 1, limit, current + c, out);
        assert Concat(out) + (current + c) + line[i + 1..] == Concat(out) + current + (c + line[i + 1..]);
      }
    }
  }

  /** Where part `m` of a division begins. */
  function Pos(parts: seq<string>, m: nat): nat
    requires m <= |parts|
  {
    |Concat(parts[..m])|
  }

  lemma {:induction false} ConcatPrefix(parts: seq<string>, m: nat)
    requires m <= |parts|
    ensures Concat(parts[..m]) <= Concat(parts)
  {
    if m < |parts| {
      var init := parts[..|parts| - 1];
      assert init[..m] == parts[..m];
      ConcatPrefix(init, m);
    } else {
      assert parts[..m] == parts;
    }
  }

  lemma PartAt(parts: seq<string>, m: nat)
    requires m < |parts|
    ensures Pos(parts, m + 1) == Pos(parts, m) + |parts[m]| <= |Concat(parts)|
    ensures Concat(parts)[Pos(parts, m)..Pos(parts, m + 1)] == parts[m]
  {
    ConcatPrefix(parts, m + 1);
    assert parts[..m + 1][..m] == parts[..m];
    var before, upTo := Concat(parts[..m]), Concat(parts[..m + 1]);
    assert upTo == before + parts[m];
    SliceOfPrefix(Concat(parts), before, parts[m], upTo);
  }

  lemma SliceOfPrefix(s: string, before: string, part: string, upTo: string)
    requires upTo == before + part && upTo <= s
    ensures s[|before|..|upTo|] == part
  {
    assert s[..|upTo|] == upTo;
    assert s[|before|..|upTo|] == s[..|upTo|][|before|..];
  }

  lemma SizeOfSlice(s: string, a: nat, b: nat, c: nat, d: nat)
    requires a <= b <= c <= d <= |s|
    ensures Size(s[b..c]) <= Size(s[a..d])
  {
    assert s[a..d] == s[a..b] + s[b..c] + s[c..d];
    SizeConcat(s[a..b] + s[b..c], s[c..d]);
    SizeConcat(s[a..b], s[b..c]);
  }

  lemma SizeSnoc(line: string, start: nat, i: nat)
    requires start <= i < |line|
    ensures Size(line[start..i + 1]) == Size(line[start..i]) + RuneSize(line[i])
  {
    assert line[start..i + 1][..i - start] == line[start..i];
  }

  lemma SlicesAreSmaller(line: string, a: nat, start: nat, i: nat, b: nat)
    requires a <= start <= i < b <= |line|
    ensures Size(line[start..i]) + RuneSize(line[i]) <= Size(line[a..b])
  {
    SizeSnoc(line, start, i);
    SizeOfSlice(line, a, start, i + 1, b);
  }

  /** Where greedy gives up on a chunk, no division with fitting parts could have gone on either. */
  lemma GreedyStaysAhead(line: string, start: nat, i: nat, limit: nat, parts: seq<string>, m: nat)
    requires Concat(parts) == line && AllFit(parts, limit) && start < i < |line|
    requires m <= |parts| && Pos(parts, m) <= start
    requires Size(line[start..i]) + RuneSize(line[i]) > limit
    ensures m < |parts| && Pos(parts, m + 1) <= i
  {
    assert parts[..|parts|] == parts;
    if m < |parts| {
      PartAt(parts, m);
      if Pos(parts, m + 1) > i {
        assert Fits(parts[m], limit);
        SlicesAreSmaller(line, Pos(parts, m), start, i, Pos(parts, m + 1));
      }
    }
  }

  lemma {:induction false} GreedyAtMost(line: string, start: nat, i: nat, limit: nat, out: seq<string>, base: nat,
                                        parts: seq<string>)
    requires Concat(parts) == line && AllFit(parts, limit) && start <= i <= |line| && (start < i || i == 0)
    requires base <= |out| <= base + |parts| && Pos(parts, |out| - base) <= start
    ensures |Greedy(line, i, limit, line[start..i], out)| <= base + |parts|
    decreases |line| - i
  {
    assert parts[..|parts|] == parts;
    if i == |line| {
    } else if Size(line[start..i]) + RuneSize(line[i]) > limit && line[start..i] != "" {
      GreedyStaysAhead(line, start, i, limit, parts, |out| - base);
      assert line[i..i + 1] == [line[i]];
      GreedyAtMost(line, i, i + 1, limit, out + [line[start..i]], base, parts);
    } else {
      assert line[start..i + 1] == line[start..i] + [line[i]];
      GreedyAtMost(line, start, i + 1, limit, out, base, parts);
    }
  }

  /** The chunks of one line. */
  function Chunks(line: string, limit: nat): seq<string> { Greedy(line, 0, limit, "", []) }

  /** For a limit of at least one rune's bytes: no chunk is empty or over the limit, the chunks make
      up the line, and no other division of it under the limit has fewer parts. */
  lemma ChunksAreOptimal(line: string, limit: nat, parts: seq<string>)
    requires limit >= 4 && Concat(parts) == line && AllFit(parts, limit)
    ensures AllFit(Chunks(line, limit), limit) && NoneEmpty(Chunks(line, limit)) && Concat(Chunks(line, limit)) == line
    ensures |Chunks(line, limit)| <= |parts|
  {
    GreedyIs(line, 0, limit, "", []);
    assert line[0..] == line && line[0..0] == "";
    assert parts[..0] == [];
    GreedyAtMost(line, 0, 0, limit, [], 0, parts);
  }

  lemma {:induction false} GreedyAfter(line: string, i: nat, limit: nat, current: string, out: seq<string>,
                                       done: seq<string>)
    ensures Greedy(line, i, limit, current, done + out) == done + Greedy(line, i, limit, current, out)
    decreases |line| - i
  {
    if i >= |line| {
      assert done + out + [current] == done + (out + [current]);
    } else if Size(current) + RuneSize(line[i]) > limit && current != "" {
      assert done + out + [current] == done + (out + [current]);
      GreedyAfter(line, i + 1, limit, [line[i]], out + [current], done);
    } else {
      GreedyAfter(line, i + 1, limit, current + [line[i]], out, done);
    }
  }

  /** The chunks of every line that is not blank, from the j-th on. */
  function ByLine(lines: seq<string>, j: nat, limit: nat): seq<string>
    decreases |lines| - j
  {
    if j >= |lines| then [] else (if Blank(lines[j]) then [] else Chunks(lines[j], limit)) + ByLine(lines, j + 1, limit)
  }

  /** Lines are cut one by one: no message holds parts of two. */
  lemma {:induction false} SplitByLine(lines: seq<string>, j: nat, limit: nat, out: seq<string>)
    ensures SplitLines(lines, j, limit, out) == out + ByLine(lines, j, limit)
    decreases |lines| - j
  {
    if j < |lines| {
      GreedyAfter(lines[j], 0, limit, "", [], out);
      assert out + [] == out;
      SplitByLine(lines, j + 1, limit, if Blank(lines[j]) then out else Greedy(lines[j], 0, limit, "", out));
    }
  }

  /** `said`, then the lines that are sent. */
  function Spoken(lines: seq<string>, j: nat, said: string): string
    decreases |lines| - j
  {
    if j >= |lines| then said else Spoken(lines, j + 1, if Blank(lines[j]) then said else said + lines[j])
  }

  lemma {:induction false} SplitLinesIs(lines: seq<string>, j: nat, limit: nat, out: seq<string>)
    requires limit >= 4 && AllFit(out, limit) && NoneEmpty(out)
    ensures var r := SplitLines(lines, j, limit, out);
      AllFit(r, limit) && NoneEmpty(r) && Concat(r) == Spoken(lines, j, Concat(out))
    decreases |lines| - j
  {
    if j < |lines| {
      if !Blank(lines[j]) {
        GreedyIs(lines[j], 0, limit, "", out);
        assert Concat(out) + "" + lines[j][0..] == Concat(out) + lines[j];
      }
      SplitLinesIs(lines, j + 1, limit, if Blank(lines[j]) then out else Greedy(lines[j], 0, limit, "", out));
    }
  }

  ghost predicate OneLine(s: string) {
    forall i :: 0 <= i < |s| ==> s[i] != '\n'
  }

  /** Lines are the text cut at its newlines: none contains one, and joined with them they are it. */
  function Join(lines: seq<string>): string {
    if lines == [] then "" else if |lines| == 1 then lines[0]
    else Join(lines[..|lines| - 1]) + "\n" + lines[|lines| - 1]
  }

  lemma {:induction false} LinesFromIs(text: string, i: nat, line: string, done: seq<string>)
    requires i <= |text| && OneLine(line) && forall k :: 0 <= k < |done| ==> OneLine(done[k])
    ensures var r := LinesFrom(text, i, line, done);
      && (forall k :: 0 <= k < |r| ==> OneLine(r[k])) && Join(r) == Join(done + [line]) + text[i..]
    decreases |text| - i
  {
    if i < |text| {
      assert text[i..] == [text[i]] + text[i + 1..];
      if text[i] == '\n' {
        LinesFromIs(text, i + 1, "", done + [line]);
        var more := done + [line];
        assert (more + [""])[..|more|] == more;
        assert Join(more + [""]) == Join(more) + "\n" + "";
      } else {
        LinesFromIs(text, i + 1, line + [text[i]], done);
        assert (done + [line])[..|done|] == done && (done + [line + [text[i]]])[..|done|] == done;
        assert Join(done + [line + [text[i]]]) == Join(done + [line]) + [text[i]];
      }
    }
  }

  /** What splitUTF8 returns, for every text: messages within the limit that spell out the non-blank
      lines in order. */
  lemma SplitIs(text: string, limit: nat)
    requires limit >= 4
    ensures var r := SplitLines(Lines(text), 0, limit, []);
      AllFit(r, limit) && NoneEmpty(r) && Concat(r) == Spoken(Lines(text), 0, "")
    ensures Join(Lines(text)) == text && forall k :: 0 <= k < |Lines(text)| ==> OneLine(Lines(text)[k])
  {
    SplitLinesIs(Lines(text), 0, limit, []);
    LinesFromIs(text, 0, "", []);
    assert Join([] + [""]) == "";
    assert text[0..] == text;
  }
}
