/** Line framing over a stream of chunks: one split specification, and the three
    loops that are meant to agree with it (gsd-client.ts:129-132, 448-465;
    claude-code-stream.ts:92-101; proxy.ts:158-174). */
module Lines {

  /** What String.trim removes. */
  predicate Space(c: char) {
    '\t' <= c <= '\r' || c == ' ' || c == '\U{00A0}' || c == '\U{1680}' || '\U{2000}' <= c <= '\U{200A}'
    || c == '\U{2028}' || c == '\U{2029}' || c == '\U{202F}' || c == '\U{205F}' || c == '\U{3000}' || c == '\U{FEFF}'
  }

  /** s.trim() === "" */
  predicate Blank(s: string) {
    forall i :: 0 <= i < |s| ==> Space(s[i])
  }

  lemma LettersAreNotBlank(s: string)
    requires s != "" && 'a' <= s[0] <= 'z'
    ensures !Blank(s)
  {
    assert !Space(s[0]);
  }

  /** The lines that are complete: each one ended by its newline. */
  function Complete(s: string): seq<string> {
    if s == "" then []
    else if s[0] == '\n' then [""] + Complete(s[1..])
    else
      var rest := Complete(s[1..]);
      if rest == [] then [] else [[s[0]] + rest[0]] + rest[1..]
  }

  /** What follows the last newline. */
  function Partial(s: string): string {
    if '\n' !in s then s else Partial(s[1..])
  }

  /** Every line with its newline. */
  function Unlines(lines: seq<string>): string {
    if lines == [] then "" else lines[0] + "\n" + Unlines(lines[1..])
  }

  predicate NoNewlines(lines: seq<string>) {
    forall l :: l in lines ==> '\n' !in l
  }

  lemma {:induction false} WholeText(s: string)
    requires '\n' !in s
    ensures Complete(s) == []
  {
    if s != "" { WholeText(s[1..]); }
  }

  lemma {:induction false} FirstLine(line: string, rest: string)
    requires '\n' !in line
    ensures Complete(line + "\n" + rest) == [line] + Complete(rest)
    ensures Partial(line + "\n" + rest) == Partial(rest)
  {
    var s := line + "\n" + rest;
    if line == "" {
      assert s[1..] == rest;
    } else {
      assert s[1..] == line[1..] + "\n" + rest;
      FirstLine(line[1..], rest);
      assert [line[0]] + line[1..] == line;
    }
    assert s[|line|] == '\n';
  }

  /** s.indexOf("\n") */
  function IndexOf(s: string): (i: int)
    ensures if '\n' in s then 0 <= i < |s| && s[i] == '\n' && '\n' !in s[..i] else i == -1
  {
    if s == "" then -1
    else if s[0] == '\n' then 0
    else
      var i := IndexOf(s[1..]);
      if i == -1 then -1 else i + 1
  }

  /** A text with a newline is its first line, the newline, and the rest. */
  lemma CutLine(s: string, line: string, rest: string)
    requires '\n' in s && line == s[..IndexOf(s)] && rest == s[IndexOf(s) + 1..]
    ensures s == line + "\n" + rest && '\n' !in line && |rest| < |s|
    ensures Complete(s) == [line] + Complete(rest) && Partial(s) == Partial(rest)
  {
    hide Complete, Partial;
    FirstLine(line, rest);
  }

  /** Splitting loses nothing: the complete lines and the partial one rebuild the
      text, and no line holds a newline. */
  lemma {:induction false} SplitRebuilds(s: string)
    ensures Unlines(Complete(s)) + Partial(s) == s
    ensures NoNewlines(Complete(s)) && '\n' !in Partial(s)
    decreases |s|
  {
    if '\n' !in s {
      WholeText(s);
    } else {
      hide Complete, Partial, Unlines, NoNewlines;
      var line, rest := s[..IndexOf(s)], s[IndexOf(s) + 1..];
      CutLine(s, line, rest);
      SplitRebuilds(rest);
      UnlinesCons(line, Complete(rest));
      Regroup(line + "\n", Unlines(Complete(rest)), Partial(rest));
      NoNewlinesCons(line, Complete(rest));
    }
  }

  lemma NoNewlinesCons(line: string, lines: seq<string>)
    requires '\n' !in line && NoNewlines(lines)
    ensures NoNewlines([line] + lines)
  {
  }

  lemma UnlinesCons(line: string, lines: seq<string>)
    ensures Unlines([line] + lines) == line + "\n" + Unlines(lines)
  {
    assert ([line] + lines)[1..] == lines;
  }

  /** The only decomposition of a text into newline-free lines and a newline-free
      rest. */
  lemma {:induction false} SplitIsUnique(lines: seq<string>, rest: string)
    requires NoNewlines(lines) && '\n' !in rest
    ensures Complete(Unlines(lines) + rest) == lines && Partial(Unlines(lines) + rest) == rest
  {
    if lines == [] {
      WholeText(rest);
      assert Unlines(lines) + rest == rest;
    } else {
      assert lines[0] in lines && (forall l :: l in lines[1..] ==> l in lines);
      hide Complete, Partial, Unlines;
      SplitIsUnique(lines[1..], rest);
      FirstLine(lines[0], Unlines(lines[1..]) + rest);
      UnlinesCons(lines[0], lines[1..]);
      assert lines == [lines[0]] + lines[1..];
      Regroup(lines[0] + "\n", Unlines(lines[1..]), rest);
    }
  }

  lemma {:induction false} UnlinesAppend(a: seq<string>, b: seq<string>)
    ensures Unlines(a + b) == Unlines(a) + Unlines(b)
  {
    if a == [] {
      assert a + b == b;
    } else {
      assert (a + b)[1..] == a[1..] + b;
      UnlinesAppend(a[1..], b);
    }
  }

  /** Splitting in two goes: the second continues from the partial line. */
  lemma SplitAppend(a: string, b: string)
    ensures Complete(a + b) == Complete(a) + Complete(Partial(a) + b)
    ensures Partial(a + b) == Partial(Partial(a) + b)
  {
    hide Complete, Partial;
    var tail := Partial(a) + b;
    SplitRebuilds(a);
    SplitRebuilds(tail);
    var lines := Complete(a) + Complete(tail);
    UnlinesAppend(Complete(a), Complete(tail));
    Regroup(Unlines(Complete(a)), Unlines(Complete(tail)), Partial(tail));
    Regroup(Unlines(Complete(a)), Partial(a), b);
    assert Unlines(lines) + Partial(tail) == a + b;
    SplitIsUnique(lines, Partial(tail));
  }

  lemma Regroup(a: string, b: string, c: string)
    ensures a + b + c == a + (b + c)
  {
  }

  // ----- Chunks -----

  function Joined(chunks: seq<string>): string {
    if chunks == [] then "" else chunks[0] + Joined(chunks[1..])
  }

  /** The lines delivered and the buffer left by reading chunks one at a time. */
  function Feed(buffer: string, chunks: seq<string>): (seq<string>, string)
    decreases |chunks|
  {
    if chunks == [] then ([], buffer)
    else
      var text := buffer + chunks[0];
      var (lines, rest) := Feed(Partial(text), chunks[1..]);
      (Complete(text) + lines, rest)
  }

  /** The lines do not depend on how the text was cut into chunks, and with what
      is left in the buffer they rebuild the text. */
  lemma {:induction false} ChunkingDoesNotMatter(buffer: string, chunks: seq<string>)
    requires '\n' !in buffer
    ensures Feed(buffer, chunks) == (Complete(buffer + Joined(chunks)), Partial(buffer + Joined(chunks)))
    ensures Unlines(Feed(buffer, chunks).0) + Feed(buffer, chunks).1 == buffer + Joined(chunks)
    decreases |chunks|
  {
    hide Complete;
    SplitRebuilds(buffer + Joined(chunks));
    if chunks == [] {
      WholeText(buffer);
      assert buffer + Joined(chunks) == buffer;
    } else {
      var text := buffer + chunks[0];
      SplitRebuilds(text);
      ChunkingDoesNotMatter(Partial(text), chunks[1..]);
      SplitAppend(text, Joined(chunks[1..]));
      assert buffer + Joined(chunks) == text + Joined(chunks[1..]);
    }
  }

  // ----- JavaScript split and pop, as claude-code-stream.ts and proxy.ts use them -----

  /** text.split("\n"): at least one piece. */
  function Split(s: string): (pieces: seq<string>)
    ensures |pieces| > 0
  {
    var i := IndexOf(s);
    if i == -1 then [s] else [s[..i]] + Split(s[i + 1..])
  }

  /** Splitting and popping the last piece gives the complete lines and the
      partial one. */
  lemma {:induction false} SplitThenPop(s: string)
    ensures var p := Split(s); p[..|p| - 1] == Complete(s) && p[|p| - 1] == Partial(s)
    decreases |s|
  {
    var i := IndexOf(s);
    if i == -1 {
      WholeText(s);
    } else {
      hide Complete, Partial;
      var rest := s[i + 1..];
      CutLine(s, s[..i], rest);
      SplitThenPop(rest);
      var p := Split(rest);
      assert Split(s) == [s[..i]] + p;
      assert ([s[..i]] + p)[..|p|] == [s[..i]] + p[..|p| - 1];
    }
  }

  // ----- Which lines each reader acts on -----

  /** drainBuffer drops one carriage return at the end of a line. */
  function StripCR(line: string): string {
    if line != "" && line[|line| - 1] == '\r' then line[..|line| - 1] else line
  }

  /** The lines drainBuffer hands to handleLine. */
  function Handled(lines: seq<string>): seq<string> {
    if lines == [] then []
    else if StripCR(lines[0]) == "" then Handled(lines[1..])
    else [StripCR(lines[0])] + Handled(lines[1..])
  }

  /** The lines claude-code-stream.ts looks at. */
  function NonBlank(lines: seq<string>): seq<string> {
    if lines == [] then []
    else if Blank(lines[0]) then NonBlank(lines[1..])
    else [lines[0]] + NonBlank(lines[1..])
  }

  function TrimEnd(s: string): string {
    if s != "" && Space(s[|s| - 1]) then TrimEnd(s[..|s| - 1]) else s
  }

  function TrimStart(s: string): string {
    if s != "" && Space(s[0]) then TrimStart(s[1..]) else s
  }

  /** s.trim() */
  function Trim(s: string): string { TrimStart(TrimEnd(s)) }

  const DATA := "data: "

  /** What proxy.ts takes from a line: what follows "data: ", trimmed, if anything. */
  function PayloadOf(line: string): seq<string> {
    if DATA <= line && Trim(line[6..]) != "" then [Trim(line[6..])] else []
  }

  /** The payloads proxy.ts looks at. */
  function Payloads(lines: seq<string>): seq<string> {
    if lines == [] then [] else PayloadOf(lines[0]) + Payloads(lines[1..])
  }

  /** A line loses one carriage return at its end, and nothing else. */
  lemma StripCRIs(line: string)
    ensures StripCR(line + "\r") == line
    ensures (line == "" || line[|line| - 1] != '\r') ==> StripCR(line) == line
  {
  }

  lemma {:induction false} TrimEndIs(s: string)
    ensures TrimEnd(s) <= s && Blank(s[|TrimEnd(s)|..])
    ensures TrimEnd(s) != "" ==> !Space(TrimEnd(s)[|TrimEnd(s)| - 1])
  {
    if s != "" && Space(s[|s| - 1]) {
      var t := s[..|s| - 1];
      TrimEndIs(t);
      assert s[|TrimEnd(t)|..] == t[|TrimEnd(t)|..] + [s[|s| - 1]];
    }
  }

  lemma {:induction false} TrimStartIs(s: string) returns (k: nat)
    ensures k <= |s| && TrimStart(s) == s[k..] && Blank(s[..k])
    ensures TrimStart(s) != "" ==> !Space(TrimStart(s)[0])
  {
    k := 0;
    if s != "" && Space(s[0]) {
      k := TrimStartIs(s[1..]);
      assert s[..k + 1] == [s[0]] + s[1..][..k] && s[k + 1..] == s[1..][k..];
      k := k + 1;
    }
  }

  /** Trimming takes white space off both ends, all of it, and nothing else. */
  lemma TrimIs(s: string) returns (a: string, b: string)
    ensures s == a + Trim(s) + b && Blank(a) && Blank(b)
    ensures Trim(s) != "" ==> !Space(Trim(s)[0]) && !Space(Trim(s)[|Trim(s)| - 1])
  {
    var t := TrimEnd(s);
    TrimEndIs(s);
    var k := TrimStartIs(t);
    a, b := t[..k], s[|t|..];
    assert s == t + b && t == a + Trim(s);
  }

  /** What the proxy takes from one line. */
  lemma PayloadIs(line: string, rest: string)
    ensures Trim(rest) != "" ==> PayloadOf("data: " + rest) == [Trim(rest)]
    ensures Trim(rest) == "" ==> PayloadOf("data: " + rest) == []
    ensures |line| < 6 || line[..6] != "data: " ==> PayloadOf(line) == []
  {
    var data := "data: " + rest;
    assert data[..6] == "data: " && data[6..] == rest;
    assert |DATA| == 6 && DATA == "data: ";
  }

  /** The lines handled, one by one: without the carriage return, and none that is empty
      then. */
  lemma HandledOne(line: string)
    ensures Handled([line]) == if StripCR(line) == "" then [] else [StripCR(line)]
    ensures NonBlank([line]) == if Blank(line) then [] else [line]
    ensures Payloads([line]) == PayloadOf(line)
  {
    assert [line][1..] == [];
  }

  lemma {:induction false} HandledAppend(a: seq<string>, b: seq<string>)
    ensures Handled(a + b) == Handled(a) + Handled(b)
  {
    if a == [] {
      assert a + b == b;
    } else {
      assert (a + b)[1..] == a[1..] + b;
      HandledAppend(a[1..], b);
    }
  }

  lemma {:induction false} NonBlankAppend(a: seq<string>, b: seq<string>)
    ensures NonBlank(a + b) == NonBlank(a) + NonBlank(b)
  {
    if a == [] {
      assert a + b == b;
    } else {
      assert (a + b)[1..] == a[1..] + b;
      NonBlankAppend(a[1..], b);
    }
  }

  lemma StrippedBlank(line: string)
    ensures Blank(StripCR(line)) <==> Blank(line)
  {
    if line != "" && line[|line| - 1] == '\r' {
      assert line == StripCR(line) + ['\r'];
      assert Space(line[|line| - 1]);
    }
  }

  function Stripped(lines: seq<string>): seq<string> {
    if lines == [] then [] else [StripCR(lines[0])] + Stripped(lines[1..])
  }

  /** What drainBuffer handles, less its blank lines, is what the adapter looks at,
      less one carriage return each. */
  lemma {:induction false} HandledNonBlank(lines: seq<string>)
    ensures NonBlank(Handled(lines)) == Stripped(NonBlank(lines))
  {
    if lines != [] {
      HandledNonBlank(lines[1..]);
      StrippedBlank(lines[0]);
      var h, n := Handled(lines[1..]), NonBlank(lines[1..]);
      if StripCR(lines[0]) != "" { assert ([StripCR(lines[0])] + h)[1..] == h; }
      if !Blank(lines[0]) { assert ([lines[0]] + n)[1..] == n; }
    }
  }

  lemma TrimIgnoresCR(s: string)
    ensures Trim(StripCR(s)) == Trim(s)
  {
    if s != "" && s[|s| - 1] == '\r' { assert TrimEnd(s) == TrimEnd(s[..|s| - 1]); }
  }

  /** A carriage return at the end of a line does not change its payload, and a blank
      line has none. */
  lemma PayloadIgnoresCR(line: string)
    ensures PayloadOf(StripCR(line)) == PayloadOf(line)
    ensures Blank(line) ==> PayloadOf(line) == []
  {
    hide Trim;
    if line != "" && line[|line| - 1] == '\r' {
      if |line| > 6 {
        TrimIgnoresCR(line[6..]);
        assert StripCR(line)[6..] == StripCR(line[6..]);
        assert DATA <= line <==> DATA <= StripCR(line);
      } else {
        assert DATA[5] == ' ' && |DATA| == 6;
      }
    }
    assert DATA[0] == 'd' && !Space('d');
    assert Blank(line) ==> line == "" || Space(line[0]);
  }

  lemma PayloadsCons(line: string, lines: seq<string>)
    ensures Payloads([line] + lines) == PayloadOf(line) + Payloads(lines)
  {
    assert ([line] + lines)[1..] == lines;
  }

  /** All three readers agree: of the lines drainBuffer handles the adapter would look
      at the same ones as of the lines themselves, less one carriage return each,
      and the proxy would take the same payloads. */
  lemma {:induction false} ReadersAgree(lines: seq<string>)
    ensures NonBlank(Handled(lines)) == Stripped(NonBlank(lines))
    ensures Payloads(Handled(lines)) == Payloads(lines) == Payloads(NonBlank(lines))
  {
    HandledNonBlank(lines);
    if lines != [] {
      hide PayloadOf, Payloads, Blank, StripCR;
      var line, rest := lines[0], lines[1..];
      ReadersAgree(rest);
      PayloadIgnoresCR(line);
      assert lines == [line] + rest;
      PayloadsCons(line, rest);
      PayloadsCons(line, NonBlank(rest));
      PayloadsCons(StripCR(line), Handled(rest));
      if StripCR(line) == "" { NoPayload(); }
    }
  }

  lemma NoPayload()
    ensures PayloadOf("") == []
  {
  }

  lemma LastPartial(s: string)
    requires '\n' !in s
    ensures Handled(Complete(s)) == [] && Partial(s) == s
  {
    WholeText(s);
  }

  lemma HandledCons(line: string, lines: seq<string>)
    ensures Handled([line] + lines) == (if StripCR(line) == "" then [] else [StripCR(line)]) + Handled(lines)
  {
    assert ([line] + lines)[1..] == lines;
  }
}
