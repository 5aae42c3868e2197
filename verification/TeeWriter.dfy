/**
  The writer that passes console output through and logs every complete line of
  it, whatever pieces the output arrives in.
*/
module TeeWriter {
  import opened Common
  import opened Texts

  datatype Entry = Entry(phase: string, text: string)

  // The lines of a text, and what follows its last newline as the last of them.
  function Lines(s: string): (r: seq<string>)
    ensures r != [] && forall i :: 0 <= i < |r| ==> '\n' !in r[i]
  {
    Split(s, '\n')
  }

  function Complete(s: string): seq<string> {
    Lines(s)[..|Lines(s)| - 1]
  }

  function Rest(s: string): (r: string)
    ensures '\n' !in r
  {
    Lines(s)[|Lines(s)| - 1]
  }

  // What is logged for one line: nothing when nothing but blanks is left of it.
  function Logged(clean: string -> string, phase: string, line: string): seq<Entry> {
    if clean(line) == "" then [] else [Entry(phase, clean(line))]
  }

  function LoggedLines(clean: string -> string, phase: string, lines: seq<string>): seq<Entry> {
    if lines == [] then []
    else Logged(clean, phase, lines[0]) + LoggedLines(clean, phase, lines[1..])
  }

  // What is logged for a text: every line of it that is complete.
  function Log(clean: string -> string, phase: string, s: string): seq<Entry> {
    LoggedLines(clean, phase, Complete(s))
  }

  datatype Call = Wrote(data: string) | Phase(tag: string) | Flushed

  datatype State = State(phase: string, buf: string, log: seq<Entry>)

  // What each call makes of a logging writer's fields.
  function After(clean: string -> string, s: State, call: Call): State {
    match call
    case Wrote(data) => State(s.phase, Rest(s.buf + data), s.log + Log(clean, s.phase, s.buf + data))
    case Phase(tag) => s.(phase := tag)
    case Flushed => State(s.phase, "", s.log + Logged(clean, s.phase, s.buf))
  }

  method IndexByte(b: string, c: char) returns (i: int)
    ensures i < 0 <==> c !in b
    ensures i >= 0 ==> i < |b| && b[i] == c && c !in b[..i]
  {
    for k := 0 to |b|
      invariant c !in b[..k]
    {
      if b[k] == c { return k; }
    }
    i := -1;
  }

  lemma LoggedFirst(clean: string -> string, phase: string, line: string, rest: seq<string>)
    ensures LoggedLines(clean, phase, [line] + rest) == Logged(clean, phase, line) + LoggedLines(clean, phase, rest)
  {
    assert ([line] + rest)[1..] == rest;
  }

  lemma LogFirst(clean: string -> string, phase: string, log: seq<Entry>, s: string, i: nat)
    requires i < |s| && s[i] == '\n' && '\n' !in s[..i]
    ensures log + Log(clean, phase, s) == (log + Logged(clean, phase, s[..i])) + Log(clean, phase, s[i + 1..])
    ensures Rest(s) == Rest(s[i + 1..])
    ensures log + [] == log
  {
    SplitAtFirst(s, '\n', i);
    var rest := Complete(s[i + 1..]);
    assert Complete(s) == [s[..i]] + rest;
    LoggedFirst(clean, phase, s[..i], rest);
    Assoc(log, Logged(clean, phase, s[..i]), LoggedLines(clean, phase, rest));
  }

  lemma LogNone(clean: string -> string, phase: string, log: seq<Entry>, s: string)
    requires '\n' !in s
    ensures Rest(s) == s && log + Log(clean, phase, s) == log
  {
    SplitOne(s, '\n');
  }

  class Writer {
    const logging: bool
    const clean: string -> string
    var phase: string
    var buf: string
    var log: seq<Entry>

    ghost function Now(): State
      reads this
    {
      State(phase, buf, log)
    }

    constructor (logging: bool, clean: string -> string)
      ensures this.logging == logging && this.clean == clean && phase == "" && buf == "" && log == []
    {
      this.logging, this.clean, phase, buf, log := logging, clean, "", "", [];
    }

    method SetPhase(tag: string)
      modifies this`phase
      ensures Now() == After(clean, old(Now()), Phase(tag))
    {
      phase := tag;
    }

    // accepted is how many bytes the inner writer took.
    method Write(p: string, accepted: nat) returns (n: nat)
      requires accepted <= |p|
      modifies this`buf, this`log
      ensures n == accepted
      ensures !logging ==> buf == old(buf) && log == old(log)
      ensures logging ==> Now() == After(clean, old(Now()), Wrote(p[..n]))
    {
      n := accepted;
      if !logging { return; }
      buf := buf + p[..n];
      ghost var all, was := buf, log;
      while true
        invariant Rest(buf) == Rest(all)
        invariant log + Log(clean, phase, buf) == was + Log(clean, phase, all)
        decreases |buf|
      {
        var idx := IndexByte(buf, '\n');
        if idx < 0 {
          break;
        }
        LogFirst(clean, phase, log, buf, idx);
        var plain := clean(buf[..idx]);
        buf := buf[idx + 1..];
        if plain == "" {
          continue;
        }
        log := log + [Entry(phase, plain)];
      }
      LogNone(clean, phase, log, buf);
    }

    method Flush()
      modifies this`buf, this`log
      ensures !logging ==> buf == old(buf) && log == old(log)
      ensures logging ==> Now() == After(clean, old(Now()), Flushed)
    {
      if !logging { return; }
      var remaining := buf;
      buf := "";
      var plain := clean(remaining);
      if plain != "" {
        log := log + [Entry(phase, plain)];
      }
    }
  }

  // ------------------------------------------------- runs of calls

  function Run(clean: string -> string, s: State, calls: seq<Call>): State
    decreases |calls|
  {
    if calls == [] then s else Run(clean, After(clean, s, calls[0]), calls[1..])
  }

  function Tagged(phase: string, data: string): seq<(char, string)>
    decreases |data|
  {
    if data == "" then [] else [(data[0], phase)] + Tagged(phase, data[1..])
  }

  function Bytes(phase: string, call: Call): seq<(char, string)> {
    match call
    case Wrote(data) => Tagged(phase, data)
    case Phase(_) => []
    case Flushed => [('\n', phase)]
  }

  // Each byte of the output with the phase it was written under; a flush ends
  // the line like a newline.
  function Stream(phase: string, calls: seq<Call>): seq<(char, string)>
    decreases |calls|
  {
    if calls == [] then []
    else Bytes(phase, calls[0]) + Stream(if calls[0].Phase? then calls[0].tag else phase, calls[1..])
  }

  // Byte by byte: every line under the phase its newline was written under.
  function Expected(clean: string -> string, line: string, bytes: seq<(char, string)>): seq<Entry>
    decreases |bytes|
  {
    if bytes == [] then []
    else if bytes[0].0 == '\n' then
      (if clean(line) == "" then [] else [Entry(bytes[0].1, clean(line))]) + Expected(clean, "", bytes[1..])
    else Expected(clean, line + [bytes[0].0], bytes[1..])
  }

  function OpenLine(line: string, bytes: seq<(char, string)>): string
    decreases |bytes|
  {
    if bytes == [] then line
    else OpenLine(if bytes[0].0 == '\n' then "" else line + [bytes[0].0], bytes[1..])
  }

  lemma {:induction false} ExpectedJoins(clean: string -> string, line: string, a: seq<(char, string)>,
      b: seq<(char, string)>)
    ensures Expected(clean, line, a + b) == Expected(clean, line, a) + Expected(clean, OpenLine(line, a), b)
    ensures OpenLine(line, a + b) == OpenLine(OpenLine(line, a), b)
    decreases |a|
  {
    if a == [] {
      assert a + b == b;
    } else {
      assert (a + b)[1..] == a[1..] + b;
      ExpectedJoins(clean, if a[0].0 == '\n' then "" else line + [a[0].0], a[1..], b);
    }
  }

  lemma LogNewline(clean: string -> string, phase: string, line: string, data: string)
    requires '\n' !in line && data != "" && data[0] == '\n'
    ensures Log(clean, phase, line + data) == Logged(clean, phase, line) + Log(clean, phase, data[1..])
    ensures Rest(line + data) == Rest(data[1..])
  {
    assert (line + data)[..|line|] == line && (line + data)[|line| + 1..] == data[1..];
    LogFirst(clean, phase, [], line + data, |line|);
    var logged := Logged(clean, phase, line);
    assert [] + Log(clean, phase, line + data) == Log(clean, phase, line + data) && [] + logged == logged;
  }

  lemma ExpectedFirst(clean: string -> string, line: string, b: (char, string), rest: seq<(char, string)>)
    ensures Expected(clean, line, [b] + rest)
            == if b.0 == '\n' then Logged(clean, b.1, line) + Expected(clean, "", rest)
              else Expected(clean, line + [b.0], rest)
    ensures OpenLine(line, [b] + rest) == OpenLine(if b.0 == '\n' then "" else line + [b.0], rest)
  {
    assert ([b] + rest)[1..] == rest;
  }

  // The line loop logs what a byte-by-byte reading logs.
  lemma {:induction false} WriteIsByteByByte(clean: string -> string, phase: string, line: string, data: string)
    requires '\n' !in line
    ensures Log(clean, phase, line + data) == Expected(clean, line, Tagged(phase, data))
    ensures Rest(line + data) == OpenLine(line, Tagged(phase, data))
    decreases |data|
  {
    if data == "" {
      assert line + data == line;
      SplitOne(line, '\n');
    } else {
      var c, rest := data[0], data[1..];
      ExpectedFirst(clean, line, (c, phase), Tagged(phase, rest));
      if c == '\n' {
        LogNewline(clean, phase, line, data);
        assert "" + rest == rest;
        WriteIsByteByByte(clean, phase, "", rest);
      } else {
        assert line + data == (line + [c]) + rest;
        WriteIsByteByByte(clean, phase, line + [c], rest);
      }
    }
  }

  lemma CallLogsItsBytes(clean: string -> string, s: State, call: Call)
    requires '\n' !in s.buf
    ensures After(clean, s, call).log == s.log + Expected(clean, s.buf, Bytes(s.phase, call))
    ensures After(clean, s, call).buf == OpenLine(s.buf, Bytes(s.phase, call)) && '\n' !in After(clean, s, call).buf
  {
    if call.Wrote? {
      WriteIsByteByByte(clean, s.phase, s.buf, call.data);
    } else if call.Flushed? {
      assert Bytes(s.phase, call)[1..] == [];
      assert Logged(clean, s.phase, s.buf) + [] == Logged(clean, s.phase, s.buf);
    }
  }

  // Any run of calls logs the output byte by byte, whatever pieces it came in,
  // and holds back no complete line.
  lemma {:induction false} RunLogsTheStream(clean: string -> string, s: State, calls: seq<Call>)
    requires '\n' !in s.buf
    ensures Run(clean, s, calls).log == s.log + Expected(clean, s.buf, Stream(s.phase, calls))
    ensures Run(clean, s, calls).buf == OpenLine(s.buf, Stream(s.phase, calls)) && '\n' !in Run(clean, s, calls).buf
    decreases |calls|
  {
    if calls != [] {
      var next := After(clean, s, calls[0]);
      CallLogsItsBytes(clean, s, calls[0]);
      RunLogsTheStream(clean, next, calls[1..]);
      var first, rest := Bytes(s.phase, calls[0]), Stream(next.phase, calls[1..]);
      ExpectedJoins(clean, s.buf, first, rest);
      Assoc(s.log, Expected(clean, s.buf, first), Expected(clean, next.buf, rest));
    }
  }

  // Two runs that write the same bytes under the same phases log the same.
  lemma ChunkingDoesNotMatter(clean: string -> string, s: State, a: seq<Call>, b: seq<Call>)
    requires '\n' !in s.buf && Stream(s.phase, a) == Stream(s.phase, b)
    ensures Run(clean, s, a).log == Run(clean, s, b).log && Run(clean, s, a).buf == Run(clean, s, b).buf
  {
    RunLogsTheStream(clean, s, a);
    RunLogsTheStream(clean, s, b);
  }

  function Text(chunks: seq<string>): string
    decreases |chunks|
  {
    if chunks == [] then "" else chunks[0] + Text(chunks[1..])
  }

  function Writes(chunks: seq<string>): seq<Call>
    decreases |chunks|
  {
    if chunks == [] then [Flushed] else [Wrote(chunks[0])] + Writes(chunks[1..])
  }

  lemma OneLine(clean: string -> string, phase: string, line: string)
    ensures LoggedLines(clean, phase, [line]) == Logged(clean, phase, line)
  {
    assert [line][1..] == [];
    assert Logged(clean, phase, line) + [] == Logged(clean, phase, line);
  }

  lemma LastCall(clean: string -> string, s: State)
    requires '\n' !in s.buf
    ensures Run(clean, s, Writes([])) ==
      State(s.phase, "", s.log + LoggedLines(clean, s.phase, Lines(s.buf + Text([]))))
  {
    assert s.buf + Text([]) == s.buf;
    SplitOne(s.buf, '\n');
    OneLine(clean, s.phase, s.buf);
    assert Writes([]) == [Flushed] && [Flushed][1..] == [];
    assert Run(clean, s, [Flushed]) == Run(clean, After(clean, s, Flushed), []);
  }

  lemma FirstCall(clean: string -> string, s: State, chunks: seq<string>)
    requires chunks != []
    ensures Run(clean, s, Writes(chunks)) == Run(clean, After(clean, s, Wrote(chunks[0])), Writes(chunks[1..]))
  {
    assert Writes(chunks)[0] == Wrote(chunks[0]) && Writes(chunks)[1..] == Writes(chunks[1..]);
  }

  lemma {:induction false} LoggedJoins(clean: string -> string, phase: string, a: seq<string>, b: seq<string>)
    ensures LoggedLines(clean, phase, a + b) == LoggedLines(clean, phase, a) + LoggedLines(clean, phase, b)
    decreases |a|
  {
    if a == [] {
      assert a + b == b;
    } else {
      assert (a + b)[1..] == a[1..] + b;
      LoggedJoins(clean, phase, a[1..], b);
    }
  }

  lemma OneMoreChunk(clean: string -> string, phase: string, log: seq<Entry>, line: string, chunk: string, text: string)
    ensures log + LoggedLines(clean, phase, Lines(line + (chunk + text)))
            == (log + Log(clean, phase, line + chunk)) + LoggedLines(clean, phase, Lines(Rest(line + chunk) + text))
  {
    assert line + (chunk + text) == (line + chunk) + text;
    SplitJoins(line + chunk, text, '\n');
    var here, rest := Log(clean, phase, line + chunk), Lines(Rest(line + chunk) + text);
    LoggedJoins(clean, phase, Complete(line + chunk), rest);
    Assoc(log, here, LoggedLines(clean, phase, rest));
  }

  // Under one phase, writes and a flush log the non-blank lines of the whole
  // text, in order.
  lemma {:induction false} OnePhaseLogsEveryLine(clean: string -> string, s: State, chunks: seq<string>)
    requires '\n' !in s.buf
    ensures Run(clean, s, Writes(chunks)) ==
      State(s.phase, "", s.log + LoggedLines(clean, s.phase, Lines(s.buf + Text(chunks))))
    decreases |chunks|
  {
    if chunks == [] {
      LastCall(clean, s);
    } else {
      var next := After(clean, s, Wrote(chunks[0]));
      FirstCall(clean, s, chunks);
      OnePhaseLogsEveryLine(clean, next, chunks[1..]);
      OneMoreChunk(clean, s.phase, s.log, s.buf, chunks[0], Text(chunks[1..]));
    }
  }

  // What is left of the lines when they are cleaned and the blank ones dropped.
  lemma {:induction false} LinesAreCleaned(clean: string -> string, phase: string, lines: seq<string>)
    ensures var texts := Filter(Map(lines, clean), text => text != "");
      |LoggedLines(clean, phase, lines)| == |texts| &&
        forall i :: 0 <= i < |texts| ==> LoggedLines(clean, phase, lines)[i] == Entry(phase, texts[i])
  {
    if lines != [] {
      var init, last := lines[..|lines| - 1], lines[|lines| - 1];
      assert lines == init + [last];
      LinesAreCleaned(clean, phase, init);
      LoggedJoins(clean, phase, init, [last]);
      OneLine(clean, phase, last);
      assert Map(lines, clean) == Map(init, clean) + [clean(last)];
      FilterSnoc(Map(init, clean), clean(last), text => text != "");
    }
  }
}
