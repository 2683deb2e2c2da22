/** What an event-stream body means: a byte-at-a-time automaton, and the division of the body into lines. */
module SseSpec {

  datatype LineState = Field | ValueStart | Value | Ignored

  /** The four fields of the parser. */
  datatype PState = PState(data: string, line: LineState, matched: nat, afterCr: bool)

  /** A parser and the events delivered so far. */
  datatype Fed = Fed(state: PState, events: seq<string>)

  const DATA_FIELD: string := "data:"

  predicate IsEol(c: char) { c == '\n' || c == '\r' }

  predicate NoEol(s: string) { forall i :: 0 <= i < |s| ==> !IsEol(s[i]) }

  /** At the start of a line, with `data` received for the current event. */
  function LineStart(data: string): PState { PState(data, Field, 0, false) }

  // ---- the automaton ----

  predicate Ok(s: PState) { s.line.Field? ==> s.matched < |DATA_FIELD| }

  /** One byte of a line, not a line ending. */
  function Content(s: PState, c: char): (r: PState)
    requires Ok(s)
    ensures Ok(r)
  {
    match s.line
    case Field =>
      if c != DATA_FIELD[s.matched] then s.(line := Ignored)
      else if s.matched + 1 < |DATA_FIELD| then s.(matched := s.matched + 1)
      else s.(matched := |DATA_FIELD|, line := ValueStart, data := if s.data == "" then "" else s.data + "\n")
    case ValueStart => if c == ' ' then s.(line := Value) else s.(line := Value, data := s.data + [c])
    case Value => s.(data := s.data + [c])
    case Ignored => s
  }

  predicate Blank(s: PState) { s.line.Field? && s.matched == 0 }

  /** The line is over; a blank one dispatches the event. */
  function EndLine(f: Fed): Fed {
    if Blank(f.state) && f.state.data != ""
    then Fed(LineStart("").(afterCr := f.state.afterCr), f.events + [f.state.data])
    else f.(state := f.state.(line := Field, matched := 0))
  }

  /** One byte of the body. */
  function Step(f: Fed, c: char): (r: Fed)
    requires Ok(f.state)
    ensures Ok(r.state)
  {
    var g := f.(state := f.state.(afterCr := false));
    if c == '\n' then if f.state.afterCr then g else EndLine(g)
    else if c == '\r' then EndLine(f.(state := f.state.(afterCr := true)))
    else g.(state := Content(g.state, c))
  }

  /** The whole of `body`, byte by byte. */
  function FeedAll(f: Fed, body: string): (r: Fed)
    requires Ok(f.state)
    ensures Ok(r.state)
    decreases |body|
  {
    if body == "" then f else FeedAll(Step(f, body[0]), body[1..])
  }

  function ContentAll(s: PState, xs: string): (r: PState)
    requires Ok(s)
    ensures Ok(r)
    decreases |xs|
  {
    if xs == "" then s else ContentAll(Content(s, xs[0]), xs[1..])
  }

  // ---- lines ----

  datatype Split = Split(lines: seq<string>, partial: string)

  /** The index of the first line ending, or the length. */
  function EolIndex(body: string): (i: nat)
    ensures i <= |body| && NoEol(body[..i]) && (i < |body| ==> IsEol(body[i]))
  {
    if body == "" || IsEol(body[0]) then 0
    else
      var i := EolIndex(body[1..]) + 1;
      assert body[..i] == [body[0]] + body[1..][..i - 1];
      i
  }

  /** Where the line after the first one of `body` begins. */
  function NextLine(body: string): (n: nat)
    requires EolIndex(body) < |body|
    ensures EolIndex(body) < n <= |body|
  {
    var i := EolIndex(body);
    if body[i] == '\r' && i + 1 < |body| && body[i + 1] == '\n' then i + 2 else i + 1
  }

  /** CRLF, LF and CR end a line; what follows the last ending is a partial line. */
  function SplitLines(body: string): Split
    decreases |body|
  {
    var i := EolIndex(body);
    if i == |body| then Split([], body)
    else
      var rest := SplitLines(body[NextLine(body)..]);
      Split([body[..i]] + rest.lines, rest.partial)
  }

  /** The value of a data line: what follows "data:", less one leading space. */
  function ValueOf(line: string): string
    requires DATA_FIELD <= line
  {
    var v := line[|DATA_FIELD|..];
    if v != "" && v[0] == ' ' then v[1..] else v
  }

  /** A further value joins earlier non-empty data by LF. */
  function Join(data: string, value: string): string {
    if data == "" then value else data + "\n" + value
  }

  /** The events a sequence of complete lines dispatches, given the data received before it. */
  function EventsOf(lines: seq<string>, data: string): seq<string> {
    if lines == [] then []
    else if lines[0] == "" then (if data == "" then [] else [data]) + EventsOf(lines[1..], "")
    else EventsOf(lines[1..], if DATA_FIELD <= lines[0] then Join(data, ValueOf(lines[0])) else data)
  }

  /** The data left undispatched. */
  function DataAfter(lines: seq<string>, data: string): string {
    if lines == [] then data
    else if lines[0] == "" then DataAfter(lines[1..], "")
    else DataAfter(lines[1..], if DATA_FIELD <= lines[0] then Join(data, ValueOf(lines[0])) else data)
  }

  // ---- the automaton on a line ----

  lemma {:induction false} FeedAppend(f: Fed, a: string, b: string)
    requires Ok(f.state)
    ensures FeedAll(f, a + b) == FeedAll(FeedAll(f, a), b)
    decreases |a|
  {
    if a == "" {
      assert a + b == b;
    } else {
      assert (a + b)[1..] == a[1..] + b;
      FeedAppend(Step(f, a[0]), a[1..], b);
    }
  }

  lemma {:induction false} FeedContent(f: Fed, xs: string)
    requires Ok(f.state) && !f.state.afterCr && NoEol(xs)
    ensures FeedAll(f, xs) == Fed(ContentAll(f.state, xs), f.events)
    decreases |xs|
  {
    if xs != "" {
      assert Step(f, xs[0]) == Fed(Content(f.state, xs[0]), f.events);
      FeedContent(Step(f, xs[0]), xs[1..]);
    }
  }

  /** Inside a value the bytes are appended as they are. */
  lemma {:induction false} ContentValue(s: PState, xs: string)
    requires s.line.Value?
    ensures ContentAll(s, xs) == s.(data := s.data + xs)
    decreases |xs|
  {
    if xs == "" {
      assert s.data + xs == s.data;
    } else {
      ContentValue(Content(s, xs[0]), xs[1..]);
      assert s.data + [xs[0]] + xs[1..] == s.data + xs;
    }
  }

  lemma {:induction false} ContentIgnored(s: PState, xs: string)
    requires s.line.Ignored?
    ensures ContentAll(s, xs) == s
    decreases |xs|
  {
    if xs != "" {
      ContentIgnored(s, xs[1..]);
    }
  }

  /** Just after "data:" one space is dropped. */
  lemma ContentValueStart(s: PState, xs: string)
    requires s.line.ValueStart?
    ensures
      var v := if xs != "" && xs[0] == ' ' then xs[1..] else xs;
      ContentAll(s, xs).data == s.data + v
      && ContentAll(s, xs).line == if xs == "" then ValueStart else Value
  {
    if xs != "" {
      ContentValue(Content(s, xs[0]), xs[1..]);
      if xs[0] != ' ' {
        assert s.data + [xs[0]] + xs[1..] == s.data + xs;
      }
    } else {
      assert s.data + xs == s.data;
    }
  }

  /** Matching the line against "data:", m bytes of which have matched. */
  lemma {:induction false} ContentField(s: PState, xs: string)
    requires s.line.Field? && Ok(s)
    ensures
      var field := DATA_FIELD[s.matched..];
      var r := ContentAll(s, xs);
      if field <= xs then
        r.data == (if s.data == "" then "" else s.data + "\n") + ValueOf(DATA_FIELD + xs[|field|..])
        && (r.line.ValueStart? || r.line.Value?)
      else
        r.data == s.data && (r.line.Ignored? || (r.line.Field? && r.matched == s.matched + |xs|))
    decreases |xs|
  {
    var field := DATA_FIELD[s.matched..];
    if xs != "" {
      var t := Content(s, xs[0]);
      assert field[1..] == DATA_FIELD[s.matched + 1..];
      if xs[0] != field[0] {
        ContentIgnored(t, xs[1..]);
      } else if t.line.Field? {
        ContentField(t, xs[1..]);
        assert field <= xs <==> field[1..] <= xs[1..];
        assert field <= xs ==> xs[1..][|field| - 1..] == xs[|field|..];
      } else {
        ContentValueStart(t, xs[1..]);
        assert (DATA_FIELD + xs[1..])[|DATA_FIELD|..] == xs[1..];
      }
    }
  }

  /** What a whole line, ending included, does at the start of a line. */
  lemma LineFed(data: string, events: seq<string>, line: string, eol: char)
    requires NoEol(line) && IsEol(eol)
    ensures
      FeedAll(Fed(LineStart(data), events), line + [eol])
      == Fed(LineStart(DataAfter([line], data)).(afterCr := eol == '\r'), events + EventsOf([line], data))
  {
    var f := Fed(LineStart(data), events);
    FeedAppend(f, line, [eol]);
    FeedContent(f, line);
    ContentField(f.state, line);
    var g := Fed(ContentAll(f.state, line), events);
    ContentKeepsCr(f.state, line);
    assert FeedAll(g, [eol]) == Step(g, eol);
    assert DATA_FIELD[0..] == DATA_FIELD;
    if DATA_FIELD <= line {
      assert DATA_FIELD + line[|DATA_FIELD|..] == line;
      assert "" + ValueOf(line) == ValueOf(line);
    }
    assert events + [] == events;
    assert [data] + [] == [data];
  }

  lemma {:induction false} ContentKeepsCr(s: PState, xs: string)
    requires Ok(s)
    ensures ContentAll(s, xs).afterCr == s.afterCr
    decreases |xs|
  {
    if xs != "" {
      ContentKeepsCr(Content(s, xs[0]), xs[1..]);
    }
  }

  // ---- the automaton and the lines agree ----

  /** Past a CR an LF changes nothing, and any other byte is read as at a plain line start. */
  lemma AfterCrFed(s: PState, events: seq<string>, rest: string)
    requires Ok(s) && rest != ""
    ensures
      FeedAll(Fed(s.(afterCr := true), events), rest)
      == FeedAll(Fed(s.(afterCr := false), events), if rest[0] == '\n' then rest[1..] else rest)
  {
  }

  predicate EndsInCr(body: string) { body != "" && body[|body| - 1] == '\r' }

  /** The first line of a body, with the LF that completes a CRLF. */
  lemma FirstLineFed(data: string, events: seq<string>, body: string)
    requires EolIndex(body) < |body|
    ensures
      var line, n := body[..EolIndex(body)], NextLine(body);
      FeedAll(Fed(LineStart(data), events), body)
      == FeedAll(Fed(LineStart(DataAfter([line], data)).(afterCr := n == |body| && EndsInCr(body)),
                     events + EventsOf([line], data)),
                 body[n..])
  {
    var i := EolIndex(body);
    var line, eol, rest := body[..i], body[i], body[i + 1..];
    assert body == line + [eol] + rest;
    FeedAppend(Fed(LineStart(data), events), line + [eol], rest);
    LineFed(data, events, line, eol);
    if eol == '\r' && rest != "" {
      AfterCrFed(LineStart(DataAfter([line], data)), events + EventsOf([line], data), rest);
      assert rest[1..] == body[i + 2..];
    }
  }

  /** The events of a body are those of its complete lines, and the parser is left with the data they did not
      dispatch and the partial line. */
  lemma {:induction false} BodyIsLines(data: string, events: seq<string>, body: string)
    ensures IsLines(data, events, body)
    decreases |body|
  {
    var i := EolIndex(body);
    if i == |body| {
      assert body[..i] == body;
      FeedContent(Fed(LineStart(data), events), body);
      ContentKeepsCr(LineStart(data), body);
      assert events + [] == events;
    } else {
      var line, rest := body[..i], body[NextLine(body)..];
      if rest != "" {
        BodyIsLines(DataAfter([line], data), events + EventsOf([line], data), rest);
      }
      LineAndRest(data, events, body);
    }
  }

  /** What a body is said to do. */
  ghost predicate IsLines(data: string, events: seq<string>, body: string) {
    var split := SplitLines(body);
    FeedAll(Fed(LineStart(data), events), body)
    == Fed(ContentAll(LineStart(DataAfter(split.lines, data)), split.partial).(afterCr := EndsInCr(body)),
           events + EventsOf(split.lines, data))
  }

  lemma LineAndRest(data: string, events: seq<string>, body: string)
    requires EolIndex(body) < |body|
    requires
      var line, rest := body[..EolIndex(body)], body[NextLine(body)..];
      rest != "" ==> IsLines(DataAfter([line], data), events + EventsOf([line], data), rest)
    ensures IsLines(data, events, body)
  {
    var line, rest := body[..EolIndex(body)], body[NextLine(body)..];
    FirstLineFed(data, events, body);
    LineFirst(data, events, line, SplitLines(rest).lines);
    if rest != "" {
      assert EndsInCr(rest) == EndsInCr(body);
    } else {
      assert EventsOf([], DataAfter([line], data)) == [];
    }
  }

  /** A line in front of others. */
  lemma LineFirst(data: string, events: seq<string>, line: string, lines: seq<string>)
    ensures DataAfter([line] + lines, data) == DataAfter(lines, DataAfter([line], data))
    ensures events + EventsOf([line], data) + EventsOf(lines, DataAfter([line], data))
              == events + EventsOf([line] + lines, data)
  {
    LinesCons(line, lines, data);
    Associative(events, EventsOf([line], data), EventsOf(lines, DataAfter([line], data)));
  }

  lemma Associative<T>(a: seq<T>, b: seq<T>, c: seq<T>)
    ensures a + b + c == a + (b + c)
  {
  }

  lemma LinesCons(line: string, lines: seq<string>, data: string)
    ensures EventsOf([line] + lines, data) == EventsOf([line], data) + EventsOf(lines, DataAfter([line], data))
    ensures DataAfter([line] + lines, data) == DataAfter(lines, DataAfter([line], data))
  {
    assert ([line] + lines)[1..] == lines;
  }

  // ---- pieces ----

  function Flatten(pieces: seq<string>): string {
    if pieces == [] then "" else pieces[0] + Flatten(pieces[1..])
  }

  /** Feeds the pieces one after another. */
  function FeedPieces(f: Fed, pieces: seq<string>): (r: Fed)
    requires Ok(f.state)
    ensures Ok(r.state)
    decreases |pieces|
  {
    if pieces == [] then f else FeedPieces(FeedAll(f, pieces[0]), pieces[1..])
  }

  /** Where the body is cut makes no difference. */
  lemma {:induction false} CutsDoNotMatter(f: Fed, pieces: seq<string>)
    requires Ok(f.state)
    ensures FeedPieces(f, pieces) == FeedAll(f, Flatten(pieces))
    decreases |pieces|
  {
    if pieces != [] {
      FeedAppend(f, pieces[0], Flatten(pieces[1..]));
      CutsDoNotMatter(FeedAll(f, pieces[0]), pieces[1..]);
    }
  }
}
