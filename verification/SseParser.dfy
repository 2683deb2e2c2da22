/** The incremental event-stream parser, which scans whole runs of bytes instead of one at a time. */
module SseParserModel {
  import opened SseSpec
  import opened SseCost

  class SseParser {
    var data: string
    var state: LineState
    var matched: nat
    var afterCr: bool
    ghost var examined: nat   // how many bytes feed() has read so far

    function State(): PState
      reads this
    {
      PState(data, state, matched, afterCr)
    }

    /** Between two pieces. */
    predicate Valid()
      reads this
    {
      Sound(State())
    }

    constructor ()
      ensures Valid() && State() == LineStart("") && examined == 0
    {
      data, state, matched, afterCr, examined := "", Field, 0, false, 0;
    }

    /** Readies the parser for a new body. */
    method Reset()
      modifies `data, `state, `matched, `afterCr
      ensures Valid() && State() == LineStart("")
    {
      data := "";
      state := Field;
      matched := 0;
      afterCr := false;
    }

    static method FindLineEnd(piece: string, from: nat) returns (eol: nat, ghost read: nat)
      requires from <= |piece|
      ensures from <= eol <= |piece| && NoEol(piece[from..eol])
      ensures eol < |piece| ==> IsEol(piece[eol])
      ensures read == eol - from + (if eol < |piece| then 1 else 0)
    {
      eol, read := from, 0;
      while eol != |piece| && piece[eol] != '\n' && piece[eol] != '\r'
        invariant from <= eol <= |piece| && NoEol(piece[from..eol])
        invariant read == eol - from
        decreases |piece| - eol
      {
        assert piece[from..eol + 1] == piece[from..eol] + [piece[eol]];
        eol, read := eol + 1, read + 1;
      }
      if eol < |piece| {
        read := read + 1;
      }
    }

    /** Handles the bytes [from, end) of the current line, which hold no line ending. */
    method ConsumeLineContent(piece: string, from: nat, end: nat) returns (ghost read: nat)
      requires Ok(State()) && from <= end <= |piece|
      modifies `data, `state, `matched
      ensures State() == ContentAll(old(State()), piece[from..end])
      ensures read == ContentReadsAll(old(State()), piece[from..end])
    {
      read := 0;
      var p := from;
      ghost var goal, total := ContentAll(State(), piece[from..end]), ContentReadsAll(State(), piece[from..end]);
      while p != end
        invariant from <= p <= end && Ok(State())
        invariant ContentAll(State(), piece[p..end]) == goal
        invariant read + ContentReadsAll(State(), piece[p..end]) == total
        decreases end - p, !state.Value?
      {
        ghost var s, rest := State(), piece[p..end];
        assert rest[0] == piece[p] && rest[1..] == piece[p + 1..end];
        match state
        case Field =>
          read := read + 1;
          if piece[p] != DATA_FIELD[matched] {
            FieldEnds(s, rest);
            state := Ignored;
            return;
          }
          FieldGoesOn(s, rest);
          p := p + 1;
          matched := matched + 1;
          if matched == |DATA_FIELD| {
            if data != "" {
              data := data + "\n";
            }
            state := ValueStart;
          }
          assert State() == FieldNext(s);
        case ValueStart =>
          read := read + 1;
          ValueStartIsValue(s, rest);
          if piece[p] == ' ' {
            p := p + 1;
          }
          state := Value;
        case Value =>
          ValueToEnd(s, rest);
          data := data + piece[p..end];
          read := read + (end - p);
          return;
        case Ignored =>
          IgnoredToEnd(s, rest);
          return;
      }
    }

    /** Steps over the line ending at `eol`, and over the LF of a CRLF if it is in the piece. */
    method SkipLineEnd(piece: string, eol: nat) returns (p: nat, ghost read: nat)
      requires !afterCr && eol < |piece|
      modifies `afterCr
      ensures p == After(piece, eol) && afterCr == (piece[eol] == '\r' && eol + 1 == |piece|)
      ensures read == if piece[eol] == '\r' && eol + 1 < |piece| then 2 else 1
    {
      p, read := eol + 1, 1;
      if piece[eol] == '\r' {
        if p == |piece| {
          afterCr := true;
        } else {
          read := 2;
          if piece[p] == '\n' {
            p := p + 1;
          }
        }
      }
    }

    /** Ends the current line; a blank one dispatches the event. */
    method EndTheLine(events: seq<string>) returns (out: seq<string>)
      requires Ok(State())
      modifies `data, `state, `matched
      ensures Ok(State()) && Fed(State(), out) == EndLine(Fed(old(State()), events))
    {
      out := events;
      if state == Field && matched == 0 && data != "" {
        out := out + [data];
        data := "";
      }
      state := Field;
      matched := 0;
    }

    /** Parses the next piece of the body and returns the events it completes. Events and state are those of the
        automaton reading the piece byte by byte, and so is the number of reads. */
    method Feed(piece: string) returns (events: seq<string>)
      requires Valid()
      modifies this
      ensures Valid() && Fed(State(), events) == FeedAll(Fed(old(State()), []), piece)
      ensures examined == old(examined) + Reads(old(State()), piece)
      ensures old(examined) + |piece| <= examined <= old(examined) + 3 * |piece|
    {
      events := [];
      ghost var before, f, work: nat := State(), Fed(State(), []), 0;
      var p := 0;
      if afterCr && piece != "" {
        AfterCrAll(before, piece);
        afterCr := false;
        f, work := Fed(State(), []), 1;
        if piece[0] == '\n' {
          p := 1;
        }
      }
      while p != |piece|
        invariant 0 <= p <= |piece| && f == Fed(State(), events) && Ok(f.state)
        invariant afterCr ==> p == |piece|
        invariant FeedAll(f, piece[p..]) == FeedAll(Fed(before, []), piece)
        invariant work + Reads(f.state, piece[p..]) == Reads(before, piece) && examined == old(examined)
        decreases |piece| - p
      {
        var eol, found := FindLineEnd(piece, p);
        LineRead(f, piece, p, eol);
        ghost var consumed := ConsumeLineContent(piece, p, eol);
        work := work + found + consumed;
        if eol == |piece| {
          f := Fed(ContentAll(f.state, piece[p..eol]), events);
          p := |piece|;
          break;
        }
        f := LineEnded(f, piece, p, eol);
        p, consumed := SkipLineEnd(piece, eol);
        work := work + consumed;
        events := EndTheLine(events);
      }
      assert piece[p..] == "";
      StateAfterFed(Fed(before, []), piece);
      ReadsBounds(before, piece);
      examined := examined + work;
    }

    /** Feeds the pieces of a body one after another, as the read loop of a stream does. However the body is cut,
        it gives the same events, leaves the same state and costs the same reads. */
    method FeedBody(pieces: seq<string>) returns (events: seq<string>)
      requires Valid()
      modifies this
      ensures Valid() && Fed(State(), events) == FeedAll(Fed(old(State()), []), Flatten(pieces))
      ensures examined == old(examined) + Reads(old(State()), Flatten(pieces))
    {
      events := [];
      ghost var goal := FeedPieces(Fed(State(), []), pieces);
      CutsDoNotMatter(Fed(State(), []), pieces);
      var i := 0;
      while i < |pieces|
        invariant 0 <= i <= |pieces| && Valid()
        invariant FeedPieces(Fed(State(), events), pieces[i..]) == goal
        invariant examined + Reads(State(), Flatten(pieces[i..]))
                    == old(examined) + Reads(old(State()), Flatten(pieces))
      {
        assert pieces[i..][0] == pieces[i] && pieces[i..][1..] == pieces[i + 1..];
        EventsGrow(State(), events, pieces[i]);
        StateAfterFed(Fed(State(), []), pieces[i]);
        ReadsAppend(State(), pieces[i], Flatten(pieces[i + 1..]));
        var more := Feed(pieces[i]);
        events := events + more;
        i := i + 1;
      }
      assert Flatten(pieces[i..]) == "";
    }
  }

  /** The line is not, or no longer, a data line. */
  lemma FieldEnds(s: PState, xs: string)
    requires Ok(s) && s.line.Field? && xs != "" && xs[0] != DATA_FIELD[s.matched]
    ensures ContentAll(s, xs) == s.(line := Ignored) && ContentReadsAll(s, xs) == 1
  {
    IgnoredToEnd(s.(line := Ignored), xs[1..]);
  }

  /** One more byte of the line has matched. */
  function FieldNext(s: PState): (r: PState)
    requires Ok(s) && s.line.Field?
    ensures Ok(r)
  {
    if s.matched + 1 < |DATA_FIELD| then s.(matched := s.matched + 1)
    else PState(if s.data == "" then "" else s.data + "\n", ValueStart, |DATA_FIELD|, s.afterCr)
  }

  lemma FieldGoesOn(s: PState, xs: string)
    requires Ok(s) && s.line.Field? && xs != "" && xs[0] == DATA_FIELD[s.matched]
    ensures ContentAll(s, xs) == ContentAll(FieldNext(s), xs[1..])
    ensures ContentReadsAll(s, xs) == 1 + ContentReadsAll(FieldNext(s), xs[1..])
  {
  }

  lemma ValueToEnd(s: PState, xs: string)
    requires s.line.Value?
    ensures ContentAll(s, xs) == s.(data := s.data + xs) && ContentReadsAll(s, xs) == |xs|
  {
    ContentValue(s, xs);
    ReadsValue(s, xs);
  }

  lemma IgnoredToEnd(s: PState, xs: string)
    requires s.line.Ignored?
    ensures ContentAll(s, xs) == s && ContentReadsAll(s, xs) == 0
  {
    ContentIgnored(s, xs);
    ReadsIgnored(s, xs);
  }

  /** One step of the automaton in ValueStart, without looking past the byte it is at. */
  lemma ValueStartIsValue(s: PState, xs: string)
    requires s.line.ValueStart? && xs != ""
    ensures
      var v := if xs[0] == ' ' then xs[1..] else xs;
      && ContentAll(s, xs) == ContentAll(s.(line := Value), v)
      && ContentReadsAll(s, xs) == 1 + ContentReadsAll(s.(line := Value), v)
  {
    if xs[0] != ' ' {
      assert Content(s, xs[0]) == Content(s.(line := Value), xs[0]);
    }
  }

  /** Where reading goes on after the line ending at `eol`: past the LF of a CRLF that is in the piece. */
  function After(piece: string, eol: nat): (n: nat)
    requires eol < |piece|
    ensures eol < n <= |piece|
  {
    if piece[eol] == '\r' && eol + 1 < |piece| && piece[eol + 1] == '\n' then eol + 2 else eol + 1
  }

  /** The run of content up to `eol`, then the line ending. */
  lemma RunFed(f: Fed, piece: string, p: nat, eol: nat)
    requires Ok(f.state) && !f.state.afterCr && p <= eol <= |piece| && NoEol(piece[p..eol])
    requires eol < |piece| ==> IsEol(piece[eol])
    ensures
      var g := Fed(ContentAll(f.state, piece[p..eol]), f.events);
      && !g.state.afterCr
      && FeedAll(f, piece[p..]) ==
           if eol == |piece| then g
           else FeedAll(EndLine(g.(state := g.state.(afterCr := piece[eol] == '\r' && eol + 1 == |piece|))),
                        piece[After(piece, eol)..])
  {
    var g := Fed(ContentAll(f.state, piece[p..eol]), f.events);
    assert piece[p..] == piece[p..eol] + piece[eol..];
    FeedAppend(f, piece[p..eol], piece[eol..]);
    FeedContent(f, piece[p..eol]);
    ContentKeepsCr(f.state, piece[p..eol]);
    if eol < |piece| {
      var rest := piece[eol + 1..];
      assert piece[eol..][1..] == rest;
      if piece[eol] == '\r' && rest != "" {
        var ended := EndLine(g.(state := g.state.(afterCr := true)));
        AfterCrFed(ended.state, ended.events, rest);
        assert rest[1..] == piece[eol + 2..];
      }
    }
  }

  /** What that run of content and its line ending cost. */
  lemma RunReads(f: Fed, piece: string, p: nat, eol: nat)
    requires Ok(f.state) && !f.state.afterCr && p <= eol <= |piece| && NoEol(piece[p..eol])
    requires eol < |piece| ==> IsEol(piece[eol])
    ensures
      var g := ContentAll(f.state, piece[p..eol]);
      Reads(f.state, piece[p..]) == eol - p + ContentReadsAll(f.state, piece[p..eol]) +
        if eol == |piece| then 0
        else
          var cr := piece[eol] == '\r';
          2 + (if cr && eol + 1 < |piece| then 1 else 0)
          + Reads(EndLine(Fed(g.(afterCr := cr && eol + 1 == |piece|), f.events)).state, piece[After(piece, eol)..])
  {
    var g := ContentAll(f.state, piece[p..eol]);
    assert piece[p..] == piece[p..eol] + piece[eol..];
    ReadsAppend(f.state, piece[p..eol], piece[eol..]);
    ReadsContent(f.state, piece[p..eol]);
    ContentKeepsCr(f.state, piece[p..eol]);
    if eol < |piece| {
      var rest := piece[eol + 1..];
      assert piece[eol..][1..] == rest;
      if piece[eol] == '\r' && rest != "" {
        ReadsAfterCr(EndLine(Fed(g, f.events)).state, rest);
        assert rest[1..] == piece[eol + 2..];
      }
    }
  }

  /** The parser behind the line that ends at `eol`. */
  function LineEnded(f: Fed, piece: string, p: nat, eol: nat): (r: Fed)
    requires Ok(f.state) && p <= eol < |piece|
    ensures Ok(r.state)
  {
    var g := ContentAll(f.state, piece[p..eol]);
    EndLine(Fed(g.(afterCr := piece[eol] == '\r' && eol + 1 == |piece|), f.events))
  }

  /** The rest of the line, from where the parser is in the piece: what it does and what it costs. */
  lemma LineRead(f: Fed, piece: string, p: nat, eol: nat)
    requires Ok(f.state) && !f.state.afterCr && p <= eol <= |piece| && NoEol(piece[p..eol])
    requires eol < |piece| ==> IsEol(piece[eol])
    ensures
      var cost := eol - p + ContentReadsAll(f.state, piece[p..eol]);
      if eol == |piece| then
        && FeedAll(f, piece[p..]) == Fed(ContentAll(f.state, piece[p..eol]), f.events)
        && Reads(f.state, piece[p..]) == cost
      else
        var ended, rest := LineEnded(f, piece, p, eol), piece[After(piece, eol)..];
        && FeedAll(f, piece[p..]) == FeedAll(ended, rest)
        && Reads(f.state, piece[p..])
             == cost + 1 + (if piece[eol] == '\r' && eol + 1 < |piece| then 2 else 1) + Reads(ended.state, rest)
  {
    RunFed(f, piece, p, eol);
    RunReads(f, piece, p, eol);
  }

  /** A piece behind a CR: one look at its first byte, which is skipped if it is the LF. */
  lemma AfterCrAll(s: PState, piece: string)
    requires Ok(s) && s.afterCr && piece != ""
    ensures
      var k := if piece[0] == '\n' then 1 else 0;
      && FeedAll(Fed(s, []), piece) == FeedAll(Fed(s.(afterCr := false), []), piece[k..])
      && Reads(s, piece) == 1 + Reads(s.(afterCr := false), piece[k..])
  {
    AfterCrFed(s, [], piece);
    ReadsAfterCr(s, piece);
    assert s == s.(afterCr := true) && piece[0..] == piece;
  }

  /** Events already delivered stay in front. */
  lemma {:induction false} EventsGrow(s: PState, events: seq<string>, body: string)
    requires Ok(s)
    ensures var f := FeedAll(Fed(s, []), body); FeedAll(Fed(s, events), body) == Fed(f.state, events + f.events)
    decreases |body|
  {
    if body == "" {
      assert events + [] == events;
    } else {
      var a, b := Step(Fed(s, events), body[0]), Step(Fed(s, []), body[0]);
      assert a.state == b.state && a.events == events + b.events;
      EventsGrow(a.state, a.events, body[1..]);
      EventsGrow(b.state, b.events, body[1..]);
      assert (events + b.events) + FeedAll(Fed(b.state, []), body[1..]).events
             == events + (b.events + FeedAll(Fed(b.state, []), body[1..]).events);
    }
  }
}
