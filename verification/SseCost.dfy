/**
 How often the bulk scan reads each byte of a body: to find the end of the line, to match it against "data:" or to
 copy it, and to look for the LF behind a CR.
 */
module SseCost {
  import opened SseSpec

  /** The reads of a byte of line content beyond the search for the line ending. */
  function ContentReads(line: LineState, c: char): nat {
    match line
    case Field => 1
    case ValueStart => if c == ' ' then 1 else 2
    case Value => 1
    case Ignored => 0
  }

  /** The reads of the next byte in state s, whichever piece it comes in. */
  function ByteReads(s: PState, c: char): nat {
    (if s.afterCr then 1 else 0)
    + (if s.afterCr && c == '\n' then 0 else if IsEol(c) then 2 else 1 + ContentReads(s.line, c))
  }

  function Next(s: PState, c: char): (r: PState)
    requires Ok(s)
    ensures Ok(r)
  {
    Step(Fed(s, []), c).state
  }

  /** The state after a body; the events before it make no difference. */
  function StateAfter(s: PState, body: string): (r: PState)
    requires Ok(s)
    ensures Ok(r)
    decreases |body|
  {
    if body == "" then s else StateAfter(Next(s, body[0]), body[1..])
  }

  function Reads(s: PState, body: string): nat
    requires Ok(s)
    decreases |body|
  {
    if body == "" then 0 else ByteReads(s, body[0]) + Reads(Next(s, body[0]), body[1..])
  }

  function ContentReadsAll(s: PState, xs: string): nat
    requires Ok(s)
    decreases |xs|
  {
    if xs == "" then 0 else ContentReads(s.line, xs[0]) + ContentReadsAll(Content(s, xs[0]), xs[1..])
  }

  lemma {:induction false} StateAfterFed(f: Fed, body: string)
    requires Ok(f.state)
    ensures FeedAll(f, body).state == StateAfter(f.state, body)
    decreases |body|
  {
    if body != "" {
      StateAfterFed(Step(f, body[0]), body[1..]);
    }
  }

  /** Cutting a body costs nothing: no byte is read again by a later piece. */
  lemma {:induction false} ReadsAppend(s: PState, a: string, b: string)
    requires Ok(s)
    ensures Reads(s, a + b) == Reads(s, a) + Reads(StateAfter(s, a), b)
    decreases |a|
  {
    if a == "" {
      assert a + b == b;
    } else {
      assert (a + b)[1..] == a[1..] + b;
      ReadsAppend(Next(s, a[0]), a[1..], b);
    }
  }

  lemma {:induction false} ReadsContent(s: PState, xs: string)
    requires Ok(s) && !s.afterCr && NoEol(xs)
    ensures Reads(s, xs) == |xs| + ContentReadsAll(s, xs) && StateAfter(s, xs) == ContentAll(s, xs)
    decreases |xs|
  {
    if xs != "" {
      assert Next(s, xs[0]) == Content(s, xs[0]);
      ReadsContent(Content(s, xs[0]), xs[1..]);
    }
  }

  lemma {:induction false} ReadsValue(s: PState, xs: string)
    requires s.line.Value?
    ensures ContentReadsAll(s, xs) == |xs|
    decreases |xs|
  {
    if xs != "" {
      ReadsValue(Content(s, xs[0]), xs[1..]);
    }
  }

  lemma {:induction false} ReadsIgnored(s: PState, xs: string)
    requires s.line.Ignored?
    ensures ContentReadsAll(s, xs) == 0
    decreases |xs|
  {
    if xs != "" {
      ReadsIgnored(s, xs[1..]);
    }
  }

  /** Past a CR one byte is looked at for its LF. */
  lemma ReadsAfterCr(s: PState, rest: string)
    requires Ok(s) && rest != ""
    ensures Reads(s.(afterCr := true), rest)
              == 1 + Reads(s.(afterCr := false), if rest[0] == '\n' then rest[1..] else rest)
  {
  }

  // ---- what it comes to ----

  /** A CR has ended its line. */
  predicate Sound(s: PState) { Ok(s) && (s.afterCr ==> Blank(s)) }

  /** Every byte is read, and none more than three times. */
  lemma {:induction false} ReadsBounds(s: PState, body: string)
    requires Sound(s)
    ensures |body| <= Reads(s, body) <= 3 * |body| && Sound(StateAfter(s, body))
    decreases |body|
  {
    if body != "" {
      ReadsBounds(Next(s, body[0]), body[1..]);
    }
  }

  /** Nothing but the end of an ignored line is looked for, or only the LF of a CRLF cut in two is there. */
  predicate ReadOnce(s: PState, body: string) {
    || body == "" || (s.afterCr && body == "\n")
    || (s.line.Ignored? && NoEol(body))
  }

  /** A body is read once a byte exactly when it lies inside an ignored line, or is that LF, or is empty. */
  lemma {:induction false} ReadOnceIff(s: PState, body: string)
    requires Sound(s)
    ensures Reads(s, body) == |body| <==> ReadOnce(s, body)
    decreases |body|
  {
    if body != "" {
      var t := Next(s, body[0]);
      ReadsBounds(t, body[1..]);
      ReadOnceIff(t, body[1..]);
      assert body == [body[0]] + body[1..];
      assert NoEol(body) <==> !IsEol(body[0]) && NoEol(body[1..]);
    }
  }

  /** One data line costs more than twice its length, and the first byte of its value is read three times. */
  lemma DataLineReads()
    ensures Reads(LineStart(""), "data:x\n") == 15
    ensures ByteReads(StateAfter(LineStart(""), "data:"), 'x') == 3
  {
    var s0 := LineStart("");
    var s1 := Next(s0, 'd');
    var s2 := Next(s1, 'a');
    var s3 := Next(s2, 't');
    var s4 := Next(s3, 'a');
    var s5 := Next(s4, ':');
    assert s5 == PState("", ValueStart, 5, false);
    assert Reads(s5, "x\n") == 5 by { assert "x\n"[1..] == "\n" && "\n"[1..] == ""; }
    assert "data:x\n"[1..] == "ata:x\n" && "ata:x\n"[1..] == "ta:x\n" && "ta:x\n"[1..] == "a:x\n";
    assert "a:x\n"[1..] == ":x\n" && ":x\n"[1..] == "x\n";
    assert "data:"[1..] == "ata:" && "ata:"[1..] == "ta:" && "ta:"[1..] == "a:" && "a:"[1..] == ":" && ":"[1..] == "";
  }

  /** Three reads a byte are reached by bodies of every length: blank lines ended by CR. */
  lemma {:induction false} CrReads(n: nat)
    ensures Reads(LineStart("").(afterCr := true), seq(n, _ => '\r')) == 3 * n
  {
    if n > 0 {
      var body := seq(n, _ => '\r');
      assert body[1..] == seq(n - 1, _ => '\r');
      CrReads(n - 1);
    }
  }
}
