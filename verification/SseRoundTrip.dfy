/** Payloads encoded as data lines come back out of the parser, and exactly when they can. */
module SseRoundTrip {
  import opened SseSpec
  import opened SseParserModel

  predicate Lacks(s: string, c: char) { forall i :: 0 <= i < |s| ==> s[i] != c }

  function FirstLf(payload: string): (i: nat)
    ensures i <= |payload| && (i < |payload| ==> payload[i] == '\n') && Lacks(payload[..i], '\n')
  {
    if payload == "" || payload[0] == '\n' then 0
    else
      var i := FirstLf(payload[1..]) + 1;
      assert payload[..i] == [payload[0]] + payload[1..][..i - 1];
      i
  }

  /** One data line for each line of the payload. */
  function EncodeLines(payload: string): string
    decreases |payload|
  {
    var i := FirstLf(payload);
    if i == |payload| then "data: " + payload + "\n"
    else "data: " + payload[..i] + "\n" + EncodeLines(payload[i + 1..])
  }

  /** The data lines of each payload and the blank line that dispatches it. */
  function Encode(payloads: seq<string>): string {
    if payloads == [] then "" else EncodeLines(payloads[0]) + "\n" + Encode(payloads[1..])
  }

  /** What a parser can deliver: data that is not empty, has no CR and does not begin with LF. */
  predicate Deliverable(payload: string) {
    payload != "" && payload[0] != '\n' && Lacks(payload, '\r')
  }

  // ---- encoded payloads are delivered ----

  lemma DataLineFed(data: string, events: seq<string>, value: string)
    requires NoEol(value)
    ensures FeedAll(Fed(LineStart(data), events), "data: " + value + "\n") == Fed(LineStart(Join(data, value)), events)
  {
    var line := "data: " + value;
    assert DATA_FIELD <= line && line[|DATA_FIELD|..] == " " + value && (" " + value)[1..] == value;
    LineFed(data, events, line, '\n');
    assert events + [] == events;
  }

  /** The first line of a payload and the payload that follows it. */
  lemma FirstLine(payload: string)
    requires Lacks(payload, '\r')
    ensures NoEol(payload[..FirstLf(payload)])
    ensures FirstLf(payload) < |payload| ==>
              var rest := payload[FirstLf(payload) + 1..];
              Lacks(rest, '\r') && payload == payload[..FirstLf(payload)] + "\n" + rest
  {
  }

  lemma JoinLine(data: string, line: string, rest: string)
    requires data != "" || line != ""
    ensures Join(Join(data, line), rest) == Join(data, line + "\n" + rest)
  {
    assert data + "\n" + line + "\n" + rest == data + "\n" + (line + "\n" + rest);
  }

  /** The lines of a payload after `data`, which is empty only if the first of them is not. */
  lemma {:induction false} LinesFed(data: string, events: seq<string>, payload: string)
    requires Lacks(payload, '\r') && (data == "" ==> payload != "" && payload[0] != '\n')
    ensures FeedAll(Fed(LineStart(data), events), EncodeLines(payload)) == Fed(LineStart(Join(data, payload)), events)
    decreases |payload|
  {
    var i := FirstLf(payload);
    var line := payload[..i];
    FirstLine(payload);
    DataLineFed(data, events, line);
    if i == |payload| {
      assert line == payload;
    } else {
      var rest := payload[i + 1..];
      var first := "data: " + line + "\n";
      assert EncodeLines(payload) == first + EncodeLines(rest);
      FeedAppend(Fed(LineStart(data), events), first, EncodeLines(rest));
      JoinLine(data, line, rest);
      LinesFed(Join(data, line), events, rest);
    }
  }

  lemma {:induction false} EncodedFed(events: seq<string>, payloads: seq<string>)
    requires forall p :: p in payloads ==> Deliverable(p)
    ensures FeedAll(Fed(LineStart(""), events), Encode(payloads)) == Fed(LineStart(""), events + payloads)
    decreases |payloads|
  {
    var f := Fed(LineStart(""), events);
    if payloads == [] {
      assert events + [] == events;
    } else {
      var p, rest := payloads[0], Encode(payloads[1..]);
      assert Deliverable(p);
      LinesFed("", events, p);
      FeedAppend(f, EncodeLines(p), "\n" + rest);
      assert EncodeLines(p) + "\n" + rest == EncodeLines(p) + ("\n" + rest);
      assert Step(Fed(LineStart(p), events), '\n') == Fed(LineStart(""), events + [p]);
      assert ("\n" + rest)[1..] == rest;
      EncodedFed(events + [p], payloads[1..]);
      assert events + [p] + payloads[1..] == events + payloads;
    }
  }

  // ---- nothing else is ever delivered ----

  predicate Receiving(s: PState) { s.data == "" || Deliverable(s.data) }

  lemma {:induction false} DeliveredIsDeliverable(f: Fed, body: string)
    requires Ok(f.state) && Receiving(f.state) && forall e :: e in f.events ==> Deliverable(e)
    ensures forall e :: e in FeedAll(f, body).events ==> Deliverable(e)
    decreases |body|
  {
    if body != "" {
      var g := Step(f, body[0]);
      assert Receiving(g.state);
      DeliveredIsDeliverable(g, body[1..]);
    }
  }

  /** For every list of payloads and every way to cut its encoding: the parser delivers exactly that list if and
      only if each payload is non-empty, has no CR, and does not begin with LF. */
  lemma RoundTrip(payloads: seq<string>, pieces: seq<string>)
    requires Flatten(pieces) == Encode(payloads)
    ensures FeedPieces(Fed(LineStart(""), []), pieces).events == payloads
            <==> forall p :: p in payloads ==> Deliverable(p)
  {
    CutsDoNotMatter(Fed(LineStart(""), []), pieces);
    if forall p :: p in payloads ==> Deliverable(p) {
      EncodedFed([], payloads);
      assert [] + payloads == payloads;
    } else {
      DeliveredIsDeliverable(Fed(LineStart(""), []), Encode(payloads));
    }
  }

  /** The parser object itself delivers a list it can deliver, however its encoding is cut. */
  method Deliver(payloads: seq<string>, pieces: seq<string>) returns (events: seq<string>)
    requires Flatten(pieces) == Encode(payloads)
    ensures events == payloads <==> forall p :: p in payloads ==> Deliverable(p)
  {
    var parser := new SseParser();
    events := parser.FeedBody(pieces);
    CutsDoNotMatter(Fed(LineStart(""), []), pieces);
    RoundTrip(payloads, pieces);
  }
}
