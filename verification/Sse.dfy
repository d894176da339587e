/** Server-sent events: the frames the gateway writes and what its upstream reader makes of such a stream. */
module Sse {
  import opened Wrappers

  /** The longest line the scanner takes, in bytes. */
  const MAX_LINE: int := 65_535

  function DataPrefix(): string {
    "data: "
  }

  function Done(): string {
    "[DONE]"
  }

  // ----- Text -----

  /** The bytes a character takes in UTF-8. */
  function Width(c: char): int {
    if c as int < 0x80 then 1 else if c as int < 0x800 then 2 else if c as int < 0x1_0000 then 3 else 4
  }

  function Bytes(s: string): int {
    if s == "" then 0 else Bytes(s[..|s| - 1]) + Width(s[|s| - 1])
  }

  /** White space as Unicode defines it. */
  predicate IsSpace(c: char) {
    var u := c as int;
    || 0x9 <= u <= 0xD || u == 0x20 || u == 0x85 || u == 0xA0 || u == 0x1680 || 0x2000 <= u <= 0x200A
    || u == 0x2028 || u == 0x2029 || u == 0x202F || u == 0x205F || u == 0x3000
  }

  function TrimLeft(s: string): string
    decreases |s|
  {
    if s != "" && IsSpace(s[0]) then TrimLeft(s[1..]) else s
  }

  function TrimRight(s: string): string
    decreases |s|
  {
    if s != "" && IsSpace(s[|s| - 1]) then TrimRight(s[..|s| - 1]) else s
  }

  function TrimSpace(s: string): string {
    TrimRight(TrimLeft(s))
  }

  predicate HasPrefix(s: string, prefix: string) {
    |prefix| <= |s| && s[..|prefix|] == prefix
  }

  lemma Regroups(a: string, b: string, c: string)
    ensures a + b + c == a + (b + c)
  {
  }

  // ----- Writing -----

  /** An event name, empty when there is none, and the encoded data. */
  datatype Item = Item(event: string, payload: string)

  function EventPart(event: string): string {
    if event != "" then "event: " + event + "\n" else ""
  }

  function DataPart(payload: string): string {
    DataPrefix() + payload + "\n" + "\n"
  }

  function Frame(item: Item): string {
    EventPart(item.event) + DataPart(item.payload)
  }

  function Framed(items: seq<Item>): string
    decreases |items|
  {
    if items == [] then "" else Frame(items[0]) + Framed(items[1..])
  }

  function DoneFrame(): string {
    DataPart(Done())
  }

  class SSEWriter {
    var w: string

    constructor ()
      ensures w == ""
    {
      w := "";
    }

    /** `encoded` is absent when the data cannot be encoded; then nothing is written. */
    method Send(event: string, encoded: Option<string>) returns (ok: bool)
      modifies this
      ensures ok == encoded.Some?
      ensures w == old(w) + if ok then Frame(Item(event, encoded.value)) else ""
      ensures ok ==> w == old(w) + (if event == "" then "" else "event: " + event + "\n")
                          + ("data: " + encoded.value + "\n\n")
    {
      if encoded.None? {
        return false;
      }
      ghost var before := w;
      if event != "" {
        w := w + ("event: " + event + "\n");
      }
      assert w == before + EventPart(event);
      w := w + ("data: " + encoded.value + "\n\n");
      assert "data: " + encoded.value + "\n\n" == DataPart(encoded.value);
      Regroups(before, EventPart(event), DataPart(encoded.value));
      return true;
    }

    method SendDone()
      modifies this
      ensures w == old(w) + DoneFrame() == old(w) + "data: [DONE]\n\n"
    {
      w := w + "data: [DONE]\n\n";
      assert "data: [DONE]\n\n" == DataPart(Done());
    }
  }

  // ----- Reading -----

  /** Where the first line ends: at its newline, or at the end of the text. */
  function LineEnd(text: string): (n: int)
    ensures 0 <= n <= |text|
    ensures forall k | 0 <= k < n :: text[k] != '\n'
    ensures n < |text| ==> text[n] == '\n'
    decreases |text|
  {
    if text == "" || text[0] == '\n' then 0 else 1 + LineEnd(text[1..])
  }

  function AfterLine(text: string): (rest: string)
    requires text != ""
    ensures |rest| < |text|
  {
    var n := LineEnd(text);
    if n < |text| then text[n + 1..] else ""
  }

  /** The payloads delivered, and the one that could not be decoded, if reading ended so. */
  datatype Reading = Reading(payloads: seq<string>, failed: Option<string>)

  /** What the reader makes of one trimmed line. */
  datatype Verdict = Skip | Payload(text: string) | Stop

  function Judge(line: string): Verdict {
    if line == "" || HasPrefix(line, ":") || !HasPrefix(line, DataPrefix()) then Skip
    else if line[|DataPrefix()|..] == Done() then Stop
    else Payload(line[|DataPrefix()|..])
  }

  lemma VerdictSplitsLine(line: string)
    ensures Judge(line) == Stop <==> line == DataPrefix() + Done()
    ensures forall p: string :: Judge(line) == Payload(p) <==> line == DataPrefix() + p && p != Done()
  {
    var n := |DataPrefix()|;
    forall p: string ensures HasPrefix(line, DataPrefix()) && line[n..] == p <==> line == DataPrefix() + p {
      if HasPrefix(line, DataPrefix()) {
        assert line == line[..n] + line[n..];
      }
    }
    if HasPrefix(line, DataPrefix()) {
      assert line[0] == line[..n][0] == 'd';
      assert line == line[..n] + line[n..];
    } else {
      assert forall p: string :: (DataPrefix() + p)[..n] == DataPrefix();
    }
  }

  /** The first line is short enough for the scanner. */
  predicate Fits(text: string) {
    Bytes(text[..LineEnd(text)]) <= MAX_LINE
  }

  function FirstVerdict(text: string): Verdict {
    Judge(TrimSpace(text[..LineEnd(text)]))
  }

  /** Reads until the terminator, an undecodable payload, a line too long for the scanner, or the end. */
  function Read(decodes: string -> bool, text: string): Reading
    decreases |text|
  {
    if text == "" || !Fits(text) then Reading([], None)
    else
      match FirstVerdict(text)
      case Skip => Read(decodes, AfterLine(text))
      case Stop => Reading([], None)
      case Payload(p) =>
        if !decodes(p) then Reading([], Some(p))
        else var rest := Read(decodes, AfterLine(text)); rest.(payloads := [p] + rest.payloads)
  }

  /** A payload is what follows the prefix, unless that is the terminator; every other line is skipped. */
  method JudgeLine(line: string) returns (v: Verdict)
    ensures v == Judge(line)
    ensures v == Stop <==> line == DataPrefix() + Done()
    ensures forall p: string :: v == Payload(p) <==> line == DataPrefix() + p && p != Done()
  {
    VerdictSplitsLine(line);
    if line == "" || HasPrefix(line, ":") {
      return Skip;
    }
    if !HasPrefix(line, DataPrefix()) {
      return Skip;
    }
    var payload := line[|DataPrefix()|..];
    if payload == Done() {
      return Stop;
    }
    return Payload(payload);
  }

  /** The scanner: the first line, whether it is short enough, and what follows it. */
  method Scan(text: string) returns (line: string, fits: bool, rest: string)
    requires text != ""
    ensures Judge(TrimSpace(line)) == FirstVerdict(text) && fits == Fits(text)
    ensures rest == AfterLine(text) && |rest| < |text|
  {
    line := text[..LineEnd(text)];
    fits := Bytes(line) <= MAX_LINE;
    rest := AfterLine(text);
  }

  /** The reader's loop over scanned lines. */
  method ReadSSEStream(decodes: string -> bool, body: string) returns (sent: seq<string>, failed: Option<string>)
    ensures Reading(sent, failed) == Read(decodes, body)
  {
    sent, failed := [], None;
    var text := body;
    while text != ""
      invariant failed.None?
      invariant var rest := Read(decodes, text); Read(decodes, body) == rest.(payloads := sent + rest.payloads)
      decreases |text|
    {
      var raw, fits, rest := Scan(text);
      if !fits {
        break;
      }
      var verdict := JudgeLine(TrimSpace(raw));
      text := rest;
      match verdict
      case Skip =>
      case Stop =>
        return;
      case Payload(p) =>
        if !decodes(p) {
          failed := Some(p);
          return;
        }
        sent := sent + [p];
    }
  }

  // ----- What can be read -----

  /** A payload that survives its line: one line, not blank at its end, not the terminator, short enough. */
  predicate Clean(p: string) {
    p != "" && '\n' !in p && !IsSpace(p[|p| - 1]) && p != "[DONE]" && Bytes(p) <= 65_529
  }

  lemma {:induction false} BytesOfPrefix(s: string, n: int)
    requires 0 <= n <= |s|
    ensures Bytes(s[..n]) <= Bytes(s)
  {
    if n == |s| {
      assert s[..n] == s;
    } else {
      BytesOfPrefix(s[..|s| - 1], n);
      assert s[..|s| - 1][..n] == s[..n];
    }
  }

  lemma {:induction false} BytesOfSum(a: string, b: string)
    ensures Bytes(a + b) == Bytes(a) + Bytes(b)
  {
    if b == "" {
      assert a + b == a;
    } else {
      assert (a + b)[..|a + b| - 1] == a + b[..|b| - 1];
      BytesOfSum(a, b[..|b| - 1]);
    }
  }

  lemma {:induction false} TrimLeftIsSuffix(s: string)
    ensures |TrimLeft(s)| <= |s| && TrimLeft(s) == s[|s| - |TrimLeft(s)|..]
    ensures Bytes(TrimLeft(s)) <= Bytes(s)
    decreases |s|
  {
    if s != "" && IsSpace(s[0]) {
      TrimLeftIsSuffix(s[1..]);
      assert s == s[..1] + s[1..];
      BytesOfSum(s[..1], s[1..]);
      assert s[..1][..0] == "" && Bytes(s[..1]) == Bytes("") + Width(s[0]);
    } else {
      assert s == s[0..];
    }
  }

  lemma {:induction false} TrimRightIsPrefix(s: string)
    ensures |TrimRight(s)| <= |s| && TrimRight(s) == s[..|TrimRight(s)|]
    ensures TrimRight(s) != "" ==> !IsSpace(TrimRight(s)[|TrimRight(s)| - 1])
    decreases |s|
  {
    if s != "" && IsSpace(s[|s| - 1]) {
      TrimRightIsPrefix(s[..|s| - 1]);
    }
  }

  lemma DataPrefixIsShort()
    ensures Bytes(DataPrefix()) == 6
  {
    var s := DataPrefix();
    assert s[..5] == "data:" && "data:"[..4] == "data" && "data"[..3] == "dat";
    assert "dat"[..2] == "da" && "da"[..1] == "d" && "d"[..0] == "";
    assert Bytes("d") == 1 && Bytes("da") == 2 && Bytes("dat") == 3;
    assert Bytes("data") == 4 && Bytes("data:") == 5;
  }

  lemma TrimmedIsPart(line: string)
    ensures Bytes(TrimSpace(line)) <= Bytes(line)
    ensures '\n' !in line ==> '\n' !in TrimSpace(line)
    ensures TrimSpace(line) != "" ==> !IsSpace(TrimSpace(line)[|TrimSpace(line)| - 1])
  {
    var left, s := TrimLeft(line), TrimSpace(line);
    TrimLeftIsSuffix(line);
    TrimRightIsPrefix(left);
    BytesOfPrefix(left, |s|);
  }

  lemma PayloadIsRest(s: string)
    requires Judge(s).Payload?
    ensures var p := Judge(s).text; s == DataPrefix() + p && p != "[DONE]" && |p| == |s| - 6
  {
    assert s == s[..|DataPrefix()|] + s[|DataPrefix()|..];
  }

  lemma LastOfSum(a: string, b: string)
    requires a != ""
    ensures (a + b)[|a + b| - 1] == if b == "" then a[|a| - 1] else b[|b| - 1]
  {
  }

  lemma LinePayloadIsClean(line: string)
    requires '\n' !in line && Bytes(line) <= MAX_LINE && Judge(TrimSpace(line)).Payload?
    ensures Clean(Judge(TrimSpace(line)).text)
  {
    var s := TrimSpace(line);
    var p := Judge(s).text;
    LastOfSum(DataPrefix(), p);
    PayloadIsRest(s);
    TrimmedIsPart(line);
    DataPrefixIsShort();
    BytesOfSum(DataPrefix(), p);
    assert forall c | c in p :: c in s;
  }

  predicate AllGood(decodes: string -> bool, ps: seq<string>) {
    forall i | 0 <= i < |ps| :: Clean(ps[i]) && decodes(ps[i])
  }

  lemma OneMoreGood(decodes: string -> bool, p: string, ps: seq<string>)
    requires Clean(p) && decodes(p) && AllGood(decodes, ps)
    ensures AllGood(decodes, [p] + ps)
  {
  }

  /** Whatever is read, every payload delivered is clean and decodes. */
  lemma {:induction false} OnlyCleanPayloadsAreRead(decodes: string -> bool, text: string)
    ensures AllGood(decodes, Read(decodes, text).payloads)
    decreases |text|
  {
    if text != "" && Fits(text) {
      OnlyCleanPayloadsAreRead(decodes, AfterLine(text));
      var verdict := FirstVerdict(text);
      if verdict.Payload? {
        LinePayloadIsClean(text[..LineEnd(text)]);
        if decodes(verdict.text) {
          OneMoreGood(decodes, verdict.text, Read(decodes, AfterLine(text)).payloads);
        }
      }
    }
  }

  // ----- Round trip -----

  lemma {:induction false} FirstLine(line: string, rest: string)
    requires '\n' !in line
    ensures LineEnd(line + "\n" + rest) == |line|
    ensures (line + "\n" + rest)[..|line|] == line && AfterLine(line + "\n" + rest) == rest
    decreases |line|
  {
    var text := line + "\n" + rest;
    if line != "" {
      FirstLine(line[1..], rest);
      assert text[1..] == line[1..] + "\n" + rest;
    }
  }

  lemma TrimKeepsData(p: string)
    requires p != "" && !IsSpace(p[|p| - 1])
    ensures TrimSpace(DataPrefix() + p) == DataPrefix() + p
  {
    var s := DataPrefix() + p;
    assert s[0] == 'd' && s[|s| - 1] == p[|p| - 1];
  }

  lemma {:induction false} TrimRightKeepsFirst(s: string)
    requires s != "" && !IsSpace(s[0])
    ensures TrimRight(s) != "" && TrimRight(s)[0] == s[0]
    decreases |s|
  {
    if IsSpace(s[|s| - 1]) {
      TrimRightKeepsFirst(s[..|s| - 1]);
    }
  }

  lemma FirstOfPrefix(s: string, prefix: string)
    ensures HasPrefix(s, prefix) && prefix != "" ==> s != "" && s[0] == prefix[0]
  {
    if HasPrefix(s, prefix) && prefix != "" {
      assert s[0] == s[..|prefix|][0];
    }
  }

  /** An event line is skipped. */
  lemma EventLineIsSkipped(decodes: string -> bool, event: string, rest: string)
    requires '\n' !in event && Bytes("event: " + event) <= MAX_LINE
    ensures Read(decodes, "event: " + event + "\n" + rest) == Read(decodes, rest)
  {
    var line := "event: " + event;
    forall k | 0 <= k < |line| ensures line[k] != '\n' {
      assert k < 7 ==> line[k] == "event: "[k];
    }
    FirstLine(line, rest);
    assert line[0] == 'e';
    TrimRightKeepsFirst(line);
    var trimmed := TrimSpace(line);
    assert trimmed[0] == 'e';
    FirstOfPrefix(trimmed, DataPrefix());
    assert DataPrefix()[0] == 'd';
  }

  lemma BlankLineIsSkipped(decodes: string -> bool, rest: string)
    ensures Read(decodes, "\n" + rest) == Read(decodes, rest)
  {
    FirstLine("", rest);
    assert "" + "\n" + rest == "\n" + rest;
    assert TrimSpace("") == "";
  }

  lemma DataLineIsRead(decodes: string -> bool, p: string, rest: string)
    requires p != "" && '\n' !in p && !IsSpace(p[|p| - 1]) && Bytes(p) + 6 <= MAX_LINE
    ensures Read(decodes, DataPrefix() + p + "\n" + rest)
            == if p == Done() then Reading([], None)
               else if !decodes(p) then Reading([], Some(p))
               else var more := Read(decodes, rest); more.(payloads := [p] + more.payloads)
  {
    var line := DataPrefix() + p;
    forall k | 0 <= k < |line| ensures line[k] != '\n' {
      if k < 6 {
        assert line[k] == DataPrefix()[k];
      }
    }
    FirstLine(line, rest);
    DataPrefixIsShort();
    BytesOfSum(DataPrefix(), p);
    TrimKeepsData(p);
    assert line[..6] == DataPrefix() && line[6..] == p && line[0] == 'd';
    assert !HasPrefix(line, ":");
  }

  predicate OneLine(event: string) {
    '\n' !in event && Bytes("event: " + event) <= MAX_LINE
  }

  lemma EventPartIsSkipped(decodes: string -> bool, event: string, rest: string)
    requires OneLine(event)
    ensures Read(decodes, EventPart(event) + rest) == Read(decodes, rest)
  {
    if event != "" {
      EventLineIsSkipped(decodes, event, rest);
    } else {
      assert "" + rest == rest;
    }
  }

  lemma DataPartIsRead(decodes: string -> bool, p: string, rest: string)
    requires p != "" && '\n' !in p && !IsSpace(p[|p| - 1]) && Bytes(p) + 6 <= MAX_LINE
    ensures Read(decodes, DataPart(p) + rest)
            == if p == Done() then Reading([], None)
               else if !decodes(p) then Reading([], Some(p))
               else var more := Read(decodes, rest); more.(payloads := [p] + more.payloads)
  {
    Regroups(DataPrefix() + p + "\n", "\n", rest);
    DataLineIsRead(decodes, p, "\n" + rest);
    BlankLineIsSkipped(decodes, rest);
  }

  lemma FrameIsRead(decodes: string -> bool, item: Item, rest: string)
    requires OneLine(item.event) && Clean(item.payload) && decodes(item.payload)
    ensures var more := Read(decodes, rest);
            Read(decodes, Frame(item) + rest) == more.(payloads := [item.payload] + more.payloads)
  {
    Regroups(EventPart(item.event), DataPart(item.payload), rest);
    EventPartIsSkipped(decodes, item.event, DataPart(item.payload) + rest);
    DataPartIsRead(decodes, item.payload, rest);
  }

  lemma DoneIsTheEnd(decodes: string -> bool, rest: string)
    ensures Read(decodes, DoneFrame() + rest) == Reading([], None)
  {
    var s := Done();
    assert s[..5] == "[DONE" && "[DONE"[..4] == "[DON" && "[DON"[..3] == "[DO";
    assert "[DO"[..2] == "[D" && "[D"[..1] == "[" && "["[..0] == "";
    assert Bytes("[") == 1 && Bytes("[D") == 2 && Bytes("[DO") == 3;
    assert Bytes("[DON") == 4 && Bytes("[DONE") == 5 && Bytes(s) == 6;
    DataPartIsRead(decodes, s, rest);
  }

  function Payloads(items: seq<Item>): (ps: seq<string>)
    ensures |ps| == |items| && forall i | 0 <= i < |ps| :: ps[i] == items[i].payload
    decreases |items|
  {
    if items == [] then [] else [items[0].payload] + Payloads(items[1..])
  }

  predicate Deliverable(decodes: string -> bool, items: seq<Item>) {
    forall i | 0 <= i < |items| :: Clean(items[i].payload) && decodes(items[i].payload)
  }

  lemma {:induction false} DeliverableIsRead(decodes: string -> bool, items: seq<Item>, rest: string)
    requires (forall i | 0 <= i < |items| :: OneLine(items[i].event)) && Deliverable(decodes, items)
    ensures Read(decodes, Framed(items) + DoneFrame() + rest) == Reading(Payloads(items), None)
    decreases |items|
  {
    if items == [] {
      assert Framed(items) + DoneFrame() + rest == DoneFrame() + rest;
      DoneIsTheEnd(decodes, rest);
    } else {
      DeliverableIsRead(decodes, items[1..], rest);
      FrameIsRead(decodes, items[0], Framed(items[1..]) + DoneFrame() + rest);
      Regroups(Frame(items[0]), Framed(items[1..]), DoneFrame());
      Regroups(Frame(items[0]), Framed(items[1..]) + DoneFrame(), rest);
    }
  }

  /**
   * Reading back what was written, terminator and anything after it included, gives the payloads sent and no failure
   * exactly when every payload is clean and decodes, whatever one-line event names were used.
   */
  lemma ReadsBackExactlyWhen(decodes: string -> bool, items: seq<Item>, rest: string)
    requires forall i | 0 <= i < |items| :: OneLine(items[i].event)
    ensures Read(decodes, Framed(items) + DoneFrame() + rest) == Reading(Payloads(items), None)
            <==> Deliverable(decodes, items)
  {
    var text := Framed(items) + DoneFrame() + rest;
    OnlyCleanPayloadsAreRead(decodes, text);
    if Deliverable(decodes, items) {
      DeliverableIsRead(decodes, items, rest);
    }
    if Read(decodes, text) == Reading(Payloads(items), None) {
      forall i | 0 <= i < |items| ensures Clean(items[i].payload) && decodes(items[i].payload) {
        assert Read(decodes, text).payloads[i] == items[i].payload;
      }
    }
  }

  /** A failing input: a payload equal to the terminator ends the stream, and what was sent after it is lost. */
  lemma TerminatorPayloadIsLost(decodes: string -> bool, after: Item)
    ensures Read(decodes, Framed([Item("", Done()), after]) + DoneFrame()) == Reading([], None)
  {
    var items := [Item("", Done()), after];
    assert Framed(items) == Frame(items[0]) + Framed(items[1..]);
    assert Frame(items[0]) == DoneFrame();
    Regroups(DoneFrame(), Framed(items[1..]), DoneFrame());
    DoneIsTheEnd(decodes, Framed(items[1..]) + DoneFrame());
  }
}
