/** Content-Length framing of debug adapter messages, read from a byte stream that arrives in pieces. */
module DebugFraming {
  import opened ByteStrings
  import opened Wrappers

  const NEWLINE: Byte := 10

  // What the reader takes from Python: strict UTF-8 decoding and int(), None where they raise.
  datatype Python = Python(decode: Bytes -> Option<string>, toInt: string -> Option<int>)

  ghost predicate Behaves(py: Python) {
    && (forall text: string :: IsAscii(text) ==> py.decode(Ascii(text)) == Some(text))
    && (forall n: nat :: py.toInt(Decimal(n)) == Some(n))
  }

  // --- text ---------------------------------------------------------------------

  predicate IsAscii(text: string) {
    forall i :: 0 <= i < |text| ==> text[i] < '\U{80}'
  }

  function Ascii(text: string): (b: Bytes)
    requires IsAscii(text)
  {
    seq(|text|, i requires 0 <= i < |text| => text[i] as int)
  }

  function Decimal(n: nat): (text: string)
    ensures |text| > 0 && forall i :: 0 <= i < |text| ==> '0' <= text[i] <= '9'
  {
    var digit := ('0' as int + n % 10) as char;
    if n < 10 then [digit] else Decimal(n / 10) + [digit]
  }

  predicate IsSpace(c: char) {
    || '\t' <= c <= '\r' || '\U{1c}' <= c <= ' ' || c == '\U{85}' || c == '\U{a0}' || c == '\U{1680}'
    || '\U{2000}' <= c <= '\U{200a}' || c == '\U{2028}' || c == '\U{2029}' || c == '\U{202f}'
    || c == '\U{205f}' || c == '\U{3000}'
  }

  function StripLeft(text: string): string {
    if text != "" && IsSpace(text[0]) then StripLeft(text[1..]) else text
  }

  function StripRight(text: string): string {
    if text != "" && IsSpace(text[|text| - 1]) then StripRight(text[..|text| - 1]) else text
  }

  function Strip(text: string): string {
    StripRight(StripLeft(text))
  }

  // rstrip("\r\n")
  function ChopLine(text: string): string {
    if text != "" && (text[|text| - 1] == '\r' || text[|text| - 1] == '\n') then ChopLine(text[..|text| - 1]) else text
  }

  // Letters outside ASCII never lower to a letter of the one name that is looked up.
  function Lower(text: string): string {
    seq(|text|, i requires 0 <= i < |text| =>
      if 'A' <= text[i] <= 'Z' then (text[i] as int + 32) as char else text[i])
  }

  function Find(text: string, c: char): (k: nat)
    ensures k <= |text| && (k < |text| ==> text[k] == c) && forall i :: 0 <= i < k ==> text[i] != c
  {
    if text == "" || text[0] == c then 0
    else
      var k := Find(text[1..], c);
      assert forall i :: 0 < i < k + 1 ==> text[i] == text[1..][i - 1];
      k + 1
  }

  // Such functions exist: these two, for instance.
  function Digits(text: string): Option<int> {
    if text == "" then Some(0)
    else
      var c, front := text[|text| - 1], Digits(text[..|text| - 1]);
      if front.Some? && '0' <= c <= '9' then Some(front.value * 10 + (c as int - '0' as int)) else None
  }

  function FromAscii(s: Bytes): Option<string> {
    if forall i :: 0 <= i < |s| ==> s[i] < 128 then
      Some(seq(|s|, i requires 0 <= i < |s| => s[i] as char))
    else None
  }

  lemma {:induction false} DigitsOfDecimal(n: nat)
    ensures Digits(Decimal(n)) == Some(n)
  {
    var c := ('0' as int + n % 10) as char;
    if n < 10 {
      assert Decimal(n) == [c];
      assert [c][..0] == "";
    } else {
      DigitsOfDecimal(n / 10);
      assert (Decimal(n / 10) + [c])[..|Decimal(n / 10)|] == Decimal(n / 10);
    }
  }

  lemma SomethingBehaves()
    ensures Behaves(Python(FromAscii, Digits))
  {
    forall text: string | IsAscii(text)
      ensures FromAscii(Ascii(text)) == Some(text)
    {
      var s := Ascii(text);
      assert forall i :: 0 <= i < |s| ==> s[i] < 128;
      assert seq(|s|, i requires 0 <= i < |s| => s[i] as char) == text;
    }
    forall n: nat
      ensures Digits(Decimal(n)) == Some(n)
    {
      DigitsOfDecimal(n);
    }
  }

  // --- reading one message ----------------------------------------------------------

  // Wait: more bytes have to arrive. Got: a message. End: no message (end of the stream, or
  // no positive length). Broken: an exception ends the read loop.
  datatype Outcome = Wait | Got(body: Bytes, rest: Bytes) | End | Broken

  function LineEnd(s: Bytes): (k: nat)
    ensures k <= |s| && (forall i :: 0 <= i < k ==> s[i] != NEWLINE) && (k < |s| ==> s[k] == NEWLINE)
  {
    if s == [] || s[0] == NEWLINE then 0
    else
      var k := LineEnd(s[1..]);
      assert forall i :: 0 < i < k + 1 ==> s[i] == s[1..][i - 1];
      k + 1
  }

  // The value of the last Content-Length seen, "0" if there is none.
  function Header(length: string, line: string): string {
    var colon := Find(line, ':');
    if colon < |line| && Lower(Strip(line[..colon])) == "content-length" then Strip(line[colon + 1..]) else length
  }

  function ReadBody(py: Python, s: Bytes, eof: bool, length: string): (o: Outcome)
    ensures o.Got? ==> o.body != [] && s == o.body + o.rest
  {
    match py.toInt(length)
    case None => Broken
    case Some(n) =>
      if n <= 0 then End
      else if n <= |s| then Got(s[..n], s[n..])
      else if eof then Broken else Wait
  }

  // One line of the header: either the outcome, or the reading goes on behind it.
  datatype Step = Done(outcome: Outcome) | Next(rest: Bytes, length: string)

  function ReadLine(py: Python, s: Bytes, eof: bool, length: string): (step: Step)
    ensures step.Next? ==> |step.rest| < |s|
    ensures step.Done? && step.outcome.Got? ==> |step.outcome.rest| < |s|
  {
    var k := LineEnd(s);
    if k == |s| && !eof then Done(Wait)
    else if s == [] then Done(End)
    else
      var line, rest := if k < |s| then s[..k + 1] else s, if k < |s| then s[k + 1..] else [];
      match py.decode(line)
      case None => Done(Broken)
      case Some(text) =>
        var chopped := ChopLine(text);
        if chopped == "" then Done(ReadBody(py, rest, eof, length)) else Next(rest, Header(length, chopped))
  }

  function ReadFrom(py: Python, s: Bytes, eof: bool, length: string): (o: Outcome)
    ensures o.Got? ==> |o.rest| < |s|
    decreases |s|
  {
    var step := ReadLine(py, s, eof, length);
    if step.Next? then ReadFrom(py, step.rest, eof, step.length) else step.outcome
  }

  function ReadOne(py: Python, s: Bytes, eof: bool): (o: Outcome)
    ensures o.Got? ==> |o.rest| < |s|
  {
    ReadFrom(py, s, eof, "0")
  }

  /** `_read_message`: header lines up to an empty one, then as many bytes as they announce. */
  method ReadMessage(py: Python, s: Bytes, eof: bool) returns (o: Outcome)
    ensures o == ReadOne(py, s, eof)
  {
    var length, buffer := "0", s;
    while true
      invariant ReadOne(py, s, eof) == ReadFrom(py, buffer, eof, length)
      decreases |buffer|
    {
      match ReadLine(py, buffer, eof, length)
      case Done(outcome) => return outcome;
      case Next(rest, value) => buffer, length := rest, value;
    }
  }

  // --- what `_send` writes is what is read ----------------------------------------------

  const FIELD := "Content-Length"

  function FieldLine(n: nat): (line: string)
    ensures IsAscii(line)
  {
    FIELD + (": " + Decimal(n)) + "\r\n"
  }

  // `_send`: one message on the wire.
  function Frame(body: Bytes): Bytes {
    Ascii(FieldLine(|body|)) + Ascii("\r\n") + body
  }

  function Wire(bodies: seq<Bytes>): Bytes {
    if bodies == [] then [] else Frame(bodies[0]) + Wire(bodies[1..])
  }

  lemma FindBehind(name: string, rest: string, c: char)
    requires c !in name && rest != "" && rest[0] == c
    ensures Find(name + rest, c) == |name|
    ensures (name + rest)[..|name|] == name && (name + rest)[|name| + 1..] == rest[1..]
  {
    assert (name + rest)[|name|] == c;
    assert forall i :: 0 <= i < |name| ==> (name + rest)[i] == name[i] && name[i] in name;
  }

  lemma LineEndAt(s: Bytes, k: nat)
    requires k < |s| && s[k] == NEWLINE && forall i :: 0 <= i < k ==> s[i] != NEWLINE
    ensures LineEnd(s) == k
  {
  }

  lemma DigitsStayPut(n: nat)
    ensures Strip(" " + Decimal(n)) == Decimal(n)
  {
    var text := " " + Decimal(n);
    assert text[1..] == Decimal(n);
    assert StripLeft(text) == StripLeft(text[1..]) == Decimal(n);
  }

  lemma FieldName()
    ensures Strip(FIELD) == FIELD && Lower(FIELD) == "content-length"
  {
    assert !IsSpace(FIELD[0]) && !IsSpace(FIELD[13]);
    assert |FIELD| == |"content-length"| == 14;
  }

  lemma NoColon()
    ensures ':' !in FIELD && '\n' !in FIELD
  {
  }

  lemma LengthField(name: string, value: string, length: string)
    requires ':' !in name && Lower(Strip(name)) == "content-length"
    ensures Header(length, name + (": " + value)) == Strip(" " + value)
  {
    FindBehind(name, ": " + value, ':');
    assert (": " + value)[1..] == " " + value;
  }

  lemma FieldRead(n: nat, length: string)
    ensures Header(length, FIELD + (": " + Decimal(n))) == Decimal(n)
  {
    NoColon();
    FieldName();
    LengthField(FIELD, Decimal(n), length);
    DigitsStayPut(n);
  }

  lemma Chopped(text: string)
    requires text != "" ==> text[|text| - 1] != '\r' && text[|text| - 1] != '\n'
    ensures ChopLine(text + "\r\n") == text
  {
    var line := text + "\r\n";
    assert line[..|line| - 1] == text + "\r";
    assert (text + "\r")[..|text|] == text;
    assert ChopLine(line) == ChopLine(text + "\r") == ChopLine(text);
  }

  // The two header lines, one after the other.
  lemma HeaderLines(py: Python, n: nat, s: Bytes, eof: bool, length: string)
    requires Behaves(py)
    ensures ReadFrom(py, Ascii("\r\n") + s, eof, length) == ReadBody(py, s, eof, length)
    ensures ReadFrom(py, Ascii(FieldLine(n)) + s, eof, length) == ReadFrom(py, s, eof, Decimal(n))
  {
    OneLine(py, "\r\n", s, eof, length);
    Chopped("");
    var line := FIELD + (": " + Decimal(n));
    assert line[|line| - 1] == Decimal(n)[|Decimal(n)| - 1];
    NoColon();
    assert forall i :: 0 <= i < |FIELD| ==> FIELD[i] in FIELD;
    OneLine(py, FieldLine(n), s, eof, length);
    Chopped(line);
    assert FieldLine(n) == line + "\r\n";
    FieldRead(n, length);
  }

  lemma OneLine(py: Python, line: string, s: Bytes, eof: bool, length: string)
    requires Behaves(py) && IsAscii(line) && line != "" && line[|line| - 1] == '\n'
    requires forall i :: 0 <= i < |line| - 1 ==> line[i] != '\n'
    ensures ReadFrom(py, Ascii(line) + s, eof, length) ==
            var chopped := ChopLine(line);
            if chopped == "" then ReadBody(py, s, eof, length) else ReadFrom(py, s, eof, Header(length, chopped))
  {
    var all := Ascii(line) + s;
    LineEndAt(all, |line| - 1);
    assert all[..|line|] == Ascii(line) && all[|line|..] == s;
  }

  lemma FrameRead(py: Python, body: Bytes, rest: Bytes, eof: bool)
    requires Behaves(py) && |body| > 0
    ensures ReadOne(py, Frame(body) + rest, eof) == Got(body, rest)
  {
    var n := |body|;
    assert Frame(body) + rest == Ascii(FieldLine(n)) + (Ascii("\r\n") + (body + rest));
    HeaderLines(py, n, Ascii("\r\n") + (body + rest), eof, "0");
    HeaderLines(py, n, body + rest, eof, Decimal(n));
    assert (body + rest)[..n] == body && (body + rest)[n..] == rest;
  }

  // --- reading everything there is ------------------------------------------------------

  // The messages read, why the reading stopped, and the bytes it stopped at.
  datatype Drained = Drained(bodies: seq<Bytes>, stop: Outcome, left: Bytes)

  function Behind(body: Bytes, d: Drained): Drained {
    Drained([body] + d.bodies, d.stop, d.left)
  }

  function Drain(py: Python, s: Bytes, eof: bool): (d: Drained)
    ensures !d.stop.Got?
    decreases |s|
  {
    var o := ReadOne(py, s, eof);
    if o.Got? then
      Behind(o.body, Drain(py, o.rest, eof))
    else Drained([], o, s)
  }

  lemma DrainOne(py: Python, s: Bytes, eof: bool, o: Outcome)
    requires ReadOne(py, s, eof) == o
    ensures Drain(py, s, eof) == if o.Got? then Behind(o.body, Drain(py, o.rest, eof)) else Drained([], o, s)
  {
  }

  // An outcome reached on part of the stream stands when more arrives.
  lemma {:induction false} MoreBytes(py: Python, s: Bytes, more: Bytes, eof: bool, length: string)
    requires !ReadFrom(py, s, false, length).Wait?
    ensures var o := ReadFrom(py, s, false, length);
            ReadFrom(py, s + more, eof, length) == if o.Got? then Got(o.body, o.rest + more) else o
    decreases |s|
  {
    var k, all := LineEnd(s), s + more;
    LineEndAt(all, k);
    var line, rest := s[..k + 1], s[k + 1..];
    assert all[..k + 1] == line && all[k + 1..] == rest + more;
    var text := py.decode(line);
    if text.Some? {
      var chopped := ChopLine(text.value);
      if chopped == "" {
        MoreBody(py, rest, more, eof, length);
      } else {
        MoreBytes(py, rest, more, eof, Header(length, chopped));
      }
    }
  }

  lemma MoreBody(py: Python, s: Bytes, more: Bytes, eof: bool, length: string)
    requires !ReadBody(py, s, false, length).Wait?
    ensures var o := ReadBody(py, s, false, length);
            ReadBody(py, s + more, eof, length) == if o.Got? then Got(o.body, o.rest + more) else o
  {
    var n := py.toInt(length);
    if n.Some? && 0 < n.value <= |s| {
      assert (s + more)[..n.value] == s[..n.value];
      assert (s + more)[n.value..] == s[n.value..] + more;
    }
  }

  // `now` is what one reading gave, `later` a second one that started where it waited,
  // `all` a single reading of everything.
  predicate Joins(now: Drained, later: Drained, all: Drained) {
    if now.stop.Wait? then all == Drained(now.bodies + later.bodies, later.stop, later.left)
    else all.bodies == now.bodies && all.stop == now.stop
  }

  lemma JoinsBehind(body: Bytes, now: Drained, later: Drained, all: Drained)
    requires Joins(now, later, all)
    ensures Joins(Behind(body, now), later, Behind(body, all))
  {
    assert [body] + (now.bodies + later.bodies) == ([body] + now.bodies) + later.bodies;
  }

  lemma JoinsWaiting(s: Bytes, later: Drained)
    ensures Joins(Drained([], Wait, s), later, later)
  {
    assert [] + later.bodies == later.bodies;
  }

  lemma ReadMore(py: Python, s: Bytes, more: Bytes, eof: bool, o: Outcome)
    requires ReadOne(py, s, false) == o && !o.Wait?
    ensures ReadOne(py, s + more, eof) == if o.Got? then Got(o.body, o.rest + more) else o
  {
    MoreBytes(py, s, more, eof, "0");
  }

  /** Whatever the bytes, it does not matter how they are cut: reading what has arrived and
      then the rest gives the messages, and the stop, of reading everything at once. */
  lemma {:induction false} ChunksDoNotMatter(py: Python, s: Bytes, more: Bytes, eof: bool)
    ensures var now := Drain(py, s, false);
            Joins(now, Drain(py, now.left + more, eof), Drain(py, s + more, eof))
    decreases |s|
  {
    var o := ReadOne(py, s, false);
    DrainOne(py, s, false, o);
    if o.Wait? {
      JoinsWaiting(s, Drain(py, s + more, eof));
    } else {
      ReadMore(py, s, more, eof, o);
      if o.Got? {
        DrainOne(py, s + more, eof, Got(o.body, o.rest + more));
        ChunksDoNotMatter(py, o.rest, more, eof);
        var now := Drain(py, o.rest, false);
        JoinsBehind(o.body, now, Drain(py, now.left + more, eof), Drain(py, o.rest + more, eof));
      } else {
        DrainOne(py, s + more, eof, o);
      }
    }
  }

  lemma DrainNothing(py: Python, eof: bool)
    ensures Drain(py, [], eof) == Drained([], if eof then End else Wait, [])
  {
  }

  predicate NonEmpty(bodies: seq<Bytes>) {
    forall i :: 0 <= i < |bodies| ==> |bodies[i]| > 0
  }

  /** Reading the frames of any list of non-empty bodies returns that list, and then waits or ends. */
  lemma {:induction false} WireRoundTrip(py: Python, bodies: seq<Bytes>, eof: bool)
    requires Behaves(py) && NonEmpty(bodies)
    ensures Drain(py, Wire(bodies), eof) == Drained(bodies, if eof then End else Wait, [])
    decreases |bodies|
  {
    if bodies == [] {
      DrainNothing(py, eof);
    } else {
      var body, rest := bodies[0], bodies[1..];
      FrameRead(py, body, Wire(rest), eof);
      DrainOne(py, Frame(body) + Wire(rest), eof, Got(body, Wire(rest)));
      WireRoundTrip(py, rest, eof);
      assert bodies == [body] + rest;
    }
  }

  /** At any moment the messages read are the first ones sent, and the rest is still to come. */
  lemma PartOfTheWire(py: Python, bodies: seq<Bytes>, s: Bytes, more: Bytes)
    requires Behaves(py) && NonEmpty(bodies) && s + more == Wire(bodies)
    ensures var d := Drain(py, s, false);
            && d.stop == Wait && d.bodies <= bodies
            && Drain(py, d.left + more, true) == Drained(bodies[|d.bodies|..], End, [])
  {
    WireRoundTrip(py, bodies, false);
    WireRoundTrip(py, bodies, true);
    ChunksDoNotMatter(py, s, more, false);
    ChunksDoNotMatter(py, s, more, true);
  }
}
