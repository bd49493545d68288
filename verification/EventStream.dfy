/**
 Server-sent events: the edge's reader of an event stream and the printer its own event hub uses.
 Strings stand for byte sequences. The line and field rules are those of sections 9.2.5 and 9.2.6 of the
 WHATWG HTML Standard, except that a pending event is dispatched at the end of input, an id is
 forgotten between events, and a line must fit the scanner's buffer.
 */
module EventStream {
  import opened Protocol

  const MaxToken: nat := 65536
  const LF: char := '\n'
  const CR: char := '\r'
  const Colon: char := ':'
  const Space: char := ' '

  // ---------- lines ----------

  /** Position of the first `c`, or the length if there is none. */
  function IndexOf(s: string, c: char): (n: nat)
    ensures n <= |s| && (n < |s| ==> s[n] == c)
  {
    if s == "" || s[0] == c then 0 else 1 + IndexOf(s[1..], c)
  }

  lemma {:induction false} IndexAt(s: string, c: char, n: nat)
    requires n < |s| && s[n] == c && forall i :: 0 <= i < n ==> s[i] != c
    ensures IndexOf(s, c) == n
  {
    if n > 0 { IndexAt(s[1..], c, n - 1); }
  }

  function DropCR(s: string): string {
    if s != "" && s[|s| - 1] == CR then s[..|s| - 1] else s
  }

  datatype Scan = Line(text: string, rest: string) | TooLong | AtEnd

  /** The next line: up to LF or the end, less one trailing CR. It must leave room for the LF in the buffer. */
  function NextLine(s: string): (r: Scan)
    ensures r.Line? ==> |r.rest| < |s|
  {
    if s == "" then AtEnd
    else
      var n := IndexOf(s, LF);
      if n >= MaxToken then TooLong
      else Line(DropCR(s[..n]), if n < |s| then s[n + 1..] else "")
  }

  // ---------- fields ----------

  datatype Event = Event(event: string, data: string, id: string)

  datatype Fields = Fields(event: string, data: seq<string>, id: string, any: bool)

  const NoFields: Fields := Fields("", [], "", false)

  function Join(parts: seq<string>): string {
    if parts == [] then "" else if |parts| == 1 then parts[0] else parts[0] + "\n" + Join(parts[1..])
  }

  function EventOf(f: Fields): Event { Event(f.event, Join(f.data), f.id) }

  function FieldName(line: string): string { line[..IndexOf(line, Colon)] }

  function FieldValue(line: string): string {
    var n := IndexOf(line, Colon);
    if n == |line| then ""
    else if n + 1 < |line| && line[n + 1] == Space then line[n + 2..]
    else line[n + 1..]
  }

  /** A line that is not blank: a comment, a known field, or one to ignore. */
  function Feed(f: Fields, line: string): Fields
    requires line != ""
  {
    if line[0] == Colon then f
    else if FieldName(line) == "event" then f.(event := FieldValue(line), any := true)
    else if FieldName(line) == "data" then f.(data := f.data + [FieldValue(line)], any := true)
    else if FieldName(line) == "id" then f.(id := FieldValue(line), any := true)
    else f
  }

  // ---------- events ----------

  datatype Result = Got(event: Event, rest: string) | Ended | Broken

  /** The next event of a stream of which fields `f` have been read already. */
  function NextFrom(s: string, f: Fields): (r: Result)
    ensures r.Got? ==> |r.rest| < |s| || (s == "" && f.any)
    decreases |s|
  {
    match NextLine(s)
    case AtEnd => if f.any then Got(EventOf(f), "") else Ended
    case TooLong => Broken
    case Line(text, rest) =>
      if text != "" then NextFrom(rest, Feed(f, text))
      else if f.any then Got(EventOf(f), rest)
      else NextFrom(rest, f)
  }

  datatype Stream = Stream(events: seq<Event>, failed: bool)

  /** What calling `Next` until it returns an error yields. */
  function Parse(s: string): Stream
    decreases |s|
  {
    match NextFrom(s, NoFields)
    case Ended => Stream([], false)
    case Broken => Stream([], true)
    case Got(ev, rest) => Stream([ev] + Parse(rest).events, Parse(rest).failed)
  }

  datatype Reply = Event1(event: Event) | Eof | ScanError

  /** `rest` is what the scanner has yet to yield: the input's remainder or, once it has failed, its full buffer. */
  class Reader {
    var rest: string
    var failed: bool

    ghost predicate Valid()
      reads this
    {
      failed ==> rest == "" || (|rest| == MaxToken && LF !in rest)
    }

    constructor (input: string)
      ensures Valid() && rest == input && !failed
    {
      rest, failed := input, false;
    }

    /** Scanning once more after an oversized line yields the full buffer as one line; then nothing more comes. */
    method ScanLine() returns (line: Option<string>)
      requires Valid()
      modifies this
      ensures Valid()
      ensures old(failed) ==>
        failed && rest == "" && line == if old(rest) == "" then None else Some(DropCR(old(rest)))
      ensures !old(failed) ==>
        match NextLine(old(rest))
        case Line(text, r) => line == Some(text) && rest == r && !failed
        case TooLong => line == None && failed && rest == old(rest)[..MaxToken]
        case AtEnd => line == None && !failed && rest == old(rest)
    {
      line := None;
      if rest == "" { return; }
      if failed {
        line, rest := Some(DropCR(rest)), "";
        return;
      }
      var n := IndexOf(rest, LF);
      if n >= MaxToken {
        IndexFirst(rest, LF);
        rest, failed := rest[..MaxToken], true;
        return;
      }
      line := Some(DropCR(rest[..n]));
      rest := if n < |rest| then rest[n + 1..] else "";
    }

    method Next() returns (r: Reply)
      requires Valid()
      modifies this
      ensures Valid()
      ensures old(failed) ==> r == ScanError && failed && rest == ""
      ensures !old(failed) ==>
        match NextFrom(old(rest), NoFields)
        case Got(ev, left) => r == Event1(ev) && rest == left && !failed
        case Ended => r == Eof && rest == "" && !failed
        case Broken => r == ScanError && failed
    {
      var event, dataParts, id, hasFields := "", [], "", false;
      var line := ScanLine();
      while line.Some?
        invariant Valid()
        invariant old(failed) ==> failed && rest == "" && line != Some("")
        invariant !old(failed) ==>
          var f := Fields(event, dataParts, id, hasFields);
          NextFrom(old(rest), NoFields) ==
            if failed then Broken
            else if line == None then (if hasFields then Got(EventOf(f), "") else Ended)
            else if line.value != "" then NextFrom(rest, Feed(f, line.value))
            else if hasFields then Got(EventOf(f), rest)
            else NextFrom(rest, f)
        invariant line == None && !failed ==> rest == ""
        invariant !old(failed) && line.Some? ==> !failed
        decreases line.Some?, |rest|
      {
        if line.value == "" {
          if hasFields { return Event1(Event(event, Join(dataParts), id)); }
        } else if line.value[0] != Colon {
          var value := FieldValue(line.value);
          var field := FieldName(line.value);
          if field == "event" { event, hasFields := value, true; }
          else if field == "data" { dataParts, hasFields := dataParts + [value], true; }
          else if field == "id" { id, hasFields := value, true; }
        }
        line := ScanLine();
      }
      if failed { return ScanError; }
      if hasFields { return Event1(Event(event, Join(dataParts), id)); }
      return Eof;
    }
  }

  // ---------- the printer ----------

  datatype Chunk = Frame(event: string, data: string) | Keepalive

  function Ln(line: string, rest: string): string { line + "\n" + rest }

  function FieldText(name: string, value: string): string { name + ": " + value }

  /** What is printed for a chunk, line by line. */
  function Text(c: Chunk): string {
    match c
    case Frame(event, data) => Ln(FieldText("event", event), Ln(FieldText("data", data), Ln("", "")))
    case Keepalive => Ln(": keepalive", Ln("", ""))
  }

  function Print(chunks: seq<Chunk>): string {
    if chunks == [] then "" else Text(chunks[0]) + Print(chunks[1..])
  }

  /** One connection of the event hub: what has been written to the client. */
  class Connection {
    var written: string

    constructor ()
      ensures written == ""
    {
      written := "";
    }

    method Write(c: Chunk)
      modifies this
      ensures written == old(written) + Text(c)
    {
      match c
      case Frame(event, data) =>
        FrameFormat(event, data);
        written := written + ("event: " + event + "\ndata: " + data + "\n\n");
      case Keepalive =>
        written := written + ": keepalive\n\n";
    }

    /** A greeting, then events and keepalives as they come. */
    method HandleSSE(chunks: seq<Chunk>)
      modifies this
      ensures written == old(written) + Print([Frame("connected", "{}")] + chunks)
    {
      ghost var all := [Frame("connected", "{}")] + chunks;
      assert old(written) + Print(all[..0]) == old(written);
      PrintNext(old(written), all, 0);
      Write(Frame("connected", "{}"));
      for i := 0 to |chunks|
        invariant written == old(written) + Print(all[..i + 1])
      {
        PrintNext(old(written), all, i + 1);
        Write(chunks[i]);
      }
      assert all[..|all|] == all;
    }
  }

  lemma PrintNext(w: string, all: seq<Chunk>, i: nat)
    requires i < |all|
    ensures (w + Print(all[..i])) + Text(all[i]) == w + Print(all[..i + 1])
  {
    assert all[..i + 1] == all[..i] + [all[i]];
    PrintAppend(all[..i], all[i]);
  }

  lemma FrameFormat(event: string, data: string)
    ensures Text(Frame(event, data)) == "event: " + event + "\ndata: " + data + "\n\n"
  {
    var x, y := "event: " + event, "data: " + data;
    assert FieldText("event", event) == x && FieldText("data", data) == y;
    assert Ln("", "") == "\n";
    assert Ln(y, "\n") == y + "\n\n";
    assert "\ndata: " == "\n" + "data: ";
    assert x + "\n" + (y + "\n\n") == x + "\ndata: " + data + "\n\n";
  }

  lemma ConcatAssoc(a: string, b: string, c: string)
    ensures a + (b + c) == a + b + c
  {
  }

  lemma {:induction false} PrintAppend(chunks: seq<Chunk>, c: Chunk)
    ensures Print(chunks + [c]) == Print(chunks) + Text(c)
  {
    hide Text;
    if chunks == [] {
      assert [] + [c] == [c] && [c][1..] == [];
      assert Text(c) + "" == Text(c) == "" + Text(c);
    } else {
      var first, rest := chunks[0], chunks[1..];
      assert (chunks + [c])[1..] == rest + [c] && (chunks + [c])[0] == first;
      PrintAppend(rest, c);
      ConcatAssoc(Text(first), Print(rest), Text(c));
    }
  }

  // ---------- parsing distributes at blank lines ----------

  /** Every line is terminated and the last one is blank. */
  predicate EndsBlank(s: string)
    decreases |s|
  {
    var n := IndexOf(s, LF);
    n < |s| && (if n + 1 == |s| then DropCR(s[..n]) == "" else EndsBlank(s[n + 1..]))
  }

  lemma {:induction false} IndexFirst(s: string, c: char)
    ensures forall i :: 0 <= i < IndexOf(s, c) ==> s[i] != c
  {
    if s != "" && s[0] != c { IndexFirst(s[1..], c); }
  }

  /** In particular anything followed by two line feeds. */
  lemma {:induction false} TwoLineFeedsEndBlank(s: string)
    ensures EndsBlank(s + "\n\n")
    decreases |s|
  {
    var t := s + "\n\n";
    IndexFirst(s, LF);
    var n := IndexOf(s, LF);
    assert forall i :: 0 <= i < |s| ==> t[i] == s[i];
    IndexAt(t, LF, n);
    if n < |s| {
      assert t[n + 1..] == s[n + 1..] + "\n\n";
      TwoLineFeedsEndBlank(s[n + 1..]);
    } else {
      assert t[n + 1..] == "\n";
      IndexAt("\n", LF, 0);
    }
  }

  lemma {:induction false} IndexConcat(a: string, b: string, c: char)
    requires IndexOf(a, c) < |a|
    ensures IndexOf(a + b, c) == IndexOf(a, c)
  {
    if a[0] != c {
      assert (a + b)[1..] == a[1..] + b;
      IndexConcat(a[1..], b, c);
    }
  }

  lemma SliceConcat(a: string, b: string, n: nat)
    requires n < |a|
    ensures (a + b)[..n] == a[..n] && (a + b)[n + 1..] == a[n + 1..] + b
  {
  }

  /** The same line, with more to follow. */
  function LineThen(x: Scan, more: string): Scan { if x.Line? then Line(x.text, x.rest + more) else x }

  lemma LineAt(s: string, n: nat)
    requires n == IndexOf(s, LF) < |s|
    ensures NextLine(s) == if n >= MaxToken then TooLong else Line(DropCR(s[..n]), s[n + 1..])
  {
    hide DropCR, IndexOf;
  }

  lemma LineConcat(a: string, b: string)
    requires IndexOf(a, LF) < |a|
    ensures NextLine(a + b) == LineThen(NextLine(a), b)
  {
    hide DropCR, IndexOf, NextLine;
    var n := IndexOf(a, LF);
    IndexConcat(a, b, LF);
    SliceConcat(a, b, n);
    LineAt(a, n);
    LineAt(a + b, n);
  }

  predicate Tidy(f: Fields) { !f.any ==> f == NoFields }

  lemma FeedTidy(f: Fields, line: string)
    requires Tidy(f) && line != ""
    ensures Tidy(Feed(f, line))
  {
  }

  /** The first line of a text that ends with a blank one. */
  lemma BlankEnds(s: string)
    requires EndsBlank(s)
    ensures IndexOf(s, LF) < |s| && !NextLine(s).AtEnd? && NextLine("") == AtEnd
    ensures var x := NextLine(s); x.Line? ==> if x.rest == "" then x.text == "" else EndsBlank(x.rest)
  {
    hide DropCR, IndexOf;
  }

  /** A stream cut at a blank line: the first part is read as it would be on its own. */
  lemma {:induction false} NextConcat(a: string, b: string, f: Fields)
    requires EndsBlank(a) && Tidy(f)
    ensures var x := NextFrom(a, f);
      && (x.Got? ==> NextFrom(a + b, f) == Got(x.event, x.rest + b) && (x.rest == "" || EndsBlank(x.rest)))
      && (x.Ended? ==> NextFrom(a + b, f) == NextFrom(b, NoFields))
      && (x.Broken? ==> NextFrom(a + b, f) == Broken)
    decreases |a|
  {
    hide NextLine, EndsBlank, IndexOf, DropCR, Feed, EventOf;
    BlankEnds(a);
    LineConcat(a, b);
    var x := NextLine(a);
    if x.Line? {
      if x.text != "" { FeedTidy(f, x.text); }
      var f1 := if x.text == "" then f else Feed(f, x.text);
      if x.rest == "" {
        assert x.rest + b == b;
      } else if x.text != "" || !f.any {
        NextConcat(x.rest, b, f1);
      }
    }
  }

  /** What is read from two streams in turn: nothing more once the first has failed. */
  function Then(x: Stream, y: Stream): Stream {
    if x.failed then x else Stream(x.events + y.events, y.failed)
  }

  function Cons(ev: Event, x: Stream): Stream { Stream([ev] + x.events, x.failed) }

  lemma ConsThen(ev: Event, x: Stream, y: Stream)
    ensures Then(Cons(ev, x), y) == Cons(ev, Then(x, y))
  {
    assert ([ev] + x.events) + y.events == [ev] + (x.events + y.events);
  }

  /** Parsing distributes over concatenation at a blank line, up to the first oversized line. */
  lemma {:induction false} ParseConcat(a: string, b: string)
    requires a == "" || EndsBlank(a)
    ensures Parse(a + b) == Then(Parse(a), Parse(b))
    decreases |a|
  {
    assert [] + Parse(b).events == Parse(b).events;
    if a == "" {
      assert a + b == b;
    } else {
      NextConcat(a, b, NoFields);
      var r := NextFrom(a, NoFields);
      match r
      case Got(ev, rest) =>
        ParseConcat(rest, b);
        ConsThen(ev, Parse(rest), Parse(b));
        assert Parse(a) == Cons(ev, Parse(rest)) && Parse(a + b) == Cons(ev, Parse(rest + b));
      case Ended =>
      case Broken =>
    }
  }

  // ---------- parsing what was printed ----------

  predicate OneLine(s: string) { LF !in s }

  /** One line and what follows it. */
  lemma LineOf(line: string, rest: string)
    requires OneLine(line)
    ensures NextLine(Ln(line, rest)) == if |line| >= MaxToken then TooLong else Line(DropCR(line), rest)
  {
    var s := Ln(line, rest);
    assert s[|line|] == LF && forall i :: 0 <= i < |line| ==> s[i] == line[i] && line[i] in line;
    IndexAt(s, LF, |line|);
    assert s[..|line|] == line && s[|line| + 1..] == rest;
  }

  lemma LnConcat(line: string, a: string, b: string)
    ensures Ln(line, a) + b == Ln(line, a + b)
  {
  }

  lemma FieldShape(name: string, value: string)
    requires Colon !in name
    ensures var line := FieldText(name, value);
      && |line| == |name| + 2 + |value| && IndexOf(line, Colon) == |name|
      && line[..|name|] == name && line[|name| + 2..] == value && line[|name| + 1] == Space
  {
    var line := FieldText(name, value);
    assert line[|name|] == Colon && forall i :: 0 <= i < |name| ==> line[i] == name[i] && name[i] in name;
    IndexAt(line, Colon, |name|);
  }

  lemma FieldParts(name: string, value: string)
    requires Colon !in name && name != ""
    ensures var line := FieldText(name, value);
      FieldName(line) == name && FieldValue(line) == value && line != "" && line[0] != Colon
  {
    FieldShape(name, value);
    assert FieldText(name, value)[0] == name[0] && name[0] in name;
  }

  lemma FieldCR(name: string, value: string)
    ensures DropCR(FieldText(name, value)) == FieldText(name, DropCR(value))
  {
    var line := FieldText(name, value);
    if value == "" {
      assert line[|line| - 1] == Space;
    } else {
      assert line[|line| - 1] == value[|value| - 1];
      assert line[..|line| - 1] == FieldText(name, value[..|value| - 1]);
    }
  }

  function WithField(f: Fields, name: string, value: string): Fields {
    if name == "event" then f.(event := value, any := true)
    else if name == "data" then f.(data := f.data + [value], any := true)
    else f
  }

  /** Reading a printed field line. */
  lemma FieldRead(name: string, value: string, rest: string, f: Fields)
    requires (name == "event" || name == "data") && OneLine(value)
    ensures NextFrom(Ln(FieldText(name, value), rest), f) ==
      if |name| + 2 + |value| >= MaxToken then Broken else NextFrom(rest, WithField(f, name, DropCR(value)))
  {
    FieldShape(name, value);
    LineOf(FieldText(name, value), rest);
    FieldCR(name, value);
    FieldParts(name, DropCR(value));
  }

  /** A blank line dispatches what has been read. */
  lemma BlankRead(rest: string, f: Fields)
    ensures NextFrom(Ln("", rest), f) == if f.any then Got(EventOf(f), rest) else NextFrom(rest, f)
  {
    LineOf("", rest);
  }

  predicate Fits(c: Chunk) { c.Frame? ==> |c.event| + 7 < 65536 && |c.data| + 6 < 65536 }

  predicate Printable(c: Chunk) { c.Frame? ==> OneLine(c.event) && OneLine(c.data) }

  /** What the reader makes of a chunk: a trailing CR is lost to the line rule. */
  function Received(c: Chunk): seq<Event> {
    if c.Frame? then [Event(DropCR(c.event), DropCR(c.data), "")] else []
  }

  function AllReceived(chunks: seq<Chunk>): seq<Event> {
    if chunks == [] then [] else Received(chunks[0]) + AllReceived(chunks[1..])
  }

  /** The chunks before the first oversized one. */
  function FittingPrefix(chunks: seq<Chunk>): seq<Chunk> {
    if chunks == [] || !Fits(chunks[0]) then [] else [chunks[0]] + FittingPrefix(chunks[1..])
  }

  lemma FrameConcat(event: string, data: string, rest: string)
    ensures Text(Frame(event, data)) + rest == Ln(FieldText("event", event), Ln(FieldText("data", data), Ln("", rest)))
  {
    LnConcat(FieldText("event", event), Ln(FieldText("data", data), Ln("", "")), rest);
    LnConcat(FieldText("data", data), Ln("", ""), rest);
    BlankConcat(rest);
  }

  lemma BlankConcat(rest: string)
    ensures Ln("", "") + rest == Ln("", rest)
  {
    LnConcat("", "", rest);
    assert "" + rest == rest;
  }

  lemma ChunkRead(c: Chunk, rest: string)
    requires Printable(c)
    ensures NextFrom(Text(c) + rest, NoFields) ==
      if !Fits(c) then Broken else if c.Frame? then Got(Received(c)[0], rest) else NextFrom(rest, NoFields)
  {
    match c
    case Frame(event, data) =>
      FrameConcat(event, data, rest);
      var f := WithField(NoFields, "event", DropCR(event));
      FieldRead("event", event, Ln(FieldText("data", data), Ln("", rest)), NoFields);
      FieldRead("data", data, Ln("", rest), f);
      BlankRead(rest, WithField(f, "data", DropCR(data)));
      assert WithField(f, "data", DropCR(data)).data == [DropCR(data)];
    case Keepalive =>
      LnConcat(": keepalive", Ln("", ""), rest);
      BlankConcat(rest);
      LineOf(": keepalive", Ln("", rest));
      BlankRead(rest, NoFields);
  }

  /**
   Whatever one-line events are printed, the reader returns those before the first oversized one, then fails
   or ends.
   */
  lemma {:induction false} PrintedIsParsed(chunks: seq<Chunk>)
    requires forall c :: c in chunks ==> Printable(c)
    ensures Parse(Print(chunks)) == Stream(AllReceived(FittingPrefix(chunks)), exists c :: c in chunks && !Fits(c))
  {
    if chunks != [] {
      var c, rest := chunks[0], chunks[1..];
      assert c in chunks && (forall x :: x in chunks <==> x == c || x in rest);
      PrintedIsParsed(rest);
      ChunkRead(c, Print(rest));
      if Fits(c) {
        assert FittingPrefix(chunks)[1..] == FittingPrefix(rest);
      }
    }
  }

  predicate NoTrailingCR(s: string) { s == "" || s[|s| - 1] != '\r' }

  /** The frames as events. */
  function Sent(chunks: seq<Chunk>): seq<Event> {
    if chunks == [] then []
    else (if chunks[0].Frame? then [Event(chunks[0].event, chunks[0].data, "")] else []) + Sent(chunks[1..])
  }

  predicate Clean(c: Chunk) { c.Frame? ==> NoTrailingCR(c.event) && NoTrailingCR(c.data) }

  lemma InCons(c: Chunk, rest: seq<Chunk>)
    ensures (forall x :: x in [c] + rest ==> Clean(x)) <==> Clean(c) && forall x :: x in rest ==> Clean(x)
  {
    assert c in [c] + rest;
    forall x | x in rest ensures x in [c] + rest {}
  }

  lemma ConsEqual(a: Event, s: seq<Event>, b: Event, t: seq<Event>)
    ensures [a] + s == [b] + t <==> a == b && s == t
  {
    assert ([a] + s)[0] == a && ([a] + s)[1..] == s && ([b] + t)[0] == b && ([b] + t)[1..] == t;
  }

  lemma {:induction false} ReceivedIsSent(chunks: seq<Chunk>)
    ensures |AllReceived(chunks)| == |Sent(chunks)|
    ensures AllReceived(chunks) == Sent(chunks) <==> forall c :: c in chunks ==> Clean(c)
  {
    if chunks != [] {
      var c, rest := chunks[0], chunks[1..];
      ReceivedIsSent(rest);
      InCons(c, rest);
      assert chunks == [c] + rest;
      if c.Frame? {
        ConsEqual(Received(c)[0], AllReceived(rest), Event(c.event, c.data, ""), Sent(rest));
        assert AllReceived(chunks) == Received(c) + AllReceived(rest) == [Received(c)[0]] + AllReceived(rest);
        assert Sent(chunks) == [Event(c.event, c.data, "")] + Sent(rest);
        assert Clean(c) <==> Received(c)[0] == Event(c.event, c.data, "");
      } else {
        assert Clean(c) && [] + AllReceived(rest) == AllReceived(rest) && [] + Sent(rest) == Sent(rest);
      }
    }
  }

  lemma {:induction false} AllFit(chunks: seq<Chunk>)
    ensures (forall c :: c in chunks ==> Fits(c)) ==> FittingPrefix(chunks) == chunks
  {
    if chunks != [] {
      assert forall x :: x in chunks <==> x == chunks[0] || x in chunks[1..];
      AllFit(chunks[1..]);
    }
  }

  /** For one-line events the parser undoes the printer exactly when every line fits the buffer and none ends in CR. */
  lemma ParserUndoesPrinter(chunks: seq<Chunk>)
    requires forall c :: c in chunks ==> Printable(c)
    ensures Parse(Print(chunks)) == Stream(Sent(chunks), false) <==> forall c :: c in chunks ==> Fits(c) && Clean(c)
  {
    PrintedIsParsed(chunks);
    AllFit(chunks);
    ReceivedIsSent(chunks);
  }

  // ---------- data over several lines ----------

  /** The data lines of an event, followed by the rest of the stream. */
  function DataLines(parts: seq<string>, rest: string): string {
    if parts == [] then rest else Ln(FieldText("data", parts[0]), DataLines(parts[1..], rest))
  }

  function WithData(f: Fields, parts: seq<string>): Fields {
    if parts == [] then f else f.(data := f.data + parts, any := true)
  }

  lemma WithDataCons(f: Fields, parts: seq<string>)
    requires parts != []
    ensures WithData(WithField(f, "data", parts[0]), parts[1..]) == WithData(f, parts)
  {
    assert (f.data + [parts[0]]) + parts[1..] == f.data + parts;
  }

  lemma {:induction false} DataRead(parts: seq<string>, rest: string, f: Fields)
    requires forall p :: p in parts ==> OneLine(p) && NoTrailingCR(p) && |p| + 6 < MaxToken
    ensures NextFrom(DataLines(parts, rest), f) == NextFrom(rest, WithData(f, parts))
    decreases |parts|
  {
    if parts != [] {
      assert parts[0] in parts;
      FieldRead("data", parts[0], DataLines(parts[1..], rest), f);
      WithDataCons(f, parts);
      DataRead(parts[1..], rest, WithField(f, "data", parts[0]));
    }
  }

  /** Data spread over several lines comes back joined by LF, wherever in a stream the event stands. */
  lemma MultiLineData(event: string, parts: seq<string>, rest: string)
    requires OneLine(event) && NoTrailingCR(event) && |event| + 7 < MaxToken
    requires forall p :: p in parts ==> OneLine(p) && NoTrailingCR(p) && |p| + 6 < MaxToken
    ensures NextFrom(Ln(FieldText("event", event), DataLines(parts, Ln("", rest))), NoFields) ==
      Got(Event(event, Join(parts), ""), rest)
  {
    var f := WithField(NoFields, "event", event);
    FieldRead("event", event, DataLines(parts, Ln("", rest)), NoFields);
    DataRead(parts, Ln("", rest), f);
    assert WithData(f, parts) == Fields(event, parts, "", true) by { assert [] + parts == parts; }
    BlankRead(rest, WithData(f, parts));
  }
}
