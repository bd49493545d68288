/**
 What the event-stream reader makes of the lines of one event, whatever fields they hold and in whatever order:
 the last event name, the data lines joined by line feeds, the last id.
 */
module EventFields {
  import opened Protocol
  import opened EventStream

  /** A line that is not blank, as a server may write it; a space after the colon is optional. */
  datatype FieldLine =
    | NameLine(value: string, space: bool)
    | DataLine(value: string, space: bool)
    | IdLine(value: string, space: bool)
    | Comment(text: string)
    | OtherLine(text: string)

  function Written(name: string, value: string, space: bool): string { name + (if space then ": " else ":") + value }

  function Shown(x: FieldLine): string {
    match x
    case NameLine(v, sp) => Written("event", v, sp)
    case DataLine(v, sp) => Written("data", v, sp)
    case IdLine(v, sp) => Written("id", v, sp)
    case Comment(t) => ":" + t
    case OtherLine(t) => t
  }

  predicate Known(x: FieldLine) { x.NameLine? || x.DataLine? || x.IdLine? }

  /**
   One line that fits. Without the optional space a value must not begin with one; other lines name no known
   field.
   */
  predicate Proper(x: FieldLine) {
    && OneLine(Shown(x)) && NoTrailingCR(Shown(x)) && |Shown(x)| + 1 < 65536
    && (Known(x) ==> x.space || x.value == "" || x.value[0] != ' ')
    && (x.OtherLine? ==> x.text != "" && x.text[0] != ':' && FieldName(x.text) !in {"event", "data", "id"})
  }

  /** A line may end in LF or in CR LF. */
  function End(cr: bool): string { if cr then "\r\n" else "\n" }

  /** The lines, each with the ending chosen for it, then the rest of the stream. */
  function Page(xs: seq<FieldLine>, cr: nat -> bool, rest: string): string {
    if xs == [] then rest else Shown(xs[0]) + End(cr(|xs|)) + Page(xs[1..], cr, rest)
  }

  // ---------- what the lines mean ----------

  function LastName(xs: seq<FieldLine>): string {
    if xs == [] then ""
    else if xs[|xs| - 1].NameLine? then xs[|xs| - 1].value
    else LastName(xs[..|xs| - 1])
  }

  function LastId(xs: seq<FieldLine>): string {
    if xs == [] then ""
    else if xs[|xs| - 1].IdLine? then xs[|xs| - 1].value
    else LastId(xs[..|xs| - 1])
  }

  function Datas(xs: seq<FieldLine>): seq<string> {
    if xs == [] then []
    else Datas(xs[..|xs| - 1]) + if xs[|xs| - 1].DataLine? then [xs[|xs| - 1].value] else []
  }

  /** The values, a line feed between any two. */
  function Lines(parts: seq<string>): string {
    if parts == [] then ""
    else if |parts| == 1 then parts[0]
    else Lines(parts[..|parts| - 1]) + "\n" + parts[|parts| - 1]
  }

  predicate AnyField(xs: seq<FieldLine>) { exists i :: 0 <= i < |xs| && Known(xs[i]) }

  // ---------- reading them ----------

  lemma WrittenShape(name: string, value: string, space: bool)
    requires Colon !in name && name != ""
    requires space || value == "" || value[0] != ' '
    ensures var line := Written(name, value, space);
      line != "" && line[0] != Colon && FieldName(line) == name && FieldValue(line) == value
  {
    var line := Written(name, value, space);
    assert line[|name|] == Colon && forall i :: 0 <= i < |name| ==> line[i] == name[i] && name[i] in name;
    IndexAt(line, Colon, |name|);
    assert line[..|name|] == name && name[0] in name;
    if space {
      assert line[|name| + 1] == Space && line[|name| + 2..] == value;
    } else {
      assert line[|name| + 1..] == value;
    }
  }

  /** The fields after one more line. */
  function After(f: Fields, x: FieldLine): Fields {
    match x
    case NameLine(v, _) => f.(event := v, any := true)
    case DataLine(v, _) => f.(data := f.data + [v], any := true)
    case IdLine(v, _) => f.(id := v, any := true)
    case _ => f
  }

  lemma LineFeeds(f: Fields, x: FieldLine)
    requires Proper(x)
    ensures Shown(x) != "" && Feed(f, Shown(x)) == After(f, x)
  {
    match x
    case NameLine(v, sp) => WrittenShape("event", v, sp);
    case DataLine(v, sp) => WrittenShape("data", v, sp);
    case IdLine(v, sp) => WrittenShape("id", v, sp);
    case Comment(t) =>
    case OtherLine(t) =>
  }

  /** What has been read after some lines. */
  function FieldsOf(xs: seq<FieldLine>): Fields { Fields(LastName(xs), Datas(xs), LastId(xs), AnyField(xs)) }

  lemma FieldsNext(xs: seq<FieldLine>, x: FieldLine)
    ensures FieldsOf(xs + [x]) == After(FieldsOf(xs), x)
  {
    assert (xs + [x])[..|xs|] == xs;
    assert AnyField(xs + [x]) <==> AnyField(xs) || Known(x) by {
      assert (xs + [x])[|xs|] == x;
      if AnyField(xs) {
        var i :| 0 <= i < |xs| && Known(xs[i]);
        assert (xs + [x])[i] == xs[i];
      }
    }
  }

  /** The line, whatever it ends in. */
  lemma LineRead(line: string, cr: bool, rest: string)
    requires OneLine(line) && NoTrailingCR(line) && |line| + 1 < 65536
    ensures NextLine(line + End(cr) + rest) == Line(line, rest)
  {
    hide NextLine;
    if cr {
      var l := line + "\r";
      assert l[|l| - 1] == CR && l[..|l| - 1] == line;
      assert forall i :: 0 <= i < |line| ==> line[i] in line;
      LineOf(l, rest);
      assert line + End(cr) + rest == Ln(l, rest);
    } else {
      LineOf(line, rest);
      assert line + End(cr) + rest == Ln(line, rest);
    }
  }

  lemma ProperLine(x: FieldLine)
    requires Proper(x)
    ensures OneLine(Shown(x)) && NoTrailingCR(Shown(x)) && |Shown(x)| + 1 < 65536
  {
  }

  lemma {:induction false} PageRead(pre: seq<FieldLine>, xs: seq<FieldLine>, cr: nat -> bool, rest: string)
    requires forall x :: x in xs ==> Proper(x)
    ensures NextFrom(Page(xs, cr, rest), FieldsOf(pre)) == NextFrom(rest, FieldsOf(pre + xs))
    decreases |xs|
  {
    hide FieldsOf, Shown, Feed, Proper, End, NextLine;
    if xs == [] {
      assert pre + xs == pre;
    } else {
      var x, more := xs[0], Page(xs[1..], cr, rest);
      assert x in xs;
      ProperLine(x);
      LineFeeds(FieldsOf(pre), x);
      LineRead(Shown(x), cr(|xs|), more);
      FieldsNext(pre, x);
      PageRead(pre + [x], xs[1..], cr, rest);
      assert pre + [x] + xs[1..] == pre + xs;
    }
  }

  lemma {:induction false} JoinAppend(parts: seq<string>, x: string)
    ensures Join(parts + [x]) == if parts == [] then x else Join(parts) + "\n" + x
  {
    if parts == [] {
      assert parts + [x] == [x];
    } else {
      assert (parts + [x])[0] == parts[0] && (parts + [x])[1..] == parts[1..] + [x];
      JoinAppend(parts[1..], x);
    }
  }

  lemma {:induction false} JoinIsLines(parts: seq<string>)
    ensures Join(parts) == Lines(parts)
  {
    if |parts| > 1 {
      var front, last := parts[..|parts| - 1], parts[|parts| - 1];
      assert parts == front + [last];
      JoinAppend(front, last);
      JoinIsLines(front);
    }
  }

  /**
   An event is its last name, all its data joined by line feeds and its last id, be it ended by a blank line or
   by the end of the stream; lines that set no field make none. Comments and unknown fields do not matter.
   */
  lemma EventRead(xs: seq<FieldLine>, cr: nat -> bool, rest: string)
    requires forall x :: x in xs ==> Proper(x)
    ensures var ev := Event(LastName(xs), Lines(Datas(xs)), LastId(xs));
      && NextFrom(Page(xs, cr, End(cr(0)) + rest), NoFields) ==
        (if AnyField(xs) then Got(ev, rest) else NextFrom(rest, NoFields))
      && NextFrom(Page(xs, cr, ""), NoFields) == if AnyField(xs) then Got(ev, "") else Ended
  {
    hide NextFrom, Page, FieldsOf, Proper, EventOf, End;
    NothingRead([]);
    assert [] + xs == xs;
    PageRead([], xs, cr, End(cr(0)) + rest);
    PageRead([], xs, cr, "");
    EventIs(xs);
    BlankEnd(cr(0), rest, FieldsOf(xs));
    EndRead(FieldsOf(xs));
    if !AnyField(xs) { NothingRead(xs); }
  }

  lemma EventIs(xs: seq<FieldLine>)
    ensures EventOf(FieldsOf(xs)) == Event(LastName(xs), Lines(Datas(xs)), LastId(xs))
    ensures FieldsOf(xs).any == AnyField(xs)
  {
    JoinIsLines(Datas(xs));
  }

  /** A blank line, whatever it ends in, dispatches what has been read. */
  lemma BlankEnd(cr: bool, rest: string, f: Fields)
    ensures NextFrom(End(cr) + rest, f) == if f.any then Got(EventOf(f), rest) else NextFrom(rest, f)
  {
    LineRead("", cr, rest);
    assert "" + End(cr) + rest == End(cr) + rest;
  }

  lemma EndRead(f: Fields)
    ensures NextFrom("", f) == if f.any then Got(EventOf(f), "") else Ended
  {
  }

  lemma {:induction false} NothingRead(xs: seq<FieldLine>)
    requires !AnyField(xs)
    ensures FieldsOf(xs) == NoFields
  {
    if xs != [] {
      var front := xs[..|xs| - 1];
      assert forall i :: 0 <= i < |front| ==> front[i] == xs[i];
      assert !Known(xs[|xs| - 1]);
      NothingRead(front);
    }
  }
}
