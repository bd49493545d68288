/** Hourly production buckets: what the tracker adds up from counter deltas. */
module HourlyCounts {

  datatype Anomaly = Normal | Reset | Jump

  datatype Delta = Delta(line: nat, style: nat, delta: int, anomaly: Anomaly)

  datatype Key = Key(line: nat, style: nat, date: string, hour: int)

  /** A table row; the key columns are unique. */
  datatype Bucket = Bucket(key: Key, delta: int)

  /** INSERT ... ON CONFLICT DO UPDATE: add to the row of the key, or make it. */
  function Upsert(rows: seq<Bucket>, key: Key, delta: int): seq<Bucket> {
    if rows == [] then [Bucket(key, delta)]
    else if rows[0].key == key then [Bucket(key, rows[0].delta + delta)] + rows[1..]
    else [rows[0]] + Upsert(rows[1..], key, delta)
  }

  predicate Counts(d: Delta) { d.line != 0 && d.style != 0 && d.anomaly != Reset }

  /** A delta and the date and hour at which it is handled. */
  datatype Handled = Handled(delta: Delta, date: string, hour: int)

  function KeyOf(h: Handled): Key { Key(h.delta.line, h.delta.style, h.date, h.hour) }

  function Handle(rows: seq<Bucket>, h: Handled): seq<Bucket> {
    if Counts(h.delta) then Upsert(rows, KeyOf(h), h.delta.delta) else rows
  }

  function HandleAll(rows: seq<Bucket>, hs: seq<Handled>): seq<Bucket> {
    if hs == [] then rows else Handle(HandleAll(rows, hs[..|hs| - 1]), hs[|hs| - 1])
  }

  /** Where the first row of the key is, if there is one, is where the upsert happens. */
  lemma {:induction false} UpsertAt(rows: seq<Bucket>, key: Key, delta: int, i: nat)
    requires i <= |rows| && (forall j :: 0 <= j < i ==> rows[j].key != key) && (i < |rows| ==> rows[i].key == key)
    ensures Upsert(rows, key, delta) ==
      if i < |rows| then rows[i := Bucket(key, rows[i].delta + delta)] else rows + [Bucket(key, delta)]
  {
    if i > 0 {
      var first, rest := rows[0], rows[1..];
      UpsertAt(rest, key, delta, i - 1);
      if i < |rows| {
        SetSecond(first, rest, i - 1, Bucket(key, rows[i].delta + delta));
      } else {
        AppendSecond(first, rest, Bucket(key, delta));
      }
      assert rows == [first] + rest;
    }
  }

  lemma SetSecond(first: Bucket, rest: seq<Bucket>, i: nat, b: Bucket)
    requires i < |rest|
    ensures [first] + rest[i := b] == ([first] + rest)[i + 1 := b]
  {
  }

  lemma AppendSecond(first: Bucket, rest: seq<Bucket>, b: Bucket)
    ensures [first] + (rest + [b]) == [first] + rest + [b]
  {
  }

  class Tracker {
    var rows: seq<Bucket>

    constructor ()
      ensures rows == []
    {
      rows := [];
    }

    method UpsertHourlyCount(key: Key, delta: int)
      modifies this
      ensures rows == Upsert(old(rows), key, delta)
    {
      var i := 0;
      while i < |rows| && rows[i].key != key
        invariant 0 <= i <= |rows|
        invariant forall j :: 0 <= j < i ==> rows[j].key != key
      {
        i := i + 1;
      }
      UpsertAt(rows, key, delta, i);
      if i < |rows| {
        rows := rows[i := Bucket(key, rows[i].delta + delta)];
      } else {
        rows := rows + [Bucket(key, delta)];
      }
    }

    method HandleDelta(h: Handled)
      modifies this
      ensures rows == Handle(old(rows), h)
    {
      if h.delta.line == 0 || h.delta.style == 0 { return; }
      if h.delta.anomaly == Reset { return; }
      UpsertHourlyCount(KeyOf(h), h.delta.delta);
    }
  }

  // ---------- totals ----------

  /** Total of the buckets of a line and style. */
  function Total(rows: seq<Bucket>, line: nat, style: nat): int {
    if rows == [] then 0
    else
      var k := rows[0].key;
      (if k.line == line && k.style == style then rows[0].delta else 0) + Total(rows[1..], line, style)
  }

  /** Total of the deltas of a line and style with a given kind of anomaly. */
  function Emitted(hs: seq<Handled>, line: nat, style: nat, resets: bool): int {
    if hs == [] then 0
    else
      var d := hs[|hs| - 1].delta;
      Emitted(hs[..|hs| - 1], line, style, resets)
      + if d.line == line && d.style == style && (d.anomaly == Reset) == resets then d.delta else 0
  }

  /** Total of all deltas of a line and style. */
  function AllEmitted(hs: seq<Handled>, line: nat, style: nat): int {
    if hs == [] then 0
    else
      var d := hs[|hs| - 1].delta;
      AllEmitted(hs[..|hs| - 1], line, style) + if d.line == line && d.style == style then d.delta else 0
  }

  lemma {:induction false} UpsertTotal(rows: seq<Bucket>, key: Key, delta: int, line: nat, style: nat)
    ensures Total(Upsert(rows, key, delta), line, style) ==
      Total(rows, line, style) + if key.line == line && key.style == style then delta else 0
  {
    if rows != [] && rows[0].key != key {
      UpsertTotal(rows[1..], key, delta, line, style);
      assert Upsert(rows, key, delta)[1..] == Upsert(rows[1..], key, delta);
    } else if rows != [] {
      assert Upsert(rows, key, delta)[1..] == rows[1..];
    }
  }

  lemma {:induction false} EmittedSplit(hs: seq<Handled>, line: nat, style: nat)
    ensures AllEmitted(hs, line, style) == Emitted(hs, line, style, false) + Emitted(hs, line, style, true)
  {
    if hs != [] { EmittedSplit(hs[..|hs| - 1], line, style); }
  }

  /** Per line and style, the buckets hold what was emitted less what came from resets. */
  lemma {:induction false} BucketsHoldEmitted(rows: seq<Bucket>, hs: seq<Handled>, line: nat, style: nat)
    requires line != 0 && style != 0
    ensures Total(HandleAll(rows, hs), line, style) ==
      Total(rows, line, style) + AllEmitted(hs, line, style) - Emitted(hs, line, style, true)
  {
    if hs != [] {
      var front, h := hs[..|hs| - 1], hs[|hs| - 1];
      BucketsHoldEmitted(rows, front, line, style);
      UpsertTotal(HandleAll(rows, front), KeyOf(h), h.delta.delta, line, style);
    }
    EmittedSplit(hs, line, style);
  }

  predicate UniqueKeys(rows: seq<Bucket>) { forall i, j :: 0 <= i < j < |rows| ==> rows[i].key != rows[j].key }

  lemma {:induction false} UpsertUnique(rows: seq<Bucket>, key: Key, delta: int)
    requires UniqueKeys(rows)
    ensures var r := Upsert(rows, key, delta);
      UniqueKeys(r) && forall b :: b in r ==> b.key == key || exists i :: 0 <= i < |rows| && rows[i].key == b.key
  {
    if rows != [] && rows[0].key != key {
      UpsertUnique(rows[1..], key, delta);
      var tail := Upsert(rows[1..], key, delta);
      forall j | 0 <= j < |tail| ensures tail[j].key != rows[0].key {
        assert tail[j] in tail;
        if tail[j].key != key {
          var i :| 0 <= i < |rows[1..]| && rows[1..][i].key == tail[j].key;
          assert rows[i + 1].key == tail[j].key;
        }
      }
      forall b | b in Upsert(rows, key, delta) && b.key != key
        ensures exists i :: 0 <= i < |rows| && rows[i].key == b.key {
        if b in tail {
          var i :| 0 <= i < |rows[1..]| && rows[1..][i].key == b.key;
          assert rows[i + 1].key == b.key;
        } else {
          assert rows[0].key == b.key;
        }
      }
    }
  }

  /** No hour of a line and style ever has two buckets. */
  lemma {:induction false} OneBucketPerHour(hs: seq<Handled>)
    ensures UniqueKeys(HandleAll([], hs))
  {
    if hs != [] {
      var front, h := hs[..|hs| - 1], hs[|hs| - 1];
      OneBucketPerHour(front);
      UpsertUnique(HandleAll([], front), KeyOf(h), h.delta.delta);
    }
  }

  // ---------- every delta in its own hour ----------

  /** Total of the rows of one line, style, date and hour. */
  function InHour(rows: seq<Bucket>, line: nat, style: nat, date: string, hour: int): int {
    if rows == [] then 0
    else
      var k := rows[0].key;
      InHour(rows[1..], line, style, date, hour)
      + if k.line == line && k.style == style && k.date == date && k.hour == hour then rows[0].delta else 0
  }

  predicate Belongs(d: Delta, line: nat, style: nat) { d.line == line && d.style == style && d.anomaly != Reset }

  /** What was handled for a line and style at a date and hour, resets left out. */
  function HandledIn(hs: seq<Handled>, line: nat, style: nat, date: string, hour: int): int {
    if hs == [] then 0
    else
      var h := hs[|hs| - 1];
      HandledIn(hs[..|hs| - 1], line, style, date, hour)
      + if h.date == date && h.hour == hour && Belongs(h.delta, line, style) then h.delta.delta else 0
  }

  lemma {:induction false} UpsertInHour(rows: seq<Bucket>, key: Key, delta: int, line: nat, style: nat, date: string,
                                        hour: int)
    ensures InHour(Upsert(rows, key, delta), line, style, date, hour) ==
      InHour(rows, line, style, date, hour) + if key == Key(line, style, date, hour) then delta else 0
  {
    if rows != [] && rows[0].key != key {
      UpsertInHour(rows[1..], key, delta, line, style, date, hour);
      assert Upsert(rows, key, delta)[1..] == Upsert(rows[1..], key, delta);
    } else if rows != [] {
      assert Upsert(rows, key, delta)[1..] == rows[1..];
    }
  }

  /** Every delta that counts lands in the bucket of its line, style, date and hour, and in no other. */
  lemma {:induction false} EachInItsHour(rows: seq<Bucket>, hs: seq<Handled>, line: nat, style: nat, date: string,
                                         hour: int)
    requires line != 0 && style != 0
    ensures InHour(HandleAll(rows, hs), line, style, date, hour) ==
      InHour(rows, line, style, date, hour) + HandledIn(hs, line, style, date, hour)
  {
    hide Upsert, InHour;
    if hs != [] {
      var front, h := hs[..|hs| - 1], hs[|hs| - 1];
      EachInItsHour(rows, front, line, style, date, hour);
      UpsertInHour(HandleAll(rows, front), KeyOf(h), h.delta.delta, line, style, date, hour);
    }
  }

  /** Deltas without a line or style make no bucket. */
  lemma {:induction false} NoNamelessBucket(hs: seq<Handled>)
    ensures forall b :: b in HandleAll([], hs) ==> b.key.line != 0 && b.key.style != 0
  {
    if hs != [] {
      var front, h := hs[..|hs| - 1], hs[|hs| - 1];
      NoNamelessBucket(front);
      UpsertIn(HandleAll([], front), KeyOf(h), h.delta.delta);
    }
  }

  lemma {:induction false} UpsertIn(rows: seq<Bucket>, key: Key, delta: int)
    ensures forall b :: b in Upsert(rows, key, delta) ==> b.key == key || b in rows
  {
    if rows != [] && rows[0].key != key { UpsertIn(rows[1..], key, delta); }
  }
}
