/**
 * The text the admin pages download as a CSV file. The header line is the
 * first record's keys joined by commas; every record gives one line holding,
 * for each header key, JSON.stringify of its value (a null value turned into
 * the empty string first), the cells joined by commas; the lines are joined
 * by line feeds. An empty list produces no file at all.
 *
 * Cells are JSON literals, not RFC 4180 fields: a quotation mark inside a
 * string is written `\"`, not doubled.
 */
module Csv {
  import opened Base
  import opened Js

  /** A plain object: its own keys in insertion order, each with its value. */
  type FlatRecord = seq<(string, JsValue)>

  /** Object.keys(r). */
  function Keys(r: FlatRecord): seq<string> {
    seq(|r|, i requires 0 <= i < |r| => r[i].0)
  }

  /** r[key]: the value stored under key, or undefined when r has no such key. */
  function Get(r: FlatRecord, key: string): (v: JsValue)
    ensures (forall i :: 0 <= i < |r| ==> r[i].0 != key) ==> v == Undefined
    ensures v != Undefined ==> exists i :: 0 <= i < |r| && r[i] == (key, v)
    decreases |r|
  {
    if r == [] then Undefined else if r[0].0 == key then r[0].1 else Get(r[1..], key)
  }

  /** A key that is present yields the value at its first occurrence. */
  lemma {:induction false} GetFirstOccurrence(r: FlatRecord, key: string, i: nat)
    requires i < |r| && r[i].0 == key
    requires forall j :: 0 <= j < i ==> r[j].0 != key
    ensures Get(r, key) == r[i].1
    decreases i
  {
    if i > 0 {
      GetFirstOccurrence(r[1..], key, i - 1);
    }
  }

  /**
   * One cell: JSON.stringify with a replacer that maps null to '', and the
   * `undefined` JSON.stringify returns for a missing value rendered as
   * nothing by Array.prototype.join.
   */
  function Cell(v: JsValue): (c: string)
    ensures v.Undefined? ==> c == ""
    ensures v.Null? ==> c == "\"\""
    ensures v.Str? ==> DecodeString(c) == Some(v.s)
    ensures '\n' !in c
  {
    match v
    case Undefined => ""
    case Null => QuoteString("")
    case Str(s) => DecodeQuoteString(s); StringifyHasNoNewline(v); Stringify(v).value
    case _ => StringifyHasNoNewline(v); Stringify(v).value
  }

  /** The cells of one data line, one per header key and in header order. */
  function Cells(r: FlatRecord, headers: seq<string>): (cells: seq<string>)
    ensures |cells| == |headers|
  {
    seq(|headers|, i requires 0 <= i < |headers| => Cell(Get(r, headers[i])))
  }

  function Row(r: FlatRecord, headers: seq<string>): string {
    Join(',', Cells(r, headers))
  }

  function Rows(data: seq<FlatRecord>, headers: seq<string>): (rows: seq<string>)
    ensures |rows| == |data|
  {
    seq(|data|, i requires 0 <= i < |data| => Row(data[i], headers))
  }

  /** The CSV text downloadCSV builds; None when it refuses an empty list. */
  function DownloadCsv(data: seq<FlatRecord>): (text: Option<string>)
    ensures text.None? <==> |data| == 0
  {
    if |data| == 0 then None
    else
      var headers := Keys(data[0]);
      Some(Join('\n', [Join(',', headers)] + Rows(data, headers)))
  }

  /** A data line never holds a raw line feed. */
  lemma RowHasNoNewline(r: FlatRecord, headers: seq<string>)
    ensures '\n' !in Row(r, headers)
  {
    var cells := Cells(r, headers);
    assert forall i :: 0 <= i < |cells| ==> '\n' !in cells[i];
    JoinAvoids(cells, ',', '\n');
  }

  /**
   * For N records the text splits at line feeds into exactly N + 1 lines:
   * the header line (the first record's keys, comma-joined) and then line
   * i + 1 for record i, whose cells follow the header keys.
   */
  lemma DownloadCsvLines(data: seq<FlatRecord>)
    requires |data| > 0
    requires forall k :: k in Keys(data[0]) ==> '\n' !in k
    ensures DownloadCsv(data).Some?
    ensures var lines := Split(DownloadCsv(data).value, '\n');
      && |lines| == |data| + 1
      && lines[0] == Join(',', Keys(data[0]))
      && forall i :: 0 <= i < |data| ==> lines[i + 1] == Row(data[i], Keys(data[0]))
  {
    var headers := Keys(data[0]);
    var parts := [Join(',', headers)] + Rows(data, headers);
    JoinAvoids(headers, ',', '\n');
    forall i | 0 <= i < |data|
      ensures '\n' !in Rows(data, headers)[i]
    {
      RowHasNoNewline(data[i], headers);
    }
    assert forall i :: 0 <= i < |parts| ==> '\n' !in parts[i];
    SplitJoin(parts, '\n');
  }

  /** Adding a key that is not among the headers leaves a record's line unchanged. */
  lemma RowIgnoresUnlistedKey(r: FlatRecord, headers: seq<string>, key: string, v: JsValue)
    requires key !in headers
    ensures Row(r + [(key, v)], headers) == Row(r, headers)
  {
    forall i | 0 <= i < |headers|
      ensures Get(r + [(key, v)], headers[i]) == Get(r, headers[i])
    {
      GetPastOtherKey(r, headers[i], key, v);
    }
    assert Cells(r + [(key, v)], headers) == Cells(r, headers);
  }

  lemma {:induction false} GetPastOtherKey(r: FlatRecord, h: string, key: string, v: JsValue)
    requires h != key
    ensures Get(r + [(key, v)], h) == Get(r, h)
    decreases |r|
  {
    if r != [] {
      assert (r + [(key, v)])[1..] == r[1..] + [(key, v)];
      GetPastOtherKey(r[1..], h, key, v);
    }
  }
}
