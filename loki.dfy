/** The log fetcher: the pagination cursor of `_query_loki` and the line
    extraction of `_extract_lines`. The HTTP query itself is the parameter
    `backend`, which maps the start of a query to the page of streams it returns. */
module Loki {
  import opened Wrappers
  import opened PyStr
  import opened Seqs

  /** One `[timestamp, message]` pair of a stream; the timestamp is in nanoseconds. */
  datatype Entry = Entry(ts: int, msg: string)

  /** One stream of a `query_range` result; its labels play no part. */
  datatype Stream = Stream(values: seq<Entry>)

  type Page = seq<Stream>

  /** The backend, for a fixed query, end and limit: start -> page. */
  type Backend = int -> Page

  /** The start of the next query: one past the timestamp of the last value of
      the page's last stream; `None` when that stream has no values (an IndexError). */
  function NextStart(page: Page): (r: Option<int>)
    requires page != []
    ensures r.None? <==> page[|page| - 1].values == []
  {
    var vs := page[|page| - 1].values;
    if vs == [] then None else Some(vs[|vs| - 1].ts + 1)
  }

  /** A page whose last entry is no older than the start it was asked for. */
  predicate Advances(page: Page, start: int) {
    page == [] || NextStart(page).None? || NextStart(page).value > start
  }

  /** The backend never answers with a last entry older than the requested start. */
  ghost predicate Respects(backend: Backend) {
    forall start :: Advances(backend(start), start)
  }

  /** Every entry of the page is at or after `start`, as a range query promises. */
  predicate Within(page: Page, start: int) {
    forall i, j :: 0 <= i < |page| && 0 <= j < |page[i].values| ==> page[i].values[j].ts >= start
  }

  /** A backend that honours the start of every range query lets the cursor advance. */
  lemma WithinAdvances(backend: Backend)
    requires forall start :: Within(backend(start), start)
    ensures Respects(backend)
  {
  }

  function Prepend(page: Page, rest: Option<seq<Stream>>): Option<seq<Stream>> {
    match rest
    case None => None
    case Some(ss) => Some(page + ss)
  }

  lemma PrependTwice(a: Page, b: Page, rest: Option<seq<Stream>>)
    ensures Prepend(a, Prepend(b, rest)) == Prepend(a + b, rest)
    ensures Prepend([], rest) == rest
  {
    if rest.Some? {
      assert a + (b + rest.value) == (a + b) + rest.value;
      assert [] + rest.value == rest.value;
    }
  }

  /** What `_query_loki(cur, end)` returns: `None` when it raises. */
  function Fetched(backend: Backend, cur: int, end: int): Option<seq<Stream>>
    requires Respects(backend)
    decreases end - cur
  {
    if cur >= end then Some([])
    else
      var page := backend(cur);
      if page == [] then Some([])
      else
        match NextStart(page)
        case None => None
        case Some(next) =>
          assert Advances(page, cur);
          Prepend(page, Fetched(backend, next, end))
  }

  /** The starts of the queries `_query_loki(cur, end)` sends, in order. */
  function Starts(backend: Backend, cur: int, end: int): seq<int>
    requires Respects(backend)
    decreases end - cur
  {
    if cur >= end then []
    else
      var page := backend(cur);
      if page == [] then [cur]
      else
        match NextStart(page)
        case None => [cur]
        case Some(next) =>
          assert Advances(page, cur);
          [cur] + Starts(backend, next, end)
  }

  /** The pages returned for the queries `qs`, concatenated in order. */
  function Pages(backend: Backend, qs: seq<int>): seq<Stream>
    decreases |qs|
  {
    if qs == [] then [] else backend(qs[0]) + Pages(backend, qs[1..])
  }

  /** The result is the in-order concatenation of every page fetched; it is an
      error exactly when the last page fetched ends with a stream without values. */
  lemma {:induction false} FetchedIsPages(backend: Backend, cur: int, end: int)
    requires Respects(backend)
    ensures var qs := Starts(backend, cur, end);
      Fetched(backend, cur, end).Some? ==> Fetched(backend, cur, end).value == Pages(backend, qs)
    ensures var qs := Starts(backend, cur, end);
      Fetched(backend, cur, end).None? <==>
        (qs != [] && backend(qs[|qs| - 1]) != [] && NextStart(backend(qs[|qs| - 1])).None?)
    decreases end - cur
  {
    if cur < end {
      var page := backend(cur);
      if page != [] && NextStart(page).Some? {
        var next := NextStart(page).value;
        assert Advances(page, cur);
        FetchedIsPages(backend, next, end);
        var qs := Starts(backend, cur, end);
        assert qs[1..] == Starts(backend, next, end);
        assert Starts(backend, next, end) != [] ==> qs[|qs| - 1] == Starts(backend, next, end)[|qs| - 2];
      }
    }
  }

  /** The cursor: the first query starts at `cur`, each later one one nanosecond
      after the last entry of the previous page, every start lies in [cur, end)
      and the starts strictly increase. */
  lemma {:induction false} StartsChain(backend: Backend, cur: int, end: int)
    requires Respects(backend)
    ensures var qs := Starts(backend, cur, end);
      (qs == [] <==> cur >= end) && (qs != [] ==> qs[0] == cur)
    ensures var qs := Starts(backend, cur, end);
      forall i :: 0 <= i < |qs| ==> cur <= qs[i] < end
    ensures var qs := Starts(backend, cur, end);
      forall i :: 0 <= i < |qs| - 1 ==>
        backend(qs[i]) != [] && NextStart(backend(qs[i])) == Some(qs[i + 1]) && qs[i] < qs[i + 1]
    decreases end - cur
  {
    if cur < end {
      var page := backend(cur);
      if page != [] && NextStart(page).Some? {
        var next := NextStart(page).value;
        assert Advances(page, cur);
        StartsChain(backend, next, end);
        var qs := Starts(backend, cur, end);
        var rest := Starts(backend, next, end);
        assert qs == [cur] + rest;
        forall i | 0 <= i < |qs| - 1
          ensures backend(qs[i]) != [] && NextStart(backend(qs[i])) == Some(qs[i + 1]) && qs[i] < qs[i + 1]
        {
          if i > 0 { assert qs[i] == rest[i - 1] && qs[i + 1] == rest[i]; }
        }
      }
    }
  }

  /** The loop stops after the last query because its page was empty, because
      it raised, or because the next start has reached `end`. */
  lemma {:induction false} StartsStop(backend: Backend, cur: int, end: int)
    requires Respects(backend)
    ensures var qs := Starts(backend, cur, end);
      qs != [] ==>
        var page := backend(qs[|qs| - 1]);
        page == [] || NextStart(page).None? || NextStart(page).value >= end
    decreases end - cur
  {
    if cur < end {
      var page := backend(cur);
      if page != [] && NextStart(page).Some? {
        var next := NextStart(page).value;
        assert Advances(page, cur);
        StartsStop(backend, next, end);
        var qs := Starts(backend, cur, end);
        var rest := Starts(backend, next, end);
        if rest != [] {
          assert qs[|qs| - 1] == rest[|rest| - 1];
        }
      }
    }
  }

  /** A backend over two streams whose first stream ends after the second:
      every page holds the entries at or after the start asked for. */
  function TwoStreams(start: int): Page {
    if start <= 5 then [Stream([Entry(9, "b")]), Stream([Entry(5, "a")])]
    else if start <= 9 then [Stream([Entry(9, "b")])]
    else []
  }

  /** The cursor follows the last value of the last stream, not the latest
      value of the page, so a later value of an earlier stream is fetched again. */
  lemma RefetchLaterEntry()
    ensures Respects(TwoStreams)
    ensures Fetched(TwoStreams, 0, 20) ==
      Some([Stream([Entry(9, "b")]), Stream([Entry(5, "a")]), Stream([Entry(9, "b")])])
  {
    forall start ensures Within(TwoStreams(start), start) {
    }
    WithinAdvances(TwoStreams);
    var late := [Stream([Entry(9, "b")])];
    assert TwoStreams(10) == [];
    assert Fetched(TwoStreams, 10, 20) == Some([]);
    assert TwoStreams(6) == late && NextStart(late) == Some(10);
    assert Fetched(TwoStreams, 6, 20) == Prepend(late, Fetched(TwoStreams, 10, 20));
    assert late + [] == late;
    var first := TwoStreams(0);
    assert NextStart(first) == Some(6);
    assert Fetched(TwoStreams, 0, 20) == Prepend(first, Fetched(TwoStreams, 6, 20));
    assert first + late ==
      [Stream([Entry(9, "b")]), Stream([Entry(5, "a")]), Stream([Entry(9, "b")])];
  }

  /** `_query_loki(start_ns, end_ns)`: `None` when it raises IndexError. */
  method QueryLoki(backend: Backend, startNs: int, endNs: int) returns (r: Option<seq<Stream>>)
    requires Respects(backend)
    ensures r == Fetched(backend, startNs, endNs)
  {
    var allResults: seq<Stream> := [];
    var currentStart := startNs;
    PrependTwice([], [], Fetched(backend, startNs, endNs));
    while currentStart < endNs
      invariant Fetched(backend, startNs, endNs) == Prepend(allResults, Fetched(backend, currentStart, endNs))
      decreases endNs - currentStart
    {
      var result := backend(currentStart);
      if result == [] {
        break;
      }
      var values := result[|result| - 1].values;
      if values == [] {
        assert Fetched(backend, currentStart, endNs) == None;
        return None;
      }
      assert Advances(result, currentStart);
      PrependTwice(allResults, result, Fetched(backend, values[|values| - 1].ts + 1, endNs));
      allResults := allResults + result;
      currentStart := values[|values| - 1].ts + 1;
    }
    assert Fetched(backend, currentStart, endNs) == Some([]);
    assert allResults + [] == allResults;
    r := Some(allResults);
  }

  /** `f"[{ts_iso}] {msg.strip()}"`, with the ISO-8601 formatter as a parameter. */
  function Line(fmt: int -> string, e: Entry): string {
    "[" + fmt(e.ts) + "] " + Strip(e.msg)
  }

  /** The line one value contributes: none when its message is blank after `strip()`. */
  function EntryLine(fmt: int -> string, e: Entry): (r: seq<string>)
    ensures |r| <= 1
  {
    if Strip(e.msg) != [] then [Line(fmt, e)] else []
  }

  function EntryLineOf(fmt: int -> string): Entry -> seq<string> {
    (e: Entry) => EntryLine(fmt, e)
  }

  /** The lines one stream's values contribute, in order. */
  function EntryLines(fmt: int -> string, vs: seq<Entry>): seq<string> {
    FlatMap(EntryLineOf(fmt), vs)
  }

  function StreamLinesOf(fmt: int -> string): Stream -> seq<string> {
    (s: Stream) => EntryLines(fmt, s.values)
  }

  /** The lines of all the streams, stream by stream. */
  function StreamLines(fmt: int -> string, ss: seq<Stream>): seq<string> {
    FlatMap(StreamLinesOf(fmt), ss)
  }

  /** Extraction preserves order: the lines of two runs of streams are the lines of each, in turn. */
  lemma StreamLinesAppend(fmt: int -> string, a: seq<Stream>, b: seq<Stream>)
    ensures StreamLines(fmt, a + b) == StreamLines(fmt, a) + StreamLines(fmt, b)
  {
    FlatMapAppend(StreamLinesOf(fmt), a, b);
  }

  /** A line is extracted exactly from a value whose stripped message is not blank. */
  lemma EntryLinesMember(fmt: int -> string, vs: seq<Entry>, line: string)
    ensures line in EntryLines(fmt, vs) <==>
      exists i :: 0 <= i < |vs| && Strip(vs[i].msg) != [] && line == Line(fmt, vs[i])
  {
    FlatMapMember(EntryLineOf(fmt), vs, line);
  }

  /** No line is invented: there are never more lines than values, and when no
      message is blank every value gives exactly one line, at its own position. */
  lemma EntryLinesCount(fmt: int -> string, vs: seq<Entry>)
    ensures |EntryLines(fmt, vs)| <= |vs|
    ensures (forall i :: 0 <= i < |vs| ==> Strip(vs[i].msg) != []) ==>
      |EntryLines(fmt, vs)| == |vs| &&
      forall i :: 0 <= i < |vs| ==> EntryLines(fmt, vs)[i] == Line(fmt, vs[i])
  {
    FlatMapAtMostOne(EntryLineOf(fmt), vs);
  }

  /** The inner loop of `_extract_lines`: append the lines of one stream's values. */
  method AppendEntryLines(fmt: int -> string, vs: seq<Entry>, lines0: seq<string>) returns (lines: seq<string>)
    ensures lines == lines0 + EntryLines(fmt, vs)
  {
    lines := lines0;
    var j := 0;
    while j < |vs|
      invariant 0 <= j <= |vs|
      invariant lines == lines0 + EntryLines(fmt, vs[..j])
    {
      var e := vs[j];
      ghost var before := lines;
      var msg := Strip(e.msg);
      if msg != [] {
        lines := lines + ["[" + fmt(e.ts) + "] " + msg];
      }
      assert lines == before + EntryLineOf(fmt)(e);
      assert vs[..j + 1] == vs[..j] + [e];
      FlatMapSnoc(EntryLineOf(fmt), vs[..j], e);
      j := j + 1;
    }
    assert vs[..j] == vs;
  }

  /** `_extract_lines(streams)` */
  method ExtractLines(fmt: int -> string, streams: seq<Stream>) returns (lines: seq<string>)
    ensures lines == StreamLines(fmt, streams)
  {
    lines := [];
    var i := 0;
    while i < |streams|
      invariant 0 <= i <= |streams|
      invariant lines == StreamLines(fmt, streams[..i])
    {
      lines := AppendEntryLines(fmt, streams[i].values, lines);
      assert streams[..i + 1] == streams[..i] + [streams[i]];
      FlatMapSnoc(StreamLinesOf(fmt), streams[..i], streams[i]);
      i := i + 1;
    }
    assert streams[..i] == streams;
  }
}
