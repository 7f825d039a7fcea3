/** The pipeline `fetch -> chunker -> {categorise -> merge -> chunker}* ->
    consolidate -> summarise` over a shared `EventState`, whose nodes update it
    in place. The language model, `json.loads`, `json.dumps`, the clock and the
    log backend are parameters. */
module Graph {
  import opened Wrappers
  import opened Seqs
  import opened PyStr
  import opened JsonValue
  import opened Loki
  import opened Nodes
  import opened Summary

  /** The two nodes `_after_chunk` can send the graph to. */
  datatype Route = ToCategorise | ToConsolidate

  /** `_after_chunk`: consolidate once the chunker has run dry. */
  function AfterChunk(chunk: Option<seq<string>>): (r: Route)
    ensures r == ToConsolidate <==> chunk.None?
  {
    if chunk.None? then ToConsolidate else ToCategorise
  }

  /** The categoriser's logging loop, which reads the severity of each entry of
      the parsed value; `raised` when it raises (a value that is not iterable,
      or an entry that is not a dict). */
  method LogEntries(parsed: Json) returns (raised: bool)
    ensures raised <==> !Loggable(parsed)
  {
    match parsed
    case Arr(entries) =>
      for i := 0 to |entries|
        invariant forall j :: 0 <= j < i ==> entries[j].Obj?
      {
        if !entries[i].Obj? {
          return true;
        }
      }
      return false;
    case Obj(ms) =>
      // the entries are the keys, and a `str` has no `get`
      return ms != [];
    case Str(s) =>
      // the entries are one-character strings
      return s != [];
    case _ =>
      // not iterable
      return true;
  }

  /** The graph's state. `result` is `Null` before the first categorisation
      (the key is absent and `state.get("result")` is None); `report` is what
      the summarise node stores. */
  class EventState {
    var startNs: int
    var endNs: int
    var rawLogs: seq<string>
    var chunk: Option<seq<string>>
    var result: Json
    var agg: seq<Json>
    var report: seq<Row>

    /** The state `pipeline.invoke` starts from: only the time window. */
    constructor (startNs: int, endNs: int)
      ensures this.startNs == startNs && this.endNs == endNs
      ensures rawLogs == [] && chunk == None && result == Null && agg == [] && report == []
    {
      this.startNs := startNs;
      this.endNs := endNs;
      rawLogs := [];
      chunk := None;
      result := Null;
      agg := [];
      report := [];
    }

    /** `fetch_logs`: query the window, keep its non-blank lines and reset the
        aggregate; `raised` when `_query_loki` raises. */
    method FetchLogs(backend: Backend, fmt: int -> string) returns (raised: bool)
      requires Respects(backend)
      modifies this
      ensures raised <==> Fetched(backend, startNs, endNs).None?
      ensures raised ==> rawLogs == old(rawLogs) && agg == old(agg)
      ensures !raised ==> rawLogs == StreamLines(fmt, Fetched(backend, startNs, endNs).value) && agg == []
      ensures startNs == old(startNs) && endNs == old(endNs) && chunk == old(chunk)
      ensures result == old(result) && report == old(report)
    {
      var streams := QueryLoki(backend, startNs, endNs);
      if streams.None? {
        return true;
      }
      rawLogs := ExtractLines(fmt, streams.value);
      agg := [];
      raised := false;
    }

    /** `chunker`: move the next (at most) `size` lines from `rawLogs` to
        `chunk`, or set `chunk` to None when no line is left. */
    method Chunker(size: int)
      requires size >= 1
      modifies this
      ensures old(rawLogs) == [] ==> chunk == None && rawLogs == old(rawLogs)
      ensures old(rawLogs) != [] ==>
        chunk.Some? && chunk.value + rawLogs == old(rawLogs) && |chunk.value| == Min(size, |old(rawLogs)|)
      ensures old(rawLogs) != [] ==> Chunks(old(rawLogs), size) == [chunk.value] + Chunks(rawLogs, size)
      ensures startNs == old(startNs) && endNs == old(endNs) && result == old(result)
      ensures agg == old(agg) && report == old(report)
    {
      if rawLogs == [] {
        chunk := None;
        return;
      }
      var n := Min(size, |rawLogs|);
      chunk := Some(rawLogs[..n]);
      rawLogs := rawLogs[n..];
      assert chunk.value + rawLogs == old(rawLogs);
    }

    /** `categoriser`: ask the model about the chunk's lines joined by newlines,
        store what the cleaned reply parses to (or the placeholder record), then
        log each entry; `raised` when that logging raises. Nothing happens when
        there is no chunk. */
    method Categoriser(llm: string -> string, parse: string -> Option<Json>, now: string) returns (raised: bool)
      modifies this
      ensures old(chunk).None? ==> !raised && result == old(result)
      ensures old(chunk).Some? ==>
        result == Classify(old(chunk).value, llm(Join(old(chunk).value, "\n")), parse, now) &&
        (raised <==> !Loggable(result))
      ensures startNs == old(startNs) && endNs == old(endNs) && rawLogs == old(rawLogs)
      ensures chunk == old(chunk) && agg == old(agg) && report == old(report)
    {
      if chunk.None? {
        return false;
      }
      var joined := Join(chunk.value, "\n");
      var reply := llm(joined);
      result := Classify(chunk.value, reply, parse, now);
      raised := LogEntries(result);
    }

    /** `merger`: append `result` to the aggregate when it is truthy. */
    method Merger()
      modifies this
      ensures agg == if Truthy(old(result)) then old(agg) + [old(result)] else old(agg)
      ensures startNs == old(startNs) && endNs == old(endNs) && rawLogs == old(rawLogs)
      ensures chunk == old(chunk) && result == old(result) && report == old(report)
    {
      if Truthy(result) {
        agg := agg + [result];
      }
    }

    /** `consolidate`: flatten the aggregate, ask the model to consolidate its
        serialisation, and keep what that parses to, or the flat list;
        `raised` when flattening raises. */
    method Consolidate(llm: string -> string, dumps: seq<Json> -> string, parse: string -> Option<Json>)
      returns (raised: bool)
      modifies this
      ensures raised <==> Flat(old(agg)).None?
      ensures raised ==> agg == old(agg)
      ensures !raised ==> agg == Consolidated(old(agg), llm(dumps(Flat(old(agg)).value)), parse).value
      ensures startNs == old(startNs) && endNs == old(endNs) && rawLogs == old(rawLogs)
      ensures chunk == old(chunk) && result == old(result) && report == old(report)
    {
      var flat := Flat(agg);
      if flat.None? {
        return true;
      }
      var raw := llm(dumps(flat.value));
      match parse(raw) {
        case Some(v) =>
          agg := [v];
        case None =>
          agg := [Arr(flat.value)];
      }
      raised := false;
    }

    /** The summarise node: the report is what `summarise` makes of the
        aggregate; `raised` when `summarise` raises. */
    method SummariseNode() returns (raised: bool)
      modifies this
      ensures raised <==> SummaryRows(agg).None?
      ensures !raised ==> report == SummaryRows(agg).value
      ensures raised ==> report == old(report)
      ensures startNs == old(startNs) && endNs == old(endNs) && rawLogs == old(rawLogs)
      ensures chunk == old(chunk) && result == old(result) && agg == old(agg)
    {
      var rows := Summarise(agg);
      if rows.None? {
        return true;
      }
      report := rows.value;
      raised := false;
    }
  }

  /** What `categoriser` stores in round `i` for `chunk`; `categorise(i, logs)`
      is the model's reply in that round and `clock(i)` the time then. */
  function RoundResult(chunk: seq<string>, i: nat, categorise: (nat, string) -> string,
                       clock: nat -> string, parse: string -> Option<Json>): Json
  {
    Classify(chunk, categorise(i, Join(chunk, "\n")), parse, clock(i))
  }

  /** The results of the rounds, one per chunk, in order. */
  function Results(chunks: seq<seq<string>>, categorise: (nat, string) -> string,
                   clock: nat -> string, parse: string -> Option<Json>): (r: seq<Json>)
    ensures |r| == |chunks|
  {
    seq(|chunks|, i requires 0 <= i < |chunks| => RoundResult(chunks[i], i, categorise, clock, parse))
  }

  /** What `merger` keeps of one result. */
  function Keep(r: Json): (k: seq<Json>)
    ensures |k| <= 1
  {
    if Truthy(r) then [r] else []
  }

  /** The aggregate `merger` builds from the results, in order. */
  function Kept(results: seq<Json>): seq<Json> {
    FlatMap(Keep, results)
  }

  /** The aggregate holds exactly the truthy results, in order, each at most once
      per round. */
  lemma KeptMembers(results: seq<Json>, v: Json)
    ensures v in Kept(results) <==> Truthy(v) && v in results
    ensures |Kept(results)| <= |results|
    ensures (forall i :: 0 <= i < |results| ==> Truthy(results[i])) ==> Kept(results) == results
  {
    FlatMapMember(Keep, results, v);
    FlatMapAtMostOne(Keep, results);
    if v in results {
      var i :| 0 <= i < |results| && results[i] == v;
    }
    if forall i :: 0 <= i < |results| ==> Truthy(results[i]) {
      assert forall i :: 0 <= i < |results| ==> |Keep(results[i])| == 1;
      assert |Kept(results)| == |results|;
    }
  }

  /** The first round whose logging raises, if any. */
  function FirstFailure(results: seq<Json>): (r: Option<nat>)
    ensures r.None? <==> forall j :: 0 <= j < |results| ==> Loggable(results[j])
    ensures r.Some? ==>
      r.value < |results| && !Loggable(results[r.value]) && forall j :: 0 <= j < r.value ==> Loggable(results[j])
    decreases |results|
  {
    if results == [] then None
    else if !Loggable(results[0]) then Some(0)
    else
      match FirstFailure(results[1..])
      case None => None
      case Some(k) => Some(k + 1)
  }

  /** The aggregate after `consolidate`; `None` when flattening raises. */
  function Final(agg: seq<Json>, consolidate: string -> string, dumps: seq<Json> -> string,
                 parse: string -> Option<Json>): Option<seq<Json>>
  {
    match Flat(agg)
    case None => None
    case Some(flat) => Consolidated(agg, consolidate(dumps(flat)), parse)
  }

  /** How a run of the pipeline ends: one of the modelled exceptions in a node
      (in round `round` for the categoriser), or the report's rows. */
  datatype Outcome =
    | FetchFailed
    | CategoriseFailed(round: nat)
    | ConsolidateFailed
    | SummariseFailed
    | Report(rows: seq<Row>)

  /** The outcome of `pipeline.invoke` on the window `[startNs, endNs)`. */
  function Pipeline(startNs: int, endNs: int, backend: Backend, fmt: int -> string, size: int,
                    categorise: (nat, string) -> string, clock: nat -> string,
                    consolidate: string -> string, dumps: seq<Json> -> string,
                    parse: string -> Option<Json>): Outcome
    requires Respects(backend) && size >= 1
  {
    match Fetched(backend, startNs, endNs)
    case None => FetchFailed
    case Some(streams) =>
      var rs := Results(Chunks(StreamLines(fmt, streams), size), categorise, clock, parse);
      match FirstFailure(rs)
      case Some(k) => CategoriseFailed(k)
      case None => Conclude(Kept(rs), consolidate, dumps, parse)
  }

  /** How the run ends from `consolidate` on, for the aggregate `agg`. */
  function Conclude(agg: seq<Json>, consolidate: string -> string, dumps: seq<Json> -> string,
                    parse: string -> Option<Json>): Outcome
  {
    match Final(agg, consolidate, dumps, parse)
    case None => ConsolidateFailed
    case Some(agg') =>
      match SummaryRows(agg')
      case None => SummariseFailed
      case Some(rows) => Report(rows)
  }

  /** When every round's logging succeeds, the aggregate is a list of non-empty
      lists of dicts, so flattening it cannot raise. */
  lemma KeptFlattens(results: seq<Json>)
    requires forall j :: 0 <= j < |results| ==> Loggable(results[j])
    ensures forall i :: 0 <= i < |Kept(results)| ==> Kept(results)[i].Arr?
    ensures Flat(Kept(results)).Some?
  {
    var agg := Kept(results);
    forall i | 0 <= i < |agg| ensures agg[i].Arr? {
      KeptMembers(results, agg[i]);
      KeptResultIsRecords(agg[i]);
    }
    FlatFails(agg);
  }

  /** Flattening in `consolidate` never raises inside the pipeline: a run that
      gets past the categorisation rounds reaches `summarise` (the model call
      itself is taken to return). */
  lemma NeverConsolidateFails(startNs: int, endNs: int, backend: Backend, fmt: int -> string, size: int,
                              categorise: (nat, string) -> string, clock: nat -> string,
                              consolidate: string -> string, dumps: seq<Json> -> string,
                              parse: string -> Option<Json>)
    requires Respects(backend) && size >= 1
    ensures Pipeline(startNs, endNs, backend, fmt, size, categorise, clock, consolidate, dumps, parse) != ConsolidateFailed
  {
    match Fetched(backend, startNs, endNs)
    case None =>
    case Some(streams) =>
      var rs := Results(Chunks(StreamLines(fmt, streams), size), categorise, clock, parse);
      if FirstFailure(rs).None? {
        KeptFlattens(rs);
      }
  }

  /** When the consolidation reply does not parse, `summarise` sees the single
      list of every record the rounds kept, in order. */
  lemma FinalFallback(results: seq<Json>, consolidate: string -> string, dumps: seq<Json> -> string,
                      parse: string -> Option<Json>)
    requires forall j :: 0 <= j < |results| ==> Loggable(results[j])
    ensures Flat(Kept(results)).Some? && forall i :: 0 <= i < |Kept(results)| ==> Kept(results)[i].Arr?
    ensures parse(consolidate(dumps(Flat(Kept(results)).value))).None? ==>
      Final(Kept(results), consolidate, dumps, parse) == Some([Arr(Concat(ItemLists(Kept(results))))])
  {
    KeptFlattens(results);
    FlatOfLists(Kept(results));
  }

  /** One round of the loop: `categorise`, `merge`, then `chunker` again. */
  method Round(st: EventState, size: int, round: nat, categorise: (nat, string) -> string,
               clock: nat -> string, parse: string -> Option<Json>) returns (raised: bool)
    requires size >= 1 && st.chunk.Some?
    modifies st
    ensures var r := RoundResult(old(st.chunk).value, round, categorise, clock, parse);
      (raised <==> !Loggable(r)) && (!raised ==> st.agg == old(st.agg) + Keep(r))
    ensures st.result == RoundResult(old(st.chunk).value, round, categorise, clock, parse)
    ensures !raised ==> (st.chunk.None? <==> old(st.rawLogs) == [])
    ensures !raised ==> st.chunk.None? ==> st.rawLogs == []
    ensures !raised ==> st.chunk.Some? ==>
      Chunks(old(st.rawLogs), size) == [st.chunk.value] + Chunks(st.rawLogs, size) && |st.rawLogs| < |old(st.rawLogs)|
    ensures st.startNs == old(st.startNs) && st.endNs == old(st.endNs) && st.report == old(st.report)
  {
    raised := st.Categoriser((logs: string) => categorise(round, logs), parse, clock(round));
    if raised {
      return;
    }
    st.Merger();
    st.Chunker(size);
  }

  /** The categorisation rounds: `chunker`, then `categorise` and `merge` for as
      long as `_after_chunk` routes to `categorise`. `failed` is the round whose
      logging raised, and `visits` counts the visits to `categorise`. */
  method ChunkLoop(st: EventState, size: int, categorise: (nat, string) -> string,
                   clock: nat -> string, parse: string -> Option<Json>)
    returns (failed: Option<nat>, visits: nat)
    requires size >= 1
    modifies st
    ensures var rs := Results(Chunks(old(st.rawLogs), size), categorise, clock, parse);
      failed == FirstFailure(rs) &&
      (failed.None? ==> visits == |rs| && st.agg == old(st.agg) + Kept(rs)) &&
      (failed.Some? ==> visits == failed.value + 1)
    ensures failed.None? ==> st.chunk.None? && st.rawLogs == []
    ensures var rs := Results(Chunks(old(st.rawLogs), size), categorise, clock, parse);
      failed.None? ==> st.result == LastOr(rs, old(st.result))
    ensures st.startNs == old(st.startNs) && st.endNs == old(st.endNs) && st.report == old(st.report)
  {
    ghost var lines := st.rawLogs;
    ghost var emitted: seq<seq<string>> := [];
    ghost var agg0 := st.agg;
    ghost var cs := Chunks(lines, size);
    st.Chunker(size);
    visits := 0;
    while AfterChunk(st.chunk) == ToCategorise
      invariant |emitted| == visits
      invariant Pending(cs, emitted, st.chunk, st.rawLogs, size)
      invariant forall k :: 0 <= k < visits ==> Loggable(RoundResult(emitted[k], k, categorise, clock, parse))
      invariant st.agg == agg0 + Kept(Results(emitted, categorise, clock, parse))
      invariant st.result == LastOr(Results(emitted, categorise, clock, parse), old(st.result))
      invariant st.startNs == old(st.startNs) && st.endNs == old(st.endNs) && st.report == old(st.report)
      decreases |st.rawLogs| + (if st.chunk.Some? then 1 else 0)
    {
      var c := st.chunk.value;
      ghost var rest := st.rawLogs;
      ghost var agg1 := st.agg;
      RoundAt(cs, size, emitted, c, rest, categorise, clock, parse);
      var raised := Round(st, size, visits, categorise, clock, parse);
      if raised {
        FirstFailureAt(Results(cs, categorise, clock, parse), visits);
        return Some(visits), visits + 1;
      }
      PendingStep(cs, emitted, c, rest, st.chunk, st.rawLogs, size);
      KeptSnoc(emitted, c, categorise, clock, parse);
      ResultsSnoc(emitted, c, categorise, clock, parse);
      LoggableStep(emitted, c, categorise, clock, parse);
      emitted := emitted + [c];
      visits := visits + 1;
    }
    assert cs == emitted;
    failed := None;
  }

  /** The last of `rs`, or `d` when there is none: what `result` holds after
      the rounds that produced `rs`. */
  function LastOr(rs: seq<Json>, d: Json): Json {
    if rs == [] then d else rs[|rs| - 1]
  }

  /** The loop's bookkeeping: the chunks emitted so far, the current chunk and
      the chunks of the lines still to go make up all the chunks. */
  ghost predicate Pending(cs: seq<seq<string>>, emitted: seq<seq<string>>, chunk: Option<seq<string>>,
                          raw: seq<string>, size: int)
    requires size >= 1
  {
    match chunk
    case Some(c) => cs == emitted + [c] + Chunks(raw, size)
    case None => cs == emitted && raw == []
  }

  lemma PendingStep(cs: seq<seq<string>>, emitted: seq<seq<string>>, c: seq<string>, rest: seq<string>,
                    chunk: Option<seq<string>>, raw: seq<string>, size: int)
    requires size >= 1
    requires cs == emitted + [c] + Chunks(rest, size)
    requires chunk.None? <==> rest == []
    requires chunk.None? ==> raw == []
    requires chunk.Some? ==> Chunks(rest, size) == [chunk.value] + Chunks(raw, size)
    ensures Pending(cs, emitted + [c], chunk, raw, size)
  {
  }

  lemma LoggableStep(emitted: seq<seq<string>>, c: seq<string>, categorise: (nat, string) -> string,
                     clock: nat -> string, parse: string -> Option<Json>)
    requires forall k :: 0 <= k < |emitted| ==> Loggable(RoundResult(emitted[k], k, categorise, clock, parse))
    requires Loggable(RoundResult(c, |emitted|, categorise, clock, parse))
    ensures var e := emitted + [c];
      forall k :: 0 <= k < |e| ==> Loggable(RoundResult(e[k], k, categorise, clock, parse))
  {
  }

  /** In the round for chunk `c`, which follows the chunks `emitted`, the results
      so far are those of `emitted` and this round's is `c`'s. */
  lemma RoundAt(cs: seq<seq<string>>, size: int, emitted: seq<seq<string>>, c: seq<string>, rest: seq<string>,
                categorise: (nat, string) -> string, clock: nat -> string, parse: string -> Option<Json>)
    requires size >= 1
    requires cs == emitted + [c] + Chunks(rest, size)
    ensures var rs := Results(cs, categorise, clock, parse);
      |emitted| < |rs| && rs[|emitted|] == RoundResult(c, |emitted|, categorise, clock, parse) &&
      forall k :: 0 <= k < |emitted| ==> rs[k] == RoundResult(emitted[k], k, categorise, clock, parse)
  {
  }

  /** A round is the first to raise when every earlier one did not. */
  lemma FirstFailureAt(rs: seq<Json>, k: nat)
    requires k < |rs| && !Loggable(rs[k])
    requires forall j :: 0 <= j < k ==> Loggable(rs[j])
    ensures FirstFailure(rs) == Some(k)
  {
  }

  /** `merger` in the round after `chunks` appends what it keeps of that round. */
  lemma KeptSnoc(chunks: seq<seq<string>>, c: seq<string>, categorise: (nat, string) -> string,
                 clock: nat -> string, parse: string -> Option<Json>)
    ensures Kept(Results(chunks + [c], categorise, clock, parse)) ==
      Kept(Results(chunks, categorise, clock, parse)) + Keep(RoundResult(c, |chunks|, categorise, clock, parse))
  {
    ResultsSnoc(chunks, c, categorise, clock, parse);
    FlatMapSnoc(Keep, Results(chunks, categorise, clock, parse), RoundResult(c, |chunks|, categorise, clock, parse));
  }

  lemma ResultsSnoc(chunks: seq<seq<string>>, c: seq<string>, categorise: (nat, string) -> string,
                    clock: nat -> string, parse: string -> Option<Json>)
    ensures Results(chunks + [c], categorise, clock, parse) ==
      Results(chunks, categorise, clock, parse) + [RoundResult(c, |chunks|, categorise, clock, parse)]
  {
  }

  /** `consolidate` and the summarise node, from the aggregate the rounds built. */
  method Finish(st: EventState, consolidate: string -> string, dumps: seq<Json> -> string,
                parse: string -> Option<Json>) returns (outcome: Outcome)
    modifies st
    ensures outcome == Conclude(old(st.agg), consolidate, dumps, parse)
    ensures !outcome.ConsolidateFailed? ==> st.agg == Final(old(st.agg), consolidate, dumps, parse).value
    ensures outcome.Report? ==> st.report == outcome.rows
    ensures st.startNs == old(st.startNs) && st.endNs == old(st.endNs) && st.rawLogs == old(st.rawLogs)
    ensures st.chunk == old(st.chunk) && st.result == old(st.result)
  {
    var raised := st.Consolidate(consolidate, dumps, parse);
    if raised {
      return ConsolidateFailed;
    }
    raised := st.SummariseNode();
    if raised {
      return SummariseFailed;
    }
    outcome := Report(st.report);
  }

  /** A run of `pipeline.invoke` from the initial state. `visits` counts the
      visits to `categorise`: one per chunk, `ceil(N / size)` for `N` fetched
      lines, when no round raises. */
  method Run(startNs: int, endNs: int, backend: Backend, fmt: int -> string, size: int,
             categorise: (nat, string) -> string, clock: nat -> string,
             consolidate: string -> string, dumps: seq<Json> -> string,
             parse: string -> Option<Json>)
    returns (outcome: Outcome, visits: nat)
    requires Respects(backend) && size >= 1
    ensures outcome == Pipeline(startNs, endNs, backend, fmt, size, categorise, clock, consolidate, dumps, parse)
    ensures outcome != ConsolidateFailed
    ensures Fetched(backend, startNs, endNs).Some? && !outcome.CategoriseFailed? ==>
      visits == CeilDiv(|StreamLines(fmt, Fetched(backend, startNs, endNs).value)|, size)
    ensures outcome.CategoriseFailed? ==> visits == outcome.round + 1
  {
    NeverConsolidateFails(startNs, endNs, backend, fmt, size, categorise, clock, consolidate, dumps, parse);
    var st := new EventState(startNs, endNs);
    var raised := st.FetchLogs(backend, fmt);
    if raised {
      return FetchFailed, 0;
    }
    ghost var streams := Fetched(backend, startNs, endNs).value;
    ghost var rs := Results(Chunks(st.rawLogs, size), categorise, clock, parse);
    assert st.rawLogs == StreamLines(fmt, streams);
    ChunksShape(st.rawLogs, size);
    var failed;
    failed, visits := ChunkLoop(st, size, categorise, clock, parse);
    if failed.Some? {
      return CategoriseFailed(failed.value), visits;
    }
    assert st.agg == Kept(rs);
    outcome := Finish(st, consolidate, dumps, parse);
  }
}
