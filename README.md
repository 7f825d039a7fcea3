# trapchain pipeline bookkeeping, in Dafny

trapchain pulls a time window of honeypot logs from Loki. It cuts the log
lines into chunks and asks a language model to categorise each chunk into
severity-tagged records. It then asks the model to consolidate the records
and flattens them into one row per event for the report. This project models
the deterministic bookkeeping around those calls in `src/trapchain/graph.py`
and proves what it guarantees:

- `Loki`: the pagination cursor of `_query_loki` and the line extraction of
  `_extract_lines`. The HTTP backend is a function from a query's start to
  the page of streams it returns.
- `Nodes`: the graph nodes' logic as values. This covers the chunk slicing,
  the code-fence cleaning of a reply, the placeholder record used when a reply
  does not parse, and the flattening and fallback of `consolidate`.
- `Summary`: `summarise`, the walk from the final aggregate to report rows.
  Each row is a map from column to JSON value.
- `Graph`: the `EventState` class, whose node methods update the state in
  place. It also has the loop `chunker -> categorise -> merge -> chunker`, and
  `Run`, which is proved to agree with the pure reference `Pipeline`.
- Support modules:
  - `PyStr` covers Python's `strip`, `split`, `join` and `isdigit`.
  - `JsonValue` holds JSON values, with dicts as ordered member lists, and
    `dict.get`, `{**d}` and iteration over them.
  - `Seqs` holds the flattening combinators.
  - `Wrappers` holds `Option`.

The language model, `json.loads`, `json.dumps`, the clock and the timestamp
formatter are parameters: `llm`/`categorise`/`consolidate`, `parse`, `dumps`,
`clock`/`now` and `fmt`. The model calls, the HTTP request and these
functions are taken to return; the four exceptions below are the only ones
modelled. They are `None` results or `raised` flags, not preconditions:

- the IndexError of `_query_loki` on a stream without values;
- the TypeError/AttributeError of the categoriser's logging loop;
- the TypeError of flattening a non-iterable;
- the TypeError of `{**ev}` on a non-dict.

## Model

| member | source | states |
|---|---|---|
| `Loki.QueryLoki` | src/trapchain/graph.py:82-107 | the cursor loop returns exactly `Fetched`: the pages fetched, or `None` when a last stream has no values |
| `Loki.Fetched` | src/trapchain/graph.py:88-107 | the streams `_query_loki(cur, end)` gathers: nothing once `cur >= end` or on an empty page, `None` when the page's last stream has no values, else the page followed by what is fetched from the next start |
| `Loki.Starts` | src/trapchain/graph.py:88-107 | the starts of the queries the loop sends, in order, following the same three stopping cases as `Fetched` |
| `Loki.Respects` | src/trapchain/graph.py:104-106 | the backends covered: on every start, the page is empty, ends with a stream without values, or moves the cursor past that start |
| `Loki.Within` | src/trapchain/graph.py:92-99 | a page honours its range query: every value's timestamp is at or after the start asked for |
| `Loki.RefetchLaterEntry` | src/trapchain/graph.py:104-106 | on two streams whose first ends after the second, the cursor resumes just past the second stream's last value, so the first stream's later value is fetched twice |
| `Loki.FetchedIsPages` | src/trapchain/graph.py:88-107 | the result is the in-order concatenation of the pages of every query sent; it is an error exactly when the last page's last stream has no values |
| `Loki.StartsChain` | src/trapchain/graph.py:91-106 | the first query starts at `start_ns`; each later start is the previous page's last timestamp + 1; all starts lie in `[start_ns, end_ns)` and strictly increase |
| `Loki.StartsStop` | src/trapchain/graph.py:91-106 | the loop stops after an empty page, a raise, or once the next start reaches `end_ns` |
| `Loki.WithinAdvances` | src/trapchain/graph.py:91-106 | a backend that returns only entries at or after the requested start makes the cursor advance, so the loop terminates |
| `Loki.NextStart` | src/trapchain/graph.py:105-106 | the next start is missing (an IndexError) exactly when the last stream has no values |
| `Loki.Line` | src/trapchain/graph.py:114-116 | the line of one value: the formatted timestamp in brackets, a space, and the stripped message |
| `Loki.EntryLine` | src/trapchain/graph.py:113-116 | one entry gives at most one line |
| `Loki.EntryLines` | src/trapchain/graph.py:113-116 | the lines one stream's values contribute: each value's line, in order |
| `Loki.StreamLines` | src/trapchain/graph.py:110-117 | the lines `_extract_lines` builds: the lines of each stream, stream by stream |
| `Loki.EntryLinesMember` | src/trapchain/graph.py:113-116 | a line is emitted iff it is `"[ts] " + msg.strip()` for an entry whose stripped message is non-empty |
| `Loki.EntryLinesCount` | src/trapchain/graph.py:113-116 | there are never more lines than entries, and exactly as many when no message is blank |
| `Loki.StreamLinesAppend` | src/trapchain/graph.py:112-116 | extraction is order-preserving: the streams of `a + b` give the lines of `a`, then those of `b` |
| `Loki.AppendEntryLines` | src/trapchain/graph.py:113-116 | the inner loop appends exactly the extracted lines of one stream |
| `Loki.ExtractLines` | src/trapchain/graph.py:110-117 | `_extract_lines` returns exactly `StreamLines` of the streams |
| `PyStr.StripIdempotent` | src/trapchain/graph.py:159-160 | stripping the already-stripped reply a second time changes nothing |
| `PyStr.Strip` | src/trapchain/graph.py:115 | `str.strip()`: the string without its leading and trailing Python whitespace |
| `PyStr.StripIsTrimmedSlice` | src/trapchain/graph.py:115 | the stripped string is a slice of the original, cut only through whitespace, and neither of its ends is whitespace |
| `PyStr.StripEmptyIff` | src/trapchain/graph.py:115 | a message strips to `""` iff it is all whitespace |
| `PyStr.StartsWith` | src/trapchain/graph.py:161 | `s.startswith(p)`: `p` is a prefix of `s` |
| `PyStr.IsDigits` | src/trapchain/graph.py:238 | `k.isdigit()`: at least one character, every one a digit (ASCII only) |
| `PyStr.SplitJoin` | src/trapchain/graph.py:162 | the pieces of `split("```")` joined by the fence give back the string |
| `PyStr.Split` | src/trapchain/graph.py:162 | `s.split(sep)`: the pieces between the occurrences of `sep` found from the left; at least one piece, the first a prefix of `s`, and an empty first piece when `s` starts with `sep` |
| `PyStr.SplitFirstCut` | src/trapchain/graph.py:162 | the split cuts at the leftmost occurrence: the first piece is followed by `sep`, no occurrence starts inside it, and the other pieces split what follows; without an occurrence the string is its only piece |
| `PyStr.SplitAbsent` | src/trapchain/graph.py:162 | a string without the separator splits into itself alone |
| `PyStr.SplitLeading` | src/trapchain/graph.py:161-162 | a leading fence contributes an empty first piece |
| `PyStr.Join` | src/trapchain/graph.py:155 | `sep.join(ps)`: the pieces with `sep` between each two; `""` for no pieces |
| `PyStr.SplitPiecesFree` | src/trapchain/graph.py:162 | no piece of a split contains the separator |
| `PyStr.SplitTrailing` | src/trapchain/graph.py:162 | `x + fence` splits into `[x, ""]` when no fence occurs in `x` or across its end |
| `JsonValue.GetLastBinding` | src/trapchain/graph.py:249-250 | `dict.get` returns the last binding of the key |
| `JsonValue.Get` | src/trapchain/graph.py:249-250 | `dict.get(key)`: `None` for a missing key; any other result is bound to the key in the dict |
| `JsonValue.Values` | src/trapchain/graph.py:240 | `item.values()`: the dict's values, position by position |
| `JsonValue.Chars` | src/trapchain/graph.py:178 | what `for c in s` visits of a string: its one-character strings, position by position |
| `JsonValue.KeyStrings` | src/trapchain/graph.py:178 | what `for k in d` visits of a dict: its keys, position by position |
| `JsonValue.Iterate` | src/trapchain/graph.py:190 | what `for x in v` visits: a list's elements, a dict's keys, a string's characters; it raises exactly on `None`, booleans and numbers |
| `JsonValue.ToMap` | src/trapchain/graph.py:253 | `{**ev}` has exactly the event's keys, each mapped to what `get` returns |
| `JsonValue.Truthy` | src/trapchain/graph.py:184 | Python truthiness: `None`, `False`, zero, `""`, `[]` and `{}` are false, every other value true |
| `Nodes.ChunksConcat` | src/trapchain/graph.py:139-148 | the emitted chunks concatenate back to the fetched lines |
| `Nodes.ChunksShape` | src/trapchain/graph.py:139-148 | there are `ceil(N / CHUNK_SIZE)` chunks; each has 1 to `CHUNK_SIZE` lines, and all but the last have exactly `CHUNK_SIZE` |
| `Nodes.ChunksOf3200` | src/trapchain/settings.py:11 | with the default `CHUNK_SIZE` of 1500, 3200 lines give chunks of 1500, 1500 and 200 lines |
| `Nodes.Chunks` | src/trapchain/graph.py:139-148 | the chunks `chunker` emits, one per visit: the first `min(CHUNK_SIZE, N)` lines, then the chunks of the rest; none for no lines |
| `Nodes.Clean` | src/trapchain/graph.py:159-162 | the text handed to `json.loads`: the reply stripped, and when it opens with a fence, the second-to-last piece of its split on the fence |
| `Nodes.CleanUnfenced` | src/trapchain/graph.py:159-161 | a reply that does not start with a fence is parsed stripped, as it is |
| `Nodes.CleanFenced` | src/trapchain/graph.py:159-162 | "```X```" yields `X` when `X` holds no fence and does not end with a backtick |
| `Nodes.CleanUnclosed` | src/trapchain/graph.py:159-162 | a reply that opens a fence and never closes it yields `""` |
| `Nodes.CleanTrailingBacktick` | src/trapchain/graph.py:159-162 | "```" + "`" + "```" yields `""`, not the backtick |
| `Nodes.CleanFenceFree` | src/trapchain/graph.py:159-162 | what a fenced reply yields never contains a fence |
| `Nodes.CleanLanguageTag` | src/trapchain/graph.py:159-164 | a fence with a language tag keeps the tag: "```json\n[]\n```" reaches `json.loads` as "json\n[]\n", and a parser rejecting that text yields the placeholder record |
| `Nodes.Classify` | src/trapchain/graph.py:163-176 | what `categoriser` stores in `result`: the parsed cleaned reply, or the placeholder record when it does not parse |
| `Nodes.FallbackMembers` | src/trapchain/graph.py:166-176 | the placeholder's seven keys and values, in the source's order |
| `Nodes.Fallback` | src/trapchain/graph.py:166-176 | the placeholder: a list holding exactly one dict, with those members |
| `Nodes.Loggable` | src/trapchain/graph.py:178-179 | the logging loop does not raise exactly on a list of dicts, an empty dict or an empty string |
| `Nodes.ClassifyParsed` | src/trapchain/graph.py:163-164 | a reply that parses is stored as parsed |
| `Nodes.ClassifyFallback` | src/trapchain/graph.py:163-176 | a reply that does not parse yields the placeholder record |
| `Nodes.FallbackShape` | src/trapchain/graph.py:166-176 | the placeholder is a list of exactly one dict; logging it does not raise and `merger` keeps it |
| `Nodes.FallbackFields` | src/trapchain/graph.py:166-176 | the placeholder has severity "UNKNOWN", action "investigate", `logs` equal to the chunk, empty context, source and technique, and the time + "Z" |
| `Nodes.KeptResultIsRecords` | src/trapchain/graph.py:178-185 | a result that logged without raising and is truthy is a non-empty list of dicts |
| `Nodes.Flat` | src/trapchain/graph.py:190 | the entries of each element of `agg`, element after element, or `None` when some element is not iterable |
| `Nodes.FlatOfLists` | src/trapchain/graph.py:190 | on a list of lists, `flat` is the in-order concatenation, of length the sum of the inner lengths |
| `Nodes.FlatFails` | src/trapchain/graph.py:190 | flattening raises exactly when some element of `agg` is not iterable |
| `Nodes.Consolidated` | src/trapchain/graph.py:189-196 | `agg` becomes a one-element list: the parsed reply, or `[flat]` when the reply does not parse |
| `Summary.SummaryAppend` | src/trapchain/graph.py:233-263 | the rows of `a + b` are those of `a` then those of `b`; an empty aggregate gives no rows |
| `Summary.SummaryRows` | src/trapchain/graph.py:233-263 | the rows `summarise` builds: the rows of each group of the unwrapped aggregate, in order, or `None` when a group raises |
| `Summary.Groups` | src/trapchain/graph.py:235-244 | the groups the first loop gathers: the groups of each item of the aggregate, item by item |
| `Summary.DigitKeyed` | src/trapchain/graph.py:237-239 | every key of the dict is a non-empty string of digits; the empty dict qualifies |
| `Summary.Annotate` | src/trapchain/graph.py:254-255 | the row with its `actor` column set to the group's actor unless that is None |
| `Summary.EventRow` | src/trapchain/graph.py:253-256 | the annotated copy of one event, or a raise when the event is not a dict |
| `Summary.BadGroup` | src/trapchain/graph.py:247-253 | the groups on which `summarise` raises: a dict whose `events` list holds a non-dict |
| `Summary.ItemGroups` | src/trapchain/graph.py:236-244 | the groups one item contributes: a digit-keyed dict's values, a list's elements, or the item itself |
| `Summary.GroupRows` | src/trapchain/graph.py:247-263 | the rows of one group: one annotated copy per event when `events` is a list, else an annotated copy of the group; none for a non-dict |
| `Summary.ItemGroupsUnwrap` | src/trapchain/graph.py:236-244 | a digit-keyed dict stands for its values (the empty dict for nothing), a list for its elements, anything else for itself |
| `Summary.EventGroupRows` | src/trapchain/graph.py:247-256 | a dict group with an `events` list of dicts gives one row per event, in order, with the group's non-None actor overriding the event's own |
| `Summary.EventRowsLine` | src/trapchain/graph.py:252-256 | the events loop gives the annotated copy of each event, position by position |
| `Summary.PlainGroupRow` | src/trapchain/graph.py:257-261 | any other dict group gives exactly one row, a copy of itself |
| `Summary.NonDictGroupRows` | src/trapchain/graph.py:262-263 | a group that is not a dict gives no rows |
| `Summary.SummaryFails` | src/trapchain/graph.py:247-256 | `summarise` raises exactly when some dict group's `events` list holds a non-dict |
| `Summary.GroupFails` | src/trapchain/graph.py:248-256 | one group raises exactly when its `events` list holds a non-dict |
| `Summary.SingleEventGroup` | src/trapchain/graph.py:247-256 | `[{"actor": a, "events": [ev]}]` gives exactly the row `{**ev, "actor": a}` |
| `Summary.OneHighRow` | src/trapchain/graph.py:233-263 | one HIGH event of actor 1.2.3.4 gives exactly one row with those two columns |
| `Summary.AppendEventRows` | src/trapchain/graph.py:252-256 | the events loop appends the event rows, or raises on a non-dict event |
| `Summary.AppendGroupRows` | src/trapchain/graph.py:247-263 | one pass of the groups loop appends exactly that group's rows |
| `Summary.Summarise` | src/trapchain/graph.py:233-263 | `summarise` returns exactly `SummaryRows` of the aggregate |
| `Graph.AfterChunk` | src/trapchain/graph.py:217-218 | the graph goes to `consolidate` iff the chunk is None |
| `Graph.LogEntries` | src/trapchain/graph.py:178-179 | the logging loop raises iff the parsed value is not a list of dicts, an empty dict or an empty string |
| `Graph.RoundResult` | src/trapchain/graph.py:151-177 | what `categoriser` stores in a round: the classified reply to the chunk's lines joined by newlines, with that round's clock |
| `Graph.Results` | src/trapchain/graph.py:215-222 | the rounds' results, one per chunk, in order |
| `Graph.Keep` | src/trapchain/graph.py:184-185 | what `merger` appends of one result: the result when truthy, else nothing; never more than one |
| `Graph.Kept` | src/trapchain/graph.py:183-186 | the aggregate `merger` builds: each round's result, in order, when it is truthy |
| `Graph.EventState.constructor` | src/trapchain/main.py:21-27 | the initial state holds only the window |
| `Graph.EventState.FetchLogs` | src/trapchain/graph.py:131-136 | `raw_logs` becomes the extracted lines of the fetched streams and `agg` becomes `[]`, or the node raises and nothing changes |
| `Graph.EventState.Chunker` | src/trapchain/graph.py:139-148 | on empty `raw_logs` the chunk is None and `raw_logs` is unchanged; otherwise `chunk + raw_logs'` is the old `raw_logs`, `chunk` has `min(size, N)` lines and is the next chunk of `Chunks` |
| `Graph.EventState.Categoriser` | src/trapchain/graph.py:151-180 | with no chunk nothing changes; otherwise `result` is the classified reply to the newline-joined chunk, and the node raises iff logging it raises; the model call is taken to return |
| `Graph.EventState.Merger` | src/trapchain/graph.py:183-186 | `result` is appended iff it is truthy; earlier entries are kept in order |
| `Graph.EventState.Consolidate` | src/trapchain/graph.py:189-196 | raises iff flattening raises; otherwise `agg` is `Consolidated` of the old aggregate and the model's reply |
| `Graph.EventState.SummariseNode` | src/trapchain/graph.py:209-211 | the report is `summarise(agg)` unless it raises |
| `Graph.KeptMembers` | src/trapchain/graph.py:183-186 | the aggregate holds exactly the truthy results, at most one per round, and all of them when every result is truthy |
| `Graph.FirstFailure` | src/trapchain/graph.py:178-179 | the first round whose logging raises: every earlier round logs cleanly |
| `Graph.KeptFlattens` | src/trapchain/graph.py:184-190 | an aggregate built by the rounds is a list of lists, so flattening it cannot raise |
| `Graph.NeverConsolidateFails` | src/trapchain/graph.py:189-196 | flattening in `consolidate` never raises in a run of the pipeline, so no run ends in `ConsolidateFailed` |
| `Graph.FinalFallback` | src/trapchain/graph.py:189-196 | when the consolidation reply does not parse, `summarise` sees one list of every kept record, in order |
| `Graph.Final` | src/trapchain/graph.py:189-196 | the aggregate after `consolidate`: `Consolidated` of the flattened aggregate and the reply, or a raise when flattening raises |
| `Graph.Conclude` | src/trapchain/graph.py:189-211 | how a run ends from `consolidate` on: a raise in `consolidate` or `summarise`, else the report's rows |
| `Graph.Pipeline` | src/trapchain/graph.py:201-226 | the outcome of a run: fetch fails; or the first round whose logging raises; or consolidate and summarise of the kept results |
| `Graph.Round` | src/trapchain/graph.py:221-222 | one `categorise -> merge -> chunker` round: `result` is this round's result, `agg` grows by what `merger` keeps of it, and the next chunk follows |
| `Graph.ChunkLoop` | src/trapchain/graph.py:215-222 | the rounds visit `categorise` once per chunk, in order, and stop at the first round that raises; `agg` is what `merger` kept; when none raises the loop ends with no chunk and no lines left, and `result` holds the last round's result (the old one when there was no chunk) |
| `Graph.Finish` | src/trapchain/graph.py:223-224 | `consolidate` then `summarise` give `Conclude` of the aggregate; unless `consolidate` raises, `agg` is `Final` of the old aggregate, and on a report `report` holds its rows; the window, `raw_logs`, `chunk` and `result` are unchanged |
| `Graph.Run` | src/trapchain/graph.py:201-226 | a run ends as `Pipeline` says and flattening in `consolidate` never raises; without a categorise failure it visits `categorise` exactly `ceil(N / size)` times (zero for no lines) |

## Left out

- The language-model calls and their prompts (graph.py:30-76, 159, 191): they are foreign calls. Their replies are parameters, chosen per round and by the text sent.
- `json.loads` and `json.dumps`: the JSON grammar is not modelled. `parse` is an arbitrary partial parser, and `dumps` an arbitrary serialiser.
- `requests.get`, `raise_for_status`, the query string and the `data`/`result` unwrapping (graph.py:89-101): network I/O. The backend is a start-to-page function. A result without `values` (a KeyError) is not represented, since every stream has values.
- The ISO-8601 conversion of timestamps (graph.py:114) and `datetime.utcnow()` (graph.py:173): floating point and the clock. They are the parameters `fmt` and `clock`/`now`.
- LangGraph's `StateGraph` machinery and the `recursion_limit` of 100 (main.py:26). The transitions are a plain loop. So the model does not capture that a run needing more than about 33 rounds stops with a recursion error.
- pandas (graph.py:265, main.py:29-60) and the report writing in main.py: formatting and I/O. The rows are kept as a list of maps.
- settings.py's environment reading: `CHUNK_SIZE` is a parameter `size` with `size >= 1`; `DefaultChunkSize` is its default of 1500. A size of 0 or less is not covered.
- logging and structlog calls. Only the exception the categoriser's logging loop can raise is modelled.
- `Loki.QueryLoki`: only backends whose page's last entry is at or after the start it was asked for are covered (`Respects`, required of `Fetched`, `Starts`, `QueryLoki`, `FetchLogs`, `Pipeline` and `Run`). A range query honours its start, so every such backend qualifies (`WithinAdvances`). On any other backend the source's loop may never terminate, and that behaviour is not modelled.
- The model calls at graph.py:159 and 191, and `requests.get`/`raise_for_status` at graph.py:99-100, are taken never to raise; in the source any of them aborts the run. `FetchFailed` therefore stands only for the IndexError of `_query_loki`, and `ConsolidateFailed` only for the TypeError of flattening.
- `PyStr.IsDigits`: `str.isdigit` also accepts non-ASCII digits; the model accepts ASCII digits only.
- `JsonValue.KeyStrings`: a dict with a repeated key is kept as its member list. Lookups and `{**d}` take the last binding, as a dict built by `json.loads` does. Iterating its keys or values, however, visits each repeat, where the real dict holds the key once.
- `Summary.DigitKeyed`: it tests keys with `PyStr.IsDigits`, so a dict keyed by non-ASCII digits (which `str.isdigit` accepts) is treated as a group, not unwrapped.
- `JsonValue.Values`: on a dict with a repeated key it gives a value for each repeat, where `dict.values()` gives one value per key (the last binding).
- JSON numbers are `real`, so the model does not distinguish `int` from `float`.
- The model's replies are functions of the round number and of the text sent, and the clock is a function of the round number. Replies that depend on anything else are not represented.
