/** The graph nodes' own logic, as values: what `chunker` emits, how
    `categoriser` cleans and parses a reply (and its fallback record), what
    `merger` keeps, and what `consolidate` flattens and falls back to. The
    language model's replies and `json.loads` are parameters. */
module Nodes {
  import opened Wrappers
  import opened Seqs
  import opened PyStr
  import opened JsonValue

  /** `CHUNK_SIZE` when the environment does not set it. */
  const DefaultChunkSize: int := 1500

  function Min(a: int, b: int): int {
    if a <= b then a else b
  }

  /** `ceil(n / d)` */
  function CeilDiv(n: nat, d: int): nat
    requires d >= 1
  {
    (n + d - 1) / d
  }

  /** The chunks `chunker` emits from `lines`, one per visit, in order. */
  function Chunks(lines: seq<string>, size: int): seq<seq<string>>
    requires size >= 1
    decreases |lines|
  {
    if lines == [] then []
    else
      var n := Min(size, |lines|);
      [lines[..n]] + Chunks(lines[n..], size)
  }

  /** No line is lost, duplicated or reordered: the chunks concatenate to the lines. */
  lemma {:induction false} ChunksConcat(lines: seq<string>, size: int)
    requires size >= 1
    ensures Concat(Chunks(lines, size)) == lines
    decreases |lines|
  {
    if lines != [] {
      var n := Min(size, |lines|);
      ChunksConcat(lines[n..], size);
      var cs := Chunks(lines, size);
      assert cs[1..] == Chunks(lines[n..], size);
      assert lines == lines[..n] + lines[n..];
    }
  }

  lemma MulNonneg(a: int, b: int)
    requires a >= 0 && b >= 0
    ensures a * b >= 0
  {
  }

  /** The quotient is the one multiple of `d` that fits. */
  lemma DivUnique(x: int, d: int, q: int)
    requires d >= 1 && q * d <= x < q * d + d
    ensures x / d == q
  {
    var q', r' := x / d, x % d;
    assert x == d * q' + r' && 0 <= r' < d;
    if q' > q {
      MulNonneg(q' - q - 1, d);
    } else if q' < q {
      MulNonneg(q - q' - 1, d);
    }
  }

  lemma DivStep(x: nat, d: int)
    requires d >= 1
    ensures (x + d) / d == x / d + 1
  {
    var q := x / d;
    assert x == d * q + x % d;
    assert (q + 1) * d == q * d + d;
    DivUnique(x + d, d, q + 1);
  }

  /** There are `ceil(N / size)` chunks, none when there are no lines; every chunk
      holds between one and `size` lines, and all but the last exactly `size`. */
  lemma {:induction false} ChunksShape(lines: seq<string>, size: int)
    requires size >= 1
    ensures |Chunks(lines, size)| == CeilDiv(|lines|, size)
    ensures forall i :: 0 <= i < |Chunks(lines, size)| ==>
      1 <= |Chunks(lines, size)[i]| <= size &&
      (i < |Chunks(lines, size)| - 1 ==> |Chunks(lines, size)[i]| == size)
    decreases |lines|
  {
    if lines != [] {
      var n := Min(size, |lines|);
      ChunksShape(lines[n..], size);
      var cs := Chunks(lines, size);
      var rest := Chunks(lines[n..], size);
      assert cs == [lines[..n]] + rest;
      if |lines| <= size {
        assert rest == [];
        DivUnique(|lines| + size - 1, size, 1);
      } else {
        DivStep(|lines| - size + size - 1, size);
      }
      forall i | 0 <= i < |cs|
        ensures 1 <= |cs[i]| <= size && (i < |cs| - 1 ==> |cs[i]| == size)
      {
        if i > 0 { assert cs[i] == rest[i - 1]; }
      }
    }
  }

  /** 3200 lines in chunks of 1500 are classified in three rounds of 1500, 1500 and 200. */
  lemma ChunksOf3200(lines: seq<string>)
    requires |lines| == 3200
    ensures var cs := Chunks(lines, DefaultChunkSize);
      |cs| == 3 && |cs[0]| == 1500 && |cs[1]| == 1500 && |cs[2]| == 200
  {
    var cs := Chunks(lines, DefaultChunkSize);
    var r1 := Chunks(lines[1500..], 1500);
    var r2 := Chunks(lines[1500..][1500..], 1500);
    assert Chunks(lines[1500..][1500..][200..], 1500) == [];
    assert |r2| == 1 && |r2[0]| == 200;
    assert r1 == [lines[1500..][..1500]] + r2;
    assert cs == [lines[..1500]] + r1;
  }

  /** The opening and closing marker of a fenced code block. */
  const Fence: string := "```"

  /** The text `categoriser` hands to `json.loads`: the reply stripped (twice, as
      the source does) and, when it opens with a fence, the piece between the
      last two fences (`split("```")[-2]`). */
  function Clean(reply: string): string {
    var cleaned := Strip(Strip(reply));
    if StartsWith(cleaned, Fence) then
      var parts := Split(cleaned, Fence);
      parts[|parts| - 2]
    else cleaned
  }

  /** A reply that does not open with a fence is parsed as it is, stripped. */
  lemma CleanUnfenced(reply: string)
    requires !StartsWith(Strip(reply), Fence)
    ensures Clean(reply) == Strip(reply)
  {
    StripIdempotent(reply);
  }

  /** "```X```" gives X, provided no fence starts inside X (X holds no fence and
      does not end with a backtick). */
  lemma CleanFenced(reply: string, x: string)
    requires Strip(reply) == Fence + x + Fence
    requires !Occurs(x + "``", Fence)
    ensures Clean(reply) == x
  {
    StripIdempotent(reply);
    assert Fence + x + Fence == Fence + (x + Fence);
    SplitLeading(x + Fence, Fence);
    assert Fence[..|Fence| - 1] == "``";
    SplitTrailing(x, Fence);
  }

  /** A reply that opens with a fence and never closes it gives the empty text. */
  lemma CleanUnclosed(reply: string, x: string)
    requires Strip(reply) == Fence + x
    requires !Occurs(x, Fence)
    ensures Clean(reply) == ""
  {
    StripIdempotent(reply);
    SplitLeading(x, Fence);
    SplitAbsent(x, Fence);
  }

  /** Inner text that ends with a backtick is lost: "```" + "`" + "```" gives "". */
  lemma CleanTrailingBacktick()
    ensures Clean("```" + "`" + "```") == ""
  {
    var s := "```" + "`" + "```";
    assert !IsSpace(s[0]) && !IsSpace(s[|s| - 1]);
    assert Strip(s) == s;
    StripIdempotent(s);
    SplitLeading("````", Fence);
    SplitLeading("`", Fence);
    SplitAbsent("`", Fence);
    assert s == Fence + "````";
    assert "````" == Fence + "`";
  }

  /** A fence with a language tag keeps the tag: "```json\n[]\n```" is parsed
      as "json\n[]\n", so a parser that rejects that text makes the reply fall
      back to the placeholder record. */
  lemma CleanLanguageTag(chunk: seq<string>, parse: string -> Option<Json>, now: string)
    ensures Clean("```json\n[]\n```") == "json\n[]\n"
    ensures parse("json\n[]\n").None? ==> Classify(chunk, "```json\n[]\n```", parse, now) == Fallback(chunk, now)
  {
    var reply := "```json\n[]\n```";
    var x := "json\n[]\n";
    assert !IsSpace(reply[0]) && !IsSpace(reply[|reply| - 1]);
    assert Strip(reply) == reply;
    assert reply == Fence + x + Fence;
    var y := x + "``";
    assert forall i :: 0 <= i < |x| ==> y[i] == x[i];
    OccursFirstChar(y, Fence);
    CleanFenced(reply, x);
  }

  /** Whatever an opening fence leads to, the text parsed holds no fence. */
  lemma CleanFenceFree(reply: string)
    requires StartsWith(Strip(reply), Fence)
    ensures !Occurs(Clean(reply), Fence)
  {
    StripIdempotent(reply);
    SplitPiecesFree(Strip(reply), Fence);
  }

  /** JSON strings of the chunk's lines. */
  function StrList(lines: seq<string>): (r: seq<Json>)
    ensures |r| == |lines| && forall i :: 0 <= i < |lines| ==> r[i] == Str(lines[i])
  {
    seq(|lines|, i requires 0 <= i < |lines| => Str(lines[i]))
  }

  /** What `categoriser` stores in `result` for a chunk. */
  function Classify(chunk: seq<string>, reply: string, parse: string -> Option<Json>, now: string): Json {
    match parse(Clean(reply))
    case Some(v) => v
    case None => Fallback(chunk, now)
  }

  /** Logging each entry's severity does not raise: `parsed` is a list of
      dicts, or an empty dict or string (iterating a non-empty dict or string
      visits strings, which have no `get`; other values are not iterable). */
  predicate Loggable(parsed: Json) {
    match parsed
    case Arr(xs) => forall i :: 0 <= i < |xs| ==> xs[i].Obj?
    case Obj(ms) => ms == []
    case Str(s) => s == []
    case _ => false
  }

  /** A parsed reply is stored as it is. */
  lemma ClassifyParsed(chunk: seq<string>, reply: string, parse: string -> Option<Json>, now: string)
    requires parse(Clean(reply)).Some?
    ensures Classify(chunk, reply, parse, now) == parse(Clean(reply)).value
  {
  }

  /** The members of the placeholder record, in the source's order. */
  function FallbackMembers(chunk: seq<string>, now: string): seq<(string, Json)> {
    [ ("severity", Str("UNKNOWN")),
      ("action", Str("investigate")),
      ("logs", Arr(StrList(chunk))),
      ("context", Str("")),
      ("source", Str("")),
      ("timestamp", Str(now + "Z")),
      ("technique", Str("")) ]
  }

  /** The single placeholder record `categoriser` substitutes when the reply does
      not parse; `now` is the ISO-8601 UTC time, truncated to seconds. */
  function Fallback(chunk: seq<string>, now: string): Json {
    Arr([Obj(FallbackMembers(chunk, now))])
  }

  /** The placeholder is a single record, logging it does not raise and `merger` keeps it. */
  lemma FallbackShape(chunk: seq<string>, now: string)
    ensures var r := Fallback(chunk, now);
      r.Arr? && |r.items| == 1 && r.items[0] == Obj(FallbackMembers(chunk, now))
    ensures Loggable(Fallback(chunk, now)) && Truthy(Fallback(chunk, now))
  {
  }

  /** The placeholder record has severity "UNKNOWN", action "investigate", `logs`
      the chunk itself, empty context, source and technique, and the current time. */
  lemma FallbackFields(chunk: seq<string>, now: string)
    ensures var ms := FallbackMembers(chunk, now);
      Get(ms, "severity") == Str("UNKNOWN") && Get(ms, "action") == Str("investigate") &&
      Get(ms, "logs") == Arr(StrList(chunk)) && Get(ms, "context") == Str("") &&
      Get(ms, "source") == Str("") && Get(ms, "technique") == Str("") &&
      Get(ms, "timestamp") == Str(now + "Z")
  {
    var ms := FallbackMembers(chunk, now);
    GetLastBinding(ms, 0);
    GetLastBinding(ms, 1);
    GetLastBinding(ms, 2);
    GetLastBinding(ms, 3);
    GetLastBinding(ms, 4);
    GetLastBinding(ms, 5);
    GetLastBinding(ms, 6);
  }

  /** A reply that does not parse yields the placeholder record. */
  lemma ClassifyFallback(chunk: seq<string>, reply: string, parse: string -> Option<Json>, now: string)
    requires parse(Clean(reply)).None?
    ensures Classify(chunk, reply, parse, now) == Fallback(chunk, now)
  {
  }

  /** A result `merger` keeps whose logging did not raise is a non-empty list of dicts. */
  lemma KeptResultIsRecords(r: Json)
    requires Loggable(r) && Truthy(r)
    ensures r.Arr? && r.items != [] && forall i :: 0 <= i < |r.items| ==> r.items[i].Obj?
  {
  }

  /** The entries of every element of `agg`, element after element; `None` when
      some element is not iterable (a TypeError). */
  function Flat(agg: seq<Json>): Option<seq<Json>> {
    OptFlatMap(Iterate, agg)
  }

  /** The lists inside an aggregate of lists. */
  function ItemLists(agg: seq<Json>): (r: seq<seq<Json>>)
    requires forall i :: 0 <= i < |agg| ==> agg[i].Arr?
    ensures |r| == |agg| && forall i :: 0 <= i < |agg| ==> r[i] == agg[i].items
  {
    seq(|agg|, i requires 0 <= i < |agg| && agg[i].Arr? => agg[i].items)
  }

  /** On an aggregate of lists the flattening cannot fail; it is the in-order
      concatenation of the inner lists, as long as their lengths summed. */
  lemma {:induction false} FlatOfLists(agg: seq<Json>)
    requires forall i :: 0 <= i < |agg| ==> agg[i].Arr?
    ensures Flat(agg) == Some(Concat(ItemLists(agg)))
    ensures |Flat(agg).value| == TotalLength(ItemLists(agg))
    decreases |agg|
  {
    if agg != [] {
      var init := agg[..|agg| - 1];
      FlatOfLists(init);
      assert agg == init + [agg[|agg| - 1]];
      OptFlatMapSnoc(Iterate, init, agg[|agg| - 1]);
      assert ItemLists(agg) == ItemLists(init) + [agg[|agg| - 1].items];
      ConcatSnoc(ItemLists(init), agg[|agg| - 1].items);
    }
    ConcatLength(ItemLists(agg));
  }

  /** Flattening raises exactly when some element of the aggregate is not iterable. */
  lemma FlatFails(agg: seq<Json>)
    ensures Flat(agg).None? <==> exists i :: 0 <= i < |agg| && Iterate(agg[i]).None?
  {
    OptFlatMapNone(Iterate, agg);
  }

  /** The aggregate `consolidate` leaves: the parsed reply alone, or the flat
      list alone when the reply does not parse; `None` when flattening raises. */
  function Consolidated(agg: seq<Json>, reply: string, parse: string -> Option<Json>): (r: Option<seq<Json>>)
    ensures r.None? <==> Flat(agg).None?
    ensures r.Some? ==> |r.value| == 1
    ensures r.Some? && parse(reply).None? ==> r.value == [Arr(Flat(agg).value)]
    ensures r.Some? && parse(reply).Some? ==> r.value == [parse(reply).value]
  {
    match Flat(agg)
    case None => None
    case Some(flat) =>
      match parse(reply)
      case Some(v) => Some([v])
      case None => Some([Arr(flat)])
  }
}
