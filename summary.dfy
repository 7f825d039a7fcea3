/** `summarise`: the walk that turns the final aggregate into one row per event.
    The DataFrame it builds is left out; the rows are maps from column to value. */
module Summary {
  import opened Wrappers
  import opened Seqs
  import opened PyStr
  import opened JsonValue

  /** Every key is a non-empty string of digits; the empty dict qualifies. */
  predicate DigitKeyed(ms: seq<(string, Json)>) {
    forall i :: 0 <= i < |ms| ==> IsDigits(ms[i].0)
  }

  /** The groups one item of the aggregate contributes: the values of a
      digit-keyed dict, the elements of a list, or the item itself. */
  function ItemGroups(item: Json): seq<Json> {
    match item
    case Obj(ms) => if DigitKeyed(ms) then Values(ms) else [item]
    case Arr(xs) => xs
    case _ => [item]
  }

  /** The groups of the whole aggregate, item by item. */
  function Groups(aggregate: seq<Json>): seq<Json> {
    FlatMap(ItemGroups, aggregate)
  }

  /** The row with its `actor` column set to the group's actor, unless that is None. */
  function Annotate(row: Row, actor: Json): Row {
    if actor != Null then row["actor" := actor] else row
  }

  /** The row of one event, `{**ev}` annotated; `None` when `ev` is not a dict
      (a TypeError). */
  function EventRow(actor: Json, ev: Json): Option<seq<Row>> {
    if ev.Obj? then Some([Annotate(ToMap(ev.members), actor)]) else None
  }

  function EventRowOf(actor: Json): Json -> Option<seq<Row>> {
    (ev: Json) => EventRow(actor, ev)
  }

  /** The rows of one group: one per event when its `events` is a list, else a
      copy of the group itself; nothing for a group that is not a dict. */
  function GroupRows(group: Json): Option<seq<Row>> {
    match group
    case Obj(ms) =>
      var actor := Get(ms, "actor");
      var events := Get(ms, "events");
      if events.Arr? then OptFlatMap(EventRowOf(actor), events.items)
      else Some([Annotate(ToMap(ms), actor)])
    case _ => Some([])
  }

  /** The rows `summarise(aggregate)` builds; `None` when it raises. */
  function SummaryRows(aggregate: seq<Json>): Option<seq<Row>> {
    OptFlatMap(GroupRows, Groups(aggregate))
  }

  /** Summarising two aggregates one after the other gives the rows of each, in turn;
      the empty aggregate gives no rows. */
  lemma SummaryAppend(a: seq<Json>, b: seq<Json>)
    ensures SummaryRows(a + b) == Combine(SummaryRows(a), SummaryRows(b))
    ensures SummaryRows([]) == Some([])
  {
    FlatMapAppend(ItemGroups, a, b);
    OptFlatMapAppend(GroupRows, Groups(a), Groups(b));
  }

  /** Top-level unwrapping: a digit-keyed dict (the empty one included) stands for
      its values, a list for its elements, anything else for itself. */
  lemma ItemGroupsUnwrap(item: Json)
    ensures item.Obj? && DigitKeyed(item.members) ==> Groups([item]) == Values(item.members)
    ensures item.Arr? ==> Groups([item]) == item.items
    ensures !item.Arr? && !(item.Obj? && DigitKeyed(item.members)) ==> Groups([item]) == [item]
    ensures SummaryRows([Obj([])]) == Some([])
  {
    assert [item][..0] == [];
    assert Groups([Obj([])]) == [];
  }

  /** A dict group whose `events` is a list of dicts gives one row per event, in
      order: a copy of the event whose `actor` is the group's actor when that is
      not None, and the event's own otherwise. */
  lemma {:induction false} EventGroupRows(ms: seq<(string, Json)>, evs: seq<Json>)
    requires Get(ms, "events") == Arr(evs)
    requires forall i :: 0 <= i < |evs| ==> evs[i].Obj?
    ensures var rs := GroupRows(Obj(ms));
      rs.Some? && |rs.value| == |evs| &&
      forall i :: 0 <= i < |evs| ==>
        rs.value[i] == Annotate(ToMap(evs[i].members), Get(ms, "actor")) &&
        (Get(ms, "actor") != Null ==> rs.value[i]["actor"] == Get(ms, "actor")) &&
        (Get(ms, "actor") == Null ==> rs.value[i] == ToMap(evs[i].members))
  {
    EventRowsLine(Get(ms, "actor"), evs);
  }

  lemma {:induction false} EventRowsLine(actor: Json, evs: seq<Json>)
    requires forall i :: 0 <= i < |evs| ==> evs[i].Obj?
    ensures var rs := OptFlatMap(EventRowOf(actor), evs);
      rs.Some? && |rs.value| == |evs| &&
      forall i :: 0 <= i < |evs| ==> rs.value[i] == Annotate(ToMap(evs[i].members), actor)
    decreases |evs|
  {
    if evs != [] {
      var init := evs[..|evs| - 1];
      EventRowsLine(actor, init);
      var rs := OptFlatMap(EventRowOf(actor), evs);
      var ps := OptFlatMap(EventRowOf(actor), init);
      assert rs.value == ps.value + [Annotate(ToMap(evs[|evs| - 1].members), actor)];
      forall i | 0 <= i < |evs| ensures rs.value[i] == Annotate(ToMap(evs[i].members), actor) {
        if i < |init| { assert init[i] == evs[i]; }
      }
    }
  }

  /** Any other dict group gives exactly one row, a copy of itself (its own
      `actor`, if any, already stands in the copy). */
  lemma PlainGroupRow(ms: seq<(string, Json)>)
    requires !Get(ms, "events").Arr?
    ensures GroupRows(Obj(ms)) == Some([ToMap(ms)])
  {
    var actor := Get(ms, "actor");
    if actor != Null {
      var i :| 0 <= i < |ms| && ms[i] == ("actor", actor);
      assert "actor" in KeySet(ms);
      assert ToMap(ms)["actor" := actor] == ToMap(ms);
    }
  }

  /** A group that is not a dict gives no rows (the source logs a warning). */
  lemma NonDictGroupRows(group: Json)
    requires !group.Obj?
    ensures GroupRows(group) == Some([])
  {
  }

  /** `summarise` raises exactly when some dict group has an `events` list holding
      something that is not a dict. */
  lemma SummaryFails(aggregate: seq<Json>)
    ensures SummaryRows(aggregate).None? <==>
      exists i :: 0 <= i < |Groups(aggregate)| && BadGroup(Groups(aggregate)[i])
  {
    var gs := Groups(aggregate);
    OptFlatMapNone(GroupRows, gs);
    forall i | 0 <= i < |gs| ensures GroupRows(gs[i]).None? <==> BadGroup(gs[i]) {
      GroupFails(gs[i]);
    }
  }

  /** A dict group whose `events` list holds a non-dict. */
  predicate BadGroup(group: Json) {
    group.Obj? && Get(group.members, "events").Arr? &&
    exists j :: 0 <= j < |Get(group.members, "events").items| &&
      !Get(group.members, "events").items[j].Obj?
  }

  lemma GroupFails(group: Json)
    ensures GroupRows(group).None? <==> BadGroup(group)
  {
    if group.Obj? && Get(group.members, "events").Arr? {
      var evs := Get(group.members, "events").items;
      var actor := Get(group.members, "actor");
      OptFlatMapNone(EventRowOf(actor), evs);
      assert forall j :: 0 <= j < |evs| ==> (EventRowOf(actor)(evs[j]).None? <==> !evs[j].Obj?);
    }
  }

  /** An aggregate of one group `{"actor": a, "events": [ev]}` gives exactly one
      row: the event, with actor `a`. */
  lemma SingleEventGroup(a: string, ev: seq<(string, Json)>)
    ensures var agg := [Obj([("actor", Str(a)), ("events", Arr([Obj(ev)]))])];
      SummaryRows(agg) == Some([ToMap(ev)["actor" := Str(a)]])
  {
    var ms := [("actor", Str(a)), ("events", Arr([Obj(ev)]))];
    var g := Obj(ms);
    GetLastBinding(ms, 0);
    GetLastBinding(ms, 1);
    assert Get(ms, "actor") == Str(a);
    EventGroupRows(ms, [Obj(ev)]);
    var r := ToMap(ev)["actor" := Str(a)];
    var rs := GroupRows(g);
    assert rs.value == [r];
    assert !DigitKeyed(ms) by { assert !IsAsciiDigit(ms[0].0[0]); }
    ItemGroupsUnwrap(g);
    assert Groups([g]) == [g];
    assert [g][..0] == [];
    assert OptFlatMap(GroupRows, [g]) == Combine(Some([]), rs);
    assert [] + [r] == [r];
  }

  /** `[{"actor": "1.2.3.4", "events": [{"severity": "HIGH"}]}]` gives exactly one
      row, of severity HIGH and actor "1.2.3.4". */
  lemma OneHighRow()
    ensures var agg := [Obj([("actor", Str("1.2.3.4")), ("events", Arr([Obj([("severity", Str("HIGH"))])]))])];
      SummaryRows(agg) == Some([map["severity" := Str("HIGH"), "actor" := Str("1.2.3.4")]])
  {
    var ev := [("severity", Str("HIGH"))];
    SingleEventGroup("1.2.3.4", ev);
    assert ev[..0] == [];
    assert ToMap(ev) == map["severity" := Str("HIGH")];
  }

  /** The inner loop of `summarise` over one group's `events` list: append one
      row per event to `rows0`; `None` when `{**ev}` raises. */
  method AppendEventRows(actor: Json, events: seq<Json>, rows0: seq<Row>) returns (rows: Option<seq<Row>>)
    ensures rows == Combine(Some(rows0), OptFlatMap(EventRowOf(actor), events))
  {
    var added: seq<Row> := [];
    assert events[..0] == [];
    for e := 0 to |events|
      invariant OptFlatMap(EventRowOf(actor), events[..e]) == Some(added)
    {
      var ev := events[e];
      assert events[..e + 1] == events[..e] + [ev];
      OptFlatMapSnoc(EventRowOf(actor), events[..e], ev);
      if !ev.Obj? {
        assert events[..e + 1] + events[e + 1..] == events;
        OptFlatMapAppend(EventRowOf(actor), events[..e + 1], events[e + 1..]);
        return None;
      }
      var row := ToMap(ev.members);
      if actor != Null {
        row := row["actor" := actor];
      }
      added := added + [row];
    }
    assert events[..|events|] == events;
    rows := Some(rows0 + added);
  }

  /** The body of `summarise`'s second loop for one group: append its rows to
      `rows0`; `None` when `{**ev}` raises. */
  method AppendGroupRows(group: Json, rows0: seq<Row>) returns (rows: Option<seq<Row>>)
    ensures rows == Combine(Some(rows0), GroupRows(group))
  {
    if !group.Obj? {
      assert rows0 + [] == rows0;
      return Some(rows0);
    }
    var actor := Get(group.members, "actor");
    var events := Get(group.members, "events");
    if events.Arr? {
      rows := AppendEventRows(actor, events.items, rows0);
    } else {
      var row := ToMap(group.members);
      if actor != Null {
        row := row["actor" := actor];
      }
      rows := Some(rows0 + [row]);
    }
  }

  /** `summarise(aggregate)`; `None` when it raises. */
  method Summarise(aggregate: seq<Json>) returns (rows: Option<seq<Row>>)
    ensures rows == SummaryRows(aggregate)
  {
    var groups: seq<Json> := [];
    for i := 0 to |aggregate|
      invariant groups == Groups(aggregate[..i])
    {
      var item := aggregate[i];
      if item.Obj? && DigitKeyed(item.members) {
        groups := groups + Values(item.members);
      } else if item.Arr? {
        groups := groups + item.items;
      } else {
        groups := groups + [item];
      }
      assert aggregate[..i + 1] == aggregate[..i] + [item];
      FlatMapSnoc(ItemGroups, aggregate[..i], item);
    }
    assert aggregate[..|aggregate|] == aggregate;
    var out: seq<Row> := [];
    for k := 0 to |groups|
      invariant OptFlatMap(GroupRows, groups[..k]) == Some(out)
    {
      var group := groups[k];
      assert groups[..k + 1] == groups[..k] + [group];
      OptFlatMapSnoc(GroupRows, groups[..k], group);
      var next := AppendGroupRows(group, out);
      if next.None? {
        OptFlatMapAppend(GroupRows, groups[..k + 1], groups[k + 1..]);
        assert groups[..k + 1] + groups[k + 1..] == groups;
        return None;
      }
      out := next.value;
    }
    assert groups[..|groups|] == groups;
    rows := Some(out);
  }
}
