/** A whole pass of `iterparse2` over the event stream, as a function: the
    start and end steps of the control state in document order, stopped by
    the first handler that raises. */
module Runs {
  import opened Wrappers
  import opened Xml
  import opened Handlers
  import opened Lists
  import opened Machine

  /** The exception the stop handler of class `k` raises on `e`, if any. */
  function HandlerError(k: Kind, e: Element, parseInt: string -> int): Option<Failure>
  {
    match k
    case SymbolClass => if SymbolEntry(e).Err? then Some(SymbolEntry(e).error) else None
    case ProvenanceClass =>
      if ProvenanceEntry(e, parseInt).Err? then Some(ProvenanceEntry(e, parseInt).error) else None
    case ChronicleClass => if ChronicleEntry(e).Err? then Some(ChronicleEntry(e).error) else None
  }

  /** One event: `node_start` on a start, `node_end` on an end. */
  function EventStep(c: Control, ev: Event, parseInt: string -> int): Result<Control>
  {
    match ev
    case Start(e) => StartStep(c, e)
    case End(e) =>
      match StopHandler(c, e)
      case Some(k) =>
        if HandlerError(k, e, parseInt).Some? then Err(HandlerError(k, e, parseInt).value)
        else Ok(EndStep(c, e))
      case None => Ok(EndStep(c, e))
  }

  /** The events in order; the first exception ends the pass. */
  function Run(c: Control, events: seq<Event>, parseInt: string -> int): Result<Control>
    decreases |events|
  {
    if events == [] then Ok(c)
    else
      match EventStep(c, events[0], parseInt)
      case Err(f) => Err(f)
      case Ok(c1) => Run(c1, events[1..], parseInt)
  }

  /** A pass over one more event is the pass so far followed by that
      event's step, so the pass can be taken one event at a time. */
  lemma {:induction false} RunSnoc(c: Control, events: seq<Event>, ev: Event, parseInt: string -> int)
    ensures Run(c, events + [ev], parseInt) ==
      match Run(c, events, parseInt)
      case Err(f) => Err(f)
      case Ok(c1) => EventStep(c1, ev, parseInt)
    decreases |events|
  {
    if events == [] {
      assert (events + [ev])[1..] == [];
    } else {
      assert (events + [ev])[1..] == events[1..] + [ev];
      match EventStep(c, events[0], parseInt)
      case Err(f) =>
      case Ok(c1) => RunSnoc(c1, events[1..], ev, parseInt);
    }
  }

  /** Once a pass has raised, later events are never looked at. */
  lemma {:induction false} RunStopsAtError(c: Control, events: seq<Event>, rest: seq<Event>, parseInt: string -> int)
    requires Run(c, events, parseInt).Err?
    ensures Run(c, events + rest, parseInt) == Run(c, events, parseInt)
    decreases |events|
  {
    assert events != [];
    assert (events + rest)[0] == events[0];
    assert (events + rest)[1..] == events[1..] + rest;
    match EventStep(c, events[0], parseInt)
    case Err(f) =>
    case Ok(c1) => RunStopsAtError(c1, events[1..], rest, parseInt);
  }

  /** A pass that completes has counted every end event, and nothing else. */
  lemma {:induction false} RunCounts(c: Control, events: seq<Event>, parseInt: string -> int)
    requires Run(c, events, parseInt).Ok?
    ensures Run(c, events, parseInt).value.processed == c.processed + CountEnds(events)
    decreases |events|
  {
    if events != [] {
      var c1 := EventStep(c, events[0], parseInt).value;
      EndCounts(c, events[0].elem);
      RunCounts(c1, events[1..], parseInt);
    }
  }

  /** Only `m_value` skip requests exist at any point of a pass. */
  lemma {:induction false} RunOnlyInhibitedTag(c: Control, events: seq<Event>, parseInt: string -> int)
    requires OnlyInhibitedTag(c)
    requires Run(c, events, parseInt).Ok?
    ensures OnlyInhibitedTag(Run(c, events, parseInt).value)
    decreases |events|
  {
    if events != [] {
      OnlyInhibitedTagPreserved(c, events[0].elem);
      RunOnlyInhibitedTag(EventStep(c, events[0], parseInt).value, events[1..], parseInt);
    }
  }

  /** If a pass stops with an exception, some event's step raised it on
      the state the events before it left, and it is the first one met. */
  lemma {:induction false} RunFails(c: Control, events: seq<Event>, parseInt: string -> int)
    requires Run(c, events, parseInt).Err?
    ensures exists n ::
      && 0 <= n < |events|
      && Run(c, events[..n], parseInt).Ok?
      && EventStep(Run(c, events[..n], parseInt).value, events[n], parseInt) == Err(Run(c, events, parseInt).error)
    decreases |events|
  {
    var c1 := EventStep(c, events[0], parseInt);
    assert events[..0] == [];
    if c1.Ok? {
      RunFails(c1.value, events[1..], parseInt);
      var n :| 0 <= n < |events[1..]| && Run(c1.value, events[1..][..n], parseInt).Ok? &&
        EventStep(Run(c1.value, events[1..][..n], parseInt).value, events[1..][n], parseInt) ==
          Err(Run(c1.value, events[1..], parseInt).error);
      assert events[..n + 1][1..] == events[1..][..n];
      assert Run(c, events[..n + 1], parseInt) == Run(c1.value, events[1..][..n], parseInt);
    }
  }

  // ---------------------------------------------------------------------
  // The record tables

  /** A provenance record as the parse leaves it: its symbol id, its ISO
      timestamp and its chronicle id; the rest is filled in by `make_graph`. */
  datatype StoredProvenance = StoredProvenance(symId: Option<string>, timestamp: string, ccoid: Option<string>)

  /** The three tables the stop handlers fill, keyed by object id:
      `dictSymbols`, `dictProvenances` and `dictChronicles`. */
  datatype Tables = Tables(
    symbols: map<string, string>,
    provenances: map<string, StoredProvenance>,
    chronicles: map<string, ChronicleFields>)

  /** The tables after the stop handler of class `k` has run on `e`: a kept
      symbol's name, a new provenance record or a new chronicle record goes
      under the element's `object_id`; a filtered symbol or a handler that
      raises stores nothing. */
  function Stored(k: Kind, e: Element, t: Tables, parseInt: string -> int,
                  isoTimestamp: (int, int) -> string): Tables
    requires "object_id" in e.attrib
  {
    var id := e.attrib["object_id"];
    match k
    case SymbolClass =>
      (match SymbolEntry(e)
       case Ok(Some(name)) => t.(symbols := t.symbols[id := name])
       case _ => t)
    case ProvenanceClass =>
      (match ProvenanceEntry(e, parseInt)
       case Ok(f) => t.(provenances := t.provenances[id := StoredProvenance(f.symId, isoTimestamp(f.sec, f.usec), f.ccoid)])
       case Err(_) => t)
    case ChronicleClass =>
      (match ChronicleEntry(e)
       case Ok(f) => t.(chronicles := t.chronicles[id := f])
       case Err(_) => t)
  }

  /** A stop handler changes at most its own table, and that one only at
      the element's `object_id`: every other entry stays as it was. */
  lemma StoredOnlyAt(k: Kind, e: Element, t: Tables, parseInt: string -> int, isoTimestamp: (int, int) -> string)
    requires "object_id" in e.attrib
    ensures var r := Stored(k, e, t, parseInt, isoTimestamp);
      var id := e.attrib["object_id"];
      && (k != SymbolClass ==> r.symbols == t.symbols)
      && (k != ProvenanceClass ==> r.provenances == t.provenances)
      && (k != ChronicleClass ==> r.chronicles == t.chronicles)
      && t.symbols.Keys <= r.symbols.Keys <= t.symbols.Keys + {id}
      && t.provenances.Keys <= r.provenances.Keys <= t.provenances.Keys + {id}
      && t.chronicles.Keys <= r.chronicles.Keys <= t.chronicles.Keys + {id}
      && (forall x :: x in t.symbols && x != id ==> r.symbols[x] == t.symbols[x])
      && (forall x :: x in t.provenances && x != id ==> r.provenances[x] == t.provenances[x])
      && (forall x :: x in t.chronicles && x != id ==> r.chronicles[x] == t.chronicles[x])
  {
  }

  /** What one event does to the tables: only an end event whose stop
      handler runs can store anything. */
  function EventTables(c: Control, t: Tables, ev: Event, parseInt: string -> int,
                       isoTimestamp: (int, int) -> string): Tables
  {
    match ev
    case Start(_) => t
    case End(e) =>
      match StopHandler(c, e)
      case None => t
      case Some(k) => Stored(k, e, t, parseInt, isoTimestamp)
  }

  /** The tables after a pass over `events` from control state `c` and
      tables `t`; an event whose handler raises is the last one that runs. */
  function RunTables(c: Control, t: Tables, events: seq<Event>, parseInt: string -> int,
                     isoTimestamp: (int, int) -> string): Tables
    decreases |events|
  {
    if events == [] then t
    else
      var t1 := EventTables(c, t, events[0], parseInt, isoTimestamp);
      match EventStep(c, events[0], parseInt)
      case Err(_) => t1
      case Ok(c1) => RunTables(c1, t1, events[1..], parseInt, isoTimestamp)
  }

  /** A handler that raises stores nothing. */
  lemma EventTablesOnError(c: Control, t: Tables, ev: Event, parseInt: string -> int,
                           isoTimestamp: (int, int) -> string)
    requires EventStep(c, ev, parseInt).Err?
    ensures EventTables(c, t, ev, parseInt, isoTimestamp) == t
  {
  }

  /** The tables of a pass over one more event are those of the pass so
      far, updated by that event on the control state the pass reached. */
  lemma {:induction false} RunTablesSnoc(c: Control, t: Tables, events: seq<Event>, ev: Event,
                                         parseInt: string -> int, isoTimestamp: (int, int) -> string)
    requires Run(c, events, parseInt).Ok?
    ensures RunTables(c, t, events + [ev], parseInt, isoTimestamp) ==
      EventTables(Run(c, events, parseInt).value, RunTables(c, t, events, parseInt, isoTimestamp), ev,
                  parseInt, isoTimestamp)
    decreases |events|
  {
    if events == [] {
      assert (events + [ev])[1..] == [];
      if EventStep(c, ev, parseInt).Err? {
        EventTablesOnError(c, t, ev, parseInt, isoTimestamp);
      }
    } else {
      assert (events + [ev])[0] == events[0];
      assert (events + [ev])[1..] == events[1..] + [ev];
      var c1 := EventStep(c, events[0], parseInt).value;
      var t1 := EventTables(c, t, events[0], parseInt, isoTimestamp);
      RunTablesSnoc(c1, t1, events[1..], ev, parseInt, isoTimestamp);
    }
  }

  /** Once a pass has raised, later events store nothing. */
  lemma {:induction false} RunTablesStopsAtError(c: Control, t: Tables, events: seq<Event>, rest: seq<Event>,
                                                 parseInt: string -> int, isoTimestamp: (int, int) -> string)
    requires Run(c, events, parseInt).Err?
    ensures RunTables(c, t, events + rest, parseInt, isoTimestamp) == RunTables(c, t, events, parseInt, isoTimestamp)
    decreases |events|
  {
    assert events != [];
    assert (events + rest)[0] == events[0];
    assert (events + rest)[1..] == events[1..] + rest;
    match EventStep(c, events[0], parseInt)
    case Err(f) =>
    case Ok(c1) =>
      RunTablesStopsAtError(c1, EventTables(c, t, events[0], parseInt, isoTimestamp), events[1..], rest,
                            parseInt, isoTimestamp);
  }

  /** A table entry is never removed or replaced by something other than a
      later record under the same id: every key of `t` is still there. */
  lemma {:induction false} RunTablesGrow(c: Control, t: Tables, events: seq<Event>, parseInt: string -> int,
                                         isoTimestamp: (int, int) -> string)
    ensures var t' := RunTables(c, t, events, parseInt, isoTimestamp);
      && t.symbols.Keys <= t'.symbols.Keys
      && t.provenances.Keys <= t'.provenances.Keys
      && t.chronicles.Keys <= t'.chronicles.Keys
    decreases |events|
  {
    if events != [] {
      var t1 := EventTables(c, t, events[0], parseInt, isoTimestamp);
      match EventStep(c, events[0], parseInt)
      case Err(_) =>
      case Ok(c1) => RunTablesGrow(c1, t1, events[1..], parseInt, isoTimestamp);
    }
  }

  // ---------------------------------------------------------------------
  // Skipping

  /** While a skip is active and no event closes a skipped tag, the pass
      neither raises nor records nor stores: it only counts the close tags
      and releases their elements. This is what lets the interpreter step
      over a `Provenance`'s `m_value` payload without looking inside it. */
  lemma {:induction false} RunSkipping(c: Control, t: Tables, events: seq<Event>, parseInt: string -> int,
                                       isoTimestamp: (int, int) -> string)
    requires |c.inhibitors| > 0
    requires forall i :: 0 <= i < |events| ==> events[i].elem.tag !in c.inhibitors
    ensures Run(c, events, parseInt) ==
      Ok(c.(processed := c.processed + CountEnds(events), released := c.released + EndElems(events)))
    ensures RunTables(c, t, events, parseInt, isoTimestamp) == t
    decreases |events|
  {
    if events == [] {
      assert c.released + EndElems(events) == c.released;
    } else {
      var ev := events[0];
      var c1 := if ev.End? then c.(processed := c.processed + 1, released := c.released + [ev.elem]) else c;
      assert EventStep(c, ev, parseInt) == Ok(c1);
      assert EventTables(c, t, ev, parseInt, isoTimestamp) == t;
      RunSkipping(c1, t, events[1..], parseInt, isoTimestamp);
      var e1 := if ev.End? then [ev.elem] else [];
      assert c.released + EndElems(events) == c1.released + EndElems(events[1..]) by {
        assert EndElems(events) == e1 + EndElems(events[1..]);
        AppendAssoc(c.released, e1, EndElems(events[1..]));
      }
    }
  }

  /** Skipping is by tag, not by depth: a payload that itself holds an
      `m_value` ends the skip at the inner close tag, and the elements
      after it, still inside the outer `m_value`, are recorded again. */
  lemma NestedPayloadEndsSkip(parseInt: string -> int)
    ensures var inner := Element("m_value", map[], [], None);
      var x := Element("x", map[], [], None);
      var c := Control(map[], [], 1, [], [InhibitedTag], 0, []);
      && Run(c, [Start(inner), End(inner), Start(x)], parseInt).Ok?
      && Run(c, [Start(inner), End(inner), Start(x)], parseInt).value.nodeStack == [x]
  {
    var inner := Element("m_value", map[], [], None);
    var x := Element("x", map[], [], None);
    var c := Control(map[], [], 1, [], [InhibitedTag], 0, []);
    var c2 := c.(inhibitors := [], processed := 1);
    assert EventStep(c, Start(inner), parseInt) == Ok(c);
    assert RemoveFirst([InhibitedTag], "m_value") == [];
    assert EventStep(c, End(inner), parseInt) == Ok(c2);
    assert !OfInterest(c2.classes, x) && RegisteredOnStart(c2.classes, x) == Ok(c2.classes);
    assert c2.nodeStack + [x] == [x];
    assert EventStep(c2, Start(x), parseInt) == Ok(c2.(nodeStack := [x]));
    assert [Start(inner), End(inner), Start(x)][1..] == [End(inner), Start(x)];
    assert [End(inner), Start(x)][1..] == [Start(x)];
    assert [Start(x)][1..] == [];
    var c3 := c2.(nodeStack := [x]);
    assert Run(c2, [Start(x)], parseInt) == Ok(c3);
    assert Run(c, [End(inner), Start(x)], parseInt) == Ok(c3);
    assert Run(c, [Start(inner), End(inner), Start(x)], parseInt) == Ok(c3);
  }
}
