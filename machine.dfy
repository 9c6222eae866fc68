/** The selective interpreter's control state and the effect of one start
    or end event on it, as functions; the interpreter's methods are proved
    to follow them, and the lemmas below state what they promise. */
module Machine {
  import opened Wrappers
  import opened Lists
  import opened Xml

  /** The three classes of interest, each standing for its handler pair. */
  datatype Kind = SymbolClass | ProvenanceClass | ChronicleClass

  /** `classes_of_interest`: class name to handler pair. */
  const ClassesOfInterest: map<string, Kind> := map[
    "CXXR::Symbol" := SymbolClass,
    "CXXR::Provenance" := ProvenanceClass,
    "CXXR::CommandChronicle" := ChronicleClass]

  /** The tag whose next occurrence a provenance start asks to skip. */
  const InhibitedTag := "m_value"

  /** `class_id`: the `class_id` attribute, else `class_id_reference`. */
  function ClassId(e: Element): (r: Option<string>)
    ensures r.Some? <==> "class_id" in e.attrib || "class_id_reference" in e.attrib
    ensures "class_id" in e.attrib ==> r == Some(e.attrib["class_id"])
    ensures "class_id" !in e.attrib && "class_id_reference" in e.attrib ==> r == Some(e.attrib["class_id_reference"])
  {
    if "class_id" in e.attrib || "class_id_reference" in e.attrib then
      Some(if "class_id" in e.attrib then e.attrib["class_id"] else e.attrib["class_id_reference"])
    else None
  }

  /** `element_of_interest`. */
  predicate OfInterest(classes: map<string, Kind>, e: Element)
  {
    ClassId(e).Some? && ClassId(e).value in classes && "object_id" in e.attrib
  }

  /** An element is of interest exactly when it has an `object_id` and the
      class it declares (or, lacking `class_id`, refers to) is registered. */
  lemma OfInterestByAttributes(classes: map<string, Kind>, e: Element)
    ensures OfInterest(classes, e) <==>
      && "object_id" in e.attrib
      && (if "class_id" in e.attrib then e.attrib["class_id"] in classes
          else "class_id_reference" in e.attrib && e.attrib["class_id_reference"] in classes)
  {
  }

  /** `process_class`: binds the declared class id to the handler pair of
      a recognised class name; an element with `class_name` but no
      `class_id` raises. */
  function Registered(classes: map<string, Kind>, e: Element): Result<map<string, Kind>>
    requires "class_name" in e.attrib
  {
    if "class_id" !in e.attrib then Err(KeyError(Some("class_id")))
    else if e.attrib["class_name"] in ClassesOfInterest then
      Ok(classes[e.attrib["class_id"] := ClassesOfInterest[e.attrib["class_name"]]])
    else Ok(classes)
  }

  /** Registration only ever binds the declared id, and only to the handler
      pair of a recognised name; every other id keeps its binding. */
  lemma RegisteredOnlyRecognised(classes: map<string, Kind>, e: Element)
    requires "class_name" in e.attrib
    ensures Registered(classes, e).Ok? <==> "class_id" in e.attrib
    ensures Registered(classes, e).Ok? && e.attrib["class_name"] !in ClassesOfInterest ==>
      Registered(classes, e).value == classes
    ensures Registered(classes, e).Ok? && e.attrib["class_name"] in ClassesOfInterest ==>
      var m := Registered(classes, e).value;
      && m.Keys == classes.Keys + {e.attrib["class_id"]}
      && m[e.attrib["class_id"]] == ClassesOfInterest[e.attrib["class_name"]]
      && forall id :: id in classes && id != e.attrib["class_id"] ==> m[id] == classes[id]
  {
  }

  /** Everything `node_start` and `node_end` read or write except the
      three record tables. `released` logs the `clear()` calls in order. */
  datatype Control = Control(
    classes: map<string, Kind>,
    nodeStack: seq<Element>,
    interestCount: int,
    inhibitorQueue: seq<string>,
    inhibitors: seq<string>,
    processed: int,
    released: seq<Element>)

  /** The effect of a start handler: `provenance_start` queues a request
      to skip the next `m_value`; the other two do nothing. */
  function StartHandler(k: Kind, queue: seq<string>): seq<string>
  {
    if k == ProvenanceClass then queue + [InhibitedTag] else queue
  }

  /** The classes after an open tag declares (or does not declare) one. */
  function RegisteredOnStart(classes: map<string, Kind>, e: Element): Result<map<string, Kind>>
  {
    if "class_name" in e.attrib then Registered(classes, e) else Ok(classes)
  }

  /** The rest of `node_start` once the open tag's class, if any, is
      registered: a queued skip request becomes active, or the element is
      recorded and its start handler runs. */
  function Admitted(c: Control, e: Element): Control
  {
    if e.tag in c.inhibitorQueue then
      c.(inhibitorQueue := RemoveFirst(c.inhibitorQueue, e.tag),
         inhibitors := c.inhibitors + [e.tag])
    else if OfInterest(c.classes, e) then
      c.(nodeStack := c.nodeStack + [e],
         interestCount := c.interestCount + 1,
         inhibitorQueue := StartHandler(c.classes[ClassId(e).value], c.inhibitorQueue))
    else if c.interestCount > 0 then c.(nodeStack := c.nodeStack + [e])
    else c
  }

  /** `node_start`, start handler included. */
  function StartStep(c: Control, e: Element): Result<Control>
  {
    if |c.inhibitors| > 0 then Ok(c)
    else
      match RegisteredOnStart(c.classes, e)
      case Err(f) => Err(f)
      case Ok(classes) => Ok(Admitted(c.(classes := classes), e))
  }

  /** The stop handler `node_end` runs for `e`, if any. */
  function StopHandler(c: Control, e: Element): (r: Option<Kind>)
    ensures r.Some? <==> |c.inhibitors| == 0 && OfInterest(c.classes, e)
    ensures r.Some? ==> "object_id" in e.attrib && r.value == c.classes[ClassId(e).value]
  {
    if e.tag in c.inhibitors || |c.inhibitors| > 0 || !OfInterest(c.classes, e) then None
    else Some(c.classes[ClassId(e).value])
  }

  /** Pops and releases the whole working stack once no element of
      interest is open any more. */
  function Drained(c: Control): Control
  {
    if c.interestCount == 0 then c.(nodeStack := [], released := c.released + Reversed(c.nodeStack))
    else c
  }

  /** `node_end` when its stop handler, if it has one, returns normally. */
  function EndStep(c: Control, e: Element): Control
  {
    var c1 := c.(processed := c.processed + 1);
    if e.tag in c1.inhibitors then c1.(inhibitors := RemoveFirst(c1.inhibitors, e.tag))
    else if |c1.inhibitors| > 0 then c1.(released := c1.released + [e])
    else Settled(c1, e)
  }

  /** The rest of `node_end` when no skip is active and the stop handler,
      if any, returns: an element of interest is closed, and a close tag
      met while nothing is recorded is released. */
  function Settled(c: Control, e: Element): Control
  {
    var c1 := if OfInterest(c.classes, e) then Drained(c.(interestCount := c.interestCount - 1)) else c;
    if c1.interestCount > 0 then c1 else c1.(released := c1.released + [e])
  }

  /** `node_end` when its stop handler raises: only the count has moved. */
  function FailedEnd(c: Control): Control
  {
    c.(processed := c.processed + 1)
  }

  /** Only skip requests for `m_value` are ever queued or active. */
  predicate OnlyInhibitedTag(c: Control)
  {
    && (forall i :: 0 <= i < |c.inhibitorQueue| ==> c.inhibitorQueue[i] == InhibitedTag)
    && (forall i :: 0 <= i < |c.inhibitors| ==> c.inhibitors[i] == InhibitedTag)
  }

  // ---------------------------------------------------------------------
  // Properties of one start event

  /** While an inhibitor is active an open tag changes nothing. */
  lemma StartWhileInhibited(c: Control, e: Element)
    requires |c.inhibitors| > 0
    ensures StartStep(c, e) == Ok(c)
  {
  }

  /** An open tag matching a queued request moves one occurrence of it from
      the queue to the active inhibitors; the element is neither pushed nor
      counted, and no request is lost or made up. */
  lemma {:induction false} StartQueuedTag(c: Control, e: Element)
    requires |c.inhibitors| == 0 && e.tag in c.inhibitorQueue
    requires RegisteredOnStart(c.classes, e).Ok?
    ensures StartStep(c, e).Ok?
    ensures var c' := StartStep(c, e).value;
      && |c'.inhibitorQueue| == |c.inhibitorQueue| - 1
      && c'.inhibitors == c.inhibitors + [e.tag]
      && multiset(c'.inhibitorQueue) + multiset(c'.inhibitors) == multiset(c.inhibitorQueue) + multiset(c.inhibitors)
      && c'.nodeStack == c.nodeStack && c'.interestCount == c.interestCount
      && c'.processed == c.processed && c'.released == c.released
  {
    RemoveFirstMultiset(c.inhibitorQueue, e.tag);
  }

  /** On an uninhibited, unrequested open tag the element is pushed exactly
      when an element of interest is open or it is one itself, and only
      then the counter moves up by one and the start handler runs. */
  lemma StartRecords(c: Control, e: Element)
    requires |c.inhibitors| == 0 && e.tag !in c.inhibitorQueue
    requires RegisteredOnStart(c.classes, e).Ok?
    ensures StartStep(c, e).Ok?
    ensures var classes := RegisteredOnStart(c.classes, e).value;
      var c' := StartStep(c, e).value;
      && c'.classes == classes
      && (if c.interestCount > 0 || OfInterest(classes, e) then c'.nodeStack == c.nodeStack + [e]
          else c'.nodeStack == c.nodeStack)
      && c'.interestCount == c.interestCount + (if OfInterest(classes, e) then 1 else 0)
      && c'.inhibitorQueue ==
           (if OfInterest(classes, e) then StartHandler(classes[ClassId(e).value], c.inhibitorQueue)
            else c.inhibitorQueue)
      && c'.inhibitors == c.inhibitors && c'.processed == c.processed && c'.released == c.released
  {
  }

  /** A start that raises leaves the state as it was. */
  lemma StartFailure(c: Control, e: Element)
    requires StartStep(c, e).Err?
    ensures |c.inhibitors| == 0 && "class_name" in e.attrib && "class_id" !in e.attrib
    ensures StartStep(c, e).error == KeyError(Some("class_id"))
  {
  }

  // ---------------------------------------------------------------------
  // Properties of one end event

  /** Every close tag is counted, whether or not its handler raises. */
  lemma EndCounts(c: Control, e: Element)
    ensures EndStep(c, e).processed == c.processed + 1
    ensures FailedEnd(c).processed == c.processed + 1
  {
  }

  /** While an inhibitor is active a close tag only moves the count, and
      drops one occurrence of its tag from the active inhibitors when it
      is one; any other element is released. No handler runs. */
  lemma {:induction false} EndWhileInhibited(c: Control, e: Element)
    requires |c.inhibitors| > 0
    ensures StopHandler(c, e).None?
    ensures var c' := EndStep(c, e);
      && c'.processed == c.processed + 1
      && c'.classes == c.classes && c'.nodeStack == c.nodeStack
      && c'.interestCount == c.interestCount && c'.inhibitorQueue == c.inhibitorQueue
      && (if e.tag in c.inhibitors
          then c'.inhibitors == RemoveFirst(c.inhibitors, e.tag)
               && multiset(c'.inhibitors) == multiset(c.inhibitors) - multiset{e.tag}
               && c'.released == c.released
          else c'.inhibitors == c.inhibitors && c'.released == c.released + [e])
  {
    if e.tag in c.inhibitors {
      RemoveFirstMultiset(c.inhibitors, e.tag);
    }
  }

  /** Closing an uninhibited element of interest runs its stop handler and
      moves the counter down by one; when that leaves no element of
      interest open, the working stack is popped empty and every element
      on it released, last pushed first, then the element itself. */
  lemma EndOfInterest(c: Control, e: Element)
    requires |c.inhibitors| == 0 && OfInterest(c.classes, e)
    ensures StopHandler(c, e) == Some(c.classes[ClassId(e).value])
    ensures var c' := EndStep(c, e);
      && c'.interestCount == c.interestCount - 1
      && (c'.interestCount == 0 ==>
            c'.nodeStack == [] && c'.released == c.released + Reversed(c.nodeStack) + [e])
      && (c'.interestCount != 0 ==> c'.nodeStack == c.nodeStack)
      && c'.classes == c.classes && c'.inhibitorQueue == c.inhibitorQueue && c'.inhibitors == c.inhibitors
  {
  }

  /** Closing an uninhibited element that is not of interest runs no
      handler, keeps the stack, and releases it unless recording. */
  lemma EndNotOfInterest(c: Control, e: Element)
    requires |c.inhibitors| == 0 && !OfInterest(c.classes, e)
    ensures StopHandler(c, e).None?
    ensures var c' := EndStep(c, e);
      && c'.interestCount == c.interestCount && c'.nodeStack == c.nodeStack
      && c'.released == (if c.interestCount > 0 then c.released else c.released + [e])
  {
  }

  // ---------------------------------------------------------------------
  // An invariant of the whole run

  /** Only `m_value` requests are ever queued or active, across every
      start and end event, however the handlers turn out. */
  lemma {:induction false} OnlyInhibitedTagPreserved(c: Control, e: Element)
    requires OnlyInhibitedTag(c)
    ensures StartStep(c, e).Ok? ==> OnlyInhibitedTag(StartStep(c, e).value)
    ensures OnlyInhibitedTag(EndStep(c, e))
    ensures OnlyInhibitedTag(FailedEnd(c))
  {
    if StartStep(c, e).Ok? && |c.inhibitors| == 0 && e.tag in c.inhibitorQueue {
      var q := RemoveFirst(c.inhibitorQueue, e.tag);
      forall i | 0 <= i < |q| ensures q[i] == InhibitedTag {
        RemoveFirstSubset(c.inhibitorQueue, e.tag, q[i]);
      }
    }
    if e.tag in c.inhibitors {
      var s := RemoveFirst(c.inhibitors, e.tag);
      forall i | 0 <= i < |s| ensures s[i] == InhibitedTag {
        RemoveFirstSubset(c.inhibitors, e.tag, s[i]);
      }
    }
  }
}
