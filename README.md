# cxxr2prov in Dafny

cxxr2prov reads the XML object dump of a CXXR interpreter session and writes
a PROV graph. The graph records which commands (chronicles, PROV activities)
produced which variable bindings (provenances, PROV entities), and which
earlier bindings each command used.

The tool works in two phases, and this project models both.

**The streaming pass** (`iterparse2`, `node_start`, `node_end`) is a
selective interpreter over the start and end events of the document.
- Elements whose class is registered under `CXXR::Symbol`,
  `CXXR::Provenance` or `CXXR::CommandChronicle` are *of interest*. Their
  subtree is kept on a working stack, and the subtree is released once no
  element of interest is open any more.
- When a provenance element opens, it queues an inhibitor for the next
  `m_value` tag. While an inhibitor is active, nothing is recorded and no
  handler runs. The inhibitor is dropped at the first close tag named
  `m_value`. So the whole payload is skipped only when it holds no nested
  `m_value` (`Runs.RunSkipping`). A nested `m_value` ends the skip at its
  own close tag, and the rest of the payload is recorded again
  (`Runs.NestedPayloadEndsSkip`).
- When an element of interest closes, its stop handler extracts the
  record's fields and stores the record in one of three tables: symbols,
  provenances or chronicles.

**The resolution pass** (`make_graph`) runs three loops over the tables:
1. it names every provenance record after its symbol and timestamp;
2. it links every provenance record to its chronicle and adds four entity
   triples;
3. it dereferences each chronicle record's parent ids and adds the
   activity triples, with one `used` triple per parent.

How the model is laid out:
- `Machine` states the control state (classes, working stack, interest
  counter, inhibitor queue, active inhibitors, element count, released
  elements) and one start or end event, as pure functions.
- `Runs` lifts these functions to a whole pass that stops at the first
  exception (`Run`). It also states what the stop handlers store in the
  three tables, one event at a time (`EventTables`) and over a pass
  (`RunTables`).
- The class `Cxxr2Prov.Interpreter` keeps that state in fields. `Step` and
  `Parse` are proved to leave the control state that `EventStep` and `Run`
  give. They are also proved to leave the table contents that
  `EventTables` and `RunTables` give, whether or not a handler raises.
  When a handler raises, the contract names the exception and the tables.
  `NodeStart` and `NodeEnd` also state the control state after the raise.
- `Records` holds the `Provenance` and `Chronicle` classes with their
  methods.
- `Output` states the graph that `make_graph` writes, as a function of the
  tables and of the order in which the tables are visited.
- `Cxxr2Prov.Interpreter.MakeGraph` is proved to write exactly that graph,
  or to raise the `KeyError` of a reference that does not resolve.

Python exceptions are modelled as values: `Outcome` for statements and
`Result` for expressions, each carrying a `KeyError` or an `IndexError`.
State changed before an exception is raised stays changed, as in the
program.

Three library calls are parameters of the model, in `Externals.Library`:
`hashlib.md5(...).hexdigest()`, `int()` on a text, and the ISO timestamp of
`sec + usec / 1e6`. Nothing is assumed about the values they return. As
Dafny functions, though, they are total and deterministic, so the model
never raises where one of them would (see "Left out").

Where the code differs from the tool's documented design, the model
follows the code:
- A chronicle's URI is fixed in its constructor, while `parents` is still
  empty. So it hashes the command followed by `"[]"`, not the identities of
  the resolved parents. There is no topological resolution and no cycle
  detection.
- The parent ids of a chronicle are looked up in the *provenance* table,
  and its `used` triples point at provenance URIs.
- Only `.` is substituted in binding names.
- A reference that does not resolve raises `KeyError` while the graph is
  being built. Triples added before that point stay added.

## Model

| member | source | states |
|---|---|---|
| Wrappers.Lookup | Provenance.py:43 | `d[k]` succeeds exactly when `k` is not `None` and is a key, and yields `d[k]`; otherwise it raises `KeyError(k)` |
| Lists.FirstIndex | cxxr2prov.py:163 | the position `list.remove` acts on: an occurrence of the value with no occurrence before it |
| Lists.RemoveFirst | cxxr2prov.py:163 | `list.remove` deletes exactly the first occurrence of the value and keeps the other elements in order, one shorter; without an occurrence the list is unchanged |
| Lists.RemoveFirstMultiset | cxxr2prov.py:130 | removing takes exactly one occurrence of the value out of the list's multiset |
| Lists.RemoveFirstSubset | cxxr2prov.py:163 | removing never introduces a value that was not already in the list |
| Lists.Reversed | cxxr2prov.py:146-148 | repeated `pop()` yields the stack's elements last pushed first: element `i` of the result is element `n-1-i` of the stack |
| Strings.ReplaceChar | Provenance.py:38 | `str.replace` with a one-character pattern; its properties are the three lemmas below |
| Strings.Substitute | Provenance.py:37-38 | the loop over the substitution table, one `replace` per pair in order; see `Strings.SubstituteSnoc` |
| Strings.ReplaceCharRemoves | Provenance.py:37-38 | replacing a character by a text that does not contain it leaves no occurrence of it |
| Strings.ReplaceCharIdentity | Provenance.py:38 | replacing a character that does not occur leaves the text unchanged |
| Strings.ReplaceCharAppend | Provenance.py:38 | replacing in a concatenation is the concatenation of the replaced parts |
| Strings.SubstituteSnoc | Provenance.py:37-38 | applying one more pair of the substitution table is one more `replace` on the result so far |
| Xml.Get | cxxr2prov.py:78 | `elem.get(key)` is a value exactly when the attribute is present, and that value is the attribute's |
| Xml.ObjectRef | cxxr2prov.py:208 | a reference is the element's own `object_id` when it has one, and otherwise its `object_id_reference` or `None` |
| Xml.ChildrenNamed | cxxr2prov.py:206-207 | `child::tag` yields only children carrying the tag, and every child that carries it |
| Xml.ChildrenNamedOrder | cxxr2prov.py:206-207 | `child::tag` yields the children carrying the tag in document order: each result is the child at an ascending position, and every such child's position is among them |
| Xml.ChildrenNamedFirst | cxxr2prov.py:207 | element `[0]` of a non-empty `child::tag` is the first child carrying the tag |
| Xml.Texts | cxxr2prov.py:189-191 | every text node of the selected children is among the `text()` results, and there are no more results than children |
| Xml.TextsOrder | cxxr2prov.py:189-191 | the `text()` results are the texts of the selected children that have one, in document order: each result is the text at an ascending position, and every child with a text is reached |
| Xml.ChildTextsFirst | cxxr2prov.py:191-195 | element `[0]` of `child::tag/text()` is the text of the first child that carries both the tag and a text |
| Rdf.Graph.Add | Provenance.py:48 | `graph.add` appends exactly the given triple to the graph's log |
| Records.BindingName | Provenance.py:30-39 | the local name `binding-` plus the digest of symbol name and timestamp, after substitution; its shape is stated by `Records.BindingNameShape` |
| Records.CommandName | Chronicle.py:22-25 | the local name `command-` plus the digest of the command followed by `repr([])` |
| Records.BindingNameShape | Provenance.py:34-39 | a binding name starts with `binding-` and contains no `.`; when the digest has no `.`, the name is the prefix followed by the digest |
| Records.ResolvedPrefix | Chronicle.py:29-30 | the ids before the returned index all resolve, and the id at that index, if there is one, does not |
| Records.Deref | Chronicle.py:27-30 | the dereferenced list has one record per id, in order, each the one the table holds under that id |
| Records.URIs | Chronicle.py:37-39 | the URIs of the parents, one per parent, in order |
| Records.UsedTriples | Chronicle.py:37-39 | one `prov:used` triple per input, in order, each with the activity as subject |
| Records.Provenance.constructor | Provenance.py:13-21 | stores the ids as given and the ISO timestamp of `sec` and `usec`; URI, symbol and chronicle start unset |
| Records.Provenance.EstablishURIRef | Provenance.py:30-39 | succeeds exactly when the symbol id resolves; sets the symbol name and the URI `binding-md5(name+timestamp)` after substitution; on `KeyError` changes nothing |
| Records.Provenance.Dereference | Provenance.py:41-43 | succeeds exactly when the chronicle id resolves, and then links the record to that chronicle; otherwise raises `KeyError(ccoid)` and leaves the link alone |
| Records.Provenance.PutOnGraph | Provenance.py:45-53 | on success adds exactly the four entity triples in program order and counts one `wasGeneratedBy` link in verbose mode; on `KeyError` adds nothing |
| Records.Provenance.GetURI | Provenance.py:57 | returns the record's URI |
| Records.Chronicle.constructor | Chronicle.py:9-16 | stores command and parent ids, starts with no parents, and fixes the URI `command-md5(command + "[]")` |
| Records.Chronicle.EstablishURIRef | Chronicle.py:22-25 | with no parents yet, the URI is `command-` followed by the digest of the command and `[]` |
| Records.Chronicle.Dereference | Chronicle.py:27-30 | appends the records of the resolving prefix of the parent ids, in order; succeeds exactly when all ids resolve, and otherwise raises the `KeyError` of the first id that does not |
| Records.Chronicle.PutOnGraph | Chronicle.py:32-39 | on success adds the type and label triples and one `used` triple per parent, counting each parent in verbose mode; on `KeyError` adds nothing but keeps the parents found so far |
| Records.Chronicle.AddUsedTriples | Chronicle.py:37-39 | adds one `used` triple per parent, in order, and counts each one in verbose mode |
| Records.Chronicle.GetURI | Chronicle.py:42-43 | returns the record's URI |
| Handlers.SymbolEntry | cxxr2prov.py:187-196 | the value `symbol_stop` stores, `None` for a filtered symbol, or its `IndexError`; see `Handlers.SymbolEntryFilter` |
| Handlers.ProvenanceEntry | cxxr2prov.py:202-219 | the fields `provenance_stop` passes to `Provenance`, or the `IndexError` of the first missing child, checked in program order; see `Handlers.ProvenanceEntryRefs` |
| Handlers.ParentRefs | cxxr2prov.py:234-238 | the references of the `parent` children in document order; `Handlers.CollectParentIds` computes it |
| Handlers.ChronicleEntry | cxxr2prov.py:227-240 | the command and parent ids `chronicle_stop` passes to `Chronicle`, or `IndexError` when there is no command text |
| Handlers.SymbolEntryFilter | cxxr2prov.py:187-196 | a symbol is kept exactly when its first `symtype` text is `"0"` and it has a `name` text, under the first `name` text; a filtered symbol never raises |
| Handlers.ProvenanceEntryRefs | cxxr2prov.py:202-213 | the chronicle and symbol ids stored are the references of the FIRST `chronicle` child and the FIRST `symbol` child |
| Handlers.CollectParentIds | cxxr2prov.py:234-238 | the parent ids are the references of the `parent` children, one each, in document order |
| Machine.ClassId | cxxr2prov.py:76-79 | a class id exists exactly when `class_id` or `class_id_reference` is present, and `class_id` wins when both are |
| Machine.OfInterest | cxxr2prov.py:81-86 | `element_of_interest`; see `Machine.OfInterestByAttributes` |
| Machine.Registered | cxxr2prov.py:176-182 | `process_class` on the class table; see `Machine.RegisteredOnlyRecognised` |
| Machine.StartHandler | cxxr2prov.py:198-200 | only the provenance start handler changes anything: it queues one `m_value` request |
| Machine.RegisteredOnStart | cxxr2prov.py:159-160 | an open tag with `class_name` is registered; any other leaves the classes alone |
| Machine.Admitted | cxxr2prov.py:162-174 | the rest of `node_start`; see `Machine.StartQueuedTag` and `Machine.StartRecords` |
| Machine.StartStep | cxxr2prov.py:154-174 | `node_start` on the control state; see the `Machine.Start*` lemmas |
| Machine.StopHandler | cxxr2prov.py:129-141 | a stop handler runs exactly when no inhibitor is active and the element is of interest, and it is the one registered for the element's class |
| Machine.Drained | cxxr2prov.py:144-148 | at interest count zero the stack is emptied onto the release log, last pushed first |
| Machine.EndStep | cxxr2prov.py:126-152 | `node_end` when its handler returns; see the `Machine.End*` lemmas |
| Machine.Settled | cxxr2prov.py:138-152 | the uninhibited part of `node_end`; see `Machine.EndOfInterest` and `Machine.EndNotOfInterest` |
| Machine.FailedEnd | cxxr2prov.py:126-141 | a raising stop handler leaves only the count of processed elements moved |
| Machine.OfInterestByAttributes | cxxr2prov.py:76-86 | an element is of interest exactly when it has an `object_id` and its `class_id` (or, lacking one, its `class_id_reference`) is registered |
| Machine.RegisteredOnlyRecognised | cxxr2prov.py:176-182 | `process_class` raises exactly when `class_id` is missing; it binds only the declared id, only for a recognised class name, and keeps every other binding |
| Machine.StartWhileInhibited | cxxr2prov.py:155-157 | while an inhibitor is active, an open tag changes nothing |
| Machine.StartQueuedTag | cxxr2prov.py:162-165 | a queued tag moves one request from the queue to the active inhibitors; nothing is pushed or counted, and no request is lost or added |
| Machine.StartRecords | cxxr2prov.py:167-174 | an element is pushed exactly when recording is on or it is of interest; only an element of interest raises the counter by one and runs its start handler |
| Machine.StartFailure | cxxr2prov.py:159-160 | an open tag raises only when nothing is inhibited and the tag has `class_name` without `class_id`, and the error is `KeyError('class_id')` |
| Machine.EndCounts | cxxr2prov.py:127 | every close tag is counted, whether or not its handler raises |
| Machine.EndWhileInhibited | cxxr2prov.py:129-136 | while inhibited, no handler runs; a close tag drops one matching inhibitor, and any other tag is released; nothing else changes |
| Machine.EndOfInterest | cxxr2prov.py:138-152 | closing an element of interest runs its class's stop handler and lowers the counter by one; at zero, the stack is emptied and released last pushed first, then the element itself |
| Machine.EndNotOfInterest | cxxr2prov.py:150-152 | closing any other element runs no handler, keeps the stack, and releases the element unless recording |
| Machine.OnlyInhibitedTagPreserved | cxxr2prov.py:198-200 | the queue and the active inhibitors only ever hold `m_value`, through every start and end event |
| Runs.HandlerError | cxxr2prov.py:138-141 | the exception the class's stop handler raises on the element, if any |
| Runs.EventStep | cxxr2prov.py:121-124 | one event is `node_start` or `node_end`, raising when the stop handler does |
| Runs.Run | cxxr2prov.py:115-124 | the events in document order, the first exception ending the pass; see the lemmas below |
| Runs.Stored | cxxr2prov.py:187-240 | a kept symbol's name, a new provenance record or a new chronicle record under the element's `object_id`; a filtered symbol or a raise stores nothing |
| Runs.StoredOnlyAt | cxxr2prov.py:138-141 | a stop handler changes only its own table, only at the element's `object_id`, and never removes a key |
| Runs.EventTables | cxxr2prov.py:121-141 | only a close tag whose stop handler runs stores anything |
| Runs.EventTablesOnError | cxxr2prov.py:138-141 | a handler that raises stores nothing |
| Runs.RunTables | cxxr2prov.py:115-124 | the tables after a pass: each event's effect in order, up to the first exception |
| Runs.RunTablesSnoc | cxxr2prov.py:115-124 | the tables after one more event are those of the pass so far, updated by that event on the control state the pass reached |
| Runs.RunTablesStopsAtError | cxxr2prov.py:115-124 | after the first exception, no later event stores anything |
| Runs.RunTablesGrow | cxxr2prov.py:115-141 | a pass never removes a key from any table |
| Runs.RunSkipping | cxxr2prov.py:126-157 | while an inhibitor is active and no event closes an inhibited tag, the pass never raises, records nothing and stores nothing; it only counts the close tags and releases their elements |
| Runs.NestedPayloadEndsSkip | cxxr2prov.py:129-169 | a payload holding a nested `m_value` ends the skip at the inner close tag, and the next open tag is recorded again |
| Runs.RunSnoc | cxxr2prov.py:115-124 | a pass over one more event is the pass so far followed by that event's step |
| Runs.RunStopsAtError | cxxr2prov.py:115-124 | after the first exception, no later event is processed |
| Runs.RunCounts | cxxr2prov.py:115-127 | a completed pass has counted exactly the end events |
| Runs.RunOnlyInhibitedTag | cxxr2prov.py:115-124 | only `m_value` skip requests exist at any point of a pass |
| Runs.RunFails | cxxr2prov.py:115-124 | if a pass fails, it has an event at which the steps before it succeeded and that event's step raised the pass's exception |
| Output.Entities | cxxr2prov.py:298-299 | the second loop adds four triples per provenance record |
| Output.EntitiesSnoc | cxxr2prov.py:298-299 | visiting one more record appends exactly that record's entity triples |
| Output.ParentURIs | Chronicle.py:37-39 | the `used` objects are the URIs the parent ids' records were given, in order |
| Output.Activities | cxxr2prov.py:302-303 | the third loop adds two triples per chronicle record, plus one per parent id |
| Output.ActivitiesSnoc | cxxr2prov.py:302-303 | visiting one more record appends exactly its activity triples and adds its parent count |
| Output.IterationOrder | cxxr2prov.py:294 | the table's keys in its iteration order: every key exactly once, in an order the model leaves open |
| Cxxr2Prov.DerefURIs | Chronicle.py:27-39 | once every provenance record is named, the URIs of the dereferenced parents are those of the records their ids name |
| Cxxr2Prov.EstablishAll | cxxr2prov.py:294-295 | the first loop succeeds exactly when every symbol id resolves, and then every record holds its symbol and URI; otherwise it raises the `KeyError` of a record whose symbol id is missing |
| Cxxr2Prov.PutEntity | Provenance.py:45-53 | `put_on_graph` on a named record adds that record's entity triples and links it, or raises `KeyError(ccoid)` |
| Cxxr2Prov.VisitProvenance | cxxr2prov.py:298-299 | one iteration of the second loop extends the put, linked and counted prefix by one record, or raises for a missing chronicle |
| Cxxr2Prov.PutProvenances | cxxr2prov.py:298-299 | the second loop adds the entity triples of all records in iteration order, links each record, and counts each in verbose mode; otherwise it raises for a record whose chronicle id is missing |
| Cxxr2Prov.UnresolvedChronicle | Provenance.py:43 | a record whose chronicle id is missing means that not every chronicle id resolves |
| Cxxr2Prov.AllChroniclesResolve | cxxr2prov.py:298-299 | a second loop that visits every key without error has resolved every chronicle id |
| Cxxr2Prov.PutActivity | Chronicle.py:32-39 | `put_on_graph` on a chronicle with no parents yet raises for its first missing parent id, or dereferences all its parents and adds exactly its activity triples |
| Cxxr2Prov.VisitChronicle | cxxr2prov.py:302-303 | one iteration of the third loop extends the put, dereferenced and counted prefix by one record, or raises for its first missing parent |
| Cxxr2Prov.PutChronicles | cxxr2prov.py:302-303 | the third loop succeeds exactly when every parent id resolves, and then adds all activity triples in iteration order; otherwise it raises the error of a record's first missing parent |
| Cxxr2Prov.UnresolvedParent | Chronicle.py:29-30 | a record with a missing parent id means that not every parent id resolves |
| Cxxr2Prov.AllParentsResolve | cxxr2prov.py:302-303 | a third loop that visits every key without error has resolved every parent id |
| Cxxr2Prov.AllLinked | cxxr2prov.py:298-299 | after the second loop, every provenance record holds the chronicle its id names |
| Cxxr2Prov.AllDereferenced | cxxr2prov.py:302-303 | after the third loop, every chronicle record holds the parents its ids name |
| Cxxr2Prov.PutLinked | cxxr2prov.py:301-303 | after the second loop, the third completes the graph and resolves every record exactly when all references resolve; otherwise it raises for a missing one |
| Cxxr2Prov.PutEstablished | cxxr2prov.py:297-303 | the second and third loops succeed exactly when all references resolve; they write the entity triples then the activity triples and count both kinds of link; a failure is the `KeyError` of a missing id |
| Cxxr2Prov.PutRecords | cxxr2prov.py:293-303 | the three loops succeed exactly when every symbol, chronicle and parent id resolves, and the error is that of the earliest loop to meet a missing id; on success the graph is the entity triples followed by the activity triples, every record is resolved, and the counters grow by the number of provenances and of parent ids |
| Cxxr2Prov.Interpreter.constructor | cxxr2prov.py:60-72 | starts with no registered class, an empty stack, no inhibitor, zero counters and empty tables |
| Cxxr2Prov.Interpreter.ProcessClass | cxxr2prov.py:176-182 | registers exactly as `Machine.Registered` says, or raises `KeyError('class_id')` and changes nothing |
| Cxxr2Prov.Interpreter.ProvenanceStart | cxxr2prov.py:198-200 | queues one `m_value` request at the end of the inhibitor queue |
| Cxxr2Prov.Interpreter.AdmitStart | cxxr2prov.py:162-174 | the control state after an open tag is the one `Machine.Admitted` gives |
| Cxxr2Prov.Interpreter.NodeStart | cxxr2prov.py:154-174 | follows `Machine.StartStep`; a raise leaves the control state unchanged; no table is touched; only `m_value` requests are kept |
| Cxxr2Prov.Interpreter.SymbolStop | cxxr2prov.py:187-196 | adds the first `name` text under the object id for a kept symbol, skips a filtered one, and raises `IndexError` when a kept symbol has no name |
| Cxxr2Prov.Interpreter.ProvenanceStop | cxxr2prov.py:202-221 | stores a new unresolved record under the object id, with the first chronicle and symbol references and the timestamp of the first `sec` and `usec`; a missing child raises `IndexError` and adds nothing |
| Cxxr2Prov.Interpreter.ChronicleStop | cxxr2prov.py:227-240 | stores a new record under the object id, with the first command text and the parent references in document order; without a command it raises `IndexError` and adds nothing |
| Cxxr2Prov.Interpreter.RunStopHandler | cxxr2prov.py:138-141 | the stop handler of the element's class changes its own table as that handler says, with the contents `Runs.Stored` gives, and leaves the other tables alone |
| Cxxr2Prov.Interpreter.DrainStack | cxxr2prov.py:146-148 | empties the working stack and releases its elements, last pushed first |
| Cxxr2Prov.Interpreter.CloseInterest | cxxr2prov.py:142-148 | lowers the interest counter by one, and drains the stack when the counter reaches zero |
| Cxxr2Prov.Interpreter.EndOfInterest | cxxr2prov.py:138-148 | runs the stop handler; if it raises, the control state is unchanged, and otherwise one element of interest is closed |
| Cxxr2Prov.Interpreter.EndUninhibited | cxxr2prov.py:138-152 | follows `Machine.Settled` when the handler returns; only an element of interest can raise; any other element leaves the tables alone |
| Cxxr2Prov.Interpreter.NodeEnd | cxxr2prov.py:126-152 | follows `Machine.EndStep`, or `Machine.FailedEnd` when the stop handler raises; only that handler touches a table, with the contents `Runs.EventTables` gives |
| Cxxr2Prov.Interpreter.Step | cxxr2prov.py:121-124 | one event moves the control state as `Runs.EventStep` says and the table contents as `Runs.EventTables` says, raising what the handler raises; the tables only gain keys |
| Cxxr2Prov.Interpreter.RunStep | cxxr2prov.py:116-124 | one turn of the loop extends the pass over the events so far by one event, in control state and tables, or ends the whole pass with its exception |
| Cxxr2Prov.Interpreter.Parse | cxxr2prov.py:115-124 | the pass follows `Runs.Run` and its table contents follow `Runs.RunTables`, stopping at the first exception; a completed pass has counted every close tag; the tables only gain keys |
| Cxxr2Prov.Interpreter.MakeGraph | cxxr2prov.py:287-303 | a new graph that is complete exactly when every reference resolves: the entity triples of all provenances, then the activity triples of all chronicles, with every record resolved and both counters right; otherwise the `KeyError` of the earliest loop to fail |

## Left out

- Threading: `iterparse` with its status thread, the interrupt flag and `KeyboardInterrupt`. `iterparse_status` prints to the terminal. The model runs `iterparse2` to the end or to its first exception.
- lxml: the document is a sequence of start and end events over element values. XPath queries are child lookups by tag. `elem.clear()` is modelled as appending the element to a `released` log. Its effect on the element itself (attributes, children and text wiped, as later events on the same object would see) is not modelled: each event carries its own element value. This matters only when a drain releases an element that is still open, as after a nested `m_value` (`Runs.NestedPayloadEndsSkip`); at that element's close tag the source sees no `object_id` and runs no handler, so a faithful event sequence must carry the cleared value there.
- `int()`, `hashlib.md5` and `datetime.utcfromtimestamp(...).isoformat()` are uninterpreted function parameters. The floating-point sum `sec + usec / 1e6` lies inside that parameter.
- Exceptions of those library calls: they are total here, so these raises are not modelled:
  - the `ValueError` of `int()` on a `sec` or `usec` text that is not a number (cxxr2prov.py:218-219);
  - the range error of `utcfromtimestamp` on an out-of-range time (Provenance.py:17);
  - the `UnicodeEncodeError` of `md5` on a non-ASCII symbol name (Provenance.py:35) or command (Chronicle.py:23).
- In verbose mode `iterparse2` runs on its own thread (cxxr2prov.py:95-113). An exception there ends only that thread, and the constructor then goes on to `make_graph` with the tables filled so far (cxxr2prov.py:73-74). The model states the tables after a failed pass (`Parse`), but it has no constructor that carries on from there.
- rdflib: a graph is the sequence of its `add` calls. Set deduplication, the prefix bindings of `make_graph` (`g.bind`) and Turtle serialisation to the output file are not modelled. An IRI is a namespace plus a local name.
- argparse, the existence check on the input file, `sys.exit`, the `ParseError` wrapper and the summary printed in verbose mode. The two counters themselves are modelled.
- The `__str__` methods of both record classes, `get_chronicles` and `get_provenances`: the model passes the tables directly.
- `Provenance.getChronicle` returns an undefined name. Nothing calls it.
- `symbol_start` and `chronicle_start` do nothing and are not separate members.
- The `CXXR2PROV` constructor runs the parse and `make_graph` itself. In the model these are the separate calls `Parse` and `MakeGraph`. The Python lists and dicts that are class attributes are instance fields, since only one instance is ever made.
- Records.Chronicle.EstablishURIRef: requires `parents == []`, its only state when called. The `repr` of a non-empty list of records prints object addresses, which are not modelled.
- Cxxr2Prov.Interpreter.MakeGraph: the order in which a dict is iterated is left open. The contract holds for whichever orders come out, and the first two loops share one order.
- Cxxr2Prov.Interpreter.MakeGraph: on failure, the contract states only which error is raised and why. It does not state which triples and links were added before the raise.
- Cxxr2Prov.Interpreter.Parse: on failure, the contract states the exception and the table contents. It does not state the control state at the raise.
- Cxxr2Prov.Interpreter.Step: on failure, likewise, the control state at the raise is left to `NodeEnd`'s contract.
- Cxxr2Prov.PutRecords: requires distinct chronicle records, which every table the interpreter builds has, because each stop handler stores a fresh record.
