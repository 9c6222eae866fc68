/** The single-pass selective interpreter: it reacts to the start and end
    events of the object dump, keeps only the subtrees of elements of
    interest, fills the symbol, provenance and chronicle tables, and then
    resolves the records and puts them on the graph. */
module Cxxr2Prov {
  import opened Wrappers
  import opened Lists
  import opened Xml
  import opened Rdf
  import opened Externals
  import opened Records
  import opened Handlers
  import opened Machine
  import opened Runs
  import opened Output

  /** The provenance table as values: what each record was built with. */
  function ProvenanceView(d: map<string, Provenance>): (v: map<string, StoredProvenance>)
    ensures v.Keys == d.Keys
  {
    map k | k in d :: StoredProvenance(d[k].symId, d[k].timestamp, d[k].ccoid)
  }

  /** The chronicle table as values: what each record was built with. */
  function ChronicleView(d: map<string, Chronicle>): (v: map<string, ChronicleFields>)
    ensures v.Keys == d.Keys
  {
    map k | k in d :: ChronicleFields(d[k].command, d[k].parentIds)
  }

  /** Storing a record under `id` stores its values under `id`. */
  lemma ProvenanceViewUpdate(d: map<string, Provenance>, id: string, p: Provenance)
    ensures ProvenanceView(d[id := p]) == ProvenanceView(d)[id := StoredProvenance(p.symId, p.timestamp, p.ccoid)]
  {
  }

  /** Storing a record under `id` stores its values under `id`. */
  lemma ChronicleViewUpdate(d: map<string, Chronicle>, id: string, c: Chronicle)
    ensures ChronicleView(d[id := c]) == ChronicleView(d)[id := ChronicleFields(c.command, c.parentIds)]
  {
  }

  /** A provenance record as `provenance_stop` leaves it. */
  predicate Unresolved(p: Provenance)
    reads p
  {
    p.uri.None? && p.symbol.None? && p.chronicle == null
  }

  /** A chronicle record as `chronicle_stop` leaves it. */
  predicate Unlinked(c: Chronicle, md5Hex: string -> string)
    reads c`parents, c`uri
  {
    c.parents == [] && c.uri == Iri(CxxrNs, CommandName(md5Hex, c.command))
  }

  /** What `establish_URIRef` leaves in a provenance record: its symbol
      name and the URI made from that name and the timestamp. */
  ghost predicate Established(p: Provenance, symbols: map<string, string>, md5Hex: string -> string)
    reads p`symbol, p`uri
  {
    && Resolves(symbols, p.symId)
    && p.symbol == Some(symbols[p.symId.value])
    && p.uri == Some(EntityURI(p, symbols, md5Hex))
  }

  /** The first loop of `make_graph` has run to the end. */
  ghost predicate AllEstablished(provenances: map<string, Provenance>, symbols: map<string, string>,
                                 md5Hex: string -> string)
    reads provenances.Values`symbol, provenances.Values`uri
  {
    forall k :: k in provenances ==> Established(provenances[k], symbols, md5Hex)
  }

  /** What `put_on_graph` leaves in a provenance record: the chronicle
      record its chronicle id names. */
  ghost predicate Linked(p: Provenance, chronicles: map<string, Chronicle>)
    reads p`chronicle
  {
    Resolves(chronicles, p.ccoid) && p.chronicle == chronicles[p.ccoid.value]
  }

  /** The URIs of the parents a chronicle collects are the URIs of the
      records its parent ids name. */
  lemma DerefURIs(ids: seq<Option<string>>, provenances: map<string, Provenance>,
                  symbols: map<string, string>, md5Hex: string -> string)
    requires ParentsNamed(ids, provenances, symbols)
    requires AllEstablished(provenances, symbols, md5Hex)
    ensures Named(Deref(provenances, ids))
    ensures URIs(Deref(provenances, ids)) == ParentURIs(ids, provenances, symbols, md5Hex)
  {
    var parents := Deref(provenances, ids);
    assert Named(parents) by {
      forall i | 0 <= i < |parents| ensures parents[i].uri.Some? {
        assert Established(provenances[ids[i].value], symbols, md5Hex);
      }
    }
    var a := URIs(parents);
    var b := ParentURIs(ids, provenances, symbols, md5Hex);
    forall i | 0 <= i < |ids| ensures a[i] == b[i] {
      assert Established(provenances[ids[i].value], symbols, md5Hex);
    }
  }

  /** Every provenance record's symbol id is in the symbol table. */
  ghost predicate SymbolsResolve(provenances: map<string, Provenance>, symbols: map<string, string>)
  {
    forall k :: k in provenances ==> Resolves(symbols, provenances[k].symId)
  }

  /** Every provenance record's chronicle id is in the chronicle table. */
  ghost predicate ChroniclesResolve(provenances: map<string, Provenance>, chronicles: map<string, Chronicle>)
  {
    forall k :: k in provenances ==> Resolves(chronicles, provenances[k].ccoid)
  }

  /** Every chronicle record's parent ids are in the provenance table. */
  ghost predicate ParentsResolve(chronicles: map<string, Chronicle>, provenances: map<string, Provenance>)
  {
    forall k, i :: k in chronicles && 0 <= i < |chronicles[k].parentIds| ==>
      Resolves(provenances, chronicles[k].parentIds[i])
  }

  /** The provenance record at `k` has a symbol id that is not in the
      symbol table, and `error` is the one it raises. */
  predicate SymbolMissing(provenances: map<string, Provenance>, k: string, symbols: map<string, string>,
                          error: Failure)
  {
    k in provenances && !Resolves(symbols, provenances[k].symId) && error == KeyError(provenances[k].symId)
  }

  /** The first loop of `make_graph`: `establish_URIRef` on every
      provenance record, visiting the keys in the table's iteration order
      `keys`. It raises on the first symbol id that is not in the symbol
      table. */
  method EstablishAll(provenances: map<string, Provenance>, keys: seq<string>, symbols: map<string, string>,
                      md5Hex: string -> string) returns (r: Outcome)
    requires Enumerates(keys, provenances.Keys)
    modifies provenances.Values`symbol, provenances.Values`uri
    ensures r.Pass? <==> SymbolsResolve(provenances, symbols)
    ensures r.Fail? ==> exists k :: SymbolMissing(provenances, k, symbols, r.error)
    ensures r.Pass? ==> AllEstablished(provenances, symbols, md5Hex)
  {
    for i := 0 to |keys|
      invariant forall j :: 0 <= j < i ==> Established(provenances[keys[j]], symbols, md5Hex)
    {
      var res := provenances[keys[i]].EstablishURIRef(symbols, md5Hex);
      if res.Fail? {
        assert SymbolMissing(provenances, keys[i], symbols, res.error);
        return res;
      }
    }
    r := Pass;
  }

  /** Every chronicle record carries the URI it was built with. */
  ghost predicate ActivitiesNamed(chronicles: map<string, Chronicle>, md5Hex: string -> string)
    reads chronicles.Values`uri
  {
    forall k :: k in chronicles ==> chronicles[k].uri == ActivityURI(chronicles[k], md5Hex)
  }

  /** The second loop has visited `keys[..n]`: their ids resolve and the
      graph, which held `base`, holds `triples`: `base` followed by their
      entity triples. */
  ghost predicate EntitiesPut(triples: seq<Triple>, base: seq<Triple>, keys: seq<string>, n: nat,
                              provenances: map<string, Provenance>, symbols: map<string, string>,
                              chronicles: map<string, Chronicle>, md5Hex: string -> string)
  {
    && n <= |keys|
    && EntitiesResolve(keys[..n], provenances, symbols, chronicles)
    && triples == base + Entities(keys[..n], provenances, symbols, chronicles, md5Hex)
  }

  /** The records at `keys[..n]` hold the chronicle their ids name. */
  ghost predicate LinkedUpTo(provenances: map<string, Provenance>, keys: seq<string>, n: nat,
                             chronicles: map<string, Chronicle>)
    reads provenances.Values`chronicle
  {
    forall j :: 0 <= j < n && j < |keys| && keys[j] in provenances ==> Linked(provenances[keys[j]], chronicles)
  }

  /** `put_on_graph` on one established record: it links the record to
      the chronicle its id names and adds the record's entity triples,
      unless that id does not resolve. */
  method PutEntity(g: Graph, p: Provenance, chronicles: map<string, Chronicle>, summary: Summary,
                   ghost symbols: map<string, string>, ghost md5Hex: string -> string) returns (r: Outcome)
    requires Established(p, symbols, md5Hex) && ActivitiesNamed(chronicles, md5Hex)
    modifies g, summary, p`chronicle
    ensures r.Pass? <==> Resolves(chronicles, p.ccoid)
    ensures r.Fail? ==> r.error == KeyError(p.ccoid)
    ensures r.Pass? ==> Linked(p, chronicles)
    ensures r.Pass? ==> g.triples == old(g.triples) + EntityOf(p, symbols, chronicles, md5Hex)
    ensures r.Pass? ==>
      summary.countWasGeneratedBy == old(summary.countWasGeneratedBy) + (if summary.verbose then 1 else 0)
    ensures summary.countUsed == old(summary.countUsed)
  {
    r := p.PutOnGraph(g, chronicles, summary);
  }

  /** Visiting the record at `keys[i]` extends the triples of the second
      loop by that record's entity triples. */
  lemma EntitiesStep(triples: seq<Triple>, base: seq<Triple>, keys: seq<string>, i: nat,
                     provenances: map<string, Provenance>, symbols: map<string, string>,
                     chronicles: map<string, Chronicle>, md5Hex: string -> string)
    requires i < |keys| && keys[i] in provenances
    requires Resolves(symbols, provenances[keys[i]].symId) && Resolves(chronicles, provenances[keys[i]].ccoid)
    requires EntitiesPut(triples, base, keys, i, provenances, symbols, chronicles, md5Hex)
    ensures EntitiesPut(triples + EntityOf(provenances[keys[i]], symbols, chronicles, md5Hex), base, keys, i + 1,
                        provenances, symbols, chronicles, md5Hex)
  {
    EntitiesSnoc(keys[..i], keys[i], provenances, symbols, chronicles, md5Hex);
    assert keys[..i + 1] == keys[..i] + [keys[i]];
    AppendAssoc(base, Entities(keys[..i], provenances, symbols, chronicles, md5Hex),
                EntityOf(provenances[keys[i]], symbols, chronicles, md5Hex));
  }

  /** What the second loop of `make_graph` keeps after visiting
      `keys[..n]`: those records are on the graph and linked to their
      chronicles, every record is still established, and the
      `wasGeneratedBy` counter has grown by one per record in verbose
      mode. */
  ghost predicate ProvenancesVisited(triples: seq<Triple>, base: seq<Triple>, generated: int, startGenerated: int,
                                     verbose: bool, provenances: map<string, Provenance>, keys: seq<string>, n: nat,
                                     symbols: map<string, string>, chronicles: map<string, Chronicle>,
                                     md5Hex: string -> string)
    reads provenances.Values`chronicle, provenances.Values`symbol, provenances.Values`uri, chronicles.Values`uri
  {
    && EntitiesPut(triples, base, keys, n, provenances, symbols, chronicles, md5Hex)
    && LinkedUpTo(provenances, keys, n, chronicles)
    && AllEstablished(provenances, symbols, md5Hex)
    && ActivitiesNamed(chronicles, md5Hex)
    && generated == startGenerated + (if verbose then n else 0)
  }

  /** One iteration of the second loop of `make_graph`: the record at
      `keys[i]` is put on the graph, and what the loop keeps about the
      records before it carries over to `keys[..i + 1]`. */
  method VisitProvenance(g: Graph, p: Provenance, provenances: map<string, Provenance>, keys: seq<string>, i: nat,
                         chronicles: map<string, Chronicle>, summary: Summary, ghost base: seq<Triple>,
                         ghost startGenerated: int, ghost symbols: map<string, string>, ghost md5Hex: string -> string)
    returns (r: Outcome)
    requires i < |keys| && keys[i] in provenances && p == provenances[keys[i]]
    requires ProvenancesVisited(g.triples, base, summary.countWasGeneratedBy, startGenerated, summary.verbose,
                                provenances, keys, i, symbols, chronicles, md5Hex)
    modifies g, summary, p`chronicle
    ensures r.Fail? ==> ChronicleMissing(provenances, keys[i], chronicles, r.error)
    ensures r.Pass? ==> ProvenancesVisited(g.triples, base, summary.countWasGeneratedBy, startGenerated, summary.verbose,
                                           provenances, keys, i + 1, symbols, chronicles, md5Hex)
    ensures summary.countUsed == old(summary.countUsed)
  {
    assert Established(p, symbols, md5Hex);
    r := PutEntity(g, p, chronicles, summary, symbols, md5Hex);
    if r.Fail? {
      return;
    }
    EntitiesStep(old(g.triples), base, keys, i, provenances, symbols, chronicles, md5Hex);
  }

  /** The provenance record at `k` has a chronicle id that is not in the
      chronicle table, and `error` is the one it raises. */
  predicate ChronicleMissing(provenances: map<string, Provenance>, k: string, chronicles: map<string, Chronicle>,
                             error: Failure)
  {
    k in provenances && !Resolves(chronicles, provenances[k].ccoid) && error == KeyError(provenances[k].ccoid)
  }

  /** A record whose chronicle id does not resolve stops the second loop. */
  lemma UnresolvedChronicle(provenances: map<string, Provenance>, k: string, chronicles: map<string, Chronicle>,
                            error: Failure)
    requires ChronicleMissing(provenances, k, chronicles, error)
    ensures !ChroniclesResolve(provenances, chronicles)
  {
  }

  /** A second loop that visits every key without error has resolved every
      chronicle id. */
  lemma AllChroniclesResolve(provenances: map<string, Provenance>, keys: seq<string>,
                             symbols: map<string, string>, chronicles: map<string, Chronicle>)
    requires Covers(keys, provenances.Keys) && EntitiesResolve(keys, provenances, symbols, chronicles)
    ensures ChroniclesResolve(provenances, chronicles)
  {
  }

  /** The second loop of `make_graph`: `put_on_graph` on every provenance
      record, in the iteration order `keys`. It raises on the first
      chronicle id that is not in the chronicle table; otherwise the graph
      has gained exactly the entity triples of the records in that order,
      and each record holds the chronicle its id names. */
  method PutProvenances(g: Graph, provenances: map<string, Provenance>, keys: seq<string>,
                        chronicles: map<string, Chronicle>, summary: Summary,
                        ghost symbols: map<string, string>, ghost md5Hex: string -> string) returns (r: Outcome)
    requires forall i :: 0 <= i < |keys| ==> keys[i] in provenances
    requires AllEstablished(provenances, symbols, md5Hex) && ActivitiesNamed(chronicles, md5Hex)
    modifies g, summary, provenances.Values`chronicle
    ensures r.Fail? ==> exists k :: ChronicleMissing(provenances, k, chronicles, r.error)
    ensures r.Pass? ==> ProvenancesVisited(g.triples, old(g.triples), summary.countWasGeneratedBy,
                                           old(summary.countWasGeneratedBy), summary.verbose, provenances, keys,
                                           |keys|, symbols, chronicles, md5Hex)
    ensures summary.countUsed == old(summary.countUsed)
  {
    for i := 0 to |keys|
      invariant ProvenancesVisited(g.triples, old(g.triples), summary.countWasGeneratedBy,
                                   old(summary.countWasGeneratedBy), summary.verbose, provenances, keys, i,
                                   symbols, chronicles, md5Hex)
      invariant summary.countUsed == old(summary.countUsed)
    {
      var p := provenances[keys[i]];
      assert p in provenances.Values;
      var res := VisitProvenance(g, p, provenances, keys, i, chronicles, summary, old(g.triples),
                                 old(summary.countWasGeneratedBy), symbols, md5Hex);
      if res.Fail? {
        return res;
      }
    }
    r := Pass;
  }

  /** What `dereference` leaves in a chronicle record whose parent ids
      all resolve: the records they name, in order. */
  ghost predicate Dereferenced(c: Chronicle, provenances: map<string, Provenance>)
    reads c`parents
  {
    && (forall i :: 0 <= i < |c.parentIds| ==> Resolves(provenances, c.parentIds[i]))
    && c.parents == Deref(provenances, c.parentIds)
  }

  /** The third loop has visited `keys[..n]`: their parent ids resolve and
      `triples` is `base` followed by their activity triples. */
  ghost predicate ActivitiesPut(triples: seq<Triple>, base: seq<Triple>, keys: seq<string>, n: nat,
                                chronicles: map<string, Chronicle>, provenances: map<string, Provenance>,
                                symbols: map<string, string>, md5Hex: string -> string)
  {
    && n <= |keys|
    && ActivitiesResolve(keys[..n], chronicles, provenances, symbols)
    && triples == base + Activities(keys[..n], chronicles, provenances, symbols, md5Hex)
  }

  /** The `used` triples of `keys[..n]` have been counted from `start`. */
  ghost predicate UsedCounted(summary: Summary, start: int, keys: seq<string>, n: nat,
                              chronicles: map<string, Chronicle>)
    reads summary`countUsed
  {
    && n <= |keys|
    && (forall j :: 0 <= j < n ==> keys[j] in chronicles)
    && summary.countUsed == start + (if summary.verbose then ParentCount(keys[..n], chronicles) else 0)
  }

  /** The records at `keys[..n]` are dereferenced. */
  ghost predicate DereferencedUpTo(chronicles: map<string, Chronicle>, keys: seq<string>, n: nat,
                                   provenances: map<string, Provenance>)
    reads chronicles.Values`parents
  {
    forall j :: 0 <= j < n && j < |keys| && keys[j] in chronicles ==> Dereferenced(chronicles[keys[j]], provenances)
  }

  /** The records at `keys[n..]` are as `chronicle_stop` left them. */
  ghost predicate UnlinkedFrom(chronicles: map<string, Chronicle>, keys: seq<string>, n: nat,
                               md5Hex: string -> string)
    reads chronicles.Values`parents, chronicles.Values`uri
  {
    forall j :: n <= j < |keys| && keys[j] in chronicles ==> Unlinked(chronicles[keys[j]], md5Hex)
  }

  /** Distinct positions of `keys` name distinct records. */
  predicate DistinctRecords(chronicles: map<string, Chronicle>, keys: seq<string>)
  {
    forall j, j' :: 0 <= j < j' < |keys| && keys[j] in chronicles && keys[j'] in chronicles ==>
      chronicles[keys[j]] != chronicles[keys[j']]
  }

  /** Visiting the record at `keys[i]` extends the triples of the third
      loop by that record's activity triples and its parent count. */
  lemma ActivitiesStep(before: seq<Triple>, base: seq<Triple>, keys: seq<string>, i: nat,
                       chronicles: map<string, Chronicle>, provenances: map<string, Provenance>,
                       symbols: map<string, string>, md5Hex: string -> string)
    requires i < |keys| && keys[i] in chronicles
    requires ParentsNamed(chronicles[keys[i]].parentIds, provenances, symbols)
    requires ActivitiesResolve(keys[..i], chronicles, provenances, symbols)
    requires before == base + Activities(keys[..i], chronicles, provenances, symbols, md5Hex)
    ensures ActivitiesResolve(keys[..i + 1], chronicles, provenances, symbols)
    ensures before + ActivityOf(chronicles[keys[i]], provenances, symbols, md5Hex) ==
      base + Activities(keys[..i + 1], chronicles, provenances, symbols, md5Hex)
    ensures ParentCount(keys[..i + 1], chronicles) ==
      ParentCount(keys[..i], chronicles) + |chronicles[keys[i]].parentIds|
  {
    ActivitiesSnoc(keys[..i], keys[i], chronicles, provenances, symbols, md5Hex);
    assert keys[..i + 1] == keys[..i] + [keys[i]];
    AppendAssoc(base, Activities(keys[..i], chronicles, provenances, symbols, md5Hex),
                ActivityOf(chronicles[keys[i]], provenances, symbols, md5Hex));
  }

  /** One step of the third loop of `make_graph`: `put_on_graph` on a
      record that has no parents yet, which dereferences its parent ids
      and extends the graph by its activity triples unless one of them
      does not resolve. */
  method PutActivity(g: Graph, c: Chronicle, provenances: map<string, Provenance>, summary: Summary,
                     ghost symbols: map<string, string>, ghost md5Hex: string -> string) returns (r: Outcome)
    requires AllEstablished(provenances, symbols, md5Hex) && Unlinked(c, md5Hex)
    modifies g, summary, c`parents
    ensures var n := ResolvedPrefix(provenances, c.parentIds);
      && (r.Pass? <==> n == |c.parentIds|)
      && (r.Fail? ==> r.error == KeyError(c.parentIds[n]))
    ensures r.Pass? ==> ParentsNamed(c.parentIds, provenances, symbols) && Dereferenced(c, provenances)
    ensures r.Pass? ==> g.triples == old(g.triples) + ActivityOf(c, provenances, symbols, md5Hex)
    ensures r.Pass? ==> summary.countUsed == old(summary.countUsed) + (if summary.verbose then |c.parentIds| else 0)
    ensures summary.countWasGeneratedBy == old(summary.countWasGeneratedBy)
  {
    r := c.PutOnGraph(g, provenances, summary);
    if r.Fail? {
      return;
    }
    assert c.parentIds[..|c.parentIds|] == c.parentIds;
    DerefURIs(c.parentIds, provenances, symbols, md5Hex);
    ActivityOfParts(c, g.triples, old(g.triples), c.uri, URIs(c.parents), provenances, symbols, md5Hex);
  }

  /** The triples `put_on_graph` adds, once its URI and its parents' URIs
      are known, are the record's activity triples. */
  lemma ActivityOfParts(c: Chronicle, t: seq<Triple>, before: seq<Triple>, uri: Term, inputs: seq<Term>,
                        provenances: map<string, Provenance>, symbols: map<string, string>, md5Hex: string -> string)
    requires ParentsNamed(c.parentIds, provenances, symbols)
    requires uri == ActivityURI(c, md5Hex) && inputs == ParentURIs(c.parentIds, provenances, symbols, md5Hex)
    requires t == before + ActivityTriples(uri, c.command) + UsedTriples(uri, inputs)
    ensures t == before + ActivityOf(c, provenances, symbols, md5Hex)
  {
    AppendAssoc(before, ActivityTriples(uri, c.command), UsedTriples(uri, inputs));
  }

  /** What the third loop of `make_graph` has established after visiting
      `keys[..n]`, starting from the graph `base` and the count `start`. */
  ghost predicate ChroniclesPut(g: Graph, base: seq<Triple>, summary: Summary, start: int,
                                chronicles: map<string, Chronicle>, keys: seq<string>, n: nat,
                                provenances: map<string, Provenance>, symbols: map<string, string>,
                                md5Hex: string -> string)
    reads g`triples, summary`countUsed, chronicles.Values`parents, chronicles.Values`uri
  {
    && UnlinkedFrom(chronicles, keys, n, md5Hex)
    && ActivitiesPut(g.triples, base, keys, n, chronicles, provenances, symbols, md5Hex)
    && UsedCounted(summary, start, keys, n, chronicles)
    && DereferencedUpTo(chronicles, keys, n, provenances)
  }

  /** One iteration of the third loop of `make_graph`: the record at
      `keys[i]` is put on the graph, and what the loop has established
      about the records before it carries over to `keys[..i + 1]`. */
  method VisitChronicle(g: Graph, c: Chronicle, chronicles: map<string, Chronicle>, keys: seq<string>, i: nat,
                        provenances: map<string, Provenance>, summary: Summary, ghost base: seq<Triple>,
                        ghost start: int, ghost symbols: map<string, string>, ghost md5Hex: string -> string)
    returns (r: Outcome)
    requires i < |keys| && keys[i] in chronicles && c == chronicles[keys[i]]
    requires AllEstablished(provenances, symbols, md5Hex) && DistinctRecords(chronicles, keys)
    requires ChroniclesPut(g, base, summary, start, chronicles, keys, i, provenances, symbols, md5Hex)
    modifies g, summary, c`parents
    ensures var n := ResolvedPrefix(provenances, c.parentIds);
      && (r.Pass? <==> n == |c.parentIds|)
      && (r.Fail? ==> r.error == KeyError(c.parentIds[n]))
    ensures r.Pass? ==> ChroniclesPut(g, base, summary, start, chronicles, keys, i + 1, provenances, symbols, md5Hex)
    ensures summary.countWasGeneratedBy == old(summary.countWasGeneratedBy)
  {
    ghost var before := g.triples;
    r := PutActivity(g, c, provenances, summary, symbols, md5Hex);
    if r.Fail? {
      return;
    }
    assert UnlinkedFrom(chronicles, keys, i + 1, md5Hex);
    assert DereferencedUpTo(chronicles, keys, i + 1, provenances);
    ActivitiesStep(before, base, keys, i, chronicles, provenances, symbols, md5Hex);
  }

  /** Records are distinct per key, so distinct positions of an
      enumeration of the keys name distinct records. */
  lemma EnumeratedRecordsDistinct(chronicles: map<string, Chronicle>, keys: seq<string>)
    requires Enumerates(keys, chronicles.Keys)
    requires forall k, k' :: k in chronicles && k' in chronicles && k != k' ==> chronicles[k] != chronicles[k']
    ensures DistinctRecords(chronicles, keys)
  {
  }

  /** The chronicle record at `k` has a parent id that is not in the
      provenance table, and `error` is the one its first such id raises. */
  predicate ParentMissing(chronicles: map<string, Chronicle>, k: string, provenances: map<string, Provenance>,
                          error: Failure)
  {
    && k in chronicles
    && var ids := chronicles[k].parentIds;
       ResolvedPrefix(provenances, ids) < |ids| && error == KeyError(ids[ResolvedPrefix(provenances, ids)])
  }

  /** A record whose parent ids do not all resolve stops the third loop
      with the error for the first of them. */
  lemma UnresolvedParent(chronicles: map<string, Chronicle>, k: string, provenances: map<string, Provenance>,
                         error: Failure)
    requires ParentMissing(chronicles, k, provenances, error)
    ensures !ParentsResolve(chronicles, provenances)
  {
  }

  /** A third loop that visits every key without error has resolved every
      parent id. */
  lemma AllParentsResolve(chronicles: map<string, Chronicle>, keys: seq<string>,
                          provenances: map<string, Provenance>, symbols: map<string, string>)
    requires Covers(keys, chronicles.Keys) && ActivitiesResolve(keys, chronicles, provenances, symbols)
    ensures ParentsResolve(chronicles, provenances)
  {
  }

  /** The third loop of `make_graph`: `put_on_graph` on every chronicle
      record, in the iteration order `keys`. It raises on the first parent
      id that is not in the provenance table; otherwise each record holds
      the parents its ids name and the graph has gained exactly the
      activity triples of the records in that order. */
  method PutChronicles(g: Graph, chronicles: map<string, Chronicle>, keys: seq<string>,
                       provenances: map<string, Provenance>, summary: Summary,
                       ghost symbols: map<string, string>, ghost md5Hex: string -> string) returns (r: Outcome)
    requires Covers(keys, chronicles.Keys) && DistinctRecords(chronicles, keys)
    requires AllEstablished(provenances, symbols, md5Hex)
    requires UnlinkedFrom(chronicles, keys, 0, md5Hex)
    modifies g, summary, chronicles.Values`parents
    ensures r.Pass? <==> ParentsResolve(chronicles, provenances)
    ensures r.Fail? ==>
      exists k :: ParentMissing(chronicles, k, provenances, r.error)
    ensures r.Pass? ==> ChroniclesPut(g, old(g.triples), summary, old(summary.countUsed), chronicles, keys, |keys|,
                                      provenances, symbols, md5Hex)
    ensures summary.countWasGeneratedBy == old(summary.countWasGeneratedBy)
  {
    assert keys[..0] == [];
    for i := 0 to |keys|
      invariant ChroniclesPut(g, old(g.triples), summary, old(summary.countUsed), chronicles, keys, i,
                              provenances, symbols, md5Hex)
      invariant summary.countWasGeneratedBy == old(summary.countWasGeneratedBy)
    {
      var res := VisitChronicle(g, chronicles[keys[i]], chronicles, keys, i, provenances, summary,
                                old(g.triples), old(summary.countUsed), symbols, md5Hex);
      if res.Fail? {
        assert ParentMissing(chronicles, keys[i], provenances, res.error);
        UnresolvedParent(chronicles, keys[i], provenances, res.error);
        return res;
      }
    }
    assert keys[..|keys|] == keys;
    AllParentsResolve(chronicles, keys, provenances, symbols);
    r := Pass;
  }

  /** The error `make_graph` raises: the first of its three loops that
      meets an id missing from its table stops there, with the error of
      such an id. */
  ghost predicate Raised(provenances: map<string, Provenance>, chronicles: map<string, Chronicle>,
                         symbols: map<string, string>, error: Failure)
  {
    if !SymbolsResolve(provenances, symbols) then exists k :: SymbolMissing(provenances, k, symbols, error)
    else if !ChroniclesResolve(provenances, chronicles) then exists k :: ChronicleMissing(provenances, k, chronicles, error)
    else exists k :: ParentMissing(chronicles, k, provenances, error)
  }

  /** After a second loop that visited every key, every provenance record
      holds the chronicle its id names. */
  lemma AllLinked(provenances: map<string, Provenance>, keys: seq<string>, chronicles: map<string, Chronicle>)
    requires Covers(keys, provenances.Keys) && LinkedUpTo(provenances, keys, |keys|, chronicles)
    ensures forall k :: k in provenances ==> Linked(provenances[k], chronicles)
  {
    forall k | k in provenances
      ensures Linked(provenances[k], chronicles)
    {
      var j :| 0 <= j < |keys| && keys[j] == k;
    }
  }

  /** After a third loop that visited every key, every chronicle record
      holds the parents its ids name. */
  lemma AllDereferenced(chronicles: map<string, Chronicle>, keys: seq<string>, provenances: map<string, Provenance>)
    requires Covers(keys, chronicles.Keys) && DereferencedUpTo(chronicles, keys, |keys|, provenances)
    ensures forall k :: k in chronicles ==> Dereferenced(chronicles[k], provenances)
  {
    forall k | k in chronicles
      ensures Dereferenced(chronicles[k], provenances)
    {
      var j :| 0 <= j < |keys| && keys[j] == k;
    }
  }

  /** After a second loop that visited every key, the graph is `base`
      followed by the entity triples of all records in that order. */
  lemma EntitiesDone(triples: seq<Triple>, base: seq<Triple>, keys: seq<string>,
                     provenances: map<string, Provenance>, symbols: map<string, string>,
                     chronicles: map<string, Chronicle>, md5Hex: string -> string)
    requires EntitiesPut(triples, base, keys, |keys|, provenances, symbols, chronicles, md5Hex)
    ensures EntitiesResolve(keys, provenances, symbols, chronicles)
    ensures triples == base + Entities(keys, provenances, symbols, chronicles, md5Hex)
  {
    assert keys[..|keys|] == keys;
  }

  /** After a third loop that visited every key, the graph is `base`
      followed by the activity triples of all records in that order. */
  lemma ActivitiesDone(triples: seq<Triple>, base: seq<Triple>, keys: seq<string>,
                       chronicles: map<string, Chronicle>, provenances: map<string, Provenance>,
                       symbols: map<string, string>, md5Hex: string -> string)
    requires ActivitiesPut(triples, base, keys, |keys|, chronicles, provenances, symbols, md5Hex)
    ensures ActivitiesResolve(keys, chronicles, provenances, symbols)
    ensures triples == base + Activities(keys, chronicles, provenances, symbols, md5Hex)
    ensures ParentCount(keys[..|keys|], chronicles) == ParentCount(keys, chronicles)
  {
    assert keys[..|keys|] == keys;
  }

  /** Every id in the three tables resolves: `make_graph` raises nothing. */
  ghost predicate AllResolve(provenances: map<string, Provenance>, chronicles: map<string, Chronicle>,
                             symbols: map<string, string>)
  {
    && SymbolsResolve(provenances, symbols)
    && ChroniclesResolve(provenances, chronicles)
    && ParentsResolve(chronicles, provenances)
  }

  /** The graph `make_graph` builds on `base`: the entity triples of the
      provenance records in the order `provenanceOrder`, then the activity
      triples of the chronicle records in the order `chronicleOrder`. */
  ghost predicate GraphHolds(triples: seq<Triple>, base: seq<Triple>,
                             provenanceOrder: seq<string>, chronicleOrder: seq<string>,
                             provenances: map<string, Provenance>, chronicles: map<string, Chronicle>,
                             symbols: map<string, string>, md5Hex: string -> string)
  {
    && EntitiesResolve(provenanceOrder, provenances, symbols, chronicles)
    && ActivitiesResolve(chronicleOrder, chronicles, provenances, symbols)
    && triples == base + Entities(provenanceOrder, provenances, symbols, chronicles, md5Hex)
                       + Activities(chronicleOrder, chronicles, provenances, symbols, md5Hex)
  }

  /** Every record is resolved: each provenance record holds its symbol
      name, its URI and its chronicle, each chronicle record its parents. */
  ghost predicate RecordsResolved(provenances: map<string, Provenance>, chronicles: map<string, Chronicle>,
                                  symbols: map<string, string>, md5Hex: string -> string)
    reads provenances.Values`symbol, provenances.Values`uri, provenances.Values`chronicle,
          chronicles.Values`parents
  {
    && AllEstablished(provenances, symbols, md5Hex)
    && (forall k :: k in provenances ==> Linked(provenances[k], chronicles))
    && (forall k :: k in chronicles ==> Dereferenced(chronicles[k], provenances))
  }

  /** A third loop that visited every key has put the activity triples of
      all chronicle records after the entity triples, dereferenced every
      record and counted every parent. */
  lemma ChroniclesDone(g: Graph, base: seq<Triple>, entities: seq<Triple>, summary: Summary, start: int,
                       chronicles: map<string, Chronicle>, keys: seq<string>, provenanceOrder: seq<string>,
                       provenances: map<string, Provenance>, symbols: map<string, string>, md5Hex: string -> string)
    requires Covers(keys, chronicles.Keys)
    requires ChroniclesPut(g, entities, summary, start, chronicles, keys, |keys|, provenances, symbols, md5Hex)
    requires EntitiesResolve(provenanceOrder, provenances, symbols, chronicles)
    requires entities == base + Entities(provenanceOrder, provenances, symbols, chronicles, md5Hex)
    ensures GraphHolds(g.triples, base, provenanceOrder, keys, provenances, chronicles, symbols, md5Hex)
    ensures forall k :: k in chronicles ==> Dereferenced(chronicles[k], provenances)
    ensures summary.countUsed == start + (if summary.verbose then ParentCount(keys, chronicles) else 0)
  {
    ActivitiesDone(g.triples, entities, keys, chronicles, provenances, symbols, md5Hex);
    AllDereferenced(chronicles, keys, provenances);
  }

  /** The third loop of `make_graph`, once the first two have run without
      error: the graph so far is `base` followed by the entity triples of
      the provenance records in the order `provenanceOrder`. */
  method PutLinked(g: Graph, provenances: map<string, Provenance>, chronicles: map<string, Chronicle>,
                   symbols: map<string, string>, summary: Summary, md5Hex: string -> string,
                   provenanceOrder: seq<string>, chronicleOrder: seq<string>, ghost base: seq<Triple>)
    returns (r: Outcome)
    requires Enumerates(chronicleOrder, chronicles.Keys)
    requires forall k, k' :: k in chronicles && k' in chronicles && k != k' ==> chronicles[k] != chronicles[k']
    requires forall k :: k in chronicles ==> Unlinked(chronicles[k], md5Hex)
    requires SymbolsResolve(provenances, symbols) && ChroniclesResolve(provenances, chronicles)
    requires AllEstablished(provenances, symbols, md5Hex)
    requires forall k :: k in provenances ==> Linked(provenances[k], chronicles)
    requires EntitiesResolve(provenanceOrder, provenances, symbols, chronicles)
    requires g.triples == base + Entities(provenanceOrder, provenances, symbols, chronicles, md5Hex)
    modifies g, summary, chronicles.Values`parents
    ensures r.Pass? <==> AllResolve(provenances, chronicles, symbols)
    ensures r.Fail? ==> Raised(provenances, chronicles, symbols, r.error)
    ensures r.Pass? ==> GraphHolds(g.triples, base, provenanceOrder, chronicleOrder,
                                   provenances, chronicles, symbols, md5Hex)
    ensures r.Pass? ==> RecordsResolved(provenances, chronicles, symbols, md5Hex)
    ensures summary.countWasGeneratedBy == old(summary.countWasGeneratedBy)
    ensures r.Pass? ==>
      summary.countUsed == old(summary.countUsed) + (if summary.verbose then ParentCount(chronicleOrder, chronicles) else 0)
  {
    EnumeratedRecordsDistinct(chronicles, chronicleOrder);
    ghost var entities := g.triples;
    r := PutChronicles(g, chronicles, chronicleOrder, provenances, summary, symbols, md5Hex);
    if r.Fail? {
      return;
    }
    ChroniclesDone(g, base, entities, summary, old(summary.countUsed), chronicles, chronicleOrder, provenanceOrder,
                   provenances, symbols, md5Hex);
  }

  /** The second and third loops of `make_graph`, once the first has run
      without error. */
  method PutEstablished(g: Graph, provenances: map<string, Provenance>, chronicles: map<string, Chronicle>,
                        symbols: map<string, string>, summary: Summary, md5Hex: string -> string,
                        provenanceOrder: seq<string>, chronicleOrder: seq<string>)
    returns (r: Outcome)
    requires Enumerates(provenanceOrder, provenances.Keys) && |provenanceOrder| == |provenances|
    requires Enumerates(chronicleOrder, chronicles.Keys)
    requires forall k, k' :: k in chronicles && k' in chronicles && k != k' ==> chronicles[k] != chronicles[k']
    requires forall k :: k in chronicles ==> Unlinked(chronicles[k], md5Hex)
    requires SymbolsResolve(provenances, symbols) && AllEstablished(provenances, symbols, md5Hex)
    modifies g, summary, provenances.Values`chronicle, chronicles.Values`parents
    ensures r.Pass? <==> AllResolve(provenances, chronicles, symbols)
    ensures r.Fail? ==> Raised(provenances, chronicles, symbols, r.error)
    ensures r.Pass? ==> GraphHolds(g.triples, old(g.triples), provenanceOrder, chronicleOrder,
                                   provenances, chronicles, symbols, md5Hex)
    ensures r.Pass? ==> RecordsResolved(provenances, chronicles, symbols, md5Hex)
    ensures r.Pass? ==>
      && summary.countWasGeneratedBy ==
           old(summary.countWasGeneratedBy) + (if summary.verbose then |provenances| else 0)
      && summary.countUsed ==
           old(summary.countUsed) + (if summary.verbose then ParentCount(chronicleOrder, chronicles) else 0)
  {
    r := PutProvenances(g, provenances, provenanceOrder, chronicles, summary, symbols, md5Hex);
    if r.Fail? {
      ghost var k :| ChronicleMissing(provenances, k, chronicles, r.error);
      UnresolvedChronicle(provenances, k, chronicles, r.error);
      return;
    }
    EntitiesDone(g.triples, old(g.triples), provenanceOrder, provenances, symbols, chronicles, md5Hex);
    AllChroniclesResolve(provenances, provenanceOrder, symbols, chronicles);
    AllLinked(provenances, provenanceOrder, chronicles);
    r := PutLinked(g, provenances, chronicles, symbols, summary, md5Hex, provenanceOrder, chronicleOrder,
                   old(g.triples));
  }

  /** The three loops of `make_graph` over the tables, putting the records
      on `g`, in iteration orders `provenanceOrder` and `chronicleOrder`
      (the first two loops see the provenance table in the same order). It
      raises the error of the first missing id; otherwise every record is
      resolved and `g` has gained the entity triples of the provenance
      records followed by the activity triples of the chronicle records. */
  method PutRecords(g: Graph, provenances: map<string, Provenance>, chronicles: map<string, Chronicle>,
                    symbols: map<string, string>, summary: Summary, md5Hex: string -> string)
    returns (r: Outcome, provenanceOrder: seq<string>, chronicleOrder: seq<string>)
    requires forall k, k' :: k in chronicles && k' in chronicles && k != k' ==> chronicles[k] != chronicles[k']
    requires forall k :: k in chronicles ==> Unlinked(chronicles[k], md5Hex)
    modifies g, summary, provenances.Values`symbol, provenances.Values`uri, provenances.Values`chronicle,
             chronicles.Values`parents
    ensures Enumerates(provenanceOrder, provenances.Keys) && Enumerates(chronicleOrder, chronicles.Keys)
    ensures r.Pass? <==> AllResolve(provenances, chronicles, symbols)
    ensures r.Fail? ==> Raised(provenances, chronicles, symbols, r.error)
    ensures r.Pass? ==> GraphHolds(g.triples, old(g.triples), provenanceOrder, chronicleOrder,
                                   provenances, chronicles, symbols, md5Hex)
    ensures r.Pass? ==> RecordsResolved(provenances, chronicles, symbols, md5Hex)
    ensures r.Pass? ==>
      && summary.countWasGeneratedBy ==
           old(summary.countWasGeneratedBy) + (if summary.verbose then |provenances| else 0)
      && summary.countUsed ==
           old(summary.countUsed) + (if summary.verbose then ParentCount(chronicleOrder, chronicles) else 0)
  {
    provenanceOrder := IterationOrder(provenances);
    chronicleOrder := IterationOrder(chronicles);
    r := EstablishAll(provenances, provenanceOrder, symbols, md5Hex);
    if r.Fail? {
      return;
    }
    r := PutEstablished(g, provenances, chronicles, symbols, summary, md5Hex, provenanceOrder, chronicleOrder);
  }

  class Interpreter {
    const lib: Library
    const summary: Summary
    var classes: map<string, Kind>
    var countElementsProcessed: int
    var nodeStack: seq<Element>
    var interestCount: int
    var inhibitorQueue: seq<string>
    var inhibitors: seq<string>
    var released: seq<Element>
    var dictSymbols: map<string, string>
    var dictProvenances: map<string, Provenance>
    var dictChronicles: map<string, Chronicle>

    /** The control state the machine functions speak about. */
    function State(): Control
      reads this`classes, this`nodeStack, this`interestCount, this`inhibitorQueue, this`inhibitors,
               this`countElementsProcessed, this`released
    {
      Control(classes, nodeStack, interestCount, inhibitorQueue, inhibitors,
              countElementsProcessed, released)
    }

    /** The three tables as values, as the table functions speak about them. */
    function Contents(): Tables
      reads this`dictSymbols, this`dictProvenances, this`dictChronicles
    {
      Tables(dictSymbols, ProvenanceView(dictProvenances), ChronicleView(dictChronicles))
    }

    /** Every table entry is a record of its own, and no record has been
        resolved yet. */
    ghost predicate TablesValid()
      reads this`dictProvenances, this`dictChronicles, dictProvenances.Values, dictChronicles.Values
    {
      && (forall k, k' :: k in dictProvenances && k' in dictProvenances && k != k' ==>
            dictProvenances[k] != dictProvenances[k'])
      && (forall k, k' :: k in dictChronicles && k' in dictChronicles && k != k' ==>
            dictChronicles[k] != dictChronicles[k'])
      && (forall k :: k in dictProvenances ==> Unresolved(dictProvenances[k]))
      && (forall k :: k in dictChronicles ==> Unlinked(dictChronicles[k], lib.md5Hex))
    }

    /** What holds between events: only `m_value` skip requests exist, and
        the tables hold distinct, unresolved records. */
    ghost predicate Valid()
      reads this`classes, this`nodeStack, this`interestCount, this`inhibitorQueue, this`inhibitors,
               this`countElementsProcessed, this`released,
            this`dictProvenances, this`dictChronicles, dictProvenances.Values, dictChronicles.Values
    {
      OnlyInhibitedTag(State()) && TablesValid()
    }

    constructor (verbose: bool, lib: Library)
      ensures Valid()
      ensures this.lib == lib && summary.verbose == verbose && fresh(summary)
      ensures summary.countUsed == 0 && summary.countWasGeneratedBy == 0
      ensures State() == Control(map[], [], 0, [], [], 0, [])
      ensures dictSymbols == map[] && dictProvenances == map[] && dictChronicles == map[]
    {
      this.lib := lib;
      summary := new Summary(verbose);
      classes := map[];
      countElementsProcessed := 0;
      nodeStack := [];
      interestCount := 0;
      inhibitorQueue := [];
      inhibitors := [];
      released := [];
      dictSymbols := map[];
      dictProvenances := map[];
      dictChronicles := map[];
    }

    /** `process_class`. */
    method ProcessClass(e: Element) returns (r: Outcome)
      requires "class_name" in e.attrib
      modifies this`classes
      ensures match Registered(old(classes), e)
        case Ok(m) => r == Pass && classes == m
        case Err(f) => r == Fail(f) && classes == old(classes)
    {
      var className := e.attrib["class_name"];
      if "class_id" !in e.attrib {
        return Fail(KeyError(Some("class_id")));
      }
      var classId := e.attrib["class_id"];
      if className in ClassesOfInterest {
        var handler := ClassesOfInterest[className];
        classes := classes[classId := handler];
      }
      r := Pass;
    }

    /** `provenance_start`. */
    method ProvenanceStart()
      modifies this`inhibitorQueue
      ensures inhibitorQueue == old(inhibitorQueue) + [InhibitedTag]
    {
      inhibitorQueue := inhibitorQueue + [InhibitedTag];
    }

    /** The part of `node_start` after class registration. */
    method AdmitStart(e: Element)
      modifies this`inhibitorQueue, this`inhibitors, this`nodeStack, this`interestCount
      ensures State() == Admitted(old(State()), e)
    {
      if e.tag in inhibitorQueue {
        inhibitorQueue := RemoveFirst(inhibitorQueue, e.tag);
        inhibitors := inhibitors + [e.tag];
        return;
      }
      var recording := interestCount > 0;
      if recording || OfInterest(classes, e) {
        nodeStack := nodeStack + [e];
      }
      if OfInterest(classes, e) {
        interestCount := interestCount + 1;
        var handler := classes[ClassId(e).value];
        if handler == ProvenanceClass {
          ProvenanceStart();
        }
      }
    }

    /** `node_start`: follows `StartStep`, a raise leaving the state as it
        was; the tables are not touched. */
    method NodeStart(e: Element) returns (r: Outcome)
      requires Valid()
      modifies this`classes, this`inhibitorQueue, this`inhibitors, this`nodeStack, this`interestCount
      ensures Valid()
      ensures r.Pass? <==> StartStep(old(State()), e).Ok?
      ensures r.Pass? ==> State() == StartStep(old(State()), e).value
      ensures r.Fail? ==> r.error == StartStep(old(State()), e).error && State() == old(State())
    {
      OnlyInhibitedTagPreserved(State(), e);
      var inhibited := |inhibitors| > 0;
      if inhibited {
        return Pass;
      }
      if "class_name" in e.attrib {
        r := ProcessClass(e);
        if r.Fail? {
          return;
        }
      }
      AdmitStart(e);
      r := Pass;
    }

    /** What `symbol_stop` does to the symbol table. */
    twostate predicate SymbolStopped(e: Element, r: Outcome)
      requires "object_id" in e.attrib
      reads this`dictSymbols
    {
      match SymbolEntry(e)
      case Err(f) => r == Fail(f) && dictSymbols == old(dictSymbols)
      case Ok(None) => r == Pass && dictSymbols == old(dictSymbols)
      case Ok(Some(name)) => r == Pass && dictSymbols == old(dictSymbols)[e.attrib["object_id"] := name]
    }

    /** What `provenance_stop` does to the provenance table: a new,
        unresolved record under the element's object id. */
    twostate predicate ProvenanceStopped(e: Element, r: Outcome)
      requires "object_id" in e.attrib
      reads this`dictProvenances, dictProvenances.Values
    {
      match ProvenanceEntry(e, lib.parseInt)
      case Err(f) => r == Fail(f) && dictProvenances == old(dictProvenances)
      case Ok(fields) =>
        var id := e.attrib["object_id"];
        && r == Pass
        && id in dictProvenances
        && fresh(dictProvenances[id])
        && dictProvenances == old(dictProvenances)[id := dictProvenances[id]]
        && dictProvenances[id].symId == fields.symId
        && dictProvenances[id].ccoid == fields.ccoid
        && dictProvenances[id].timestamp == lib.isoTimestamp(fields.sec, fields.usec)
        && Unresolved(dictProvenances[id])
    }

    /** What `chronicle_stop` does to the chronicle table: a new record
        with the command and the parent ids in document order. */
    twostate predicate ChronicleStopped(e: Element, r: Outcome)
      requires "object_id" in e.attrib
      reads this`dictChronicles, dictChronicles.Values
    {
      match ChronicleEntry(e)
      case Err(f) => r == Fail(f) && dictChronicles == old(dictChronicles)
      case Ok(fields) =>
        var id := e.attrib["object_id"];
        && r == Pass
        && id in dictChronicles
        && fresh(dictChronicles[id])
        && dictChronicles == old(dictChronicles)[id := dictChronicles[id]]
        && dictChronicles[id].command == fields.command
        && dictChronicles[id].parentIds == fields.parentIds
        && Unlinked(dictChronicles[id], lib.md5Hex)
    }

    /** `symbol_stop`. */
    method SymbolStop(e: Element) returns (r: Outcome)
      requires "object_id" in e.attrib
      modifies this`dictSymbols
      ensures SymbolStopped(e, r)
    {
      var objectId := e.attrib["object_id"];
      var x := ChildTexts(e, "symtype");
      if |x| == 0 || x[0] != "0" {
        return Pass;
      }
      x := ChildTexts(e, "name");
      if |x| == 0 {
        return Fail(IndexError("child::name/text()"));
      }
      var symbol := x[0];
      dictSymbols := dictSymbols[objectId := symbol];
      r := Pass;
    }

    /** `provenance_stop`. */
    method ProvenanceStop(e: Element) returns (r: Outcome)
      requires "object_id" in e.attrib
      requires TablesValid()
      modifies this`dictProvenances
      ensures ProvenanceStopped(e, r)
      ensures TablesValid()
    {
      var provId := e.attrib["object_id"];
      var chrons := ChildrenNamed(e.children, "chronicle");
      if |chrons| == 0 {
        return Fail(IndexError("child::chronicle"));
      }
      var chronId := ObjectRef(chrons[0]);
      var syms := ChildrenNamed(e.children, "symbol");
      if |syms| == 0 {
        return Fail(IndexError("child::symbol"));
      }
      var symId := ObjectRef(syms[0]);
      var secs := ChildTexts(e, "sec");
      if |secs| == 0 {
        return Fail(IndexError("child::sec/text()"));
      }
      var usecs := ChildTexts(e, "usec");
      if |usecs| == 0 {
        return Fail(IndexError("child::usec/text()"));
      }
      var sec := lib.parseInt(secs[0]);
      var usec := lib.parseInt(usecs[0]);
      var p := new Provenance(symId, sec, usec, chronId, lib.isoTimestamp);
      dictProvenances := dictProvenances[provId := p];
      r := Pass;
    }

    /** `chronicle_stop`. */
    method ChronicleStop(e: Element) returns (r: Outcome)
      requires "object_id" in e.attrib
      requires TablesValid()
      modifies this`dictChronicles
      ensures ChronicleStopped(e, r)
      ensures TablesValid()
    {
      var chronId := e.attrib["object_id"];
      var commands := ChildTexts(e, "str_command");
      if |commands| == 0 {
        return Fail(IndexError("child::str_command/text()"));
      }
      var strCommand := commands[0];
      var parents := CollectParentIds(e);
      var c := new Chronicle(strCommand, parents, lib.md5Hex);
      dictChronicles := dictChronicles[chronId := c];
      r := Pass;
    }

    /** What the stop handler of class `k` does to the tables: its own
        table changes as its stop function says, the others stay. */
    twostate predicate Stopped(k: Kind, e: Element, r: Outcome)
      requires "object_id" in e.attrib
      reads this`dictSymbols, this`dictProvenances, this`dictChronicles, dictProvenances.Values, dictChronicles.Values
    {
      && (if k == SymbolClass then SymbolStopped(e, r) else dictSymbols == old(dictSymbols))
      && (if k == ProvenanceClass then ProvenanceStopped(e, r) else dictProvenances == old(dictProvenances))
      && (if k == ChronicleClass then ChronicleStopped(e, r) else dictChronicles == old(dictChronicles))
    }

    /** The stop handler of a class of interest. */
    method RunStopHandler(k: Kind, e: Element) returns (r: Outcome)
      requires TablesValid() && "object_id" in e.attrib
      modifies this`dictSymbols, this`dictProvenances, this`dictChronicles
      ensures TablesValid()
      ensures Stopped(k, e, r)
      ensures Contents() == Stored(k, e, old(Contents()), lib.parseInt, lib.isoTimestamp)
    {
      var id := e.attrib["object_id"];
      ghost var provenances := dictProvenances;
      ghost var chronicles := dictChronicles;
      match k
      case SymbolClass =>
        r := SymbolStop(e);
      case ProvenanceClass =>
        r := ProvenanceStop(e);
        if r.Pass? {
          ProvenanceViewUpdate(provenances, id, dictProvenances[id]);
        }
      case ChronicleClass =>
        r := ChronicleStop(e);
        if r.Pass? {
          ChronicleViewUpdate(chronicles, id, dictChronicles[id]);
        }
    }

    /** The loop of `node_end` that pops the working stack and releases
        each element, the most recently opened first. */
    method DrainStack()
      modifies this`nodeStack, this`released
      ensures nodeStack == [] && released == old(released) + Reversed(old(nodeStack))
    {
      ghost var stack := nodeStack;
      while |nodeStack| > 0
        invariant nodeStack == stack[..|nodeStack|]
        invariant released == old(released) + Reversed(stack[|nodeStack|..])
      {
        var popped := nodeStack[|nodeStack| - 1];
        assert stack[|nodeStack| - 1..][1..] == stack[|nodeStack|..];
        nodeStack := nodeStack[..|nodeStack| - 1];
        released := released + [popped];
      }
      assert stack[0..] == stack;
    }

    /** `node_end` after a stop handler returned: one element of interest
        fewer is open, and the working stack is released once none is. */
    method CloseInterest()
      modifies this`interestCount, this`nodeStack, this`released
      ensures State() == Drained(old(State()).(interestCount := old(interestCount) - 1))
    {
      interestCount := interestCount - 1;
      var noInterest := interestCount == 0;
      if noInterest {
        DrainStack();
      }
    }

    /** The part of `node_end` for an element of interest: its stop handler
        runs and, unless it raises, the element of interest is closed. */
    method EndOfInterest(e: Element) returns (r: Outcome)
      requires TablesValid() && OfInterest(classes, e)
      modifies this`interestCount, this`nodeStack, this`released
      modifies this`dictSymbols, this`dictProvenances, this`dictChronicles
      ensures TablesValid()
      ensures Stopped(classes[ClassId(e).value], e, r)
      ensures Contents() == Stored(classes[ClassId(e).value], e, old(Contents()), lib.parseInt, lib.isoTimestamp)
      ensures r.Pass? ==> State() == Drained(old(State()).(interestCount := old(interestCount) - 1))
      ensures r.Fail? ==> State() == old(State())
    {
      var handler := classes[ClassId(e).value];
      r := RunStopHandler(handler, e);
      if r.Fail? {
        return;
      }
      ghost var t := Contents();
      CloseInterest();
      assert Contents() == t;
    }

    /** `node_end` once no skip is active: follows `Settled`, or changes
        nothing but the tables when the stop handler raises. */
    method EndUninhibited(e: Element) returns (r: Outcome)
      requires TablesValid()
      modifies this`interestCount, this`nodeStack, this`released
      modifies this`dictSymbols, this`dictProvenances, this`dictChronicles
      ensures TablesValid()
      ensures r.Pass? ==> State() == Settled(old(State()), e)
      ensures r.Fail? ==> OfInterest(classes, e) && State() == old(State())
      ensures OfInterest(classes, e) ==> Stopped(classes[ClassId(e).value], e, r)
      ensures OfInterest(classes, e) ==>
        Contents() == Stored(classes[ClassId(e).value], e, old(Contents()), lib.parseInt, lib.isoTimestamp)
      ensures !OfInterest(classes, e) ==>
        && r == Pass && dictSymbols == old(dictSymbols)
        && dictProvenances == old(dictProvenances) && dictChronicles == old(dictChronicles)
    {
      if OfInterest(classes, e) {
        r := EndOfInterest(e);
        if r.Fail? {
          return;
        }
      }
      r := Pass;
      var recording := interestCount > 0;
      if !recording {
        released := released + [e];
      }
    }

    /** `node_end`: follows `EndStep` when the stop handler returns and
        `FailedEnd` when it raises; only the handler touches a table. */
    method NodeEnd(e: Element) returns (r: Outcome)
      requires Valid()
      modifies this`countElementsProcessed, this`inhibitors, this`released, this`interestCount, this`nodeStack
      modifies this`dictSymbols, this`dictProvenances, this`dictChronicles
      ensures Valid()
      ensures r.Pass? ==> State() == EndStep(old(State()), e)
      ensures r.Fail? ==> StopHandler(old(State()), e).Some? && State() == FailedEnd(old(State()))
      ensures match StopHandler(old(State()), e)
        case None =>
          && r == Pass && dictSymbols == old(dictSymbols)
          && dictProvenances == old(dictProvenances) && dictChronicles == old(dictChronicles)
        case Some(k) => "object_id" in e.attrib && Stopped(k, e, r)
      ensures Contents() == EventTables(old(State()), old(Contents()), End(e), lib.parseInt, lib.isoTimestamp)
    {
      OnlyInhibitedTagPreserved(State(), e);
      countElementsProcessed := countElementsProcessed + 1;
      if e.tag in inhibitors {
        inhibitors := RemoveFirst(inhibitors, e.tag);
        return Pass;
      }
      var inhibit := |inhibitors| > 0;
      if inhibit {
        released := released + [e];
        return Pass;
      }
      r := EndUninhibited(e);
    }

    /** One event of `iterparse2`: `node_start` on a start, `node_end` on
        an end. The tables only ever gain entries. */
    method Step(ev: Event) returns (r: Outcome)
      requires Valid()
      modifies this`classes, this`countElementsProcessed, this`inhibitorQueue, this`inhibitors, this`released,
               this`interestCount, this`nodeStack, this`dictSymbols, this`dictProvenances, this`dictChronicles
      ensures Valid()
      ensures match EventStep(old(State()), ev, lib.parseInt)
        case Ok(c) => r == Pass && State() == c
        case Err(f) => r == Fail(f)
      ensures Contents() == EventTables(old(State()), old(Contents()), ev, lib.parseInt, lib.isoTimestamp)
      ensures old(dictSymbols).Keys <= dictSymbols.Keys
      ensures old(dictProvenances).Keys <= dictProvenances.Keys
      ensures old(dictChronicles).Keys <= dictChronicles.Keys
    {
      match ev
      case Start(e) =>
        r := NodeStart(e);
      case End(e) =>
        r := NodeEnd(e);
    }

    /** One turn of the loop of `iterparse2`: the step on `events[i]`
        extends the pass over `events[..i]` by one event, or ends the
        whole pass with the exception it raises. */
    method RunStep(ghost c0: Control, ghost t0: Tables, events: seq<Event>, i: nat) returns (r: Outcome)
      requires i < |events| && Valid()
      requires Run(c0, events[..i], lib.parseInt) == Ok(State())
      requires Contents() == RunTables(c0, t0, events[..i], lib.parseInt, lib.isoTimestamp)
      modifies this`classes, this`countElementsProcessed, this`inhibitorQueue, this`inhibitors, this`released,
               this`interestCount, this`nodeStack, this`dictSymbols, this`dictProvenances, this`dictChronicles
      ensures Valid()
      ensures r.Pass? ==> Run(c0, events[..i + 1], lib.parseInt) == Ok(State())
      ensures r.Fail? ==> Run(c0, events, lib.parseInt) == Err(r.error)
      ensures Contents() == RunTables(c0, t0, if r.Pass? then events[..i + 1] else events, lib.parseInt, lib.isoTimestamp)
      ensures old(dictSymbols).Keys <= dictSymbols.Keys
      ensures old(dictProvenances).Keys <= dictProvenances.Keys
      ensures old(dictChronicles).Keys <= dictChronicles.Keys
    {
      RunSnoc(c0, events[..i], events[i], lib.parseInt);
      RunTablesSnoc(c0, t0, events[..i], events[i], lib.parseInt, lib.isoTimestamp);
      assert events[..i + 1] == events[..i] + [events[i]];
      r := Step(events[i]);
      if r.Fail? {
        assert events == events[..i + 1] + events[i + 1..];
        RunStopsAtError(c0, events[..i + 1], events[i + 1..], lib.parseInt);
        RunTablesStopsAtError(c0, t0, events[..i + 1], events[i + 1..], lib.parseInt, lib.isoTimestamp);
      }
    }

    /** `iterparse2`: the events in document order; the first exception a
        handler raises ends the pass. A completed pass has counted every
        close tag. */
    method Parse(events: seq<Event>) returns (r: Outcome)
      requires Valid()
      modifies this`classes, this`countElementsProcessed, this`inhibitorQueue, this`inhibitors, this`released,
               this`interestCount, this`nodeStack, this`dictSymbols, this`dictProvenances, this`dictChronicles
      ensures Valid()
      ensures match Run(old(State()), events, lib.parseInt)
        case Ok(c) => r == Pass && State() == c
        case Err(f) => r == Fail(f)
      ensures r.Pass? ==> countElementsProcessed == old(countElementsProcessed) + CountEnds(events)
      ensures Contents() == RunTables(old(State()), old(Contents()), events, lib.parseInt, lib.isoTimestamp)
      ensures old(dictSymbols).Keys <= dictSymbols.Keys
      ensures old(dictProvenances).Keys <= dictProvenances.Keys
      ensures old(dictChronicles).Keys <= dictChronicles.Keys
    {
      ghost var c0 := State();
      ghost var t0 := Contents();
      assert events[..0] == [];
      for i := 0 to |events|
        invariant Valid()
        invariant Run(c0, events[..i], lib.parseInt) == Ok(State())
        invariant Contents() == RunTables(c0, t0, events[..i], lib.parseInt, lib.isoTimestamp)
        invariant old(dictSymbols).Keys <= dictSymbols.Keys
        invariant old(dictProvenances).Keys <= dictProvenances.Keys
        invariant old(dictChronicles).Keys <= dictChronicles.Keys
      {
        r := RunStep(c0, t0, events, i);
        if r.Fail? {
          return;
        }
      }
      assert events[..|events|] == events;
      RunCounts(c0, events, lib.parseInt);
      r := Pass;
    }

    /** `make_graph`, up to serialisation: a new graph holding the records
        of the three tables, put on it by the three loops. */
    method MakeGraph() returns (r: Outcome, g: Graph, provenanceOrder: seq<string>, chronicleOrder: seq<string>)
      requires TablesValid()
      modifies summary, dictProvenances.Values`symbol, dictProvenances.Values`uri,
               dictProvenances.Values`chronicle, dictChronicles.Values`parents
      ensures fresh(g)
      ensures Enumerates(provenanceOrder, dictProvenances.Keys) && Enumerates(chronicleOrder, dictChronicles.Keys)
      ensures r.Pass? <==> AllResolve(dictProvenances, dictChronicles, dictSymbols)
      ensures r.Fail? ==> Raised(dictProvenances, dictChronicles, dictSymbols, r.error)
      ensures r.Pass? ==> GraphHolds(g.triples, [], provenanceOrder, chronicleOrder,
                                     dictProvenances, dictChronicles, dictSymbols, lib.md5Hex)
      ensures r.Pass? ==> RecordsResolved(dictProvenances, dictChronicles, dictSymbols, lib.md5Hex)
      ensures r.Pass? ==>
        && summary.countWasGeneratedBy ==
             old(summary.countWasGeneratedBy) + (if summary.verbose then |dictProvenances| else 0)
        && summary.countUsed ==
             old(summary.countUsed) + (if summary.verbose then ParentCount(chronicleOrder, dictChronicles) else 0)
    {
      g := new Graph();
      r, provenanceOrder, chronicleOrder :=
        PutRecords(g, dictProvenances, dictChronicles, dictSymbols, summary, lib.md5Hex);
    }

  }
}
