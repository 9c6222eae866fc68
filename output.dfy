/** The graph `make_graph` writes, as a function of the three tables and of
    the order in which it visits the two record tables (a dictionary's
    iteration order, which the model leaves open). Only fields fixed at
    construction are read, so none of this depends on the heap. */
module Output {
  import opened Wrappers
  import opened Rdf
  import opened Records

  /** The URI `establish_URIRef` gives a provenance record. */
  function EntityURI(p: Provenance, symbols: map<string, string>, md5Hex: string -> string): Term
    requires Resolves(symbols, p.symId)
  {
    Iri(CxxrNs, BindingName(md5Hex, symbols[p.symId.value], p.timestamp))
  }

  /** The URI a chronicle record is given when it is built. */
  function ActivityURI(c: Chronicle, md5Hex: string -> string): Term
  {
    Iri(CxxrNs, CommandName(md5Hex, c.command))
  }

  /** The symbol and chronicle ids of every listed provenance record
      resolve. */
  predicate EntitiesResolve(keys: seq<string>, provenances: map<string, Provenance>,
                            symbols: map<string, string>, chronicles: map<string, Chronicle>)
  {
    forall i :: 0 <= i < |keys| ==>
      && keys[i] in provenances
      && Resolves(symbols, provenances[keys[i]].symId)
      && Resolves(chronicles, provenances[keys[i]].ccoid)
  }

  /** The four triples `Provenance.put_on_graph` adds for one record. */
  function EntityOf(p: Provenance, symbols: map<string, string>, chronicles: map<string, Chronicle>,
                    md5Hex: string -> string): seq<Triple>
    requires Resolves(symbols, p.symId) && Resolves(chronicles, p.ccoid)
  {
    EntityTriples(EntityURI(p, symbols, md5Hex), symbols[p.symId.value], p.timestamp,
                  ActivityURI(chronicles[p.ccoid.value], md5Hex))
  }

  /** The triples of the second loop of `make_graph`, visiting `keys`. */
  function Entities(keys: seq<string>, provenances: map<string, Provenance>, symbols: map<string, string>,
                    chronicles: map<string, Chronicle>, md5Hex: string -> string): (r: seq<Triple>)
    requires EntitiesResolve(keys, provenances, symbols, chronicles)
    ensures |r| == 4 * |keys|
  {
    if keys == [] then []
    else
      var last := |keys| - 1;
      Entities(keys[..last], provenances, symbols, chronicles, md5Hex) +
      EntityOf(provenances[keys[last]], symbols, chronicles, md5Hex)
  }

  /** Visiting one more record appends its four entity triples. */
  lemma EntitiesSnoc(keys: seq<string>, k: string, provenances: map<string, Provenance>, symbols: map<string, string>,
                     chronicles: map<string, Chronicle>, md5Hex: string -> string)
    requires EntitiesResolve(keys, provenances, symbols, chronicles)
    requires k in provenances && Resolves(symbols, provenances[k].symId) && Resolves(chronicles, provenances[k].ccoid)
    ensures EntitiesResolve(keys + [k], provenances, symbols, chronicles)
    ensures Entities(keys + [k], provenances, symbols, chronicles, md5Hex) ==
      Entities(keys, provenances, symbols, chronicles, md5Hex) + EntityOf(provenances[k], symbols, chronicles, md5Hex)
  {
    assert (keys + [k])[..|keys|] == keys;
  }

  /** The parent ids of every listed chronicle record name provenance
      records whose symbol ids resolve. */
  predicate ActivitiesResolve(keys: seq<string>, chronicles: map<string, Chronicle>,
                              provenances: map<string, Provenance>, symbols: map<string, string>)
  {
    forall i :: 0 <= i < |keys| ==>
      && keys[i] in chronicles
      && ParentsNamed(chronicles[keys[i]].parentIds, provenances, symbols)
  }

  /** Every id names a provenance record whose symbol id resolves. */
  predicate ParentsNamed(ids: seq<Option<string>>, provenances: map<string, Provenance>, symbols: map<string, string>)
  {
    forall i :: 0 <= i < |ids| ==> Resolves(provenances, ids[i]) && Resolves(symbols, provenances[ids[i].value].symId)
  }

  /** The URIs of the provenance records the ids name, in order. */
  function ParentURIs(ids: seq<Option<string>>, provenances: map<string, Provenance>, symbols: map<string, string>,
                      md5Hex: string -> string): (r: seq<Term>)
    requires ParentsNamed(ids, provenances, symbols)
    ensures |r| == |ids|
    ensures forall i :: 0 <= i < |ids| ==> r[i] == EntityURI(provenances[ids[i].value], symbols, md5Hex)
  {
    seq(|ids|, i requires 0 <= i < |ids| => EntityURI(provenances[ids[i].value], symbols, md5Hex))
  }

  /** The triples `Chronicle.put_on_graph` adds for one record. */
  function ActivityOf(c: Chronicle, provenances: map<string, Provenance>, symbols: map<string, string>,
                      md5Hex: string -> string): seq<Triple>
    requires ParentsNamed(c.parentIds, provenances, symbols)
  {
    ActivityTriples(ActivityURI(c, md5Hex), c.command) +
    UsedTriples(ActivityURI(c, md5Hex), ParentURIs(c.parentIds, provenances, symbols, md5Hex))
  }

  /** The triples of the third loop of `make_graph`, visiting `keys`. */
  function Activities(keys: seq<string>, chronicles: map<string, Chronicle>, provenances: map<string, Provenance>,
                      symbols: map<string, string>, md5Hex: string -> string): (r: seq<Triple>)
    requires ActivitiesResolve(keys, chronicles, provenances, symbols)
    ensures |r| == 2 * |keys| + ParentCount(keys, chronicles)
  {
    if keys == [] then []
    else
      var last := |keys| - 1;
      Activities(keys[..last], chronicles, provenances, symbols, md5Hex) +
      ActivityOf(chronicles[keys[last]], provenances, symbols, md5Hex)
  }

  /** Visiting one more record appends its activity triples. */
  lemma ActivitiesSnoc(keys: seq<string>, k: string, chronicles: map<string, Chronicle>,
                       provenances: map<string, Provenance>, symbols: map<string, string>, md5Hex: string -> string)
    requires ActivitiesResolve(keys, chronicles, provenances, symbols)
    requires k in chronicles && ParentsNamed(chronicles[k].parentIds, provenances, symbols)
    ensures ActivitiesResolve(keys + [k], chronicles, provenances, symbols)
    ensures Activities(keys + [k], chronicles, provenances, symbols, md5Hex) ==
      Activities(keys, chronicles, provenances, symbols, md5Hex) + ActivityOf(chronicles[k], provenances, symbols, md5Hex)
    ensures ParentCount(keys + [k], chronicles) == ParentCount(keys, chronicles) + |chronicles[k].parentIds|
  {
    assert (keys + [k])[..|keys|] == keys;
  }

  /** How many parent ids the listed chronicle records hold together:
      the `used` links the third loop adds and counts. */
  function ParentCount(keys: seq<string>, chronicles: map<string, Chronicle>): nat
    requires forall i :: 0 <= i < |keys| ==> keys[i] in chronicles
  {
    if keys == [] then 0
    else ParentCount(keys[..|keys| - 1], chronicles) + |chronicles[keys[|keys| - 1]].parentIds|
  }

  /** `keys` lists elements of `s` and every element of `s` is listed. */
  predicate Covers(keys: seq<string>, s: set<string>)
  {
    && (forall i :: 0 <= i < |keys| ==> keys[i] in s)
    && (forall k :: k in s ==> k in keys)
  }

  /** `keys` lists every element of `s` exactly once. */
  predicate Enumerates(keys: seq<string>, s: set<string>)
  {
    && (forall i, j :: 0 <= i < j < |keys| ==> keys[i] != keys[j])
    && Covers(keys, s)
  }

  /** The keys of `m` in its iteration order, which is left open: any
      order may come out, each key exactly once. */
  method IterationOrder<V>(m: map<string, V>) returns (keys: seq<string>)
    ensures Enumerates(keys, m.Keys) && |keys| == |m|
  {
    var todo := m.Keys;
    ghost var done: set<string> := {};
    keys := [];
    while todo != {}
      invariant todo + done == m.Keys && todo !! done
      invariant Enumerates(keys, done) && |keys| == |done|
      decreases |todo|
    {
      var k :| k in todo;
      todo := todo - {k};
      done := done + {k};
      keys := keys + [k];
    }
  }
}
