/** The graph the resolved records are written to, reduced to the log of
    the triples added to it, and the summary counters shown in verbose mode. */
module Rdf {

  /** The namespaces the graph's IRIs are drawn from: the one of generated
      resources (`http://cs.kent.ac.uk/projects/cxxr#`) and the PROV-O, RDF,
      RDF Schema and XML Schema vocabularies. An IRI is a namespace and a
      local name, as rdflib's `Namespace[...]` builds it. */
  datatype Namespace = CxxrNs | ProvNs | RdfNs | RdfsNs | XsdNs

  datatype Term =
    | Iri(ns: Namespace, local: string)
    | Literal(lexical: string)
    | TypedLiteral(lexical: string, datatypeIri: Term)

  const RdfType := Iri(RdfNs, "type")
  const RdfsLabel := Iri(RdfsNs, "label")
  const XsdDateTime := Iri(XsdNs, "dateTime")

  datatype Triple = Triple(subj: Term, pred: Term, obj: Term)

  /** A graph, as the sequence of its `add` calls. */
  class Graph {
    var triples: seq<Triple>

    constructor ()
      ensures triples == []
    {
      triples := [];
    }

    method Add(t: Triple)
      modifies this
      ensures triples == old(triples) + [t]
    {
      triples := triples + [t];
    }
  }

  /** The verbose flag and the two link counters of the run summary. */
  class Summary {
    const verbose: bool
    var countUsed: int
    var countWasGeneratedBy: int

    constructor (verbose: bool)
      ensures this.verbose == verbose && countUsed == 0 && countWasGeneratedBy == 0
    {
      this.verbose := verbose;
      countUsed := 0;
      countWasGeneratedBy := 0;
    }
  }
}
