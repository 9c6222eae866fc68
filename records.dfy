/** The two record classes built during the parse and resolved before
    output: `Provenance` (a PROV entity, one binding of a symbol) and
    `Chronicle` (a PROV activity, one executed command). They refer to each
    other, so they share one module. */
module Records {
  import opened Wrappers
  import opened Strings
  import opened Rdf

  /** `Provenance.__chars`: the characters replaced in generated names. */
  const Chars: seq<(char, string)> := [('.', "%2E")]

  /** The local name of a provenance resource: `"binding-"` and the hash of
      the symbol name followed by the timestamp, after substitution. */
  function BindingName(md5Hex: string -> string, symbol: string, timestamp: string): string
  {
    Substitute(Chars, "binding-" + md5Hex(symbol + timestamp))
  }

  /** The local name of a chronicle resource. It is computed in the
      constructor, while `parents` is still the empty list, so the hashed
      text is the command followed by `repr([])`. */
  function CommandName(md5Hex: string -> string, command: string): string
  {
    "command-" + md5Hex(command + "[]")
  }

  /** A binding name has the `binding-` prefix and holds no `.`; when the
      digest holds no `.` it is the prefix and the digest unchanged. */
  lemma BindingNameShape(md5Hex: string -> string, symbol: string, timestamp: string)
    ensures var name := BindingName(md5Hex, symbol, timestamp);
      && '.' !in name
      && |name| >= 8 && name[..8] == "binding-"
      && ('.' !in md5Hex(symbol + timestamp) ==> name == "binding-" + md5Hex(symbol + timestamp))
  {
    var digest := md5Hex(symbol + timestamp);
    var name := BindingName(md5Hex, symbol, timestamp);
    var replaced := ReplaceChar("binding-" + digest, '.', "%2E");
    assert Substitute(Chars[1..], replaced) == replaced by {
      assert Chars[1..] == [];
    }
    assert name == replaced;
    ReplaceCharRemoves("binding-" + digest, '.', "%2E");
    ReplaceCharAppend("binding-", digest, '.', "%2E");
    ReplaceCharIdentity("binding-", '.', "%2E");
    if '.' !in digest {
      ReplaceCharIdentity(digest, '.', "%2E");
    }
  }

  /** Whether `k` is a key that `d[k]` finds. */
  predicate Resolves<V>(d: map<string, V>, k: Option<string>)
  {
    k.Some? && k.value in d
  }

  /** How many leading ids of `ids` resolve in `d`: a loop that looks them
      up in order fails at this index, or succeeds when it is `|ids|`. */
  function ResolvedPrefix<V>(d: map<string, V>, ids: seq<Option<string>>): (n: nat)
    ensures n <= |ids|
    ensures forall i :: 0 <= i < n ==> Resolves(d, ids[i])
    ensures n < |ids| ==> !Resolves(d, ids[n])
  {
    if ids == [] || !Resolves(d, ids[0]) then 0
    else 1 + ResolvedPrefix(d, ids[1..])
  }

  /** The records the ids name, in the order of the ids. */
  function Deref<V>(d: map<string, V>, ids: seq<Option<string>>): (r: seq<V>)
    requires forall i :: 0 <= i < |ids| ==> ids[i].Some? && ids[i].value in d
    ensures |r| == |ids|
    ensures forall i :: 0 <= i < |ids| ==> r[i] == d[ids[i].value]
  {
    seq(|ids|, i requires 0 <= i < |ids| => d[ids[i].value])
  }

  /** The four triples describing one provenance entity. */
  function EntityTriples(subject: Term, symbol: string, timestamp: string, activity: Term): seq<Triple>
  {
    [ Triple(subject, RdfType, Iri(ProvNs, "Entity")),
      Triple(subject, RdfsLabel, Literal(symbol)),
      Triple(subject, Iri(ProvNs, "generatedAtTime"), TypedLiteral(timestamp, XsdDateTime)),
      Triple(subject, Iri(ProvNs, "wasGeneratedBy"), activity) ]
  }

  /** The two triples describing one chronicle activity before its inputs. */
  function ActivityTriples(subject: Term, command: string): seq<Triple>
  {
    [ Triple(subject, RdfType, Iri(ProvNs, "Activity")),
      Triple(subject, RdfsLabel, Literal(command)) ]
  }

  /** Every provenance in `parents` has been given its URI. */
  predicate Named(parents: seq<Provenance>)
    reads parents
  {
    forall i :: 0 <= i < |parents| ==> parents[i].uri.Some?
  }

  /** Every provenance of the table has been given its URI. */
  predicate AllNamed(provenances: map<string, Provenance>)
    reads provenances.Values
  {
    forall k :: k in provenances ==> provenances[k].uri.Some?
  }

  /** Appending records of a fully named table keeps a list fully named. */
  lemma DerefNamed(before: seq<Provenance>, d: map<string, Provenance>, ids: seq<Option<string>>)
    requires Named(before) && AllNamed(d)
    requires forall i :: 0 <= i < |ids| ==> ids[i].Some? && ids[i].value in d
    ensures Named(before + Deref(d, ids))
  {
    var all := before + Deref(d, ids);
    forall i | 0 <= i < |all| ensures all[i].uri.Some? {
      if i >= |before| {
        assert all[i] == d[ids[i - |before|].value];
      }
    }
  }

  /** The URIs of the given provenances, in order. */
  function URIs(parents: seq<Provenance>): (r: seq<Term>)
    requires Named(parents)
    reads parents
    ensures |r| == |parents|
    ensures forall i :: 0 <= i < |parents| ==> r[i] == parents[i].uri.value
  {
    seq(|parents|, i requires 0 <= i < |parents| && parents[i].uri.Some? reads parents => parents[i].uri.value)
  }

  /** One `used` triple per input URI, in order. */
  function UsedTriples(subject: Term, inputs: seq<Term>): (r: seq<Triple>)
    ensures |r| == |inputs|
    ensures forall i :: 0 <= i < |inputs| ==> r[i] == Triple(subject, Iri(ProvNs, "used"), inputs[i])
  {
    seq(|inputs|, i requires 0 <= i < |inputs| => Triple(subject, Iri(ProvNs, "used"), inputs[i]))
  }

  class Provenance {
    const symId: Option<string>
    const timestamp: string
    const ccoid: Option<string>
    var uri: Option<Term>
    var chronicle: Chronicle?
    var symbol: Option<string>

    /** Stores the symbol and chronicle ids as given; the timestamp is the
        ISO form of `sec + usec / 1e6`; nothing is resolved yet. */
    constructor (symId: Option<string>, sec: int, usec: int, ccoid: Option<string>,
                 isoTimestamp: (int, int) -> string)
      ensures this.symId == symId && this.ccoid == ccoid
      ensures timestamp == isoTimestamp(sec, usec)
      ensures uri == None && chronicle == null && symbol == None
    {
      this.symId := symId;
      timestamp := isoTimestamp(sec, usec);
      this.ccoid := ccoid;
      uri := None;
      chronicle := null;
      symbol := None;
    }

    /** Looks the symbol up, then names the entity after the symbol name and
        the timestamp. An id missing from `symbols` raises before anything
        is assigned. */
    method EstablishURIRef(symbols: map<string, string>, md5Hex: string -> string) returns (r: Outcome)
      modifies this`symbol, this`uri
      ensures r.Pass? <==> Resolves(symbols, symId)
      ensures r.Fail? ==> r.error == KeyError(symId) && symbol == old(symbol) && uri == old(uri)
      ensures r.Pass? ==> symbol == Some(symbols[symId.value])
      ensures r.Pass? ==> uri == Some(Iri(CxxrNs, BindingName(md5Hex, symbol.value, timestamp)))
    {
      var found := Lookup(symbols, symId);
      if found.Err? {
        return Fail(found.error);
      }
      symbol := Some(found.value);
      var objectId := found.value + timestamp;
      var name := "binding-" + md5Hex(objectId);
      for i := 0 to |Chars|
        invariant name == Substitute(Chars[..i], "binding-" + md5Hex(objectId))
        invariant symbol == Some(found.value)
      {
        SubstituteSnoc(Chars[..i], "binding-" + md5Hex(objectId), Chars[i]);
        assert Chars[..i + 1] == Chars[..i] + [Chars[i]];
        name := ReplaceChar(name, Chars[i].0, Chars[i].1);
      }
      assert Chars[..|Chars|] == Chars;
      uri := Some(Iri(CxxrNs, name));
      r := Pass;
    }

    /** Points `chronicle` at the chronicle record with id `ccoid`. */
    method Dereference(chronicles: map<string, Chronicle>) returns (r: Outcome)
      modifies this`chronicle
      ensures r.Pass? <==> Resolves(chronicles, ccoid)
      ensures r.Fail? ==> r.error == KeyError(ccoid) && chronicle == old(chronicle)
      ensures r.Pass? ==> chronicle == chronicles[ccoid.value]
    {
      var found := Lookup(chronicles, ccoid);
      if found.Err? {
        return Fail(found.error);
      }
      chronicle := found.value;
      r := Pass;
    }

    /** Dereferences the chronicle, then adds the four entity triples and
        counts one `wasGeneratedBy` link in verbose mode. */
    method PutOnGraph(g: Graph, chronicles: map<string, Chronicle>, summary: Summary) returns (r: Outcome)
      requires uri.Some? && symbol.Some?
      modifies this`chronicle, g, summary
      ensures r.Pass? <==> Resolves(chronicles, ccoid)
      ensures r.Fail? ==> r.error == KeyError(ccoid)
      ensures r.Fail? ==> g.triples == old(g.triples) && summary.countWasGeneratedBy == old(summary.countWasGeneratedBy)
      ensures r.Pass? ==> chronicle == chronicles[ccoid.value]
      ensures r.Pass? ==> g.triples == old(g.triples) + EntityTriples(uri.value, symbol.value, timestamp, chronicle.uri)
      ensures r.Pass? ==> summary.countWasGeneratedBy == old(summary.countWasGeneratedBy) + (if summary.verbose then 1 else 0)
      ensures summary.countUsed == old(summary.countUsed)
      ensures uri == old(uri) && symbol == old(symbol)
    {
      r := Dereference(chronicles);
      if r.Fail? {
        return;
      }
      var subject := uri.value;
      g.Add(Triple(subject, RdfType, Iri(ProvNs, "Entity")));
      g.Add(Triple(subject, RdfsLabel, Literal(symbol.value)));
      g.Add(Triple(subject, Iri(ProvNs, "generatedAtTime"), TypedLiteral(timestamp, XsdDateTime)));
      g.Add(Triple(subject, Iri(ProvNs, "wasGeneratedBy"), chronicle.GetURI()));
      if summary.verbose {
        summary.countWasGeneratedBy := summary.countWasGeneratedBy + 1;
      }
    }

    function GetURI(): (u: Option<Term>)
      reads this
      ensures u == uri
    {
      uri
    }
  }

  class Chronicle {
    const command: string
    const parentIds: seq<Option<string>>
    var uri: Term
    var parents: seq<Provenance>

    /** Stores the command and the parent ids as given, starts with no
        parents and fixes the URI from the command alone. */
    constructor (command: string, parentIds: seq<Option<string>>, md5Hex: string -> string)
      ensures this.command == command && this.parentIds == parentIds
      ensures parents == []
      ensures uri == Iri(CxxrNs, CommandName(md5Hex, command))
    {
      this.command := command;
      this.parentIds := parentIds;
      uri := Iri(CxxrNs, "");
      parents := [];
      new;
      EstablishURIRef(md5Hex);
    }

    /** Hashes the command followed by `repr(parents)`, which is `"[]"` at
        the only call, in the constructor. */
    method EstablishURIRef(md5Hex: string -> string)
      requires parents == []
      modifies this`uri
      ensures uri == Iri(CxxrNs, CommandName(md5Hex, command))
    {
      var name := "command-" + md5Hex(command + "[]");
      uri := Iri(CxxrNs, name);
    }

    /** Appends `provenances[id]` for each parent id in order; a missing id
        raises, leaving the parents found before it appended. */
    method Dereference(provenances: map<string, Provenance>) returns (r: Outcome)
      modifies this`parents
      ensures var n := ResolvedPrefix(provenances, parentIds);
        && (r.Pass? <==> n == |parentIds|)
        && (r.Fail? ==> r.error == KeyError(parentIds[n]))
        && parents == old(parents) + Deref(provenances, parentIds[..n])
    {
      var n := ResolvedPrefix(provenances, parentIds);
      for i := 0 to |parentIds|
        invariant i <= n
        invariant parents == old(parents) + Deref(provenances, parentIds[..i])
      {
        var found := Lookup(provenances, parentIds[i]);
        if found.Err? {
          return Fail(found.error);
        }
        parents := parents + [found.value];
      }
      r := Pass;
    }

    /** Dereferences the parents, then adds the activity triples and one
        `used` triple per parent, counting each in verbose mode. */
    method PutOnGraph(g: Graph, provenances: map<string, Provenance>, summary: Summary) returns (r: Outcome)
      requires AllNamed(provenances)
      requires Named(parents)
      modifies this`parents, g, summary
      ensures var n := ResolvedPrefix(provenances, parentIds);
        && (r.Pass? <==> n == |parentIds|)
        && (r.Fail? ==> r.error == KeyError(parentIds[n]))
        && parents == old(parents) + Deref(provenances, parentIds[..n])
      ensures Named(parents)
      ensures r.Fail? ==> g.triples == old(g.triples) && summary.countUsed == old(summary.countUsed)
      ensures r.Pass? ==> g.triples == old(g.triples) + ActivityTriples(uri, command) + UsedTriples(uri, URIs(parents))
      ensures r.Pass? ==> summary.countUsed == old(summary.countUsed) + (if summary.verbose then |parents| else 0)
      ensures summary.countWasGeneratedBy == old(summary.countWasGeneratedBy)
      ensures uri == old(uri)
    {
      ghost var before := parents;
      r := Dereference(provenances);
      DerefNamed(before, provenances, parentIds[..ResolvedPrefix(provenances, parentIds)]);
      if r.Fail? {
        return;
      }
      g.Add(Triple(uri, RdfType, Iri(ProvNs, "Activity")));
      g.Add(Triple(uri, RdfsLabel, Literal(command)));
      AddUsedTriples(g, summary);
    }

    /** The loop of `put_on_graph` over `parents`: one `used` triple each,
        counted in verbose mode. */
    method AddUsedTriples(g: Graph, summary: Summary)
      requires Named(parents)
      modifies g, summary
      ensures g.triples == old(g.triples) + UsedTriples(uri, URIs(parents))
      ensures summary.countUsed == old(summary.countUsed) + (if summary.verbose then |parents| else 0)
      ensures summary.countWasGeneratedBy == old(summary.countWasGeneratedBy)
    {
      ghost var inputs := URIs(parents);
      for i := 0 to |parents|
        invariant g.triples == old(g.triples) + UsedTriples(uri, inputs[..i])
        invariant summary.countUsed == old(summary.countUsed) + (if summary.verbose then i else 0)
        invariant summary.countWasGeneratedBy == old(summary.countWasGeneratedBy)
      {
        if summary.verbose {
          summary.countUsed := summary.countUsed + 1;
        }
        var t := Triple(uri, Iri(ProvNs, "used"), parents[i].GetURI().value);
        assert UsedTriples(uri, inputs[..i + 1]) == UsedTriples(uri, inputs[..i]) + [t];
        g.Add(t);
      }
      assert inputs[..|parents|] == inputs;
    }

    function GetURI(): (u: Term)
      reads this
      ensures u == uri
    {
      uri
    }
  }
}
