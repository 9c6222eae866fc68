/** What the three stop handlers extract from a fully read element:
    each lookup of "the first text of child X" or "the first child X" that
    finds nothing raises `IndexError`, as indexing an empty XPath result does. */
module Handlers {
  import opened Wrappers
  import opened Xml

  /** The fields `provenance_stop` passes to the `Provenance` constructor. */
  datatype ProvenanceFields = ProvenanceFields(symId: Option<string>, sec: int, usec: int, ccoid: Option<string>)

  /** The fields `chronicle_stop` passes to the `Chronicle` constructor. */
  datatype ChronicleFields = ChronicleFields(command: string, parentIds: seq<Option<string>>)

  /** `symbol_stop`: `Ok(None)` when the symbol is filtered out (its first
      `symtype` text is missing or not `"0"`), else the first `name` text. */
  function SymbolEntry(e: Element): Result<Option<string>>
  {
    var kinds := ChildTexts(e, "symtype");
    if |kinds| == 0 || kinds[0] != "0" then Ok(None)
    else
      var names := ChildTexts(e, "name");
      if |names| == 0 then Err(IndexError("child::name/text()"))
      else Ok(Some(names[0]))
  }

  /** A symbol is kept exactly when its first `symtype` text is `"0"`, under
      the first `name` text; a filtered symbol never raises. */
  lemma SymbolEntryFilter(e: Element)
    ensures SymbolEntry(e) == Ok(None) <==> |ChildTexts(e, "symtype")| == 0 || ChildTexts(e, "symtype")[0] != "0"
    ensures SymbolEntry(e).Ok? && SymbolEntry(e).value.Some? <==>
      |ChildTexts(e, "symtype")| > 0 && ChildTexts(e, "symtype")[0] == "0" && |ChildTexts(e, "name")| > 0
    ensures SymbolEntry(e).Ok? && SymbolEntry(e).value.Some? ==> SymbolEntry(e).value.value == ChildTexts(e, "name")[0]
  {
  }

  /** `provenance_stop`: the chronicle and symbol ids of the first
      `chronicle` and `symbol` children, then the first `sec` and `usec`
      texts read as integers. */
  function ProvenanceEntry(e: Element, parseInt: string -> int): Result<ProvenanceFields>
  {
    var chrons := ChildrenNamed(e.children, "chronicle");
    if |chrons| == 0 then Err(IndexError("child::chronicle"))
    else
      var syms := ChildrenNamed(e.children, "symbol");
      if |syms| == 0 then Err(IndexError("child::symbol"))
      else
        var secs := ChildTexts(e, "sec");
        if |secs| == 0 then Err(IndexError("child::sec/text()"))
        else
          var usecs := ChildTexts(e, "usec");
          if |usecs| == 0 then Err(IndexError("child::usec/text()"))
          else Ok(ProvenanceFields(ObjectRef(syms[0]), parseInt(secs[0]), parseInt(usecs[0]), ObjectRef(chrons[0])))
  }

  /** The references a `Provenance` record holds are those of its FIRST
      `chronicle` child and its FIRST `symbol` child, each the child's own
      `object_id` if it has one and its `object_id_reference` otherwise. */
  lemma ProvenanceEntryRefs(e: Element, parseInt: string -> int)
    requires ProvenanceEntry(e, parseInt).Ok?
    ensures var f := ProvenanceEntry(e, parseInt).value;
      && (exists k :: FirstNamedAt(e.children, "chronicle", k) && f.ccoid == ObjectRef(e.children[k]))
      && (exists k :: FirstNamedAt(e.children, "symbol", k) && f.symId == ObjectRef(e.children[k]))
  {
    var c := ChildrenNamedFirst(e.children, "chronicle");
    var s := ChildrenNamedFirst(e.children, "symbol");
  }

  /** The object references of the `parent` children, in document order. */
  function ParentRefs(e: Element): (ids: seq<Option<string>>)
  {
    var ps := ChildrenNamed(e.children, "parent");
    seq(|ps|, i requires 0 <= i < |ps| => ObjectRef(ps[i]))
  }

  /** The loop of `chronicle_stop` over the `parent` children. */
  method CollectParentIds(e: Element) returns (ids: seq<Option<string>>)
    ensures |ids| == |ChildrenNamed(e.children, "parent")|
    ensures forall i :: 0 <= i < |ids| ==> ids[i] == ObjectRef(ChildrenNamed(e.children, "parent")[i])
    ensures ids == ParentRefs(e)
  {
    var ps := ChildrenNamed(e.children, "parent");
    ids := [];
    for i := 0 to |ps|
      invariant |ids| == i
      invariant forall j :: 0 <= j < i ==> ids[j] == ObjectRef(ps[j])
    {
      ids := ids + [ObjectRef(ps[i])];
    }
  }

  /** `chronicle_stop`: the first `str_command` text and the parent ids. */
  function ChronicleEntry(e: Element): Result<ChronicleFields>
  {
    var commands := ChildTexts(e, "str_command");
    if |commands| == 0 then Err(IndexError("child::str_command/text()"))
    else Ok(ChronicleFields(commands[0], ParentRefs(e)))
  }
}
