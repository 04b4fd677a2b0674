/** Reshaping one inference call's input and output into the record that is
    logged as a row group of `inference_history.json`
    (`_combine_input_and_output`).
 */
module OutputCombiner {
  import opened Values

  /** The exceptions the combiner can raise. `NotDocuments` is the
      `AttributeError`/`TypeError` Python raises when a retrieval output is not
      an iterable of documents. */
  datatype CombineError = LengthMismatch | UnsupportedInput | NotDocuments

  /** The combined record: `{"input": ..., "output": ..., "session_id": ...}`,
      or without `"input"` when no input was recovered. */
  datatype Record = Record(input: Option<seq<Value>>, output: Value, sessionId: string)

  /** The table invariant: when both columns are present they are lists of
      equal length. */
  predicate Aligned(r: Record)
  {
    r.input.Some? ==> r.output.List? && |r.output.items| == |r.input.value|
  }

  /* ----- retrieved documents ----- */

  /** The row a retrieved document becomes. */
  function DocRow(pageContent: string, metadata: map<string, Value>): Value
  {
    Dict(map["page_content" := Str(pageContent), "metadata" := Dict(metadata)])
  }

  predicate AllDocs(xs: seq<Value>)
  {
    forall i :: 0 <= i < |xs| ==> xs[i].Doc?
  }

  /** Maps every document to its row, keeping length and order. */
  function DocsToRows(docs: seq<Value>): (rows: seq<Value>)
    requires AllDocs(docs)
    ensures |rows| == |docs|
    ensures forall i :: 0 <= i < |docs| ==> rows[i] == DocRow(docs[i].pageContent, docs[i].metadata)
  {
    if |docs| == 0 then []
    else [DocRow(docs[0].pageContent, docs[0].metadata)] + DocsToRows(docs[1..])
  }

  /** Reads a document back from its row, if the row has that shape. */
  function RowToDoc(row: Value): Option<Value>
  {
    if row.Dict? && "page_content" in row.entries && "metadata" in row.entries
       && row.entries["page_content"].Str? && row.entries["metadata"].Dict?
    then Some(Doc(row.entries["page_content"].s, row.entries["metadata"].entries))
    else None
  }

  /** Reads a list of documents back from a list of rows. */
  function RowsToDocs(rows: seq<Value>): Option<seq<Value>>
  {
    if |rows| == 0 then Some([])
    else match (RowToDoc(rows[0]), RowsToDocs(rows[1..]))
      case (Some(d), Some(ds)) => Some([d] + ds)
      case _ => None
  }

  /** No information about a document is lost in its row: reading the rows
      back gives the documents, in order. */
  lemma {:induction false} DocsRowsRoundTrip(docs: seq<Value>)
    requires AllDocs(docs)
    ensures RowsToDocs(DocsToRows(docs)) == Some(docs)
  {
    if |docs| > 0 {
      var rows := DocsToRows(docs);
      assert rows[1..] == DocsToRows(docs[1..]);
      DocsRowsRoundTrip(docs[1..]);
      assert RowToDoc(rows[0]) == Some(docs[0]);
      assert [docs[0]] + docs[1..] == docs;
    }
  }

  /** The output of a retrieval call, rewritten as rows (line 61). Python
      iterates the output: a list is walked element by element, an empty
      string or dictionary iterates as nothing, and anything else fails on the
      first element or is not iterable. */
  function RetrievedRows(output: Value): (r: Result<Value, CombineError>)
    requires !output.NoneValue?
    ensures r.Ok? <==> (output.List? && AllDocs(output.items))
                       || (output.Str? && |output.s| == 0)
                       || (output.Dict? && |output.entries| == 0)
    ensures r.Err? ==> r.error == NotDocuments
    ensures r.Ok? ==> r.value.List?
    // each document becomes exactly its `{page_content, metadata}` row ...
    ensures r.Ok? && output.List? ==> r.value == List(DocsToRows(output.items))
    // ... from which it can be read back
    ensures r.Ok? && output.List? ==> RowsToDocs(r.value.items) == Some(output.items)
    // an empty string or dictionary yields no rows
    ensures r.Ok? && !output.List? ==> r.value == List([])
  {
    match output
    case List(xs) =>
      if AllDocs(xs) then
        DocsRowsRoundTrip(xs);
        Ok(List(DocsToRows(xs)))
      else Err(NotDocuments)
    case Str(s) => if |s| == 0 then Ok(List([])) else Err(NotDocuments)
    case Dict(m) => if |m| == 0 then Ok(List([])) else Err(NotDocuments)
    case _ => Err(NotDocuments)
  }

  /** The output after the retrieval rewrite of line 60-61. */
  function ShapeOutput(output: Value, fn: string): Result<Value, CombineError>
  {
    if fn == RetrieveFn && !output.NoneValue? then RetrievedRows(output) else Ok(output)
  }

  /* ----- input shapes ----- */

  /** A list input the combiner accepts element for element: every element
      is a string, or every element is a dictionary. The empty list is both. */
  predicate Uniform(xs: seq<Value>)
  {
    (forall i :: 0 <= i < |xs| ==> xs[i].Str?) || (forall i :: 0 <= i < |xs| ==> xs[i].Dict?)
  }

  /** Combines the input, the output and the session id into one record. */
  function Combine(input: Value, output: Value, sessionId: string, fn: string): (r: Result<Record, CombineError>)
    ensures r.Ok? ==> Aligned(r.value) && r.value.sessionId == sessionId
    ensures r.Ok? <==> ShapeOutput(output, fn).Ok? && Combinable(input, ShapeOutput(output, fn).value)
  {
    match ShapeOutput(output, fn)
    case Err(e) => Err(e)
    case Ok(out) =>
      if input.NoneValue? then
        Ok(Record(None, if out.List? || out.Dict? then out else List([out]), sessionId))
      else if input.Str? || input.Dict? then
        Ok(Record(Some([input]), List([out]), sessionId))
      else if input.List? && Uniform(input.items) then
        if out.List? && |out.items| == |input.items| then Ok(Record(Some(input.items), out, sessionId))
        else Err(LengthMismatch)
      else Err(UnsupportedInput)
  }

  /** Independent statement of when an input and a (shaped) output can be put
      in one table: there is no input, the input is a single string or
      dictionary, or the input is a uniform list matched one-to-one by an
      output list. */
  predicate Combinable(input: Value, out: Value)
  {
    || input.NoneValue?
    || input.Str?
    || input.Dict?
    || (input.List? && Uniform(input.items) && out.List? && |out.items| == |input.items|)
  }

  /* ----- the promised shapes, one per branch ----- */

  /** Without input the record has only the (shaped) output, kept as is when
      it is a list or a dictionary and wrapped into a one-element list
      otherwise. The shaped output is the output itself except for a retrieval
      call with a non-None output, where it is the document rows. */
  lemma CombineWithoutInput(output: Value, out: Value, sessionId: string, fn: string)
    requires ShapeOutput(output, fn) == Ok(out)
    ensures Combine(NoneValue, output, sessionId, fn)
            == Ok(Record(None, if out.List? || out.Dict? then out else List([out]), sessionId))
  {
  }

  /** A single string or dictionary input gives one-element input and output
      columns, even when the output is already a list. */
  lemma CombineSingleInput(input: Value, output: Value, out: Value, sessionId: string, fn: string)
    requires input.Str? || input.Dict?
    requires ShapeOutput(output, fn) == Ok(out)
    ensures Combine(input, output, sessionId, fn) == Ok(Record(Some([input]), List([out]), sessionId))
  {
  }

  /** A uniform list input is combined exactly when the output is a list of the
      same length, and both are then returned unchanged; otherwise the length
      error is raised. */
  lemma CombineBatchInput(xs: seq<Value>, output: Value, out: Value, sessionId: string, fn: string)
    requires Uniform(xs)
    requires ShapeOutput(output, fn) == Ok(out)
    ensures out.List? && |out.items| == |xs| ==> Combine(List(xs), output, sessionId, fn) == Ok(Record(Some(xs), out, sessionId))
    ensures !(out.List? && |out.items| == |xs|) ==> Combine(List(xs), output, sessionId, fn) == Err(LengthMismatch)
  {
  }

  /** Every other input shape is rejected as unsupported, whatever the output,
      unless the retrieval rewrite has already failed. */
  lemma CombineUnsupportedInput(input: Value, output: Value, sessionId: string, fn: string)
    requires !input.NoneValue? && !input.Str? && !input.Dict?
    requires !(input.List? && Uniform(input.items))
    requires ShapeOutput(output, fn).Ok?
    ensures Combine(input, output, sessionId, fn) == Err(UnsupportedInput)
  {
  }

  /** For a retrieval call the output column holds exactly the document rows,
      one `{page_content, metadata}` row per document and in the same order,
      from which the documents can be read back. */
  lemma CombineRetrieval(input: Value, docs: seq<Value>, sessionId: string)
    requires AllDocs(docs)
    requires input.NoneValue? || input.Str?
    ensures Combine(input, List(docs), sessionId, RetrieveFn).Ok?
    ensures var rec := Combine(input, List(docs), sessionId, RetrieveFn).value;
            var rows := if input.NoneValue? then rec.output.items else rec.output.items[0].items;
            |rows| == |docs| && rows == DocsToRows(docs) && RowsToDocs(rows) == Some(docs)
  {
  }

  /** The concrete cases: ("hi", "bye") gives one-element columns, a two-element
      input against a one-element output is a length mismatch, and with no
      input a dictionary output is kept unwrapped. */
  lemma CombineExamples()
    ensures Combine(Str("hi"), Str("bye"), "s1", InvokeFn) == Ok(Record(Some([Str("hi")]), List([Str("bye")]), "s1"))
    ensures Combine(List([Str("a"), Str("b")]), List([Str("c")]), "s1", InvokeFn) == Err(LengthMismatch)
    ensures Combine(NoneValue, Dict(map["k" := Object(1)]), "s1", InvokeFn) == Ok(Record(None, Dict(map["k" := Object(1)]), "s1"))
    ensures Combine(List([Str("a"), Dict(map[])]), List([Str("c"), Str("d")]), "s1", InvokeFn) == Err(UnsupportedInput)
  {
    assert !Uniform([Str("a"), Dict(map[])]) by {
      assert [Str("a"), Dict(map[])][0].Str?;
      assert [Str("a"), Dict(map[])][1].Dict?;
    }
  }
}
