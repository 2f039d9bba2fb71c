/**
  The recognition-context builder: reads the optional `context` argument
  (a map with an optional `preContext` string and an optional `writingArea`
  map of `width` and `height`). A missing context and a malformed one both
  end in "no context"; the engine is then called without one.
 */
module ContextBuilder {
  import opened Payload

  datatype WritingArea = WritingArea(width: real, height: real)
  datatype RecognitionContext = RecognitionContext(preContext: string, writingArea: Option<WritingArea>)

  /** The three ways the builder can end: no `context` argument, a built context, or a caught exception. */
  datatype ContextOutcome = Absent | Built(context: RecognitionContext) | Malformed

  /**
    The context payload is present but one of the builder's casts or unboxings throws: it is
    not a map, its `preContext` is neither a string nor null, or its `writingArea` is present
    but is not a map of two doubles `width` and `height`.
   */
  predicate MalformedContextPayload(args: map<string, Value>)
  {
    var v := Get(args, "context");
    && v != VNull
    && (|| !v.VMap?
        || !(Get(v.entries, "preContext").VNull? || Get(v.entries, "preContext").VStr?)
        || var area := Get(v.entries, "writingArea");
           && area != VNull
           && !(area.VMap? && Get(area.entries, "width").VDouble? && Get(area.entries, "height").VDouble?))
  }

  /** How the builder ends for a given argument bag. */
  function ClassifyContext(args: map<string, Value>): (r: ContextOutcome)
    ensures r == Absent <==> Get(args, "context") == VNull
    ensures r == Malformed <==> MalformedContextPayload(args)
    ensures r.Built? <==> Get(args, "context") != VNull && !MalformedContextPayload(args)
  {
    match Get(args, "context")
    case VNull => Absent
    case VMap(m) =>
      var pre := Get(m, "preContext");
      var area := Get(m, "writingArea");
      var preContext := if pre.VStr? then pre.s else "";
      if !(pre.VNull? || pre.VStr?) then Malformed
      else if area.VNull? then Built(RecognitionContext(preContext, None))
      else if area.VMap? && Get(area.entries, "width").VDouble? && Get(area.entries, "height").VDouble? then
        Built(RecognitionContext(preContext, Some(WritingArea(Get(area.entries, "width").d, Get(area.entries, "height").d))))
      else Malformed
    case _ => Malformed
  }

  /**
    What the Java builder returns: no context for a missing and for a malformed payload;
    otherwise a context whose `preContext` is the payload's or "" when it is missing, and which
    has a writing area, with the payload's width and height, exactly when `writingArea` is present.
   */
  function BuildRecognitionContext(args: map<string, Value>): (r: Option<RecognitionContext>)
    ensures Get(args, "context") == VNull ==> r == None
    ensures MalformedContextPayload(args) ==> r == None
    ensures r.Some? <==> Get(args, "context") != VNull && !MalformedContextPayload(args)
    ensures r.Some? ==>
      var m := Get(args, "context").entries;
      && (Get(m, "preContext") == VNull ==> r.value.preContext == "")
      && (Get(m, "preContext").VStr? ==> r.value.preContext == Get(m, "preContext").s)
      && (r.value.writingArea.Some? <==> Get(m, "writingArea") != VNull)
      && (r.value.writingArea.Some? ==>
            && VDouble(r.value.writingArea.value.width) == Get(Get(m, "writingArea").entries, "width")
            && VDouble(r.value.writingArea.value.height) == Get(Get(m, "writingArea").entries, "height"))
  {
    match ClassifyContext(args)
    case Built(c) => Some(c)
    case _ => None
  }

  /** A context payload with `width` but no `height` in its writing area collapses to no context. */
  lemma WritingAreaWithoutHeight(args: map<string, Value>, pre: string, width: real)
    requires Get(args, "context") == VMap(map["preContext" := VStr(pre), "writingArea" := VMap(map["width" := VDouble(width)])])
    ensures BuildRecognitionContext(args) == None
  {
  }

  /** No context at all and an empty context are told apart: only the second reaches the engine. */
  lemma AbsentDiffersFromEmpty()
    ensures BuildRecognitionContext(map[]) == None
    ensures BuildRecognitionContext(map["context" := VMap(map[])]) == Some(RecognitionContext("", None))
  {
  }

  // The sending side: the context payload for a given context. An empty `preContext`
  // may be left out, which the builder's default makes equivalent.

  function EncodeContext(c: RecognitionContext, omitEmptyPreContext: bool): Value
  {
    var pre: map<string, Value> := if omitEmptyPreContext && c.preContext == "" then map[] else map["preContext" := VStr(c.preContext)];
    var area: map<string, Value> :=
      match c.writingArea
      case None => map[]
      case Some(w) => map["writingArea" := VMap(map["width" := VDouble(w.width), "height" := VDouble(w.height)])];
    VMap(pre + area)
  }

  /** Building the payload that encodes a context gives back that context. */
  lemma ContextRoundTrip(c: RecognitionContext, omitEmptyPreContext: bool)
    ensures BuildRecognitionContext(map["context" := EncodeContext(c, omitEmptyPreContext)]) == Some(c)
  {
  }
}
