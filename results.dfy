/**
  The result projector: turns the engine's ranked candidates into the list of
  `{text, score}` maps sent back over the channel.
 */
module ResultProjector {
  import opened Payload

  /** A recognition candidate as the engine reports it; the score may be unset. */
  datatype Candidate = Candidate(text: string, score: Option<real>)

  /** The map sent for one candidate: its text, and its score or 0 when the engine gave none. */
  function EntryOf(c: Candidate): Value
  {
    VMap(map["text" := VStr(c.text), "score" := VDouble(if c.score.Some? then c.score.value else 0.0)])
  }

  /** Reading a sent entry back yields the candidate's text unchanged and its score, defaulted to 0. */
  lemma EntryReadsBack(c: Candidate)
    ensures EntryOf(c).VMap? && EntryOf(c).entries.Keys == {"text", "score"}
    ensures Get(EntryOf(c).entries, "text") == VStr(c.text)
    ensures c.score.Some? ==> Get(EntryOf(c).entries, "score") == VDouble(c.score.value)
    ensures c.score.None? ==> Get(EntryOf(c).entries, "score") == VDouble(0.0)
  {
  }

  /** One entry per candidate, in the engine's order. */
  method ProcessRecognitionResult(candidates: seq<Candidate>) returns (list: seq<Value>)
    ensures |list| == |candidates|
    ensures forall i :: 0 <= i < |candidates| ==> list[i] == EntryOf(candidates[i])
  {
    list := [];
    for i := 0 to |candidates|
      invariant |list| == i
      invariant forall k :: 0 <= k < i ==> list[k] == EntryOf(candidates[k])
    {
      var candidate := candidates[i];
      var score := 0.0;
      if candidate.score.Some? {
        score := candidate.score.value;
      }
      list := list + [VMap(map["text" := VStr(candidate.text), "score" := VDouble(score)])];
    }
  }
}
