/**
  The handwriting engine and its model manager, seen from the dispatcher:
  opaque model identifiers, recognizer handles that can be closed, and the
  three calls whose answers the dispatcher cannot compute itself. Those calls
  are given to the dispatcher as function values.
 */
module Engine {
  import opened Payload
  import opened InkBuilder
  import opened ContextBuilder
  import opened ResultProjector

  /** What `fromLanguageTag` identifies; opaque here. */
  datatype ModelIdentifier = ModelIdentifier(name: string)

  /** A downloadable model, built from its identifier. */
  datatype Model = Model(identifier: ModelIdentifier)

  /**
    What `fromLanguageTag` does: throw an MlKitException (with its text), throw any other
    exception, return null, or return an identifier.
   */
  datatype Resolution =
    | ThrewMlKitException(description: string)
    | ThrewOtherException
    | NoIdentifier
    | Identified(identifier: ModelIdentifier)

  /**
    A recognizer handle made by the engine's `getClient` for one model. It counts
    its `close` calls so that "closed exactly once" can be stated.
   */
  class Recognizer {
    const model: Model
    var closeCalls: nat

    constructor (model: Model)
      ensures this.model == model && closeCalls == 0
    {
      this.model := model;
      closeCalls := 0;
    }

    method Close()
      modifies this
      ensures closeCalls == old(closeCalls) + 1
    {
      closeCalls := closeCalls + 1;
    }
  }

  /**
    One call of `recognize` on a handle: `context` is None for the one-argument form
    `recognize(ink)` and Some for `recognize(ink, context)`.
   */
  datatype Invocation = Invocation(recognizer: Recognizer, ink: Ink, context: Option<RecognitionContext>)

  /** How the engine's task completes: its candidates on success, or the failure's text. */
  datatype EngineReply = Recognized(candidates: seq<Candidate>) | Failed(description: string)

  /** The collaborators: identifier lookup, the model manager's download check, and recognition. */
  datatype Services = Services(
    fromLanguageTag: Option<string> -> Resolution,
    isModelDownloaded: Model -> bool,
    recognize: Invocation -> EngineReply)
}
