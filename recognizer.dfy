/**
  The method-call handler: routes the three channel methods, runs the
  start-recognition pipeline, and owns the registry of recognizer handles
  keyed by the caller's session id.

  Work the Java handler hands to a background executor and results it posts back to
  the main thread are modelled as done in sequence; the reply a call eventually
  delivers is the method's result.
 */
module Dispatcher {
  import opened Payload
  import opened InkBuilder
  import opened ContextBuilder
  import opened ResultProjector
  import opened Engine

  const START := "vision#startDigitalInkRecognizer"
  const CLOSE := "vision#closeDigitalInkRecognizer"
  const MANAGE := "vision#manageInkModels"

  datatype MethodCall = MethodCall(name: string, arguments: map<string, Value>)

  /**
    What the caller sees. `Error.message` is None where the Java handler sends an exception's own
    message, whose text this model does not reproduce. `Delegated` hands the call to the model
    manager, `NoReply` answers nothing at all, and `Thrown` is an exception that leaves the handler.
   */
  datatype Reply =
    | Success(result: Value)
    | Error(code: string, message: Option<string>)
    | NotImplemented
    | Delegated(model: Model)
    | NoReply
    | Thrown

  /** Model resolution ends with a model, with an error sent to the caller, or with an exception it does not catch. */
  datatype ModelLookup = Found(model: Model) | NotFound(reply: Reply) | Escapes

  /** Model resolution: only an MlKitException is caught; any other exception leaves `getModel`. */
  function GetModel(tag: Option<string>, services: Services): (r: ModelLookup)
    ensures r.Found? <==> services.fromLanguageTag(tag).Identified?
    ensures r.Found? ==> r.model.identifier == services.fromLanguageTag(tag).identifier
    ensures services.fromLanguageTag(tag).ThrewMlKitException? ==>
      r == NotFound(Error("Failed to create model identifier", Some(services.fromLanguageTag(tag).description)))
    ensures services.fromLanguageTag(tag).NoIdentifier? ==>
      r == NotFound(Error("Model Identifier error", Some("No model was found")))
    ensures r == Escapes <==> services.fromLanguageTag(tag).ThrewOtherException?
  {
    match services.fromLanguageTag(tag)
    case ThrewMlKitException(description) => NotFound(Error("Failed to create model identifier", Some(description)))
    case ThrewOtherException => Escapes
    case NoIdentifier => NotFound(Error("Model Identifier error", Some("No model was found")))
    case Identified(identifier) => Found(Model(identifier))
  }

  /** The model a `model` argument names, when it is a string (or null) that resolves. */
  ghost predicate Resolves(args: map<string, Value>, services: Services)
  {
    AsString(Get(args, "model")).CastOk? && services.fromLanguageTag(AsString(Get(args, "model")).s).Identified?
  }

  ghost function ResolvedModel(args: map<string, Value>, services: Services): Model
    requires Resolves(args, services)
  {
    Model(services.fromLanguageTag(AsString(Get(args, "model")).s).identifier)
  }

  /** The `model` argument is a string (or null) whose lookup throws an exception other than MlKitException. */
  ghost predicate LookupEscapes(args: map<string, Value>, services: Services)
  {
    AsString(Get(args, "model")).CastOk? && services.fromLanguageTag(AsString(Get(args, "model")).s).ThrewOtherException?
  }

  /** The outcome of the start-recognition steps that come before the registry is touched. */
  datatype Admission = Rejected(reply: Reply) | Admitted(model: Model, id: Option<string>)

  /**
    Read the `model` tag, resolve it, check that the model is downloaded, read the `id`.
    A non-string tag or id throws a ClassCastException, and a lookup may throw past `getModel`;
    the background task turns either into a "Recognition Error".
   */
  function Admit(args: map<string, Value>, services: Services): (r: Admission)
    ensures r.Admitted? <==>
      && Resolves(args, services)
      && services.isModelDownloaded(ResolvedModel(args, services))
      && AsString(Get(args, "id")).CastOk?
    ensures r.Admitted? ==> r.model == ResolvedModel(args, services) && AsString(Get(args, "id")) == CastOk(r.id)
    ensures AsString(Get(args, "model")).CastOk? && !Resolves(args, services) && !LookupEscapes(args, services) ==>
      r.Rejected? && r.reply.Error? && r.reply.code in {"Failed to create model identifier", "Model Identifier error"}
    ensures AsString(Get(args, "model")).CastFails? || LookupEscapes(args, services) ==>
      r == Rejected(Error("Recognition Error", None))
    ensures Resolves(args, services) && !services.isModelDownloaded(ResolvedModel(args, services)) ==>
      r == Rejected(Error("Model Error", Some("Model has not been downloaded yet")))
    ensures
      && Resolves(args, services)
      && services.isModelDownloaded(ResolvedModel(args, services))
      && AsString(Get(args, "id")).CastFails?
      ==> r == Rejected(Error("Recognition Error", None))
  {
    match AsString(Get(args, "model"))
    case CastFails => Rejected(Error("Recognition Error", None))
    case CastOk(tag) =>
      match GetModel(tag, services)
      case Escapes => Rejected(Error("Recognition Error", None))
      case NotFound(reply) => Rejected(reply)
      case Found(model) =>
        if !services.isModelDownloaded(model) then Rejected(Error("Model Error", Some("Model has not been downloaded yet")))
        else
          match AsString(Get(args, "id"))
          case CastFails => Rejected(Error("Recognition Error", None))
          case CastOk(id) => Admitted(model, id)
  }

  /** The reply the engine's completion turns into: the projected candidates, or a recognition error. */
  function Answer(e: EngineReply): (r: Reply)
    ensures e.Failed? ==> r == Error("Recognition Error", Some(e.description))
    ensures e.Recognized? ==>
      && r.Success? && r.result.VList?
      && |r.result.items| == |e.candidates|
      && forall i :: 0 <= i < |e.candidates| ==> r.result.items[i] == EntryOf(e.candidates[i])
  {
    match e
    case Recognized(candidates) =>
      Success(VList(seq(|candidates|, i requires 0 <= i < |candidates| => EntryOf(candidates[i]))))
    case Failed(description) => Error("Recognition Error", Some(description))
  }

  /**
    The manage-models call: only model resolution happens here; a resolved model is handed,
    with the call, to the model manager. A non-string tag, or a lookup exception other than
    MlKitException, throws out of the handler.
   */
  function ManageModel(args: map<string, Value>, services: Services): (r: Reply)
    ensures r.Delegated? <==> Resolves(args, services)
    ensures r.Delegated? ==> r.model == ResolvedModel(args, services)
    ensures r == Thrown <==> AsString(Get(args, "model")).CastFails? || LookupEscapes(args, services)
    ensures AsString(Get(args, "model")).CastOk? && !Resolves(args, services) && !LookupEscapes(args, services) ==>
      r.Error? && r.code in {"Failed to create model identifier", "Model Identifier error"}
    ensures !r.NotImplemented?
  {
    match AsString(Get(args, "model"))
    case CastFails => Thrown
    case CastOk(tag) =>
      match GetModel(tag, services)
      case Escapes => Thrown
      case NotFound(reply) => reply
      case Found(model) => Delegated(model)
  }

  class DigitalInkRecognizer {
    /** The registry: session id (possibly null) to live recognizer handle. */
    var instances: map<Option<string>, Recognizer>

    /** Every registered handle is still open, and no handle is registered under two ids. */
    ghost predicate Valid()
      reads this, instances.Values
    {
      && (forall id :: id in instances ==> instances[id].closeCalls == 0)
      && (forall id, id' :: id in instances && id' in instances && id != id' ==> instances[id] != instances[id'])
    }

    constructor ()
      ensures Valid() && instances == map[]
    {
      instances := map[];
    }

    /** Get-or-create under the registry lock: an existing handle is reused whatever model is asked for. */
    method GetOrCreate(id: Option<string>, model: Model) returns (recognizer: Recognizer)
      requires Valid()
      modifies this
      ensures Valid()
      ensures id in instances && instances[id] == recognizer
      ensures id in old(instances) ==> recognizer == old(instances)[id] && instances == old(instances)
      ensures id !in old(instances) ==>
        && fresh(recognizer)
        && recognizer.model == model
        && instances == old(instances)[id := recognizer]
    {
      if id in instances {
        recognizer := instances[id];
      } else {
        recognizer := new Recognizer(model);
        instances := instances[id := recognizer];
      }
    }

    /**
      The start-recognition pipeline, in the Java handler's order: resolve the model, check it is
      downloaded, get or create the handle, build the ink, build the context, call the engine
      with or without the context, project its candidates.
     */
    method PerformRecognitionInBackground(args: map<string, Value>, services: Services)
      returns (reply: Reply, invoked: Option<Invocation>)
      requires Valid()
      modifies this
      ensures Valid()
      ensures Admit(args, services).Rejected? ==>
        && reply == Admit(args, services).reply
        && invoked == None
        && instances == old(instances)
      ensures Admit(args, services).Admitted? ==>
        var id := Admit(args, services).id;
        && id in instances
        && (id in old(instances) ==> instances == old(instances))
        && (id !in old(instances) ==>
              && fresh(instances[id])
              && instances[id].model == Admit(args, services).model
              && instances == old(instances)[id := instances[id]])
        && (InkOf(args).None? ==>
              reply == Error("Ink Error", Some("Failed to build ink object")) && invoked == None)
        && (InkOf(args).Some? ==>
              && invoked == Some(Invocation(instances[id], InkOf(args).value, BuildRecognitionContext(args)))
              && reply == Answer(services.recognize(invoked.value)))
    {
      invoked := None;
      var tag := AsString(Get(args, "model"));
      if tag.CastFails? {
        return Error("Recognition Error", None), None;
      }
      var lookup := GetModel(tag.s, services);
      if lookup.Escapes? {
        return Error("Recognition Error", None), None;
      }
      if lookup.NotFound? {
        return lookup.reply, None;
      }
      if !services.isModelDownloaded(lookup.model) {
        return Error("Model Error", Some("Model has not been downloaded yet")), None;
      }
      var id := AsString(Get(args, "id"));
      if id.CastFails? {
        return Error("Recognition Error", None), None;
      }
      var recognizer := GetOrCreate(id.s, lookup.model);
      var ink := BuildInkFromMethodCall(args);
      if ink.None? {
        return Error("Ink Error", Some("Failed to build ink object")), None;
      }
      var context := BuildRecognitionContext(args);
      // No context selects `recognize(ink)`, a context `recognize(ink, context)`.
      invoked := Some(Invocation(recognizer, ink.value, context));
      match services.recognize(invoked.value)
      case Recognized(candidates) =>
        var list := ProcessRecognitionResult(candidates);
        assert list == seq(|candidates|, i requires 0 <= i < |candidates| => EntryOf(candidates[i]));
        reply := Success(VList(list));
      case Failed(description) =>
        reply := Error("Recognition Error", Some(description));
    }

    /** Close: remove the handle under `id`, if any, and close it. Nothing is ever replied. */
    method CloseDetector(args: map<string, Value>) returns (reply: Reply)
      requires Valid()
      modifies this, instances.Values
      ensures Valid()
      ensures AsString(Get(args, "id")).CastFails? ==> reply == Thrown && instances == old(instances)
      ensures AsString(Get(args, "id")).CastOk? ==>
        var id := AsString(Get(args, "id")).s;
        && reply == NoReply
        && instances == old(instances) - {id}
        && (id in old(instances) ==> old(instances)[id].closeCalls == 1)
    {
      var id := AsString(Get(args, "id"));
      if id.CastFails? {
        return Thrown;
      }
      reply := NoReply;
      if id.s !in instances {
        return;
      }
      var recognizer := instances[id.s];
      instances := instances - {id.s};
      recognizer.Close();
    }

    /** Teardown: close every registered handle once, then empty the registry. */
    method Dispose()
      requires Valid()
      modifies this, instances.Values
      ensures Valid()
      ensures instances == map[]
      ensures forall r :: r in old(instances).Values ==> r.closeCalls == 1
    {
      var pending := instances.Values;
      forall r | r in pending
        ensures r.closeCalls == 0
      {
        var id :| id in instances && instances[id] == r;
      }
      while pending != {}
        invariant pending <= old(instances).Values
        invariant instances == old(instances)
        invariant forall r :: r in old(instances).Values ==> r.closeCalls == if r in pending then 0 else 1
        decreases pending
      {
        var recognizer :| recognizer in pending;
        recognizer.Close();
        pending := pending - {recognizer};
      }
      instances := map[];
    }

    /** The channel entry point: three method names are routed, any other is not implemented. */
    method OnMethodCall(call: MethodCall, services: Services) returns (reply: Reply)
      requires Valid()
      modifies this, instances.Values
      ensures Valid()
      ensures reply == NotImplemented <==> call.name !in {START, CLOSE, MANAGE}
      ensures call.name == START ==> reply.Success? || reply.Error?
      ensures call.name == START && Admit(call.arguments, services).Rejected? ==>
        reply == Admit(call.arguments, services).reply && instances == old(instances)
      ensures call.name == CLOSE ==> reply == NoReply || reply == Thrown
      ensures call.name == CLOSE && AsString(Get(call.arguments, "id")).CastFails? ==> instances == old(instances)
      ensures call.name == CLOSE && AsString(Get(call.arguments, "id")).CastOk? ==>
        var id := AsString(Get(call.arguments, "id")).s;
        && instances == old(instances) - {id}
        && (id in old(instances) ==> old(instances)[id].closeCalls == 1)
      ensures call.name == MANAGE ==> reply == ManageModel(call.arguments, services)
      ensures call.name != START && call.name != CLOSE ==> instances == old(instances)
      ensures call.name != CLOSE ==> forall r :: r in old(instances).Values ==> r.closeCalls == old(r.closeCalls)
    {
      if call.name == START {
        var invoked;
        reply, invoked := PerformRecognitionInBackground(call.arguments, services);
      } else if call.name == CLOSE {
        reply := CloseDetector(call.arguments);
      } else if call.name == MANAGE {
        reply := ManageModel(call.arguments, services);
      } else {
        reply := NotImplemented;
      }
    }
  }

  /**
    A session's life in the registry: a second request under the same id gets the same
    handle even when it names another model; closing the id closes that handle once, and
    the next request under the id gets a new handle for the model it names.
   */
  method SessionLifecycle(id: string, model: Model, other: Model)
    returns (first: Recognizer, second: Recognizer, third: Recognizer)
    ensures first == second && first.model == model && first.closeCalls == 1
    ensures third != first && third.model == other && third.closeCalls == 0
  {
    var handler := new DigitalInkRecognizer();
    first := handler.GetOrCreate(Some(id), model);
    second := handler.GetOrCreate(Some(id), other);
    var reply := handler.CloseDetector(map["id" := VStr(id)]);
    third := handler.GetOrCreate(Some(id), other);
  }
}
