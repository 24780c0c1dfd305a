/**
 * The ModelBuilder / ResettableModelBuilder capability. The implementations
 * the pipeline drives are not part of this model: one class stands for any of
 * them, with its behaviour given as functions of the context it was
 * initialised with, and every call it receives recorded in a shared log so
 * that the order of calls can be observed.
 */
module ModelBuilders {
  import opened Wrappers
  import opened DistributorContext

  /** Identifies a builder instance in the call log. */
  type BuilderId = nat

  /**
   * What a builder does: whether `init` throws for a context, and what
   * `buildModel` returns (or throws) after `init` with that context. Because
   * the outcome depends only on the context, an init/build/close/reset cycle
   * repeated with the same context yields the same graph.
   */
  datatype Behaviour = Behaviour(
    initFailure: Context -> Option<DistributorError>,
    build: Context -> Result<Graph, DistributorError>)

  datatype BuilderSpec = BuilderSpec(id: BuilderId, behaviour: Behaviour)

  /** One call received by a builder. */
  datatype Event =
    | Init(builder: BuilderId, context: Context)
    | Build(builder: BuilderId)
    | Close(builder: BuilderId)
    | Reset(builder: BuilderId)

  /** The calls received by all builders, in order. */
  class CallLog {
    var events: seq<Event>

    constructor ()
      ensures events == []
    {
      events := [];
    }
  }

  class ModelBuilder {
    const spec: BuilderSpec
    const log: CallLog
    /** The context stored by the last `init`, cleared by `reset`. */
    var context: Option<Context>

    constructor (spec: BuilderSpec, log: CallLog)
      ensures this.spec == spec && this.log == log && context == None
    {
      this.spec := spec;
      this.log := log;
      context := None;
    }

    /** Stores the context; reports the error if `init` throws. */
    method Init(c: Context) returns (failure: Option<DistributorError>)
      modifies this, log
      ensures context == Some(c) && failure == spec.behaviour.initFailure(c)
      ensures log.events == old(log.events) + [Event.Init(spec.id, c)]
    {
      context := Some(c);
      failure := spec.behaviour.initFailure(c);
      log.events := log.events + [Event.Init(spec.id, c)];
    }

    method BuildModel() returns (r: Result<Graph, DistributorError>)
      requires context.Some?
      modifies log
      ensures r == spec.behaviour.build(context.value)
      ensures log.events == old(log.events) + [Event.Build(spec.id)]
    {
      r := spec.behaviour.build(context.value);
      log.events := log.events + [Event.Build(spec.id)];
    }

    method Close()
      modifies log
      ensures log.events == old(log.events) + [Event.Close(spec.id)]
    {
      log.events := log.events + [Event.Close(spec.id)];
    }

    /** Returns the builder to its unconfigured state, ready for another init. */
    method Reset()
      modifies this, log
      ensures context == None
      ensures log.events == old(log.events) + [Event.Reset(spec.id)]
    {
      context := None;
      log.events := log.events + [Event.Reset(spec.id)];
    }
  }
}
