/** Starting a plan against the event-processing engine. The engine itself is
    not modelled: compiling a rule text is a function parameter that either
    rejects the text or yields the stream definitions of the compiled runtime,
    and the runtime is a record of what the plan did to it. */
module PlanRuntime {
  import opened Wrappers
  import opened ExecutionPlan

  /** One attribute of a stream definition, as the engine reports it. */
  datatype Attribute = Attribute(name: string, kind: string)

  /** Stream name to the attribute list of its definition. */
  type StreamDefinitions = map<string, seq<Attribute>>

  /** The engine's compiler: None when it rejects the rule text. */
  type Compiler = string -> Option<StreamDefinitions>

  /** The printing callback registered on one output stream of one plan. */
  datatype Callback = PrintCallback(planId: string, stream: string, attributes: seq<Attribute>)

  /** A compiled runtime: the rule text it was compiled from, its stream
      definitions, the callbacks registered on it in registration order, and
      whether it has been started. */
  datatype Runtime = Runtime(
    source: string,
    definitions: StreamDefinitions,
    callbacks: seq<Callback>,
    running: bool)

  /** How `start` ends: the runtime started; the compiler rejected the full
      plan; or an output stream has no definition in the compiled runtime
      (`start` dereferences the missing definition at line 84 and fails
      there, leaving the runtime compiled, partly registered and not
      started). */
  datatype StartOutcome =
    | Started(runtime: Runtime)
    | CompileFailed
    | UndefinedStream(stream: string, runtime: Runtime)

  /** No stream carries two callbacks. */
  predicate DistinctStreams(cbs: seq<Callback>) {
    forall i, j :: 0 <= i < j < |cbs| ==> cbs[i].stream != cbs[j].stream
  }

  /** Every callback belongs to plan `p`, watches one of its output streams
      and carries that stream's attribute list from `defs`. */
  predicate CallbacksFor(p: Plan, defs: StreamDefinitions, cbs: seq<Callback>) {
    forall i :: 0 <= i < |cbs| ==>
      && cbs[i].stream in p.outputTopics
      && cbs[i].stream in defs
      && cbs[i] == PrintCallback(p.id, cbs[i].stream, defs[cbs[i].stream])
  }

  /** The streams the callbacks of `cbs` are registered on. */
  function Streams(cbs: seq<Callback>): set<string>
  {
    set i | 0 <= i < |cbs| :: cbs[i].stream
  }

  /** Registering one more callback adds its stream. */
  lemma StreamsAppend(cbs: seq<Callback>, cb: Callback)
    ensures Streams(cbs + [cb]) == Streams(cbs) + {cb.stream}
  {
    var both := cbs + [cb];
    assert both[|cbs|] == cb;
    assert forall i :: 0 <= i < |cbs| ==> both[i] == cbs[i];
  }

  /** The loop of `start`: walks the output streams in the iteration order
      of the configuration's map, which the `Map` interface does not fix,
      and builds one printing callback per stream from its definition,
      stopping at the first stream the compiled runtime does not define. */
  method RegisterCallbacks(p: Plan, defs: StreamDefinitions)
    returns (cbs: seq<Callback>, missing: Option<string>)
    ensures DistinctStreams(cbs)
    ensures CallbacksFor(p, defs, cbs)
    ensures missing.None? <==> p.outputTopics.Keys <= defs.Keys
    ensures missing.None? ==> Streams(cbs) == p.outputTopics.Keys
    ensures missing.Some? ==>
      && missing.value in p.outputTopics
      && missing.value !in defs
      && missing.value !in Streams(cbs)
  {
    cbs := [];
    var pending := p.outputTopics.Keys;
    while pending != {}
      invariant pending <= p.outputTopics.Keys
      invariant DistinctStreams(cbs)
      invariant CallbacksFor(p, defs, cbs)
      invariant Streams(cbs) == p.outputTopics.Keys - pending
      decreases pending
    {
      var stream :| stream in pending;
      if stream !in defs {
        return cbs, Some(stream);
      }
      var callback := PrintCallback(p.id, stream, defs[stream]);
      StreamsAppend(cbs, callback);
      assert stream !in Streams(cbs);
      cbs := cbs + [callback];
      pending := pending - {stream};
    }
    forall s | s in p.outputTopics.Keys ensures s in defs {
      assert s in Streams(cbs);
      var i :| 0 <= i < |cbs| && cbs[i].stream == s;
    }
    missing := None;
  }

  /** Compiles the full plan, registers the callbacks, then starts the
      runtime. Starting again simply compiles a new runtime: there is no
      lifecycle guard. */
  method Start(p: Plan, compile: Compiler) returns (r: StartOutcome)
    ensures r.CompileFailed? <==> compile(FullPlan(p)).None?
    ensures !r.CompileFailed? ==>
      && r.runtime.source == FullPlan(p)
      && compile(FullPlan(p)) == Some(r.runtime.definitions)
      && DistinctStreams(r.runtime.callbacks)
      && CallbacksFor(p, r.runtime.definitions, r.runtime.callbacks)
    ensures r.Started? <==>
      compile(FullPlan(p)).Some? && p.outputTopics.Keys <= compile(FullPlan(p)).value.Keys
    ensures r.Started? ==>
      && r.runtime.running
      && Streams(r.runtime.callbacks) == p.outputTopics.Keys
      && |r.runtime.callbacks| == |p.outputTopics|
    ensures r.UndefinedStream? ==>
      && !r.runtime.running
      && r.stream in p.outputTopics
      && r.stream !in r.runtime.definitions
      && r.stream !in Streams(r.runtime.callbacks)
  {
    var text := FullPlan(p);
    var compiled := compile(text);
    if compiled.None? {
      return CompileFailed;
    }
    var defs := compiled.value;
    var cbs, missing := RegisterCallbacks(p, defs);
    match missing
    case Some(stream) =>
      r := UndefinedStream(stream, Runtime(text, defs, cbs, false));
    case None =>
      r := Started(Runtime(text, defs, cbs, true));
      StartedCallbackCount(p, r.runtime);
  }

  /** Callbacks on pairwise distinct streams are exactly as many as the
      streams they watch. */
  lemma {:induction false} DistinctCallbackCount(cbs: seq<Callback>)
    requires DistinctStreams(cbs)
    ensures |Streams(cbs)| == |cbs|
  {
    if |cbs| > 0 {
      var init := cbs[..|cbs| - 1];
      var last := cbs[|cbs| - 1];
      assert DistinctStreams(init);
      DistinctCallbackCount(init);
      assert Streams(cbs) == Streams(init) + {last.stream};
      assert last.stream !in Streams(init);
    }
  }

  /** A started runtime holds exactly one callback per output topic. */
  lemma StartedCallbackCount(p: Plan, rt: Runtime)
    requires DistinctStreams(rt.callbacks)
    requires Streams(rt.callbacks) == p.outputTopics.Keys
    ensures |rt.callbacks| == |p.outputTopics|
  {
    DistinctCallbackCount(rt.callbacks);
  }
}
