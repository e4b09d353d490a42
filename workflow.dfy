/** The workflow template: a registry of step functions, each with the event
    classes that trigger it and the classes it declares it emits, plus the
    settings every run inherits. `run` wraps the start payload in a start
    event and hands a context a snapshot of the registry. */
module Workflow {
  import opened Common
  import opened Events

  /** The identity of a step function object (the registry is keyed by
      reference). */
  datatype StepFunction = StepFunction(id: nat)

  /** One registry entry: `{inputs, outputs}`; outputs is `undefined` when
      the step declared none. */
  datatype StepSpec = StepSpec(inputs: seq<EventClass>, outputs: Option<seq<EventClass>>)

  /** `WorkflowParams`; `validate` is accepted but unused by the template. */
  datatype WorkflowParams = WorkflowParams(verbose: Option<bool>, timeout: Option<real>, validate: Option<bool>)

  /** A context class that `run` may be told to instantiate. */
  datatype ContextClass = DefaultContext | CustomContext(name: string)

  /** What `run` hands the context constructor. */
  datatype ContextParams<T> = ContextParams(
    startEvent: WorkflowEvent<T>,
    steps: map<StepFunction, StepSpec>,
    timeout: Option<real>,
    verbose: bool)

  /** `new C(params)`: the class instantiated and the parameters it gets. */
  datatype ContextLaunch<T> = ContextLaunch(contextClass: ContextClass, params: ContextParams<T>)

  /** The argument of `run`: a value that is `instanceof StartEvent`, or
      anything else, which is wrapped as the payload (an event of another
      class included). */
  datatype RunArgument<T> = GivenEvent(event: WorkflowEvent<T>) | Payload(payload: T)

  /** The entry `addStep` records for its arguments. */
  function StepEntry(eventType: OneOrMany<EventClass>, outputs: Option<OneOrMany<EventClass>>): (s: StepSpec)
    ensures s.inputs == AsList(eventType)
    ensures outputs.None? <==> s.outputs.None?
    ensures outputs.Some? ==> s.outputs.value == AsList(outputs.value)
  {
    StepSpec(AsList(eventType), if outputs.Some? then Some(AsList(outputs.value)) else None)
  }

  /** `event instanceof StartEvent ? event : new StartEvent({input: event})`;
      an event of a subclass of `StartEvent` is used as it is. */
  function StartEventOf<T>(arg: RunArgument<T>): (e: WorkflowEvent<T>)
    requires arg.GivenEvent? ==> IsStartClass(arg.event.eventClass)
    ensures IsStartClass(e.eventClass)
    ensures arg.GivenEvent? ==> e == arg.event
    ensures arg.Payload? ==> e == NewStartEvent(arg.payload) && e.data.input == arg.payload
  {
    match arg
    case GivenEvent(ev) => ev
    case Payload(p) => NewStartEvent(p)
  }

  class WorkflowTemplate {
    /** `#steps` */
    var steps: map<StepFunction, StepSpec>
    /** `#verbose` */
    var verbose: bool
    /** `#timeout`; `None` is `null` */
    var timeout: Option<real>

    /** `verbose` falls back to the global debug setting, then to false;
        `timeout` falls back to null. `??` only replaces an absent value, so
        an explicit `false` or `0` is kept. */
    constructor (params: WorkflowParams, settingsDebug: Option<bool>)
      ensures steps == map[]
      ensures verbose == if params.verbose.Some? then params.verbose.value
                         else if settingsDebug.Some? then settingsDebug.value
                         else false
      ensures timeout == params.timeout
    {
      steps := map[];
      verbose := params.verbose.GetOr(settingsDebug.GetOr(false));
      timeout := params.timeout;
    }

    /** `addStep`: records (or overwrites) the method's entry; no check for
        an empty input list or a method already registered. */
    method AddStep(eventType: OneOrMany<EventClass>, m: StepFunction, outputs: Option<OneOrMany<EventClass>>)
      modifies this
      ensures steps == old(steps)[m := StepEntry(eventType, outputs)]
      ensures verbose == old(verbose) && timeout == old(timeout)
    {
      var inputs := AsList(eventType);
      var outs := if outputs.Some? then Some(AsList(outputs.value)) else None;
      steps := steps[m := StepSpec(inputs, outs)];
    }

    /** `hasStep` */
    method HasStep(m: StepFunction) returns (b: bool)
      ensures b <==> m in steps
    {
      b := m in steps;
    }

    /** `run`: the start event, a copy of the registry and the template's
        settings go to `CurrentContext ?? Context`. */
    method Run<T>(arg: RunArgument<T>, currentContext: Option<ContextClass>) returns (launch: ContextLaunch<T>)
      requires arg.GivenEvent? ==> IsStartClass(arg.event.eventClass)
      ensures launch.contextClass == currentContext.GetOr(DefaultContext)
      ensures IsStartClass(launch.params.startEvent.eventClass)
      ensures arg.GivenEvent? ==> launch.params.startEvent == arg.event
      ensures arg.Payload? ==> launch.params.startEvent == NewStartEvent(arg.payload)
      ensures launch.params.steps == steps
      ensures launch.params.timeout == timeout && launch.params.verbose == verbose
    {
      var startEvent := StartEventOf(arg);
      var c := if currentContext.Some? then currentContext.value else DefaultContext;
      launch := ContextLaunch(c, ContextParams(startEvent, steps, timeout, verbose));
    }
  }

  /** After `addStep(m, …)` the method is registered with the entry its
      arguments describe, and every other method's entry is as before. */
  lemma AddStepRegisters(steps: map<StepFunction, StepSpec>, m: StepFunction, s: StepSpec, other: StepFunction)
    requires other != m
    ensures m in steps[m := s] && steps[m := s][m] == s
    ensures other in steps[m := s] <==> other in steps
    ensures other in steps ==> steps[m := s][other] == steps[other]
  {
  }

  /** Registering a method a second time raises nothing: the registry keeps
      its size and the later entry replaces the earlier one. */
  lemma ReRegisterOverwrites(steps: map<StepFunction, StepSpec>, m: StepFunction, s1: StepSpec, s2: StepSpec)
    ensures |steps[m := s1][m := s2]| == |steps[m := s1]|
    ensures steps[m := s1][m := s2] == steps[m := s2]
    ensures steps[m := s1][m := s2][m] == s2
  {
    var once := steps[m := s1];
    assert once.Keys == once[m := s2].Keys;
  }

  /** A run keeps the registry it was handed: registering another step on
      the template afterwards leaves the launched run's steps as they were. */
  method SnapshotIsolation(w: WorkflowTemplate, input: string, extra: StepFunction, ev: EventClass)
    returns (launch: ContextLaunch<string>)
    modifies w
    ensures launch.params.steps == old(w.steps)
    ensures w.steps == old(w.steps)[extra := StepSpec([ev], None)]
  {
    launch := w.Run(Payload(input), None);
    w.AddStep(One(ev), extra, None);
    assert extra in w.steps;
  }

  /** A context argument of `generate`, as far as the check on it goes. */
  datatype GenerateArgument = Undefined | Null | Constructor(ancestors: seq<string>) | OtherValue

  datatype GenerateError = TypeError | NotAContextSubclass

  const ContextClassName: string := "Context"

  /** `ctx.prototype instanceof Context`: the class extends `Context`
      (`Context` itself does not pass). */
  predicate ExtendsContext(a: GenerateArgument) {
    a.Constructor? && ContextClassName in a.ancestors
  }

  /** The argument selection and subclass check of `generate`: the context
      is the first argument when exactly one is passed, else the third; an
      absent one makes `.prototype` throw a TypeError, anything that does not
      extend `Context` throws. */
  function GenerateContext(args: seq<GenerateArgument>): (r: Result<GenerateArgument, GenerateError>)
    ensures |args| == 1 ==> (r.Ok? <==> ExtendsContext(args[0]))
    ensures |args| >= 3 ==> (r.Ok? <==> ExtendsContext(args[2]))
    ensures r.Ok? ==> ExtendsContext(r.value)
    ensures r.Ok? && |args| == 1 ==> r.value == args[0]
    ensures r.Ok? && |args| >= 3 ==> r.value == args[2]
    ensures |args| == 0 || |args| == 2 ==> r == Err(TypeError)
  {
    var ctx := if |args| == 1 then args[0] else if |args| >= 3 then args[2] else Undefined;
    if ctx.Undefined? || ctx.Null? then Err(TypeError)
    else if ExtendsContext(ctx) then Ok(ctx)
    else Err(NotAContextSubclass)
  }

  /** A constructor that does not extend `Context` (`Context` itself
      among them), in the position `generate` reads, is rejected with the
      subclass error and not a TypeError. */
  lemma GenerateNeedsSubclass(args: seq<GenerateArgument>, ancestors: seq<string>)
    requires (|args| == 1 && args[0] == Constructor(ancestors)) || (|args| >= 3 && args[2] == Constructor(ancestors))
    requires ContextClassName !in ancestors
    ensures GenerateContext(args) == Err(NotAContextSubclass)
  {
  }
}
