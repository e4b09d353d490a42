/** Workflow events: a payload tagged with the name of the class that
    constructed it. `StartEvent` carries `{input}`, `StopEvent` carries
    `{result}`; user-defined event classes carry any record. */
module Events {

  const WorkflowEventName: string := "WorkflowEvent"
  const StartEventName: string := "StartEvent"
  const StopEventName: string := "StopEvent"

  /** The class an event was constructed with. A user class is known by the
      name its declaration gives it and by the class it extends
      (`BaseEvent` for a direct subclass of `WorkflowEvent`). */
  datatype EventClass = BaseEvent | StartEventClass | StopEventClass | UserEvent(name: string, parent: EventClass)

  /** `this.constructor.name` */
  function ClassName(c: EventClass): string {
    match c
    case BaseEvent => WorkflowEventName
    case StartEventClass => StartEventName
    case StopEventClass => StopEventName
    case UserEvent(n, _) => n
  }

  /** `e instanceof StartEvent`: the class is `StartEvent` or extends it. */
  predicate IsStartClass(c: EventClass) {
    match c
    case StartEventClass => true
    case UserEvent(_, p) => IsStartClass(p)
    case _ => false
  }

  /** `e instanceof StopEvent` */
  predicate IsStopClass(c: EventClass) {
    match c
    case StopEventClass => true
    case UserEvent(_, p) => IsStopClass(p)
    case _ => false
  }

  predicate IsBuiltin(c: EventClass) {
    !c.UserEvent?
  }

  /** The record an event carries: `{input}` for a start event, `{result}`
      for a stop event, any string-keyed record otherwise. */
  datatype EventData<T> = InputData(input: T) | ResultData(result: T) | Fields(fields: map<string, T>)

  datatype WorkflowEvent<T> = WorkflowEvent(eventClass: EventClass, displayName: string, data: EventData<T>) {
    /** `toString()` */
    function ToString(): string {
      displayName
    }
  }

  /** The data shape the class's type parameter demands: that of
      `StartEvent` or `StopEvent` for them and their subclasses. */
  predicate FitsClass<T>(c: EventClass, d: EventData<T>) {
    if IsStartClass(c) then d.InputData?
    else if IsStopClass(c) then d.ResultData?
    else true
  }

  /** `new C(data)` for the event class `C`. */
  function NewEvent<T>(c: EventClass, data: EventData<T>): (e: WorkflowEvent<T>)
    ensures e.eventClass == c && e.data == data
    ensures e.displayName == ClassName(c) && e.ToString() == ClassName(c)
  {
    WorkflowEvent(c, ClassName(c), data)
  }

  /** `new StartEvent({input})` */
  function NewStartEvent<T>(input: T): (e: WorkflowEvent<T>)
    ensures e.eventClass == StartEventClass && e.data == InputData(input)
    ensures e.ToString() == StartEventName
  {
    NewEvent(StartEventClass, InputData(input))
  }

  /** `new StopEvent({result})` */
  function NewStopEvent<T>(result: T): (e: WorkflowEvent<T>)
    ensures e.eventClass == StopEventClass && e.data == ResultData(result)
    ensures e.ToString() == StopEventName
  {
    NewEvent(StopEventClass, ResultData(result))
  }

  /** An event as the constructor leaves it: its tag is its class's name and
      its data has the shape its class demands. Nothing changes an event
      afterwards, so every event in the model satisfies this. */
  predicate Constructed<T>(e: WorkflowEvent<T>) {
    e.displayName == ClassName(e.eventClass) && FitsClass(e.eventClass, e.data)
  }

  /** Constructing an event stores its data unchanged and tags it with its
      class's name; data of the right shape gives a well-formed event. */
  lemma NewEventConstructed<T>(c: EventClass, data: EventData<T>)
    requires FitsClass(c, data)
    ensures Constructed(NewEvent(c, data))
    ensures NewEvent(c, data).data == data
  {
  }

  /** The three library classes have pairwise distinct tags, so a start
      event's tag never equals a stop event's. */
  lemma BuiltinTagsDistinct(c1: EventClass, c2: EventClass)
    requires IsBuiltin(c1) && IsBuiltin(c2)
    ensures ClassName(c1) == ClassName(c2) <==> c1 == c2
  {
    if c1 != c2 {
      assert ClassName(c1)[1] != ClassName(c2)[1] || ClassName(c1)[2] != ClassName(c2)[2];
    }
  }

  /** An event of a user subclass of `StartEvent` is a start event that
      carries `{input}` but is tagged with the subclass's own name. */
  lemma StartSubclassEvent<T>(name: string, x: T)
    ensures IsStartClass(NewEvent(UserEvent(name, StartEventClass), InputData(x)).eventClass)
    ensures Constructed(NewEvent(UserEvent(name, StartEventClass), InputData(x)))
    ensures NewEvent(UserEvent(name, StartEventClass), InputData(x)).ToString() == name
  {
  }

  /** No class is both a start and a stop class. */
  lemma {:induction false} StartStopExclusive(c: EventClass)
    ensures !(IsStartClass(c) && IsStopClass(c))
  {
    if c.UserEvent? {
      StartStopExclusive(c.parent);
    }
  }

  /** Start events always carry `{input}`, stop events `{result}`. */
  lemma StartStopShapes<T>(x: T, y: T)
    ensures Constructed(NewStartEvent(x)) && NewStartEvent(x).data.input == x
    ensures Constructed(NewStopEvent(y)) && NewStopEvent(y).data.result == y
    ensures NewStartEvent(x).ToString() != NewStopEvent(y).ToString()
  {
    BuiltinTagsDistinct(StartEventClass, StopEventClass);
  }
}
