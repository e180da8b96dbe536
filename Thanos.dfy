/** pkg/resources/thanos.go: the component reconciler. `SetDefaults`
    merges the defaults into the resource in place, and `Reconcile` runs
    a fixed list of builders, handing each object to the external apply
    engine and stopping at the first error or non-nil result. */
module Thanos {
  import opened Wrappers
  import opened K8s
  import opened Api
  import opened Defaulting
  import opened Query

  /** The builders of `resourceList`, in the order `Reconcile` lists them. */
  datatype BuilderName = QueryDeploymentBuilder | StoreDeploymentBuilder | StoreServiceBuilder

  /** The `resourceList` of `Reconcile`: each of the three builders once,
      the query deployment first. */
  function ResourceList(): (list: seq<BuilderName>)
    ensures |list| == 3 && list[0] == QueryDeploymentBuilder
    ensures QueryDeploymentBuilder in list && StoreDeploymentBuilder in list && StoreServiceBuilder in list
  {
    [QueryDeploymentBuilder, StoreDeploymentBuilder, StoreServiceBuilder]
  }

  /** What `ReconcileResource` returns: a result that may be nil, or an error. */
  datatype ApplyOutcome = ApplyOk(result: Option<ReconcileResult>) | ApplyErr

  /** The three errors `Reconcile` can return; their message text is not modelled. */
  datatype ReconcileError =
    | BuildFailed                    // "failed to create desired object"
    | NilObject(builder: BuilderName) // "Resource ... returns with nil object"
    | ApplyFailed                    // "failed to reconcile resource"

  /** The (*reconcile.Result, error) pair `Reconcile` returns. */
  datatype Return = Return(result: Option<ReconcileResult>, err: Option<ReconcileError>)

  /** One observable step of a pass: a builder was invoked, or an object
      was handed to `ReconcileResource` with its presence tag. */
  datatype Event = Invoked(builder: BuilderName) | Reconciled(obj: Object, state: DesiredState)

  /** How a pass ends, and what it did, in order. */
  datatype Pass = Pass(ret: Completion<Return>, trace: seq<Event>)

  type Build = BuilderName -> Completion<BuilderResult>
  type Apply = (Object, DesiredState) -> ApplyOutcome

  /** One iteration of the loop of `Reconcile`: the pass either stops,
      with what `Reconcile` returns, or goes on; either way with the
      events of the iteration. */
  datatype Step = Stop(ret: Completion<Return>, events: seq<Event>) | Next(events: seq<Event>)

  function RunStep(b: BuilderName, build: Build, apply: Apply): (step: Step)
    ensures 1 <= |step.events| <= 2 && step.events[0] == Invoked(b)
    ensures |step.events| == 2 <==> build(b).Returns? && build(b).value.Built? && build(b).value.obj.Some?
  {
    match build(b)
    case Panics => Stop(Panics, [Invoked(b)])
    case Returns(BuildError) => Stop(Returns(Return(None, Some(BuildFailed))), [Invoked(b)])
    case Returns(Built(None, _)) => Stop(Returns(Return(None, Some(NilObject(b)))), [Invoked(b)])
    case Returns(Built(Some(o), state)) =>
      match apply(o, state)
      case ApplyErr => Stop(Returns(Return(None, Some(ApplyFailed))), [Invoked(b), Reconciled(o, state)])
      case ApplyOk(Some(result)) => Stop(Returns(Return(Some(result), None)), [Invoked(b), Reconciled(o, state)])
      case ApplyOk(None) => Next([Invoked(b), Reconciled(o, state)])
  }

  /** The pass `Reconcile` makes over `list`. */
  function Drive(list: seq<BuilderName>, build: Build, apply: Apply): Pass
    decreases |list|
  {
    if list == [] then Pass(Returns(Return(None, None)), [])
    else
      match RunStep(list[0], build, apply)
      case Stop(ret, events) => Pass(ret, events)
      case Next(events) =>
        var rest := Drive(list[1..], build, apply);
        Pass(rest.ret, events + rest.trace)
  }

  /** Builder `b` returns an object and applying it returns (nil, nil),
      so the pass goes on. */
  predicate Continues(b: BuilderName, build: Build, apply: Apply) {
    RunStep(b, build, apply).Next?
  }

  predicate AllContinue(list: seq<BuilderName>, build: Build, apply: Apply) {
    forall j :: 0 <= j < |list| ==> Continues(list[j], build, apply)
  }

  /** A step that goes on built an object, and applying it returned
      (nil, nil); its events are the invocation and that one call. */
  lemma ContinuesAt(b: BuilderName, build: Build, apply: Apply)
    requires Continues(b, build, apply)
    ensures build(b).Returns? && build(b).value.Built? && build(b).value.obj.Some?
    ensures apply(build(b).value.obj.value, build(b).value.state) == ApplyOk(None)
    ensures RunStep(b, build, apply).events
         == [Invoked(b), Reconciled(build(b).value.obj.value, build(b).value.state)]
  {
  }

  /** The events of builders that all let the pass go on. */
  function Trace(list: seq<BuilderName>, build: Build, apply: Apply): seq<Event>
    requires AllContinue(list, build, apply)
    decreases |list|
  {
    if list == [] then []
    else RunStep(list[0], build, apply).events + Trace(list[1..], build, apply)
  }

  /** The builders invoked, in the order of the events. */
  function Invocations(trace: seq<Event>): seq<BuilderName>
    decreases |trace|
  {
    if trace == [] then []
    else (if trace[0].Invoked? then [trace[0].builder] else []) + Invocations(trace[1..])
  }

  lemma {:induction false} InvocationsAppend(a: seq<Event>, b: seq<Event>)
    ensures Invocations(a + b) == Invocations(a) + Invocations(b)
    decreases |a|
  {
    if a != [] {
      assert (a + b)[0] == a[0];
      assert (a + b)[1..] == a[1..] + b;
      InvocationsAppend(a[1..], b);
    } else {
      assert a + b == b;
    }
  }

  /** One step of a pass invokes exactly its builder. */
  lemma StepInvokes(b: BuilderName, build: Build, apply: Apply)
    ensures Invocations(RunStep(b, build, apply).events) == [b]
  {
    var events := RunStep(b, build, apply).events;
    if |events| == 2 {
      var e := events[1];
      assert events == [Invoked(b), e] && e.Reconciled?;
      assert events[1..] == [e] && [e][1..] == [];
      assert Invocations([e]) == [];
    } else {
      assert events == [Invoked(b)];
      assert events[1..] == [];
    }
  }

  /** Builders are invoked in list order, each at most once, and only a
      prefix of the list is ever invoked. */
  lemma {:induction false} DriveInvokesInOrder(list: seq<BuilderName>, build: Build, apply: Apply)
    ensures Invocations(Drive(list, build, apply).trace) <= list
    decreases |list|
  {
    if list != [] {
      var b := list[0];
      StepInvokes(b, build, apply);
      if Continues(b, build, apply) {
        var rest := Drive(list[1..], build, apply);
        DriveInvokesInOrder(list[1..], build, apply);
        InvocationsAppend(RunStep(b, build, apply).events, rest.trace);
        assert list == [b] + list[1..];
      }
    }
  }

  lemma AllContinueTail(list: seq<BuilderName>, build: Build, apply: Apply)
    requires list != [] && AllContinue(list, build, apply)
    ensures AllContinue(list[1..], build, apply)
  {
    var tail := list[1..];
    forall j | 0 <= j < |tail|
      ensures Continues(tail[j], build, apply)
    {
      assert tail[j] == list[j + 1];
    }
  }

  /** A pass over builders that all go on, followed by any others,
      records their events and then does what the others do. */
  lemma {:induction false} DriveAppend(p: seq<BuilderName>, q: seq<BuilderName>, build: Build, apply: Apply)
    requires AllContinue(p, build, apply)
    ensures Drive(p + q, build, apply)
         == Pass(Drive(q, build, apply).ret, Trace(p, build, apply) + Drive(q, build, apply).trace)
    decreases |p|
  {
    if p == [] {
      assert p + q == q;
    } else {
      var s := p + q;
      assert s[0] == p[0];
      assert s[1..] == p[1..] + q;
      TraceUnfold(p, build, apply);
      DriveAppend(p[1..], q, build, apply);
      DriveUnfold(s, build, apply);
    }
  }

  /** `Reconcile` invokes its builders in the order of `resourceList`,
      stopping after any of them. */
  lemma ReconcileInvokesInOrder(build: Build, apply: Apply)
    ensures Invocations(Drive(ResourceList(), build, apply).trace)
         <= [QueryDeploymentBuilder, StoreDeploymentBuilder, StoreServiceBuilder]
  {
    DriveInvokesInOrder(ResourceList(), build, apply);
  }

  /** Over a prefix of builders that all go on, the pass records their
      events and continues with the rest of the list. */
  lemma DriveThrough(list: seq<BuilderName>, k: nat, build: Build, apply: Apply)
    requires k <= |list|
    requires AllContinue(list[..k], build, apply)
    ensures Drive(list, build, apply)
         == Pass(Drive(list[k..], build, apply).ret,
                 Trace(list[..k], build, apply) + Drive(list[k..], build, apply).trace)
  {
    assert list == list[..k] + list[k..];
    DriveAppend(list[..k], list[k..], build, apply);
  }

  lemma DriveUnfold(list: seq<BuilderName>, build: Build, apply: Apply)
    requires list != [] && Continues(list[0], build, apply)
    ensures Drive(list, build, apply)
         == Pass(Drive(list[1..], build, apply).ret,
                 RunStep(list[0], build, apply).events + Drive(list[1..], build, apply).trace)
  {
  }

  lemma TraceUnfold(list: seq<BuilderName>, build: Build, apply: Apply)
    requires list != [] && AllContinue(list, build, apply)
    ensures AllContinue(list[1..], build, apply)
    ensures Trace(list, build, apply) == RunStep(list[0], build, apply).events + Trace(list[1..], build, apply)
  {
    AllContinueTail(list, build, apply);
  }

  /** When every builder goes on, `Reconcile` returns (nil, nil) having
      applied every builder's object, in order. */
  lemma DriveAllContinue(list: seq<BuilderName>, build: Build, apply: Apply)
    requires AllContinue(list, build, apply)
    ensures Drive(list, build, apply) == Pass(Returns(Return(None, None)), Trace(list, build, apply))
  {
    assert list[..|list|] == list;
    DriveThrough(list, |list|, build, apply);
  }

  /** The trace of builders that all go on has one invocation and one
      apply call per builder, with that builder's object and tag. */
  lemma {:induction false} TraceShape(list: seq<BuilderName>, build: Build, apply: Apply)
    requires AllContinue(list, build, apply)
    ensures |Trace(list, build, apply)| == 2 * |list|
    ensures forall j :: 0 <= j < |list| ==>
      && Trace(list, build, apply)[2 * j] == Invoked(list[j])
      && Trace(list, build, apply)[2 * j + 1] == Reconciled(build(list[j]).value.obj.value, build(list[j]).value.state)
    decreases |list|
  {
    if list != [] {
      TraceShape(list[1..], build, apply);
      ContinuesAt(list[0], build, apply);
      var t := Trace(list, build, apply);
      var rest := Trace(list[1..], build, apply);
      assert t == [Invoked(list[0]), Reconciled(build(list[0]).value.obj.value, build(list[0]).value.state)] + rest;
      forall j | 1 <= j < |list|
        ensures t[2 * j] == Invoked(list[j])
        ensures t[2 * j + 1] == Reconciled(build(list[j]).value.obj.value, build(list[j]).value.state)
      {
        assert t[2 * j] == rest[2 * (j - 1)];
        assert t[2 * j + 1] == rest[2 * (j - 1) + 1];
        assert list[1..][j - 1] == list[j];
      }
    }
  }

  /** A builder error ends the pass with an error: nothing is applied for
      that builder and no later builder runs. */
  lemma DriveStopsOnBuildError(list: seq<BuilderName>, k: nat, build: Build, apply: Apply)
    requires k < |list|
    requires AllContinue(list[..k], build, apply)
    requires build(list[k]) == Returns(BuildError)
    ensures Drive(list, build, apply)
         == Pass(Returns(Return(None, Some(BuildFailed))), Trace(list[..k], build, apply) + [Invoked(list[k])])
  {
    DriveThrough(list, k, build, apply);
    assert list[k..][0] == list[k];
  }

  /** A nil object without an error ends the pass with an error naming the
      builder, before anything is applied for it. */
  lemma DriveStopsOnNilObject(list: seq<BuilderName>, k: nat, build: Build, apply: Apply, state: DesiredState)
    requires k < |list|
    requires AllContinue(list[..k], build, apply)
    requires build(list[k]) == Returns(Built(None, state))
    ensures Drive(list, build, apply)
         == Pass(Returns(Return(None, Some(NilObject(list[k])))), Trace(list[..k], build, apply) + [Invoked(list[k])])
  {
    DriveThrough(list, k, build, apply);
    assert list[k..][0] == list[k];
  }

  /** A panicking builder ends the pass with that panic. */
  lemma DriveStopsOnPanic(list: seq<BuilderName>, k: nat, build: Build, apply: Apply)
    requires k < |list|
    requires AllContinue(list[..k], build, apply)
    requires build(list[k]) == Panics
    ensures Drive(list, build, apply) == Pass(Panics, Trace(list[..k], build, apply) + [Invoked(list[k])])
  {
    DriveThrough(list, k, build, apply);
    assert list[k..][0] == list[k];
  }

  /** An apply error ends the pass with an error after that one call. */
  lemma DriveStopsOnApplyError(list: seq<BuilderName>, k: nat, build: Build, apply: Apply, o: Object, state: DesiredState)
    requires k < |list|
    requires AllContinue(list[..k], build, apply)
    requires build(list[k]) == Returns(Built(Some(o), state))
    requires apply(o, state) == ApplyErr
    ensures Drive(list, build, apply)
         == Pass(Returns(Return(None, Some(ApplyFailed))),
                 Trace(list[..k], build, apply) + [Invoked(list[k]), Reconciled(o, state)])
  {
    DriveThrough(list, k, build, apply);
    assert list[k..][0] == list[k];
  }

  /** A non-nil apply result is returned unchanged, with no error, and no
      later builder runs. */
  lemma DriveReturnsApplyResult(list: seq<BuilderName>, k: nat, build: Build, apply: Apply,
                                o: Object, state: DesiredState, result: ReconcileResult)
    requires k < |list|
    requires AllContinue(list[..k], build, apply)
    requires build(list[k]) == Returns(Built(Some(o), state))
    requires apply(o, state) == ApplyOk(Some(result))
    ensures Drive(list, build, apply)
         == Pass(Returns(Return(Some(result), None)),
                 Trace(list[..k], build, apply) + [Invoked(list[k]), Reconciled(o, state)])
  {
    DriveThrough(list, k, build, apply);
    assert list[k..][0] == list[k];
  }

  /** `setDefaults` on one component: nil stays nil, a present spec is merged. */
  function DefaultComponent(c: Option<ComponentSpec>, d: ComponentSpec): (r: Option<ComponentSpec>)
    ensures r.Some? <==> c.Some?
  {
    match c
    case None => None
    case Some(s) => Some(Merge(s, d))
  }

  /** The resource after `setDefaults`. */
  function WithDefaults(t: Thanos, d: Defaults): (r: Thanos)
    ensures r.namespace == t.namespace
    ensures r.spec.query.Some? <==> t.spec.query.Some?
    ensures r.spec.storeGateway.Some? <==> t.spec.storeGateway.Some?
  {
    Thanos(t.namespace, ThanosSpec(DefaultComponent(t.spec.query, d.query),
                                   DefaultComponent(t.spec.storeGateway, d.storeGateway)))
  }

  /** Each present component keeps what the user set and takes the rest
      from its default; nothing else changes. */
  lemma WithDefaultsMerges(t: Thanos, d: Defaults)
    ensures var r := WithDefaults(t, d);
      && (t.spec.query.Some? ==>
            Keeps(t.spec.query.value, r.spec.query.value) && FillsFrom(t.spec.query.value, d.query, r.spec.query.value))
      && (t.spec.storeGateway.Some? ==>
            Keeps(t.spec.storeGateway.value, r.spec.storeGateway.value)
            && FillsFrom(t.spec.storeGateway.value, d.storeGateway, r.spec.storeGateway.value))
  {
  }

  /** A component the user enabled but left empty becomes the default. */
  lemma WithDefaultsUnset(t: Thanos, d: Defaults)
    requires t.spec.query == Some(Unset)
    ensures WithDefaults(t, d).spec.query == Some(d.query)
  {
    MergeUnset(d.query);
  }

  lemma WithDefaultsIdempotent(t: Thanos, d: Defaults)
    ensures WithDefaults(WithDefaults(t, d), d) == WithDefaults(t, d)
  {
    if t.spec.query.Some? {
      MergeIdempotent(t.spec.query.value, d.query);
    }
    if t.spec.storeGateway.Some? {
      MergeIdempotent(t.spec.storeGateway.value, d.storeGateway);
    }
  }

  /** `queryDeployment` merges again after `setDefaults` has merged; the
      second merge changes nothing, so the Deployment is the same. */
  lemma QueryDeploymentAfterDefaults(t: Thanos, d: Defaults)
    ensures QueryDeployment(WithDefaults(t, d), d.query) == QueryDeployment(t, d.query)
  {
    if t.spec.query.Some? {
      MergeIdempotent(t.spec.query.value, d.query);
    }
  }

  /** The builders of the reconciler, over a snapshot of the resource:
      `queryDeployment` as modelled, the store builders as given. */
  function Builder(t: Thanos, defaults: Defaults, storeDeployment: Thanos -> Completion<BuilderResult>,
                   storeService: Thanos -> Completion<BuilderResult>, b: BuilderName): Completion<BuilderResult>
  {
    match b
    case QueryDeploymentBuilder =>
      (match QueryDeployment(t, defaults.query)
       case Panics => Panics
       case Returns((d, state)) => Returns(Built(Some(DeploymentObject(d)), state)))
    case StoreDeploymentBuilder => storeDeployment(t)
    case StoreServiceBuilder => storeService(t)
  }

  function Builders(t: Thanos, defaults: Defaults, storeDeployment: Thanos -> Completion<BuilderResult>,
                    storeService: Thanos -> Completion<BuilderResult>): Build
  {
    b => Builder(t, defaults, storeDeployment, storeService, b)
  }

  /** The query builder never returns an error or a nil object, so the
      first step of a pass either panics or reaches `ReconcileResource`. */
  lemma QueryBuilderBuilds(t: Thanos, defaults: Defaults, storeDeployment: Thanos -> Completion<BuilderResult>,
                           storeService: Thanos -> Completion<BuilderResult>)
    ensures var r := Builder(t, defaults, storeDeployment, storeService, QueryDeploymentBuilder);
      r.Panics? || (r.value.Built? && r.value.obj.Some? && r.value.obj.value.DeploymentObject?
                   && (r.value.state == StatePresent <==> t.spec.query.Some?))
  {
  }

  /** The Thanos custom resource, shared by pointer: `setDefaults`
      changes the caller's object. */
  class ThanosResource {
    var namespace: string
    var spec: ThanosSpec

    constructor (t: Thanos)
      ensures Value() == t
    {
      namespace := t.namespace;
      spec := t.spec;
    }

    function Value(): Thanos
      reads this
    {
      Thanos(namespace, spec)
    }
  }

  /** ThanosComponentReconciler. The compiled-in defaults, the store
      builders and `ReconcileResource` of the generic engine are fixed
      when it is made; `log` records every pass's events. */
  class ThanosComponentReconciler {
    const thanos: ThanosResource
    const defaults: Defaults
    const storeDeployment: Thanos -> Completion<BuilderResult>
    const storeService: Thanos -> Completion<BuilderResult>
    const reconcileResource: Apply
    ghost var log: seq<Event>

    constructor (thanos: ThanosResource, defaults: Defaults, storeDeployment: Thanos -> Completion<BuilderResult>,
                 storeService: Thanos -> Completion<BuilderResult>, reconcileResource: Apply)
      ensures this.thanos == thanos && this.defaults == defaults
      ensures this.storeDeployment == storeDeployment && this.storeService == storeService
      ensures this.reconcileResource == reconcileResource
      ensures log == []
    {
      this.thanos := thanos;
      this.defaults := defaults;
      this.storeDeployment := storeDeployment;
      this.storeService := storeService;
      this.reconcileResource := reconcileResource;
      log := [];
    }

    /** `setDefaults`: merge the query and store-gateway defaults into the
        resource, in place, leaving a nil component nil. */
    method SetDefaults()
      modifies thanos
      ensures thanos.Value() == WithDefaults(old(thanos.Value()), defaults)
    {
      var spec := thanos.spec;
      if spec.query.Some? {
        spec := spec.(query := Some(Merge(spec.query.value, defaults.query)));
      }
      if spec.storeGateway.Some? {
        spec := spec.(storeGateway := Some(Merge(spec.storeGateway.value, defaults.storeGateway)));
      }
      thanos.spec := spec;
    }

    /** `Reconcile`: one pass over `resourceList`, as `Drive` describes it. */
    method Reconcile() returns (ret: Completion<Return>)
      modifies this`log
      ensures var p := Drive(ResourceList(), Builders(thanos.Value(), defaults, storeDeployment, storeService),
                             reconcileResource);
        ret == p.ret && log == old(log) + p.trace
    {
      var resourceList := ResourceList();
      var build := Builders(thanos.Value(), defaults, storeDeployment, storeService);
      ghost var trace;
      ret, trace := RunBuilders(resourceList, build, reconcileResource);
      log := log + trace;
    }
  }

  /** The body of the loop of `Reconcile` for one builder `b`: invoke it,
      stop on an error or a nil object, hand the object to `apply`, stop
      on its error or non-nil result, and otherwise go on. */
  method Iterate(b: BuilderName, build: Build, apply: Apply) returns (step: Step)
    ensures step == RunStep(b, build, apply)
  {
    var built := build(b);
    if built.Panics? {
      return Stop(Panics, [Invoked(b)]);
    }
    if built.value.BuildError? {
      return Stop(Returns(Return(None, Some(BuildFailed))), [Invoked(b)]);
    }
    if built.value.obj.None? {
      return Stop(Returns(Return(None, Some(NilObject(b)))), [Invoked(b)]);
    }
    var o, state := built.value.obj.value, built.value.state;
    var result := apply(o, state);
    if result.ApplyErr? {
      return Stop(Returns(Return(None, Some(ApplyFailed))), [Invoked(b), Reconciled(o, state)]);
    }
    if result.result.Some? {
      return Stop(Returns(Return(result.result, None)), [Invoked(b), Reconciled(o, state)]);
    }
    return Next([Invoked(b), Reconciled(o, state)]);
  }

  /** The loop of `Reconcile` over a list of builders, stopping at the
      first step that stops. `trace` is what the pass did, in order. */
  method RunBuilders(list: seq<BuilderName>, build: Build, apply: Apply)
    returns (ret: Completion<Return>, ghost trace: seq<Event>)
    ensures ret == Drive(list, build, apply).ret
    ensures trace == Drive(list, build, apply).trace
  {
    ghost var pass := Drive(list, build, apply);
    trace := [];
    var i := 0;
    while i < |list|
      invariant 0 <= i <= |list|
      invariant pass == Pass(Drive(list[i..], build, apply).ret,
                             trace + Drive(list[i..], build, apply).trace)
    {
      assert list[i..][0] == list[i];
      assert list[i..][1..] == list[i + 1..];
      var step := Iterate(list[i], build, apply);
      trace := trace + step.events;
      if step.Stop? {
        return step.ret, trace;
      }
      i := i + 1;
    }
    assert list[i..] == [];
    return Returns(Return(None, None)), trace;
  }

  /** `NewThanosComponentReconciler`: make the reconciler, then default
      the resource it was given. */
  method NewThanosComponentReconciler(thanos: ThanosResource, defaults: Defaults,
                                      storeDeployment: Thanos -> Completion<BuilderResult>,
                                      storeService: Thanos -> Completion<BuilderResult>,
                                      reconcileResource: Apply)
    returns (r: ThanosComponentReconciler)
    modifies thanos
    ensures fresh(r) && r.thanos == thanos && r.defaults == defaults
    ensures r.storeDeployment == storeDeployment && r.storeService == storeService
    ensures r.reconcileResource == reconcileResource && r.log == []
    ensures thanos.Value() == WithDefaults(old(thanos.Value()), defaults)
  {
    r := new ThanosComponentReconciler(thanos, defaults, storeDeployment, storeService, reconcileResource);
    r.SetDefaults();
  }
}
