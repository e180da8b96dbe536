# Thanos operator: defaulting, query Deployment builder and reconcile driver

This Dafny project models the object-building core of a Kubernetes operator for Thanos, and proves properties of that model.

- `GetPort` reads the port out of a `host:port` address string. It splits the address on `:`, parses the second field with `strconv.Atoi`, and gives 0 when `Atoi` rejects the field: it is not a decimal number, or its value lies outside the 64-bit range. Otherwise it keeps the low 32 bits of the value.
- `setDefaults` fills every unset field of the user's query and store-gateway specs from the compiled-in defaults. It changes the resource in place.
- `queryDeployment` merges a copy of the query spec with the default and builds the Deployment tagged Present. When the query spec is nil, it builds a bare Deployment that carries only its name and namespace, tagged Absent.
- `Reconcile` runs the builders in order: query deployment, store deployment, store service. It hands each object to the generic reconcile engine. It stops at the first builder error, nil object, engine error or non-nil engine result.

Modules, one per file:

- `Wrappers`: holds `Option`, `Result`, and `Completion`. A `Completion` is either a normal return or a Go panic.
- `Strings`: models `strings.Split`, with `Join` as its inverse.
- `Strconv`: models `strconv.Atoi`, with `Itoa` as its inverse, and the `int32(x)` conversion.
- `K8s`: holds the Kubernetes and operator-framework types, cut down to the fields the builder sets.
- `Api`: holds the custom resource. A field the user leaves out holds Go's zero value, which is `""` for a string and the empty map for a map.
- `Defaulting`: the `mergo.Merge` call without override, written as an explicit field-wise fill-if-zero.
- `Query`: models `pkg/resources/query.go`.
- `Thanos`: models `pkg/resources/thanos.go`:
  - the pure function `Drive`, which spells out one reconcile pass and the events it produces;
  - the loop `RunBuilders`, proved equal to `Drive`;
  - the classes `ThanosResource` and `ThanosComponentReconciler`. They hold the resource that `SetDefaults` updates in place, and a ghost log of every builder invocation and every call to the engine.

An address with no colon has no second field. Indexing it panics in Go (`pkg/resources/query.go:19`), so `GetPort` gives `Panics` exactly when the address has no colon, and `Reconcile` passes the panic on.

## Model

| member | source | states |
|---|---|---|
| `Query.GetPort` | pkg/resources/query.go:18-24 | the call panics exactly when the address has no `:` (there is no second field to index) |
| `Query.PortValue` | pkg/resources/query.go:19-23 | a field that `Atoi` rejects gives port 0; a value that fits in 32 bits is kept as it is |
| `Query.GetPortReadsSecondField` | pkg/resources/query.go:19 | only the text between the first and second colon is parsed; the host and anything from a second colon on are ignored |
| `Strings.SecondField` | pkg/resources/query.go:19 | in `host:field` followed by nothing or by another colon, with no colon in host or field, the second field of the split is `field` |
| `Query.GetPortLenient` | pkg/resources/query.go:19-22 | an empty or non-numeric port field gives 0 instead of an error |
| `Query.GetPortHostPort` | pkg/resources/query.go:18-24 | `host:` followed by the decimal text of any 32-bit port, optionally followed by `:rest`, gives back that port |
| `Query.GetPortLeadingZeros` | pkg/resources/query.go:18-24 | a non-negative port written with leading zeros, as in `host:080`, still gives that port |
| `Query.GetPortExampleHostPort` | pkg/resources/query.go:18-24 | `"10.0.0.1:10901"` gives 10901 |
| `Query.GetPortExampleThreeFields` | pkg/resources/query.go:19 | `"a:1:2"` gives 1 |
| `Query.GetPortExampleEmptyPort` | pkg/resources/query.go:19-22 | `"host:"` gives 0 |
| `Query.GetPortExampleNonNumeric` | pkg/resources/query.go:19-22 | `"host:abc"` gives 0 |
| `Query.GetPortExampleNoColon` | pkg/resources/query.go:19 | `"no-colon-here"` panics |
| `Strings.Split` | pkg/resources/query.go:19 | there is at least one field and no field contains the separator; a string without the separator is its own single field; a string with it has at least two fields |
| `Strings.IndexOf` | pkg/resources/query.go:19 | the index is the first occurrence of the separator |
| `Strings.SplitAt` | pkg/resources/query.go:19 | a separator-free prefix followed by the separator becomes the first field, and the rest is split on its own |
| `Strings.JoinSplit` | pkg/resources/query.go:19 | joining the fields of a split gives back the address |
| `Strings.SplitJoin` | pkg/resources/query.go:19 | splitting the join of separator-free fields gives back the fields |
| `Strconv.Atoi` | pkg/resources/query.go:19 | a syntax error exactly when the text is not an optional sign followed by one or more digits; well-formed text gives a value exactly when its signed value lies in the 64-bit range (otherwise a range error), and that value is the signed value of the text |
| `Strconv.AtoiBounds` | pkg/resources/query.go:19 | any value returned lies in the 64-bit range and is negative only after a leading `-` |
| `Strconv.AtoiLeadingZeros` | pkg/resources/query.go:19 | zeros after the optional sign do not change the result: `080` reads as `80` |
| `Strconv.AtoiZerosDigits` | pkg/resources/query.go:19 | any run of zeros followed by the decimal digits of `n` reads back as `n` |
| `Strconv.AtoiPlus` | pkg/resources/query.go:19 | a `+` before digits gives the same result as the digits alone |
| `Strconv.AtoiNegativeZero` | pkg/resources/query.go:19 | `-0` reads as 0 |
| `Strconv.AtoiItoa` | pkg/resources/query.go:19 | `Atoi` reads back the decimal text of every 64-bit integer |
| `Strconv.DigitsValue` | pkg/resources/query.go:19 | the decimal digits written for `n` have the value `n` |
| `Strconv.ItoaChars` | pkg/resources/query.go:19 | decimal text holds only a sign and digits, so it never contains the `:` separator |
| `Strconv.ToInt32` | pkg/resources/query.go:23 | `int32(port)` keeps every value in the 32-bit range and is congruent to the port modulo 2^32 |
| `Defaulting.Merge` | pkg/resources/query.go:30-31 | `mergo.Merge` without override, also called at `pkg/resources/thanos.go:54` and `:60`: every field the user set is kept (`Keeps`) and every unset field takes the default's value (`FillsFrom`) |
| `Defaulting.MergeUnset` | pkg/resources/thanos.go:52-58 | a user who sets nothing gets exactly the default |
| `Defaulting.MergeComplete` | pkg/resources/thanos.go:52-58 | a user who sets every field gets exactly their own spec |
| `Defaulting.MergeWithUnset` | pkg/resources/query.go:30-31 | merging with an all-unset source changes nothing |
| `Defaulting.MergeCompletes` | pkg/resources/query.go:30-31 | with a complete default, no field of the merged spec is left unset |
| `Defaulting.MergeIdempotent` | pkg/resources/query.go:31 | merging the same default again leaves a merged spec unchanged |
| `Defaulting.MergeAssociative` | pkg/resources/query.go:31 | chained fill-if-unset merges give the same result in either grouping |
| `Defaulting.MergeUnique` | pkg/resources/query.go:31 | the merge is the only spec that keeps what the user set and takes the rest from the default |
| `Query.QueryDeployment` | pkg/resources/query.go:26-92 | it panics exactly when the query spec is present and a merged address lacks a colon; otherwise the tag is Present exactly when the query spec is present, and the name is `query-deployment` in the resource's namespace |
| `Query.QueryDeploymentAbsent` | pkg/resources/query.go:85-91 | with no query spec the result is tagged Absent and carries only name and namespace; every other field is zero |
| `Query.QueryDeploymentPresent` | pkg/resources/query.go:29-83 | with a query spec: tagged Present, metadata from the merged spec, 1 replica, selector and pod labels `app=query`, image `repository:tag`, args `query`, `--grpc-address=…`, `--http-address=…` in that order, ports http then grpc (both TCP), merged resources, pull policy IfNotPresent |
| `Query.QueryDeploymentUserWins` | pkg/resources/query.go:30-61 | image, flags, labels and annotations come from the user where the user set them, otherwise from the default |
| `Query.QueryDeploymentPorts` | pkg/resources/query.go:63-74 | addresses `host:port` declare exactly those ports, http first, grpc second |
| `Thanos.ResourceList` | pkg/resources/thanos.go:26-30 | the list holds each of the three builders exactly once, the query deployment first |
| `Thanos.Builder` | pkg/resources/thanos.go:26-30 | the query builder is `QueryDeployment` over the resource, wrapping its Deployment as the built object; the store builders are the reconciler's function fields, called on the same resource; what the query builder can return is stated by `QueryBuilderBuilds` |
| `Thanos.Builders` | pkg/resources/thanos.go:26-30 | the builder function of a pass: every builder sees the same snapshot of the resource |
| `Thanos.RunStep` | pkg/resources/thanos.go:33-46 | a step always starts by invoking its builder, and it calls `ReconcileResource` (a second event) exactly when the builder returned a non-nil object without error |
| `Thanos.Drive` | pkg/resources/thanos.go:25-50 | this is the reference definition of a pass; its properties are the lemmas below |
| `Thanos.Iterate` | pkg/resources/thanos.go:33-46 | one pass through the loop body does what `RunStep` says: the early returns for a builder error, a nil object, an engine error and a non-nil result, or going on with that builder's two events |
| `Thanos.ContinuesAt` | pkg/resources/thanos.go:33-46 | the loop goes on past a builder only when it built a non-nil object and the engine returned (nil, nil) for it; the step then records that invocation and that one engine call |
| `Thanos.StepInvokes` | pkg/resources/thanos.go:33 | each loop iteration invokes exactly its own builder, once |
| `Thanos.RunBuilders` | pkg/resources/thanos.go:32-47 | the builder loop returns what `Drive` says and does exactly the steps `Drive` lists |
| `Thanos.DriveInvokesInOrder` | pkg/resources/thanos.go:26-32 | the builders invoked are a prefix of the list, in list order, so a list without repeated builders invokes each at most once |
| `Thanos.ReconcileInvokesInOrder` | pkg/resources/thanos.go:26-32 | `Reconcile` invokes a prefix of query deployment, store deployment, store service, in that order |
| `Thanos.DriveAppend` | pkg/resources/thanos.go:32-47 | builders that all continue, followed by any others, contribute their invocations and engine calls to the trace, and the pass then ends as the others make it end |
| `Thanos.DriveThrough` | pkg/resources/thanos.go:32-47 | over builders that all continue, the pass records one invocation and one engine call each, then goes on with the rest |
| `Thanos.DriveAllContinue` | pkg/resources/thanos.go:32-49 | when every builder builds and every engine call returns (nil, nil), the pass returns (nil, nil) with the full trace |
| `Thanos.TraceShape` | pkg/resources/thanos.go:32-47 | that full trace has exactly one invocation and one engine call per builder, in order, each call with that builder's object and tag |
| `Thanos.DriveStopsOnBuildError` | pkg/resources/thanos.go:33-36 | a builder error returns an error at once, with no engine call for that builder and no later builder |
| `Thanos.DriveStopsOnNilObject` | pkg/resources/thanos.go:37-39 | a nil object returns an error naming that builder, before any engine call for it |
| `Thanos.DriveStopsOnPanic` | pkg/resources/query.go:19 | a panicking builder ends the pass with that panic |
| `Thanos.DriveStopsOnApplyError` | pkg/resources/thanos.go:40-43 | an engine error returns an error after that one call, and no later builder runs |
| `Thanos.DriveReturnsApplyResult` | pkg/resources/thanos.go:44-46 | a non-nil engine result is returned unchanged with no error, and no later builder runs |
| `Thanos.DefaultComponent` | pkg/resources/thanos.go:53-64 | a nil component stays nil and a present one stays present |
| `Thanos.WithDefaults` | pkg/resources/thanos.go:52-66 | the namespace is kept, and each component is present afterwards exactly when it was present before |
| `Thanos.WithDefaultsMerges` | pkg/resources/thanos.go:53-64 | each present component keeps the fields the user set and takes every other field from its default |
| `Thanos.WithDefaultsUnset` | pkg/resources/thanos.go:53-58 | an enabled query spec with nothing set becomes the default |
| `Thanos.WithDefaultsIdempotent` | pkg/resources/thanos.go:52-66 | defaulting twice is defaulting once |
| `Thanos.QueryDeploymentAfterDefaults` | pkg/resources/query.go:30-31 | building after `setDefaults` gives the same result as building from the original resource, because the builder's second merge changes nothing |
| `Thanos.QueryBuilderBuilds` | pkg/resources/thanos.go:27 | the query builder never returns an error or a nil object; either it panics or it yields a Deployment, tagged Present exactly when the query spec is set |
| `Thanos.ThanosResource.constructor` | pkg/resources/thanos.go:20 | the resource object holds the given value |
| `Thanos.ThanosComponentReconciler.constructor` | pkg/resources/thanos.go:69-73 | the reconciler holds the resource, defaults, store builders and engine it was given, with an empty log |
| `Thanos.ThanosComponentReconciler.SetDefaults` | pkg/resources/thanos.go:52-66 | the shared resource becomes `WithDefaults` of what it was |
| `Thanos.ThanosComponentReconciler.Reconcile` | pkg/resources/thanos.go:25-50 | it returns the pass `Drive` gives over `[query deployment, store deployment, store service]`, and the log grows by exactly that pass's events |
| `Thanos.NewThanosComponentReconciler` | pkg/resources/thanos.go:68-76 | it returns a fresh reconciler over the caller's resource, and that resource is now defaulted |

## Left out

- `ReconcileResource`, the generic engine's apply/delete with its cluster I/O, is a function field of the reconciler. It returns a result or an error, and nothing more about it is modelled.
- `storeDeployment` and `storeService` are not part of this model. They are function fields of the reconciler, called on the resource.
- The default specs `v1alpha1.DefaultQuery` and `v1alpha1.DefaultStoreGateway` are not part of this model. They are a `Defaults` argument. The store-gateway spec is given the same shape as the query spec, because its own type is not part of this model.
- QueryDeployment: has no merge-error outcome. `mergo.Merge` fails only for a nil destination, mismatched types or an unsupported kind, and none of these can happen for a fresh copy merged with a default of the same type.
- ThanosComponentReconciler.SetDefaults: returns no error, for the same reason.
- NewThanosComponentReconciler: returns no error, for the same reason.
- Defaulting.Merge: follows the field-wise contract. It fills a map-valued field (labels, annotations, resource limits and requests) only when that field is empty. The library's own key-by-key merging of maps is not modelled.
- Strconv.Atoi: for text that is malformed and whose digits already overflow before a non-digit appears, Go reports `ErrRange` and the model reports `ErrSyntax`. `GetPort` treats both errors the same way.
- `Atoi` is modelled for a 64-bit `int`.
- The error messages are not modelled: the `errors.WrapIf` context and the `%#v` rendering of the builder. Only the kind of error is kept; for a nil object, so is the builder's name.
- Recovery from a panic by the surrounding controller framework is not modelled. A panic ends the pass.
- The Kubernetes types keep only the fields the builder sets. Nil and empty maps are the same value. The absent Deployment's spec is the zero value.
- The deep copy in `queryDeployment` produces no separate object. The builder is a pure function of the resource, so it cannot change the resource's own query spec.
- `Reconcile` runs its loop in `RunBuilders`, whose body is `Iterate`, and appends the pass's events to the ghost log when the loop ends. The log therefore holds each pass's events in order, though not as they happen.
- The unused `ObjectSores` field and the unused label constants are left out.
- NewThanosComponentReconciler: a nil `objectStores` or a nil `thanos` pointer panics in Go, when `objectStores.Items` is read (`pkg/resources/thanos.go:71`) or `t.Thanos.Spec` is read in `setDefaults` (`pkg/resources/thanos.go:53`). The model has no `objectStores` parameter and takes a non-null `ThanosResource`, so both panics are excluded by the types.
