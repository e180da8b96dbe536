/** The custom resource of the operator (package v1alpha1). A field a
    user leaves out holds Go's zero value: "" for a string, the empty
    map for a map. */
module Api {
  import opened Wrappers
  import opened K8s

  datatype ImageSpec = ImageSpec(repository: string, tag: string)

  /** The configuration of one component (QuerySpec; StoreGateway is
      given the same shape). */
  datatype ComponentSpec = ComponentSpec(
    image: ImageSpec,
    grpcAddress: string,
    httpAddress: string,
    resources: ResourceRequirements,
    labels: map<string, string>,
    annotations: map<string, string>)

  /** A nil component means "do not deploy it". */
  datatype ThanosSpec = ThanosSpec(query: Option<ComponentSpec>, storeGateway: Option<ComponentSpec>)

  datatype Thanos = Thanos(namespace: string, spec: ThanosSpec)

  /** The compiled-in specs `v1alpha1.DefaultQuery` and
      `v1alpha1.DefaultStoreGateway`, used only as merge sources. */
  datatype Defaults = Defaults(query: ComponentSpec, storeGateway: ComponentSpec)
}
