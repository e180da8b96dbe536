/** The few Kubernetes API and operator-framework types the operator
    touches, cut down to the fields the builders set. A Go map or
    slice that is nil is modelled as the empty one. */
module K8s {
  import opened Wrappers
  import opened Strconv

  /** metav1.ObjectMeta: identity plus labels and annotations. */
  datatype ObjectMeta = ObjectMeta(
    name: string,
    namespace: string,
    labels: map<string, string>,
    annotations: map<string, string>)

  /** v1.ResourceRequirements; quantities are kept as their text. */
  datatype ResourceRequirements = ResourceRequirements(
    limits: map<string, string>,
    requests: map<string, string>)

  datatype Protocol = ProtocolTCP | ProtocolUDP | ProtocolSCTP

  datatype PullPolicy = PullAlways | PullNever | PullIfNotPresent

  datatype ContainerPort = ContainerPort(name: string, containerPort: int32, protocol: Protocol)

  datatype Container = Container(
    name: string,
    image: string,
    args: seq<string>,
    ports: seq<ContainerPort>,
    resources: ResourceRequirements,
    imagePullPolicy: PullPolicy)

  datatype PodSpec = PodSpec(containers: seq<Container>)

  datatype PodTemplateSpec = PodTemplateSpec(meta: ObjectMeta, spec: PodSpec)

  datatype LabelSelector = LabelSelector(matchLabels: map<string, string>)

  /** appsv1.DeploymentSpec; `replicas` and `selector` are pointers. */
  datatype DeploymentSpec = DeploymentSpec(
    replicas: Option<int32>,
    selector: Option<LabelSelector>,
    template: PodTemplateSpec)

  datatype Deployment = Deployment(meta: ObjectMeta, spec: DeploymentSpec)

  /** The zero values Go gives the fields a composite literal leaves out. */
  const EmptyMeta: ObjectMeta := ObjectMeta("", "", map[], map[])
  const EmptyDeploymentSpec: DeploymentSpec :=
    DeploymentSpec(None, None, PodTemplateSpec(EmptyMeta, PodSpec([])))

  /** runtime.Object: the Deployment the query builder makes, or an
      object of another kind made by a builder this model does not see. */
  datatype Object =
    | DeploymentObject(deployment: Deployment)
    | OtherObject(kind: string, meta: ObjectMeta)

  /** reconciler.DesiredState: apply the object, or make sure it is gone. */
  datatype DesiredState = StatePresent | StateAbsent

  /** reconcile.Result; `requeueAfter` is a duration in nanoseconds. */
  datatype ReconcileResult = ReconcileResult(requeue: bool, requeueAfter: int)

  /** What a builder (the Go type `Resource`) returns: an object that may
      be nil and the presence tag, or an error. */
  datatype BuilderResult =
    | Built(obj: Option<Object>, state: DesiredState)
    | BuildError
}
