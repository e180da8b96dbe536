/** pkg/resources/query.go: the port parser and the builder of the
    query Deployment. */
module Query {
  import opened Wrappers
  import opened Strings
  import opened Strconv
  import opened K8s
  import opened Api
  import opened Defaulting

  const QueryDeploymentName: string := "query-deployment"
  const QueryAppLabels: map<string, string> := map["app" := "query"]

  /** `GetPort`: parse the second `:`-separated field of an address as a
      decimal number, giving 0 when it is not one. An address without a
      colon has no second field, and indexing it panics. */
  function GetPort(address: string): (r: Completion<int32>)
    ensures r.Panics? <==> ':' !in address
  {
    var fields := Split(address, ':');
    if |fields| < 2 then Panics else Returns(PortValue(fields[1]))
  }

  /** The port a field denotes: its decimal value cut to 32 bits, or 0
      when `Atoi` rejects it. */
  function PortValue(field: string): (port: int32)
    ensures Atoi(field).Err? ==> port == 0
    ensures Atoi(field).Ok? && -0x8000_0000 <= Atoi(field).value < 0x8000_0000 ==> port as int == Atoi(field).value
  {
    match Atoi(field)
    case Err(_) => 0
    case Ok(port) => ToInt32(port)
  }

  /** Only the text between the first and the second colon is read; the
      host before it and anything from the second colon on are ignored. */
  lemma GetPortReadsSecondField(host: string, field: string, tail: string)
    requires ':' !in host && ':' !in field
    requires tail == [] || tail[0] == ':'
    ensures GetPort(host + ":" + field + tail) == Returns(PortValue(field))
  {
    SecondField(host, ':', field, tail);
  }

  /** A second field that is not a decimal number gives port 0. */
  lemma GetPortLenient(host: string, field: string, tail: string)
    requires ':' !in host && ':' !in field
    requires tail == [] || tail[0] == ':'
    requires Atoi(field).Err?
    ensures GetPort(host + ":" + field + tail) == Returns(0)
  {
    GetPortReadsSecondField(host, field, tail);
  }

  /** A port written out in decimal after the host is read back exactly. */
  lemma GetPortHostPort(host: string, port: int32, tail: string)
    requires ':' !in host
    requires tail == [] || tail[0] == ':'
    ensures GetPort(host + ":" + Itoa(port as int) + tail) == Returns(port)
  {
    if ':' in Itoa(port as int) {
      ItoaChars(port as int, ':');
    }
    AtoiItoa(port as int);
    GetPortReadsSecondField(host, Itoa(port as int), tail);
  }

  /** Zeros before a non-negative port, as in `host:080`, are read past. */
  lemma GetPortLeadingZeros(host: string, zeros: string, port: int32, tail: string)
    requires ':' !in host
    requires forall i :: 0 <= i < |zeros| ==> zeros[i] == '0'
    requires port >= 0
    requires tail == [] || tail[0] == ':'
    ensures GetPort(host + ":" + zeros + Itoa(port as int) + tail) == Returns(port)
  {
    var field := zeros + Digits(port as int);
    AtoiZerosDigits(zeros, port as int);
    assert ':' !in field;
    assert Itoa(port as int) == Digits(port as int);
    assert PortValue(field) == port;
    GetPortReadsSecondField(host, field, tail);
    assert host + ":" + zeros + Itoa(port as int) == host + ":" + field;
  }

  lemma GetPortExampleHostPort(address: string)
    requires address == "10.0.0.1:10901"
    ensures GetPort(address) == Returns(10901)
  {
    var host, port := "10.0.0.1", 10901 as int32;
    assert Digits(1) == "1";
    assert Digits(10) == Digits(1) + "0" == "10";
    assert Digits(109) == Digits(10) + "9" == "109";
    assert Digits(1090) == Digits(109) + "0" == "1090";
    assert Itoa(port as int) == "10901";
    assert host + ":" + Itoa(port as int) + "" == address;
    GetPortHostPort(host, port, "");
  }

  lemma GetPortExampleThreeFields(address: string)
    requires address == "a:1:2"
    ensures GetPort(address) == Returns(1)
  {
    assert Itoa(1) == "1";
    GetPortHostPort("a", 1, ":2");
    assert "a" + ":" + Itoa(1) + ":2" == address;
  }

  lemma GetPortExampleEmptyPort(address: string)
    requires address == "host:"
    ensures GetPort(address) == Returns(0)
  {
    GetPortLenient("host", "", "");
    assert "host" + ":" + "" + "" == address;
  }

  lemma GetPortExampleNonNumeric(address: string)
    requires address == "host:abc"
    ensures GetPort(address) == Returns(0)
  {
    var host, field := "host", "abc";
    assert address == host + ":" + field + "";
    assert !IsDigit(field[0]) && Unsigned(field) == field;
    GetPortLenient(host, field, "");
  }

  lemma GetPortExampleNoColon(address: string)
    requires address == "no-colon-here"
    ensures GetPort(address) == Panics
  {
    assert forall i :: 0 <= i < |address| ==> address[i] != ':';
  }

  /** `queryDeployment`: with a query spec, merge a copy of it with the
      default and build the Deployment, tagged Present; without one, a
      Deployment carrying only its name and namespace, tagged Absent. */
  function QueryDeployment(t: Thanos, defaultQuery: ComponentSpec): (r: Completion<(Deployment, DesiredState)>)
    ensures r.Panics? <==>
      t.spec.query.Some? &&
      var q := Merge(t.spec.query.value, defaultQuery);
      ':' !in q.httpAddress || ':' !in q.grpcAddress
    ensures r.Returns? ==> (r.value.1 == StatePresent <==> t.spec.query.Some?)
    ensures r.Returns? ==> r.value.0.meta.name == QueryDeploymentName && r.value.0.meta.namespace == t.namespace
  {
    var name := QueryDeploymentName;
    var namespace := t.namespace;
    if t.spec.query.Some? then
      var q := Merge(t.spec.query.value, defaultQuery);
      var httpPort := GetPort(q.httpAddress);
      var grpcPort := GetPort(q.grpcAddress);
      if httpPort.Panics? || grpcPort.Panics? then Panics
      else
        var container := Container(
          "query",
          q.image.repository + ":" + q.image.tag,
          ["query", "--grpc-address=" + q.grpcAddress, "--http-address=" + q.httpAddress],
          [ContainerPort("http", httpPort.value, ProtocolTCP), ContainerPort("grpc", grpcPort.value, ProtocolTCP)],
          q.resources,
          PullIfNotPresent);
        var deployment := Deployment(
          ObjectMeta(name, namespace, q.labels, q.annotations),
          DeploymentSpec(
            Some(1),
            Some(LabelSelector(QueryAppLabels)),
            PodTemplateSpec(ObjectMeta("query", "", QueryAppLabels, q.annotations), PodSpec([container]))));
        Returns((deployment, StatePresent))
    else
      Returns((Deployment(ObjectMeta(name, namespace, map[], map[]), EmptyDeploymentSpec), StateAbsent))
  }

  /** Without a query spec the result is the bare deletion marker. */
  lemma QueryDeploymentAbsent(t: Thanos, defaultQuery: ComponentSpec)
    requires t.spec.query.None?
    ensures QueryDeployment(t, defaultQuery).Returns?
    ensures var (d, state) := QueryDeployment(t, defaultQuery).value;
      && state == StateAbsent
      && d.meta == EmptyMeta.(name := QueryDeploymentName, namespace := t.namespace)
      && d.spec == EmptyDeploymentSpec
  {
  }

  /** With a query spec (whose addresses, after merging, have a colon)
      the Deployment runs one `query` container built from the merged
      spec. */
  lemma QueryDeploymentPresent(t: Thanos, defaultQuery: ComponentSpec)
    requires t.spec.query.Some?
    requires var q := Merge(t.spec.query.value, defaultQuery);
      ':' in q.httpAddress && ':' in q.grpcAddress
    ensures QueryDeployment(t, defaultQuery).Returns?
    ensures var q := Merge(t.spec.query.value, defaultQuery);
      var (d, state) := QueryDeployment(t, defaultQuery).value;
      && state == StatePresent
      && d.meta == ObjectMeta(QueryDeploymentName, t.namespace, q.labels, q.annotations)
      && d.spec.replicas == Some(1)
      && d.spec.selector == Some(LabelSelector(map["app" := "query"]))
      && d.spec.template.meta == ObjectMeta("query", "", map["app" := "query"], q.annotations)
      && |d.spec.template.spec.containers| == 1
      && var c := d.spec.template.spec.containers[0];
      && c.name == "query"
      && c.image == q.image.repository + ":" + q.image.tag
      && c.args == ["query", "--grpc-address=" + q.grpcAddress, "--http-address=" + q.httpAddress]
      && c.ports == [ContainerPort("http", GetPort(q.httpAddress).value, ProtocolTCP),
                     ContainerPort("grpc", GetPort(q.grpcAddress).value, ProtocolTCP)]
      && c.resources == q.resources
      && c.imagePullPolicy == PullIfNotPresent
  {
  }

  /** What the user wrote wins over the default, field by field, in the
      image, the flags and the metadata of the Deployment. */
  lemma QueryDeploymentUserWins(t: Thanos, defaultQuery: ComponentSpec)
    requires t.spec.query.Some?
    requires QueryDeployment(t, defaultQuery).Returns?
    ensures var u := t.spec.query.value;
      var d := QueryDeployment(t, defaultQuery).value.0;
      var c := d.spec.template.spec.containers[0];
      && c.image == (if u.image.repository != "" then u.image.repository else defaultQuery.image.repository)
                    + ":" + (if u.image.tag != "" then u.image.tag else defaultQuery.image.tag)
      && c.args[1] == "--grpc-address=" + (if u.grpcAddress != "" then u.grpcAddress else defaultQuery.grpcAddress)
      && c.args[2] == "--http-address=" + (if u.httpAddress != "" then u.httpAddress else defaultQuery.httpAddress)
      && d.meta.labels == (if u.labels != map[] then u.labels else defaultQuery.labels)
      && d.meta.annotations == (if u.annotations != map[] then u.annotations else defaultQuery.annotations)
  {
  }

  /** Container ports follow the addresses: an address `host:port`
      declares that port, in the order http, grpc. */
  lemma QueryDeploymentPorts(t: Thanos, defaultQuery: ComponentSpec,
                             httpHost: string, httpPort: int32, grpcHost: string, grpcPort: int32)
    requires t.spec.query.Some?
    requires ':' !in httpHost && ':' !in grpcHost
    requires var q := Merge(t.spec.query.value, defaultQuery);
      q.httpAddress == httpHost + ":" + Itoa(httpPort as int) &&
      q.grpcAddress == grpcHost + ":" + Itoa(grpcPort as int)
    ensures QueryDeployment(t, defaultQuery).Returns?
    ensures var d := QueryDeployment(t, defaultQuery).value.0;
      d.spec.template.spec.containers[0].ports
        == [ContainerPort("http", httpPort, ProtocolTCP), ContainerPort("grpc", grpcPort, ProtocolTCP)]
  {
    var q := Merge(t.spec.query.value, defaultQuery);
    GetPortHostPort(httpHost, httpPort, "");
    GetPortHostPort(grpcHost, grpcPort, "");
    assert httpHost + ":" + Itoa(httpPort as int) + "" == q.httpAddress;
    assert grpcHost + ":" + Itoa(grpcPort as int) + "" == q.grpcAddress;
  }
}
