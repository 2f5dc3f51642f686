/** The resource family of deployer.py: an abstract base whose render always
    fails, and four concrete kinds that each render to a fixed object tree.
    Rendering stops at the tree handed to the YAML serialiser. */
module Resources {
  import opened Wrappers
  import opened Manifest

  /** The errors the modelled code raises. */
  datatype Error =
    | NotImplemented(message: string)  // NotImplementedError from the abstract base
    | AbsentSetting(key: string)       // a database setting that was never loaded

  const NotImplementedMessage := "Subclasses must implement generate_yaml method"

  /** Every name the concrete kinds derive starts with this. */
  const Prefix := "microservice-"
  const ContainerPort := 8080
  const ServicePort := 80

  datatype Resource =
    | Base(name: string)
    | Deployment(name: string, image: string, replicas: int)
    | Service(name: string)
    | Namespace(name: string)
    | Secret(name: string, data: map<string, Node>)

  // Paths into rendered trees.
  const KindPath := [Key("kind")]
  const NamePath := [Key("metadata"), Key("name")]
  const ReplicasPath := [Key("spec"), Key("replicas")]
  const MatchLabelsPath := [Key("spec"), Key("selector"), Key("matchLabels")]
  const PodLabelsPath := [Key("spec"), Key("template"), Key("metadata"), Key("labels")]
  const ContainersPath := [Key("spec"), Key("template"), Key("spec"), Key("containers")]
  const ContainerPath := ContainersPath + [Index(0)]
  const ServiceSelectorPath := [Key("spec"), Key("selector")]
  const ServicePortsPath := [Key("spec"), Key("ports")]
  const DataPath := [Key("data")]

  /** The one container of a Deployment's pod template. */
  function ContainerTree(app: string, image: string): Node
  {
    Mapping(map[
      "name" := Str(app),
      "image" := Str(image),
      "ports" := List([Mapping(map["containerPort" := Int(ContainerPort)])])])
  }

  function DeploymentTree(name: string, image: string, replicas: int): Node
  {
    var app := Prefix + name;
    Mapping(map[
      "apiVersion" := Str("apps/v1"),
      "kind" := Str("Deployment"),
      "metadata" := Mapping(map["name" := Str(app)]),
      "spec" := Mapping(map[
        "replicas" := Int(replicas),
        "selector" := Mapping(map["matchLabels" := Mapping(map["app" := Str(app)])]),
        "template" := Mapping(map[
          "metadata" := Mapping(map["labels" := Mapping(map["app" := Str(app)])]),
          "spec" := Mapping(map["containers" := List([ContainerTree(app, image)])])])])])
  }

  /** The single port entry every Service exposes. */
  const ServicePortEntry := Mapping(map[
    "protocol" := Str("TCP"),
    "port" := Int(ServicePort),
    "targetPort" := Int(ContainerPort)])

  function ServiceTree(name: string): Node
  {
    var app := Prefix + name;
    Mapping(map[
      "apiVersion" := Str("v1"),
      "kind" := Str("Service"),
      "metadata" := Mapping(map["name" := Str(app)]),
      "spec" := Mapping(map[
        "selector" := Mapping(map["app" := Str(app)]),
        "ports" := List([ServicePortEntry])])])
  }

  function NamespaceTree(name: string): Node
  {
    Mapping(map[
      "apiVersion" := Str("v1"),
      "kind" := Str("Namespace"),
      "metadata" := Mapping(map["name" := Str(name + "-namespace")])])
  }

  function SecretTree(name: string, data: map<string, Node>): Node
  {
    Mapping(map[
      "apiVersion" := Str("v1"),
      "kind" := Str("Secret"),
      "metadata" := Mapping(map["name" := Str(Prefix + name + "-secret")]),
      "data" := Mapping(data)])
  }

  /** `generate_yaml` up to the serialiser: the abstract base fails, every
      concrete kind produces its tree. */
  function Render(r: Resource): (out: Result<Node, Error>)
    ensures out.Failure? <==> r.Base?
    ensures out.Failure? ==> out.error == NotImplemented(NotImplementedMessage)
    ensures out.Success? ==> out.value.Mapping? && "metadata" in out.value.fields
  {
    match r
    case Base(_) => Failure(NotImplemented(NotImplementedMessage))
    case Deployment(name, image, replicas) => Success(DeploymentTree(name, image, replicas))
    case Service(name) => Success(ServiceTree(name))
    case Namespace(name) => Success(NamespaceTree(name))
    case Secret(name, data) => Success(SecretTree(name, data))
  }

  // ---------------------------------------------------------------------
  // Affix helpers

  function StripPrefix(s: string, p: string): (r: Option<string>)
    ensures r.Some? <==> |p| <= |s| && s[..|p|] == p
    ensures r.Some? ==> p + r.value == s
  {
    if |p| <= |s| && s[..|p|] == p then
      assert p + s[|p|..] == s;
      Some(s[|p|..])
    else None
  }

  function StripSuffix(s: string, x: string): (r: Option<string>)
    ensures r.Some? <==> |x| <= |s| && s[|s| - |x|..] == x
    ensures r.Some? ==> r.value + x == s
  {
    if |x| <= |s| && s[|s| - |x|..] == x then
      assert s[..|s| - |x|] + x == s;
      Some(s[..|s| - |x|])
    else None
  }

  lemma StripPrefixConcat(p: string, s: string)
    ensures StripPrefix(p + s, p) == Some(s)
  {
    assert (p + s)[..|p|] == p;
    assert (p + s)[|p|..] == s;
  }

  lemma StripSuffixConcat(s: string, x: string)
    ensures StripSuffix(s + x, x) == Some(s)
  {
    assert (s + x)[|s|..] == x;
    assert (s + x)[..|s|] == s;
  }

  // ---------------------------------------------------------------------
  // Reading a resource back from its tree

  /** The string at `path`, if there is one. */
  function StrAt(t: Node, path: seq<Step>): Option<string>
  {
    match At(t, path)
    case Some(Str(s)) => Some(s)
    case _ => None
  }

  /** The resource a rendered tree describes, read from its kind, its
      metadata name and its kind-specific fields; None for any tree that is
      not the rendering of a concrete resource's fields. */
  function Recover(t: Node): Option<Resource>
  {
    var kind := StrAt(t, KindPath);
    var shown := StrAt(t, NamePath);
    if kind.None? || shown.None? then None
    else if kind.value == "Deployment" then
      match (StripPrefix(shown.value, Prefix), StrAt(t, ContainerPath + [Key("image")]), At(t, ReplicasPath))
      case (Some(name), Some(image), Some(Int(replicas))) => Some(Deployment(name, image, replicas))
      case _ => None
    else if kind.value == "Service" then
      match StripPrefix(shown.value, Prefix)
      case Some(name) => Some(Service(name))
      case None => None
    else if kind.value == "Namespace" then
      match StripSuffix(shown.value, "-namespace")
      case Some(name) => Some(Namespace(name))
      case None => None
    else if kind.value == "Secret" then
      match (StripPrefix(shown.value, Prefix), At(t, DataPath))
      case (Some(inner), Some(Mapping(data))) =>
        (match StripSuffix(inner, "-secret")
         case Some(name) => Some(Secret(name, data))
         case None => None)
      case _ => None
    else None
  }

  // ---------------------------------------------------------------------
  // Shape of each rendered tree

  /** The one container of a rendered Deployment, at `ContainerPath`. */
  lemma DeploymentContainer(name: string, image: string, replicas: int)
    ensures At(Render(Deployment(name, image, replicas)).value, ContainerPath)
         == Some(ContainerTree(Prefix + name, image))
  {
    var t := DeploymentTree(name, image, replicas);
    var template := [Key("spec"), Key("template")];
    AtAppend(t, template, [Key("spec"), Key("containers"), Index(0)]);
    assert template + [Key("spec"), Key("containers"), Index(0)] == ContainerPath;
  }

  /** A Deployment carries its constructor's replica count and image, and
      exactly one container. */
  lemma DeploymentCarriesFields(name: string, image: string, replicas: int)
    ensures At(Render(Deployment(name, image, replicas)).value, ReplicasPath) == Some(Int(replicas))
    ensures At(Render(Deployment(name, image, replicas)).value, ContainerPath + [Key("image")]) == Some(Str(image))
    ensures At(Render(Deployment(name, image, replicas)).value, ContainersPath)
         == Some(List([ContainerTree(Prefix + name, image)]))
  {
    var t := DeploymentTree(name, image, replicas);
    DeploymentContainer(name, image, replicas);
    AtAppend(t, ContainerPath, [Key("image")]);
    AtAppend(t, [Key("spec"), Key("template")], [Key("spec"), Key("containers")]);
    assert [Key("spec"), Key("template")] + [Key("spec"), Key("containers")] == ContainersPath;
  }

  /** Four places in a Deployment's tree hold the same derived name: its
      metadata name, the selector's `app` label, the pod template's `app`
      label and the container name. */
  lemma DeploymentNamesAgree(name: string, image: string, replicas: int)
    ensures var t := Render(Deployment(name, image, replicas)).value;
      && At(t, NamePath) == Some(Str(Prefix + name))
      && At(t, MatchLabelsPath + [Key("app")]) == Some(Str(Prefix + name))
      && At(t, PodLabelsPath + [Key("app")]) == Some(Str(Prefix + name))
      && At(t, ContainerPath + [Key("name")]) == Some(Str(Prefix + name))
  {
    var t := DeploymentTree(name, image, replicas);
    DeploymentSelectsOwnPods(name, image, replicas);
    AtAppend(t, MatchLabelsPath, [Key("app")]);
    AtAppend(t, PodLabelsPath, [Key("app")]);
    DeploymentContainer(name, image, replicas);
    AtAppend(t, ContainerPath, [Key("name")]);
  }

  /** Whatever its fields, a Deployment's one container exposes exactly one
      port, container port 8080. */
  lemma DeploymentSinglePort(name: string, image: string, replicas: int)
    ensures At(Render(Deployment(name, image, replicas)).value, ContainerPath + [Key("ports")])
         == Some(List([Mapping(map["containerPort" := Int(8080)])]))
  {
    DeploymentContainer(name, image, replicas);
    AtAppend(DeploymentTree(name, image, replicas), ContainerPath, [Key("ports")]);
  }

  /** The label set a selector asks for at `selectorPath` is contained in the
      pod labels at `labelsPath`: how Kubernetes decides that a selector
      picks up a pod. */
  predicate Matches(selecting: Node, selectorPath: seq<Step>, pods: Node)
  {
    match (At(selecting, selectorPath), At(pods, PodLabelsPath))
    case (Some(Mapping(wanted)), Some(Mapping(labels))) => SubMap(wanted, labels)
    case _ => false
  }

  /** A rendered Deployment's selector picks up its own pod template: both
      label sets are the single label `app: microservice-{name}`. */
  lemma DeploymentSelectsOwnPods(name: string, image: string, replicas: int)
    ensures var t := Render(Deployment(name, image, replicas)).value;
      && At(t, MatchLabelsPath) == Some(Mapping(map["app" := Str(Prefix + name)]))
      && At(t, PodLabelsPath) == Some(Mapping(map["app" := Str(Prefix + name)]))
      && Matches(t, MatchLabelsPath, t)
  {
    var t := DeploymentTree(name, image, replicas);
    AtAppend(t, [Key("spec"), Key("template")], [Key("metadata"), Key("labels")]);
    assert [Key("spec"), Key("template")] + [Key("metadata"), Key("labels")] == PodLabelsPath;
  }

  /** Every Service renders the one port entry {TCP, 80, 8080}, and names
      itself and its selector label after its own name. */
  lemma {:induction false} ServiceShape(name: string)
    ensures var t := Render(Service(name)).value;
      && At(t, ServicePortsPath) == Some(List([ServicePortEntry]))
      && At(t, NamePath) == Some(Str(Prefix + name))
      && At(t, ServiceSelectorPath + [Key("app")]) == Some(Str(Prefix + name))
  {
    AtAppend(ServiceTree(name), ServiceSelectorPath, [Key("app")]);
  }

  /** A Service picks up a Deployment's pods exactly when the two resources
      were constructed with the same name. */
  lemma ServiceSelectsIff(service: string, deployment: string, image: string, replicas: int)
    ensures Matches(Render(Service(service)).value, ServiceSelectorPath,
                    Render(Deployment(deployment, image, replicas)).value)
        <==> service == deployment
  {
    var s := ServiceTree(service);
    var d := DeploymentTree(deployment, image, replicas);
    assert At(s.fields["spec"], [Key("selector")]) == Some(Mapping(map["app" := Str(Prefix + service)]));
    DeploymentSelectsOwnPods(deployment, image, replicas);
    var wanted := map["app" := Str(Prefix + service)];
    var labels := map["app" := Str(Prefix + deployment)];
    assert Matches(s, ServiceSelectorPath, d) <==> SubMap(wanted, labels);
    if SubMap(wanted, labels) {
      assert "app" in wanted;
      assert (Prefix + service)[|Prefix|..] == service;
      assert (Prefix + deployment)[|Prefix|..] == deployment;
    }
  }

  /** A Namespace renders its name with "-namespace" appended. */
  lemma NamespaceName(name: string)
    ensures At(Render(Namespace(name)).value, NamePath) == Some(Str(name + "-namespace"))
  {
  }

  /** A Secret renders its name between "microservice-" and "-secret" and
      hands its data through unchanged. */
  lemma SecretShape(name: string, data: map<string, Node>)
    ensures At(Render(Secret(name, data)).value, NamePath) == Some(Str(Prefix + name + "-secret"))
    ensures At(Render(Secret(name, data)).value, DataPath) == Some(Mapping(data))
  {
  }

  /** The `kind` a concrete resource renders under. */
  function KindOf(r: Resource): string
    requires !r.Base?
  {
    match r
    case Deployment(_, _, _) => "Deployment"
    case Service(_) => "Service"
    case Namespace(_) => "Namespace"
    case Secret(_, _) => "Secret"
  }

  /** The metadata name a concrete resource renders under. */
  function ShownName(r: Resource): string
    requires !r.Base?
  {
    match r
    case Deployment(name, _, _) => Prefix + name
    case Service(name) => Prefix + name
    case Namespace(name) => name + "-namespace"
    case Secret(name, _) => Prefix + name + "-secret"
  }

  /** Every concrete resource renders its metadata name as `ShownName`. */
  lemma RenderedName(r: Resource)
    requires !r.Base?
    ensures At(Render(r).value, NamePath) == Some(Str(ShownName(r)))
  {
    match r
    case Deployment(name, image, replicas) => DeploymentNamesAgree(name, image, replicas);
    case Service(name) => ServiceShape(name);
    case Namespace(name) => NamespaceName(name);
    case Secret(name, data) => SecretShape(name, data);
  }

  /** Every concrete resource renders a mapping with a fixed header: its
      apiVersion ("apps/v1" for a Deployment, "v1" otherwise), its kind, and
      exactly the top-level keys of its kind. */
  lemma RenderedHeader(r: Resource)
    requires !r.Base?
    ensures var t := Render(r).value;
      && At(t, [Key("apiVersion")]) == Some(Str(if r.Deployment? then "apps/v1" else "v1"))
      && At(t, KindPath) == Some(Str(KindOf(r)))
      && t.fields.Keys == (if r.Namespace? then {"apiVersion", "kind", "metadata"}
                           else if r.Secret? then {"apiVersion", "kind", "metadata", "data"}
                           else {"apiVersion", "kind", "metadata", "spec"})
  {
  }

  /** Below its header every rendered tree is fixed: metadata holds only the
      name, and a Service's or Deployment's spec is exactly the tree below,
      written out with its literal ports 80 and 8080. (A Namespace has no
      further keys, and a Secret's data is its own, by `RenderedHeader` and
      `SecretShape`.) */
  lemma RenderedBody(r: Resource)
    requires !r.Base?
    ensures var t := Render(r).value;
      && At(t, [Key("metadata")]) == Some(Mapping(map["name" := Str(ShownName(r))]))
      && (r.Service? ==> At(t, [Key("spec")]) == Some(Mapping(map[
            "selector" := Mapping(map["app" := Str("microservice-" + r.name)]),
            "ports" := List([Mapping(map[
              "protocol" := Str("TCP"), "port" := Int(80), "targetPort" := Int(8080)])])])))
      && (r.Deployment? ==> At(t, [Key("spec")]) == Some(Mapping(map[
            "replicas" := Int(r.replicas),
            "selector" := Mapping(map["matchLabels" := Mapping(map["app" := Str("microservice-" + r.name)])]),
            "template" := Mapping(map[
              "metadata" := Mapping(map["labels" := Mapping(map["app" := Str("microservice-" + r.name)])]),
              "spec" := Mapping(map["containers" := List([Mapping(map[
                "name" := Str("microservice-" + r.name),
                "image" := Str(r.image),
                "ports" := List([Mapping(map["containerPort" := Int(8080)])])])])])])])))
  {
  }

  /** Rendering loses nothing: every concrete resource is read back from its
      own tree, so distinct resources never render to the same tree. */
  lemma RecoverRender(r: Resource)
    requires !r.Base?
    ensures Recover(Render(r).value) == Some(r)
  {
    match r
    case Deployment(name, image, replicas) =>
      RenderedHeader(r);
      DeploymentNamesAgree(name, image, replicas);
      StripPrefixConcat(Prefix, name);
      DeploymentCarriesFields(name, image, replicas);
    case Service(name) =>
      RenderedHeader(r);
      ServiceShape(name);
      StripPrefixConcat(Prefix, name);
    case Namespace(name) =>
      RenderedHeader(r);
      NamespaceName(name);
      StripSuffixConcat(name, "-namespace");
    case Secret(name, data) =>
      RenderedHeader(r);
      SecretShape(name, data);
      StripPrefixConcat(Prefix, name + "-secret");
      assert Prefix + name + "-secret" == Prefix + (name + "-secret");
      StripSuffixConcat(name, "-secret");
  }

  /** Rendering is injective on concrete resources. */
  lemma RenderInjective(r: Resource, s: Resource)
    requires !r.Base? && !s.Base?
    ensures Render(r) == Render(s) <==> r == s
  {
    if Render(r) == Render(s) {
      RecoverRender(r);
      RecoverRender(s);
    }
  }
}
