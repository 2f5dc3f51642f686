# Kubernetes manifest deployer — Dafny model

This project models the manifest-building core of `deployer.py`. That file holds a small
family of Kubernetes resources: an abstract base, plus Deployment, Service, Namespace
and Secret. Each concrete resource renders itself to a fixed object tree that is then
handed to `yaml.dump`. The file also holds `KubernetesDeployer`, which generates the
four resources of one microservice and writes each one to `<name>.yaml`, joined onto
the directory `k8s` the way POSIX `os.path.join` joins paths.

The model stops at the object tree. It never produces YAML text.

- `Manifest` (manifest.dfy): the tree datatype (`Node`: string, integer, bytes,
  string-keyed mapping, list). It also has path lookup `At` and the label-subset
  relation `SubMap`.
- `Resources` (resources.dfy): the `Resource` datatype and `Render`, which models
  `generate_yaml` up to the serialiser. `Recover` reads a resource back from its tree.
  The module also holds lemmas about names, labels and ports.
- `Deployer` (deployer.py's `KubernetesDeployer`, in deployer.dfy): the five database
  settings as optional inputs, the Secret's data, `GenerateResources`, the output
  file names and paths, and `WriteYamlFiles` as a list of writes.
- `Wrappers` (wrappers.dfy): `Option` and `Result`. `Result` stands in for Python's
  exceptions.

Consequences of the code as written, proved about the model:

- The generated Service is named `{m}-service`, so its selector is
  `app: microservice-{m}-service`. The generated Deployment is named
  `{m}-deployment`, so its pods carry `app: microservice-{m}-deployment`. The Service
  therefore never selects the Deployment's pods (`ServiceMissesDeploymentPods`).
  In general a Service selects a Deployment's pods exactly when both were built with
  the same name (`ServiceSelectsIff`).
- The Namespace is built with name `{m}-namespace`, and rendering appends
  `-namespace` again. Its rendered name is therefore `{m}-namespace-namespace`.
  Similarly the Secret renders as `microservice-{m}-secret-secret` (`RenderedNames`).

Fixed behaviour of `deployer.py` that the model keeps:

- exactly four resources are generated, in a fixed order (deployer.py:127-132);
- the Service exposes port 80 with target port 8080 (deployer.py:64-68);
- the Namespace renders as `{name}-namespace` (deployer.py:79);
- each resource is written to `os.path.join("k8s", name + ".yaml")`, which lies inside `k8s` unless the name is absolute (deployer.py:138, 144);
- the Secret's values are the UTF-8 bytes of the five database settings (deployer.py:119-125).

## Model

| member | source | states |
|---|---|---|
| Resources.Render | deployer.py:9-10 | rendering fails exactly for the abstract base, always with the not-implemented error and its fixed message, whatever the name; every concrete kind yields a mapping with metadata |
| Resources.DeploymentCarriesFields | deployer.py:13-46 | a Deployment's tree carries its constructor's replica count at spec.replicas and its image in the container, and its containers list is exactly one container |
| Resources.DeploymentContainer | deployer.py:38-46 | the pod template's first container is the mapping with name "microservice-" + name, the constructor's image and the single port 8080 |
| Resources.DeploymentNamesAgree | deployer.py:22-40 | metadata.name, selector matchLabels.app, the pod template's app label and the container name are all "microservice-" + name |
| Resources.DeploymentSinglePort | deployer.py:39-45 | whatever its fields, the container's ports list is exactly one entry, containerPort 8080 |
| Resources.DeploymentSelectsOwnPods | deployer.py:27-37 | a Deployment's label selector is contained in its own pod template's labels |
| Resources.ServiceShape | deployer.py:53-71 | a Service has exactly one port entry {TCP, port 80, targetPort 8080}; its metadata.name and selector app are both "microservice-" + name |
| Resources.ServiceSelectsIff | deployer.py:29-62 | a Service's selector matches a Deployment's pod labels if and only if the two were constructed with the same name |
| Resources.NamespaceName | deployer.py:73-82 | a Namespace renders the name name + "-namespace" |
| Resources.SecretShape | deployer.py:84-98 | a Secret renders the name "microservice-" + name + "-secret" and passes its data through unchanged |
| Resources.RenderedHeader | deployer.py:19-96 | every concrete resource renders apiVersion "apps/v1" (Deployment) or "v1" (others), its own kind, and exactly its kind's top-level keys: metadata plus spec, data (Secret) or nothing more (Namespace) |
| Resources.RenderedName | deployer.py:22-94 | the rendered metadata.name is "microservice-" + name for a Deployment or Service, name + "-namespace" for a Namespace, and "microservice-" + name + "-secret" for a Secret |
| Resources.RenderedBody | deployer.py:19-97 | below the header every rendered tree is fixed: metadata holds only the name; a Service's spec is exactly {selector: {app: "microservice-" + name}, ports: [{TCP, 80, 8080}]}; a Deployment's spec is exactly replicas, selector and a template whose one container has only name, image and the single port 8080 |
| Resources.RecoverRender | deployer.py:18-98 | every concrete resource can be read back from its rendered tree (kind, name, image, replicas, data), so rendering loses nothing |
| Resources.RenderInjective | deployer.py:18-98 | two concrete resources render to the same tree only if they are equal |
| Deployer.EncodeEntries | deployer.py:119-125 | the key-to-bytes mapping succeeds iff every value is present; it then has exactly the given keys, each mapped to the encoded value; otherwise it fails naming the first absent key |
| Deployer.SecretData | deployer.py:119-125 | the Secret data has exactly the keys DB_NAME, DB_USER, DB_PASSWORD, DB_HOST and DB_PORT, each mapped to the encoding of its setting; an absent setting fails, naming the first absent one in that order |
| Deployer.GenerateResources | deployer.py:118-134 | generation succeeds iff all five settings are present; it then yields four resources, in order: Deployment m-deployment with the deployer's image and replicas, Service m-service, Namespace m-namespace, Secret m-secret with the five encoded keys |
| Deployer.ServiceMissesDeploymentPods | deployer.py:127-131 | the generated Service's selector never matches the generated Deployment's pod labels |
| Deployer.RenderedNames | deployer.py:127-134 | the generated resources render as microservice-m-deployment, microservice-m-service, m-namespace-namespace and microservice-m-secret-secret |
| Deployer.FileNameInjective | deployer.py:144 | two resources get the same file name if and only if they have the same name |
| Deployer.OutputPathInjective | deployer.py:144 | the joined output paths of two resources are equal if and only if their names are equal, absolute names included |
| Deployer.GeneratedFilesDistinct | deployer.py:143-144 | all four generated resources render, and their file names are pairwise distinct |
| Deployer.GeneratedPathsDistinct | deployer.py:144 | the joined output paths of the four generated resources are pairwise distinct |
| Deployer.WriteYamlFiles | deployer.py:136-145 | resources are written in order, each to the join of k8s and name.yaml, with their rendered trees; the first resource that cannot render stops the loop with the not-implemented error, after the earlier files are written |

## Left out

- `yaml.dump` and the YAML text, including how byte strings are emitted. Rendering stops at the tree handed to the serialiser.
- Mapping key order: `Node` mappings are unordered, while Python dicts keep insertion order. `yaml.dump` sorts keys by default, so the emitted text does not depend on that order.
- `load_dotenv` and `os.getenv` (deployer.py:106-116) are environment I/O. The five settings are explicit `Option<string>` inputs to `KubernetesDeployer`.
- UTF-8 encoding is a parameter `encode: string -> seq<byte>` of generation. Its internals are not modelled.
- A missing setting is modelled as `AbsentSetting(key)`. In the source, the failure is Python's error from calling `encode` on `None`.
- Directory creation and file I/O in `write_yaml_files` (deployer.py:137-145) are left out. `WriteYamlFiles` returns the list of writes instead.
- WriteYamlFiles: paths are joined as POSIX `os.path.join` joins them, so a name starting with "/" discards `k8s`. The Windows separator is not modelled.
- WriteYamlFiles: does not model that the failing resource's file has already been opened, and so truncated, before its render fails.
- The `__main__` driver (deployer.py:147-150) is a script entry point and is not modelled.
- Python's dynamic typing is not modelled: names and images are strings and replicas is an integer. The source would also accept other values and hand them to the serialiser.
