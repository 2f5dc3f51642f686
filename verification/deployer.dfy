/** KubernetesDeployer from deployer.py: the four resources generated for one
    microservice, the Secret's database data, and the per-resource output
    files. Environment loading and file writing are outside the model: the
    five database settings arrive as optional inputs, and writing yields the
    list of (path, tree) pairs that would be written. */
module Deployer {
  import opened Wrappers
  import opened Manifest
  import opened Resources

  /** The five database settings as loaded from the environment; None is a
      variable that was not set. */
  datatype Settings = Settings(
    dbName: Option<string>,
    dbUser: Option<string>,
    dbPassword: Option<string>,
    dbHost: Option<string>,
    dbPort: Option<string>)

  datatype KubernetesDeployer = KubernetesDeployer(
    microserviceName: string,
    dockerImage: string,
    replicas: int,
    settings: Settings)

  /** The Secret's keys, in the order the source evaluates them. */
  const SecretKeys: seq<string> := ["DB_NAME", "DB_USER", "DB_PASSWORD", "DB_HOST", "DB_PORT"]

  /** Each Secret key paired with the setting it is filled from. */
  function Entries(s: Settings): (e: seq<(string, Option<string>)>)
    ensures |e| == |SecretKeys|
    ensures forall i | 0 <= i < |e| :: e[i].0 == SecretKeys[i]
  {
    [("DB_NAME", s.dbName), ("DB_USER", s.dbUser), ("DB_PASSWORD", s.dbPassword),
     ("DB_HOST", s.dbHost), ("DB_PORT", s.dbPort)]
  }

  predicate DistinctKeys(entries: seq<(string, Option<string>)>)
  {
    forall i, j | 0 <= i < j < |entries| :: entries[i].0 != entries[j].0
  }

  /** Builds the key -> encoded-bytes mapping left to right; the first key
      whose value is absent aborts the build (calling `encode` on None). */
  function EncodeEntries(entries: seq<(string, Option<string>)>, encode: string -> seq<byte>)
    : (r: Result<map<string, Node>, Error>)
    requires DistinctKeys(entries)
    ensures r.Success? <==> forall i | 0 <= i < |entries| :: entries[i].1.Some?
    ensures r.Success? ==> r.value.Keys == set i | 0 <= i < |entries| :: entries[i].0
    ensures r.Success? ==> forall i | 0 <= i < |entries| ::
      r.value[entries[i].0] == Bytes(encode(entries[i].1.value))
    ensures r.Failure? ==> exists i | 0 <= i < |entries| ::
      && entries[i].1.None?
      && (forall j | 0 <= j < i :: entries[j].1.Some?)
      && r.error == AbsentSetting(entries[i].0)
    decreases |entries|
  {
    if |entries| == 0 then Success(map[])
    else
      match entries[0].1
      case None => Failure(AbsentSetting(entries[0].0))
      case Some(v) =>
        var tail := entries[1..];
        assert DistinctKeys(tail) by {
          forall i, j | 0 <= i < j < |tail| ensures tail[i].0 != tail[j].0 {
            assert tail[i] == entries[i + 1] && tail[j] == entries[j + 1];
          }
        }
        match EncodeEntries(tail, encode)
        case Failure(e) =>
          ghost var k :| 0 <= k < |tail| && tail[k].1.None?
            && (forall j | 0 <= j < k :: tail[j].1.Some?) && e == AbsentSetting(tail[k].0);
          assert entries[k + 1] == tail[k];
          assert forall j | 0 <= j < k + 1 :: entries[j].1.Some? by {
            forall j | 0 <= j < k + 1 ensures entries[j].1.Some? {
              if j > 0 { assert entries[j] == tail[j - 1]; }
            }
          }
          Failure(e)
        case Success(rest) =>
          var r := rest[entries[0].0 := Bytes(encode(v))];
          assert forall i | 0 <= i < |tail| :: tail[i] == entries[i + 1];
          assert r.Keys == set i | 0 <= i < |entries| :: entries[i].0 by {
            forall x | x in set i | 0 <= i < |entries| :: entries[i].0 ensures x in r.Keys {
              var i :| 0 <= i < |entries| && entries[i].0 == x;
              if i > 0 { assert tail[i - 1].0 == x; }
            }
            forall x | x in r.Keys ensures x in set i | 0 <= i < |entries| :: entries[i].0 {
              if x != entries[0].0 {
                var i :| 0 <= i < |tail| && tail[i].0 == x;
                assert entries[i + 1].0 == x;
              }
            }
          }
          assert forall i | 1 <= i < |entries| :: entries[i].0 != entries[0].0;
          assert forall i | 1 <= i < |entries| :: entries[i] == tail[i - 1];
          Success(r)
  }

  /** True when all five settings were loaded. */
  predicate AllLoaded(s: Settings)
  {
    forall i | 0 <= i < |SecretKeys| :: Entries(s)[i].1.Some?
  }

  /** The Secret's data: each key mapped to the encoded value of its setting. */
  function SecretData(s: Settings, encode: string -> seq<byte>): (r: Result<map<string, Node>, Error>)
    ensures r.Success? <==> AllLoaded(s)
    ensures r.Success? ==> r.value.Keys == set k | k in SecretKeys
    ensures r.Success? ==> forall i | 0 <= i < |SecretKeys| ::
      r.value[SecretKeys[i]] == Bytes(encode(Entries(s)[i].1.value))
    ensures r.Failure? ==> exists i | 0 <= i < |SecretKeys| ::
      && Entries(s)[i].1.None?
      && (forall j | 0 <= j < i :: Entries(s)[j].1.Some?)
      && r.error == AbsentSetting(SecretKeys[i])
  {
    var e := Entries(s);
    assert (set i | 0 <= i < |e| :: e[i].0) == set k | k in SecretKeys by {
      forall k | k in SecretKeys ensures k in set i | 0 <= i < |e| :: e[i].0 {
        var i :| 0 <= i < |SecretKeys| && SecretKeys[i] == k;
        assert e[i].0 == k;
      }
    }
    EncodeEntries(e, encode)
  }

  /** `generate_resources`: the Deployment, Service, Namespace and Secret of
      the microservice, in that order, or the first absent setting. */
  function GenerateResources(d: KubernetesDeployer, encode: string -> seq<byte>)
    : (r: Result<seq<Resource>, Error>)
    ensures r.Success? <==> AllLoaded(d.settings)
    ensures r.Failure? ==> exists i | 0 <= i < |SecretKeys| ::
      && Entries(d.settings)[i].1.None?
      && (forall j | 0 <= j < i :: Entries(d.settings)[j].1.Some?)
      && r.error == AbsentSetting(SecretKeys[i])
    ensures r.Success? ==> |r.value| == 4
    ensures r.Success? ==>
      && r.value[0] == Deployment(d.microserviceName + "-deployment", d.dockerImage, d.replicas)
      && r.value[1] == Service(d.microserviceName + "-service")
      && r.value[2] == Namespace(d.microserviceName + "-namespace")
      && r.value[3].Secret? && r.value[3].name == d.microserviceName + "-secret"
    ensures r.Success? ==> r.value[3].Secret? && r.value[3].data.Keys == set k | k in SecretKeys
    ensures r.Success? ==> r.value[3].Secret? && forall i | 0 <= i < |SecretKeys| ::
      r.value[3].data[SecretKeys[i]] == Bytes(encode(Entries(d.settings)[i].1.value))
  {
    var m := d.microserviceName;
    match SecretData(d.settings, encode)
    case Failure(e) => Failure(e)
    case Success(data) =>
      Success([
        Deployment(m + "-deployment", d.dockerImage, d.replicas),
        Service(m + "-service"),
        Namespace(m + "-namespace"),
        Secret(m + "-secret", data)])
  }

  // ---------------------------------------------------------------------
  // Facts about the generated set

  /** The generated Service selects on `microservice-{m}-service`, which the
      generated Deployment's pods (labelled `microservice-{m}-deployment`)
      never carry: the Service never reaches the Deployment's pods. */
  lemma ServiceMissesDeploymentPods(d: KubernetesDeployer, encode: string -> seq<byte>)
    requires AllLoaded(d.settings)
    ensures var rs := GenerateResources(d, encode).value;
      !Matches(Render(rs[1]).value, ServiceSelectorPath, Render(rs[0]).value)
  {
    var m := d.microserviceName;
    assert |m + "-service"| != |m + "-deployment"|;
    ServiceSelectsIff(m + "-service", m + "-deployment", d.dockerImage, d.replicas);
  }

  /** The names the four generated resources render under; the Namespace's
      carries its suffix twice and the Secret's ends in "-secret-secret". */
  lemma RenderedNames(d: KubernetesDeployer, encode: string -> seq<byte>)
    requires AllLoaded(d.settings)
    ensures var rs := GenerateResources(d, encode).value; var m := d.microserviceName;
      && At(Render(rs[0]).value, NamePath) == Some(Str("microservice-" + m + "-deployment"))
      && At(Render(rs[1]).value, NamePath) == Some(Str("microservice-" + m + "-service"))
      && At(Render(rs[2]).value, NamePath) == Some(Str(m + "-namespace-namespace"))
      && At(Render(rs[3]).value, NamePath) == Some(Str("microservice-" + m + "-secret-secret"))
  {
    var g := GenerateResources(d, encode);
    var m := d.microserviceName;
    assert g.Success?;
    var rs := g.value;
    assert rs[0] == Deployment(m + "-deployment", d.dockerImage, d.replicas);
    assert rs[1] == Service(m + "-service");
    assert rs[2] == Namespace(m + "-namespace");
    assert rs[3] == Secret(m + "-secret", rs[3].data);
    RenderedName(rs[0]);
    assert ShownName(rs[0]) == "microservice-" + m + "-deployment";
    RenderedName(rs[1]);
    assert ShownName(rs[1]) == "microservice-" + m + "-service";
    RenderedName(rs[2]);
    assert ShownName(rs[2]) == m + "-namespace-namespace";
    RenderedName(rs[3]);
    assert ShownName(rs[3]) == "microservice-" + m + "-secret-secret";
  }

  // ---------------------------------------------------------------------
  // Output files

  const OutputDir := "k8s"

  /** The file a resource is written to inside the output directory. */
  function FileName(r: Resource): string
  {
    r.name + ".yaml"
  }

  /** Two resources share a file exactly when they share a name. */
  lemma FileNameInjective(a: Resource, b: Resource)
    ensures FileName(a) == FileName(b) <==> a.name == b.name
  {
    if FileName(a) == FileName(b) {
      StripSuffixConcat(a.name, ".yaml");
      StripSuffixConcat(b.name, ".yaml");
    }
  }

  /** POSIX `os.path.join(OutputDir, FileName(r))`: an absolute file name
      (one that starts with "/") discards the directory; otherwise the two
      are joined with one "/", since the directory does not end in one. */
  function OutputPath(r: Resource): string
  {
    var f := FileName(r);
    if f[0] == '/' then f else OutputDir + "/" + f
  }

  /** Two resources are written to the same path exactly when they have the
      same name: absolute and relative names land in disjoint places, since
      only the former give a path starting with "/". */
  lemma OutputPathInjective(a: Resource, b: Resource)
    ensures OutputPath(a) == OutputPath(b) <==> a.name == b.name
  {
    var fa, fb := FileName(a), FileName(b);
    if OutputPath(a) == OutputPath(b) {
      if fa[0] != '/' && fb[0] != '/' {
        assert fa == OutputPath(a)[|OutputDir| + 1..];
        assert fb == OutputPath(b)[|OutputDir| + 1..];
      }
      FileNameInjective(a, b);
    }
  }

  /** The four generated resources all render and go to four different files. */
  lemma GeneratedFilesDistinct(d: KubernetesDeployer, encode: string -> seq<byte>)
    requires AllLoaded(d.settings)
    ensures var rs := GenerateResources(d, encode).value;
      && (forall i | 0 <= i < |rs| :: Render(rs[i]).Success?)
      && (forall i, j | 0 <= i < j < |rs| :: FileName(rs[i]) != FileName(rs[j]))
  {
    var rs := GenerateResources(d, encode).value;
    forall i, j | 0 <= i < j < |rs| ensures FileName(rs[i]) != FileName(rs[j]) {
      // the four suffixes have four different lengths
      assert |FileName(rs[i])| != |FileName(rs[j])|;
    }
  }

  /** The four generated resources are written to four different paths. */
  lemma GeneratedPathsDistinct(d: KubernetesDeployer, encode: string -> seq<byte>)
    requires AllLoaded(d.settings)
    ensures var rs := GenerateResources(d, encode).value;
      forall i, j | 0 <= i < j < |rs| :: OutputPath(rs[i]) != OutputPath(rs[j])
  {
    var rs := GenerateResources(d, encode).value;
    forall i, j | 0 <= i < j < |rs| ensures OutputPath(rs[i]) != OutputPath(rs[j]) {
      assert |rs[i].name| != |rs[j].name|;
      OutputPathInjective(rs[i], rs[j]);
    }
  }

  /** One file written: its path and the tree serialised into it. */
  datatype Write = Write(path: string, tree: Node)

  /** `write_yaml_files` without the file system: the writes performed, in
      order, and the error that stopped them, if any. A resource that cannot
      render stops the loop, leaving the earlier files written. */
  method WriteYamlFiles(resources: seq<Resource>) returns (writes: seq<Write>, failure: Option<Error>)
    ensures failure.None? ==> |writes| == |resources|
    ensures failure.Some? ==> |writes| < |resources| && resources[|writes|].Base?
    ensures failure.Some? ==> failure.value == NotImplemented(NotImplementedMessage)
    ensures forall i | 0 <= i < |writes| ::
      Render(resources[i]).Success? && writes[i] == Write(OutputPath(resources[i]), Render(resources[i]).value)
  {
    writes := [];
    var i := 0;
    while i < |resources|
      invariant 0 <= i <= |resources|
      invariant |writes| == i
      invariant forall k | 0 <= k < i ::
        Render(resources[k]).Success? && writes[k] == Write(OutputPath(resources[k]), Render(resources[k]).value)
    {
      match Render(resources[i]) {
        case Failure(e) =>
          failure := Some(e);
          return;
        case Success(t) =>
          writes := writes + [Write(OutputPath(resources[i]), t)];
      }
      i := i + 1;
    }
    failure := None;
  }
}
