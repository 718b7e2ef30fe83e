/** The orphan reducer: starting from the names of all ConfigMaps and
    Secrets of a namespace, it removes every name referenced by a
    workload's pod spec, an Ingress or a ServiceAccount, and finally the
    cluster-managed `kube-root-ca.crt` ConfigMap. The lists of objects are
    taken as already fetched. */
module OrphanReducer {
  import opened Kube
  import opened PodTemplates
  import opened References

  /** The ConfigMap the cluster injects into every namespace. */
  const ROOT_CA_CERT: string := "kube-root-ca.crt"

  /** The report: the names nothing references. */
  datatype Orphans = Orphans(configmaps: set<string>, secrets: set<string>)

  /** The two ways the search aborts: an `unwrap` of a reference name that
      is absent, or of an Ingress spec that is absent. */
  datatype Panic = MissingReferenceName | MissingIngressSpec

  datatype Result<+T, +E> = Success(value: T) | Failure(error: E)

  /** Everything the search lists in one namespace. */
  datatype Cluster = Cluster(
    configMaps: seq<ConfigMap>,
    secrets: seq<Secret>,
    deployments: seq<Deployment>,
    replicaSets: seq<ReplicaSet>,
    statefulSets: seq<StatefulSet>,
    daemonSets: seq<DaemonSet>,
    jobs: seq<Job>,
    cronJobs: seq<CronJob>,
    replicationControllers: seq<ReplicationController>,
    pods: seq<Pod>,
    ingresses: seq<Ingress>,
    serviceAccounts: seq<ServiceAccount>)

  // ---------------------------------------------------------------------
  // Seeding the candidate sets
  // ---------------------------------------------------------------------

  /** The names of the listed objects; objects without a name are skipped. */
  function Names(objs: seq<NamedObject>): (r: set<string>)
    ensures forall n :: n in r <==> exists o :: o in objs && o.metadata.name == Some(n)
  {
    if objs == [] then {}
    else
      var init, last := objs[..|objs| - 1], objs[|objs| - 1];
      assert objs == init + [last];
      Names(init) + NameSet(last.metadata.name)
  }

  // ---------------------------------------------------------------------
  // Collecting pod specs
  // ---------------------------------------------------------------------

  /** The pod specs of the resources that have one, in order. */
  function PodSpecsOf<T>(xs: seq<T>, podTemplateSpec: T -> Option<PodSpec>): seq<PodSpec>
    decreases |xs|
  {
    if xs == [] then []
    else
      PodSpecsOf(xs[..|xs| - 1], podTemplateSpec)
      + match podTemplateSpec(xs[|xs| - 1]) case Some(ps) => [ps] case None => []
  }

  /** Appends the pod specs of `extensions`, in order, after the existing entries. */
  method ExtendWith<T>(podSpecs: seq<PodSpec>, extensions: seq<T>, podTemplateSpec: T -> Option<PodSpec>)
    returns (extended: seq<PodSpec>)
    ensures extended == podSpecs + PodSpecsOf(extensions, podTemplateSpec)
  {
    extended := podSpecs;
    for i := 0 to |extensions|
      invariant extended == podSpecs + PodSpecsOf(extensions[..i], podTemplateSpec)
    {
      assert extensions[..i + 1][..i] == extensions[..i];
      match podTemplateSpec(extensions[i]) {
        case Some(ps) => extended := extended + [ps];
        case None =>
      }
    }
    assert extensions[..|extensions|] == extensions;
  }

  /** A pod spec is collected exactly when some resource resolves to it. */
  lemma {:induction false} PodSpecsOfMembers<T>(xs: seq<T>, podTemplateSpec: T -> Option<PodSpec>)
    ensures forall ps :: ps in PodSpecsOf(xs, podTemplateSpec) <==>
      exists x :: x in xs && podTemplateSpec(x) == Some(ps)
  {
    if xs != [] {
      var init, last := xs[..|xs| - 1], xs[|xs| - 1];
      PodSpecsOfMembers(init, podTemplateSpec);
      assert xs == init + [last];
      assert forall x :: x in xs <==> x in init || x == last;
    }
  }

  lemma PodSpecsOfSingleton<T>(x: T, podTemplateSpec: T -> Option<PodSpec>)
    ensures PodSpecsOf([x], podTemplateSpec) == if podTemplateSpec(x).Some? then [podTemplateSpec(x).value] else []
  {
    assert [x][..0] == [];
  }

  /** Collecting distributes over concatenation: the order of the resources is kept. */
  lemma {:induction false} PodSpecsOfAppend<T>(xs: seq<T>, ys: seq<T>, podTemplateSpec: T -> Option<PodSpec>)
    ensures PodSpecsOf(xs + ys, podTemplateSpec) == PodSpecsOf(xs, podTemplateSpec) + PodSpecsOf(ys, podTemplateSpec)
    decreases |ys|
  {
    if ys == [] {
      assert xs + ys == xs;
    } else {
      var init, last := ys[..|ys| - 1], ys[|ys| - 1];
      PodSpecsOfAppend(xs, init, podTemplateSpec);
      assert (xs + ys)[..|xs + ys| - 1] == xs + init;
    }
  }

  /** The pod specs of all eight workload kinds, in the order they are collected. */
  function CollectPodSpecs(c: Cluster): seq<PodSpec>
  {
    PodSpecsOf(c.deployments, DeploymentPodSpec)
    + PodSpecsOf(c.replicaSets, ReplicaSetPodSpec)
    + PodSpecsOf(c.statefulSets, StatefulSetPodSpec)
    + PodSpecsOf(c.daemonSets, DaemonSetPodSpec)
    + PodSpecsOf(c.jobs, JobPodSpec)
    + PodSpecsOf(c.cronJobs, CronJobPodSpec)
    + PodSpecsOf(c.replicationControllers, ReplicationControllerPodSpec)
    + PodSpecsOf(c.pods, PodPodSpec)
  }

  // ---------------------------------------------------------------------
  // The reduction, as a function
  // ---------------------------------------------------------------------

  /** The outcome of reducing the candidate sets by every reference. The pod
      specs are scanned before the Ingresses, so a pod-spec panic wins. */
  function Reduce(configMaps: set<string>, secrets: set<string>, podSpecs: seq<PodSpec>,
                  ingresses: seq<Ingress>, serviceAccounts: seq<ServiceAccount>): Result<Orphans, Panic>
  {
    var pods := UnionOf(podSpecs, PodSpecRefs);
    var tls := UnionOf(ingresses, IngressRefs);
    var pulls := UnionOf(serviceAccounts, ImagePullSecretRefs);
    var tokens := UnionOf(serviceAccounts, TokenSecretRefs);
    if pods.panics then Failure(MissingReferenceName)
    else if tls.panics then Failure(MissingIngressSpec)
    else Success(Orphans(configMaps - pods.configMaps - {ROOT_CA_CERT},
                         secrets - pods.secrets - tls.secrets - pulls.secrets - tokens.secrets))
  }

  /** What the search reports for a namespace holding `c`. */
  function Orphaned(c: Cluster): Result<Orphans, Panic>
  {
    Reduce(Names(c.configMaps), Names(c.secrets), CollectPodSpecs(c), c.ingresses, c.serviceAccounts)
  }

  // ---------------------------------------------------------------------
  // The reduction, as the source performs it: removal in place
  // ---------------------------------------------------------------------

  /** The two candidate sets, shrunk in place as references are found. */
  class Candidates {
    var configMaps: set<string>
    var secrets: set<string>

    constructor (configMaps: set<string>, secrets: set<string>)
      ensures this.configMaps == configMaps && this.secrets == secrets
    {
      this.configMaps := configMaps;
      this.secrets := secrets;
    }

    /** Removing a name that is not a candidate is a no-op. */
    method RemoveConfigMap(name: string)
      modifies this
      ensures configMaps == old(configMaps) - {name} && secrets == old(secrets)
      ensures name !in old(configMaps) ==> configMaps == old(configMaps)
    {
      configMaps := configMaps - {name};
    }

    method RemoveSecret(name: string)
      modifies this
      ensures secrets == old(secrets) - {name} && configMaps == old(configMaps)
      ensures name !in old(secrets) ==> secrets == old(secrets)
    {
      secrets := secrets - {name};
    }

    /** Removes the names one container references through `envFrom` and
        `env[].valueFrom`; returns false where an `envFrom` name is unwrapped but absent. */
    method ScanContainer(c: Container) returns (ok: bool)
      modifies this
      ensures ok == !ContainerRefs(c).panics
      ensures ok ==> (configMaps == old(configMaps) - ContainerRefs(c).configMaps
                   && secrets == old(secrets) - ContainerRefs(c).secrets)
      ensures configMaps <= old(configMaps) && secrets <= old(secrets)
    {
      ok := RemoveEnvFromRefs(c.envFrom);
      if ok {
        RemoveEnvKeyRefs(c.env);
        UnionOfPanics(c.env, EnvVarRefs);
      }
    }

    /** The `envFrom` entries of one container: each present reference has its name unwrapped. */
    method RemoveEnvFromRefs(envFrom: seq<EnvFromSource>) returns (ok: bool)
      modifies this
      ensures ok == !UnionOf(envFrom, EnvFromRefs).panics
      ensures ok ==> (configMaps == old(configMaps) - UnionOf(envFrom, EnvFromRefs).configMaps
                   && secrets == old(secrets) - UnionOf(envFrom, EnvFromRefs).secrets)
      ensures configMaps <= old(configMaps) && secrets <= old(secrets)
    {
      for j := 0 to |envFrom|
        invariant !UnionOf(envFrom[..j], EnvFromRefs).panics
        invariant configMaps == old(configMaps) - UnionOf(envFrom[..j], EnvFromRefs).configMaps
        invariant secrets == old(secrets) - UnionOf(envFrom[..j], EnvFromRefs).secrets
      {
        UnionOfPrefix(envFrom, EnvFromRefs, j);
        var e := envFrom[j];
        if e.configMapRef.Some? {
          if e.configMapRef.value.name.None? {
            UnionOfElement(envFrom, EnvFromRefs, j);
            return false;
          }
          RemoveConfigMap(e.configMapRef.value.name.value);
        }
        if e.secretRef.Some? {
          if e.secretRef.value.name.None? {
            UnionOfElement(envFrom, EnvFromRefs, j);
            return false;
          }
          RemoveSecret(e.secretRef.value.name.value);
        }
      }
      assert envFrom[..|envFrom|] == envFrom;
      ok := true;
    }

    /** The `env` entries of one container: key references without a name are skipped. */
    method RemoveEnvKeyRefs(env: seq<EnvVar>)
      modifies this
      ensures configMaps == old(configMaps) - UnionOf(env, EnvVarRefs).configMaps
      ensures secrets == old(secrets) - UnionOf(env, EnvVarRefs).secrets
    {
      for j := 0 to |env|
        invariant configMaps == old(configMaps) - UnionOf(env[..j], EnvVarRefs).configMaps
        invariant secrets == old(secrets) - UnionOf(env[..j], EnvVarRefs).secrets
      {
        UnionOfPrefix(env, EnvVarRefs, j);
        if env[j].valueFrom.Some? {
          var src := env[j].valueFrom.value;
          if src.configMapKeyRef.Some? && src.configMapKeyRef.value.name.Some? {
            RemoveConfigMap(src.configMapKeyRef.value.name.value);
          }
          if src.secretKeyRef.Some? && src.secretKeyRef.value.name.Some? {
            RemoveSecret(src.secretKeyRef.value.name.value);
          }
        }
      }
      assert env[..|env|] == env;
    }

    /** Removes every name `ps` references; returns false where a name that
        is unwrapped is absent. */
    method FindReferencesInPodSpec(ps: PodSpec) returns (ok: bool)
      modifies this
      ensures ok == !PodSpecRefs(ps).panics
      ensures ok ==> (configMaps == old(configMaps) - PodSpecRefs(ps).configMaps
                   && secrets == old(secrets) - PodSpecRefs(ps).secrets)
      ensures configMaps <= old(configMaps) && secrets <= old(secrets)
    {
      for i := 0 to |ps.containers|
        invariant !UnionOf(ps.containers[..i], ContainerRefs).panics
        invariant configMaps == old(configMaps) - UnionOf(ps.containers[..i], ContainerRefs).configMaps
        invariant secrets == old(secrets) - UnionOf(ps.containers[..i], ContainerRefs).secrets
      {
        UnionOfPrefix(ps.containers, ContainerRefs, i);
        ok := ScanContainer(ps.containers[i]);
        if !ok {
          UnionOfElement(ps.containers, ContainerRefs, i);
          return;
        }
      }
      assert ps.containers[..|ps.containers|] == ps.containers;
      ok := RemoveVolumeRefs(ps.volumes);
    }

    /** Scans every collected pod spec in turn (the source scans them in
        parallel); returns false if any scan panics. */
    method FindReferencesInPodSpecs(podSpecs: seq<PodSpec>) returns (ok: bool)
      modifies this
      ensures ok == !UnionOf(podSpecs, PodSpecRefs).panics
      ensures ok ==> (configMaps == old(configMaps) - UnionOf(podSpecs, PodSpecRefs).configMaps
                   && secrets == old(secrets) - UnionOf(podSpecs, PodSpecRefs).secrets)
      ensures configMaps <= old(configMaps) && secrets <= old(secrets)
    {
      for i := 0 to |podSpecs|
        invariant !UnionOf(podSpecs[..i], PodSpecRefs).panics
        invariant configMaps == old(configMaps) - UnionOf(podSpecs[..i], PodSpecRefs).configMaps
        invariant secrets == old(secrets) - UnionOf(podSpecs[..i], PodSpecRefs).secrets
      {
        UnionOfPrefix(podSpecs, PodSpecRefs, i);
        ok := FindReferencesInPodSpec(podSpecs[i]);
        if !ok {
          UnionOfElement(podSpecs, PodSpecRefs, i);
          return;
        }
      }
      assert podSpecs[..|podSpecs|] == podSpecs;
      ok := true;
    }

    /** The volumes of one pod spec: each present source has its name unwrapped. */
    method RemoveVolumeRefs(volumes: seq<Volume>) returns (ok: bool)
      modifies this
      ensures ok == !UnionOf(volumes, VolumeRefs).panics
      ensures ok ==> (configMaps == old(configMaps) - UnionOf(volumes, VolumeRefs).configMaps
                   && secrets == old(secrets) - UnionOf(volumes, VolumeRefs).secrets)
      ensures configMaps <= old(configMaps) && secrets <= old(secrets)
    {
      for i := 0 to |volumes|
        invariant !UnionOf(volumes[..i], VolumeRefs).panics
        invariant configMaps == old(configMaps) - UnionOf(volumes[..i], VolumeRefs).configMaps
        invariant secrets == old(secrets) - UnionOf(volumes[..i], VolumeRefs).secrets
      {
        UnionOfPrefix(volumes, VolumeRefs, i);
        var vol := volumes[i];
        if vol.configMap.Some? {
          if vol.configMap.value.name.None? {
            UnionOfElement(volumes, VolumeRefs, i);
            return false;
          }
          RemoveConfigMap(vol.configMap.value.name.value);
        }
        if vol.secret.Some? {
          if vol.secret.value.secretName.None? {
            UnionOfElement(volumes, VolumeRefs, i);
            return false;
          }
          RemoveSecret(vol.secret.value.secretName.value);
        }
      }
      assert volumes[..|volumes|] == volumes;
      ok := true;
    }

    /** Removes every Ingress TLS secret name; returns false at the first
        Ingress without a spec. */
    method RemoveIngressSecrets(ingresses: seq<Ingress>) returns (ok: bool)
      modifies this
      ensures ok == !UnionOf(ingresses, IngressRefs).panics
      ensures ok ==> secrets == old(secrets) - UnionOf(ingresses, IngressRefs).secrets
      ensures configMaps == old(configMaps) && secrets <= old(secrets)
    {
      for i := 0 to |ingresses|
        invariant !UnionOf(ingresses[..i], IngressRefs).panics
        invariant secrets == old(secrets) - UnionOf(ingresses[..i], IngressRefs).secrets
        invariant configMaps == old(configMaps)
      {
        UnionOfPrefix(ingresses, IngressRefs, i);
        if ingresses[i].spec.None? {
          UnionOfElement(ingresses, IngressRefs, i);
          return false;
        }
        var tls := ingresses[i].spec.value.tls;
        ghost var before := secrets;
        for j := 0 to |tls|
          invariant secrets == before - UnionOf(tls[..j], TlsRefs).secrets
          invariant configMaps == old(configMaps)
        {
          UnionOfPrefix(tls, TlsRefs, j);
          if tls[j].secretName.Some? {
            RemoveSecret(tls[j].secretName.value);
          }
        }
        assert tls[..|tls|] == tls;
        UnionOfPanics(tls, TlsRefs);
      }
      assert ingresses[..|ingresses|] == ingresses;
      ok := true;
    }

    /** Removes every named entry of every ServiceAccount's `imagePullSecrets`. */
    method RemoveImagePullSecrets(serviceAccounts: seq<ServiceAccount>)
      modifies this
      ensures secrets == old(secrets) - UnionOf(serviceAccounts, ImagePullSecretRefs).secrets
      ensures configMaps == old(configMaps)
    {
      for i := 0 to |serviceAccounts|
        invariant secrets == old(secrets) - UnionOf(serviceAccounts[..i], ImagePullSecretRefs).secrets
        invariant configMaps == old(configMaps)
      {
        UnionOfPrefix(serviceAccounts, ImagePullSecretRefs, i);
        RemoveNamedSecrets(serviceAccounts[i].imagePullSecrets);
      }
      assert serviceAccounts[..|serviceAccounts|] == serviceAccounts;
    }

    /** Removes every named entry of every ServiceAccount's `secrets`. */
    method RemoveTokenSecrets(serviceAccounts: seq<ServiceAccount>)
      modifies this
      ensures secrets == old(secrets) - UnionOf(serviceAccounts, TokenSecretRefs).secrets
      ensures configMaps == old(configMaps)
    {
      for i := 0 to |serviceAccounts|
        invariant secrets == old(secrets) - UnionOf(serviceAccounts[..i], TokenSecretRefs).secrets
        invariant configMaps == old(configMaps)
      {
        UnionOfPrefix(serviceAccounts, TokenSecretRefs, i);
        RemoveNamedSecrets(serviceAccounts[i].secrets);
      }
      assert serviceAccounts[..|serviceAccounts|] == serviceAccounts;
    }

    /** Removes the name of every entry that has one; entries without a name are skipped. */
    method RemoveNamedSecrets(refs: seq<NameRef>)
      modifies this
      ensures secrets == old(secrets) - UnionOf(refs, SecretRef).secrets
      ensures configMaps == old(configMaps)
    {
      for j := 0 to |refs|
        invariant secrets == old(secrets) - UnionOf(refs[..j], SecretRef).secrets
        invariant configMaps == old(configMaps)
      {
        UnionOfPrefix(refs, SecretRef, j);
        if refs[j].name.Some? {
          RemoveSecret(refs[j].name.value);
        }
      }
      assert refs[..|refs|] == refs;
    }
  }

  /** The orphan search over already-listed objects: seeds the candidate
      sets, collects the pod specs of the eight workload kinds, removes
      every referenced name, then drops `kube-root-ca.crt`. */
  method FindOrphans(c: Cluster) returns (r: Result<Orphans, Panic>)
    ensures r == Orphaned(c)
  {
    var candidates := new Candidates(Names(c.configMaps), Names(c.secrets));

    var podSpecs: seq<PodSpec> := [];
    podSpecs := ExtendWith(podSpecs, c.deployments, DeploymentPodSpec);
    assert podSpecs == PodSpecsOf(c.deployments, DeploymentPodSpec);
    podSpecs := ExtendWith(podSpecs, c.replicaSets, ReplicaSetPodSpec);
    podSpecs := ExtendWith(podSpecs, c.statefulSets, StatefulSetPodSpec);
    podSpecs := ExtendWith(podSpecs, c.daemonSets, DaemonSetPodSpec);
    podSpecs := ExtendWith(podSpecs, c.jobs, JobPodSpec);
    podSpecs := ExtendWith(podSpecs, c.cronJobs, CronJobPodSpec);
    podSpecs := ExtendWith(podSpecs, c.replicationControllers, ReplicationControllerPodSpec);
    podSpecs := ExtendWith(podSpecs, c.pods, PodPodSpec);
    assert podSpecs == CollectPodSpecs(c);

    var ok := candidates.FindReferencesInPodSpecs(podSpecs);
    if !ok {
      return Failure(MissingReferenceName);
    }

    ok := candidates.RemoveIngressSecrets(c.ingresses);
    if !ok {
      return Failure(MissingIngressSpec);
    }
    candidates.RemoveImagePullSecrets(c.serviceAccounts);
    candidates.RemoveTokenSecrets(c.serviceAccounts);

    candidates.RemoveConfigMap(ROOT_CA_CERT);
    r := Success(Orphans(candidates.configMaps, candidates.secrets));
  }
}
