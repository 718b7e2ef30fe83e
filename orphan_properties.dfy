/** What the orphan search guarantees, stated on the object shapes
    rather than on the reduction's own bookkeeping. */
module OrphanProperties {
  import opened Kube
  import opened PodTemplates
  import opened References
  import opened OrphanReducer

  // ---------------------------------------------------------------------
  // The reduction over already-collected pod specs
  // ---------------------------------------------------------------------

  /** Names are only ever removed: the report is within the candidates. */
  lemma ReportWithinCandidates(configMaps: set<string>, secrets: set<string>, podSpecs: seq<PodSpec>,
                               ingresses: seq<Ingress>, serviceAccounts: seq<ServiceAccount>)
    requires Reduce(configMaps, secrets, podSpecs, ingresses, serviceAccounts).Success?
    ensures Reduce(configMaps, secrets, podSpecs, ingresses, serviceAccounts).value.configmaps <= configMaps
    ensures Reduce(configMaps, secrets, podSpecs, ingresses, serviceAccounts).value.secrets <= secrets
    ensures ROOT_CA_CERT !in Reduce(configMaps, secrets, podSpecs, ingresses, serviceAccounts).value.configmaps
  {
  }

  /** The search aborts exactly when some reference whose name is unwrapped
      lacks one, or some Ingress lacks a spec; a pod-spec abort comes first. */
  lemma ReducePanics(configMaps: set<string>, secrets: set<string>, podSpecs: seq<PodSpec>,
                     ingresses: seq<Ingress>, serviceAccounts: seq<ServiceAccount>)
    ensures Reduce(configMaps, secrets, podSpecs, ingresses, serviceAccounts) == Failure(MissingReferenceName)
            <==> exists ps :: ps in podSpecs && HasUnnamedRequiredRef(ps)
    ensures Reduce(configMaps, secrets, podSpecs, ingresses, serviceAccounts) == Failure(MissingIngressSpec)
            <==> (forall ps :: ps in podSpecs ==> !HasUnnamedRequiredRef(ps))
                 && exists i :: i in ingresses && i.spec.None?
  {
    UnionOfPanics(podSpecs, PodSpecRefs);
    UnionOfPanics(ingresses, IngressRefs);
    forall ps | ps in podSpecs
      ensures PodSpecRefs(ps).panics <==> HasUnnamedRequiredRef(ps)
    {
      PodSpecPanics(ps);
    }
    forall i | i in ingresses
      ensures IngressRefs(i).panics <==> i.spec.None?
    {
      IngressSecrets(i, "");
    }
  }

  /** A ConfigMap is reported exactly when it is a candidate, is not
      `kube-root-ca.crt`, and no pod spec references it. */
  lemma OrphanConfigMapIff(configMaps: set<string>, secrets: set<string>, podSpecs: seq<PodSpec>,
                           ingresses: seq<Ingress>, serviceAccounts: seq<ServiceAccount>, n: string)
    requires Reduce(configMaps, secrets, podSpecs, ingresses, serviceAccounts).Success?
    ensures n in Reduce(configMaps, secrets, podSpecs, ingresses, serviceAccounts).value.configmaps
            <==> n in configMaps && n != ROOT_CA_CERT
                 && forall ps :: ps in podSpecs ==> !ConfigMapReferenced(ps, n)
  {
    UnionOfHas(podSpecs, PodSpecRefs, n);
    forall ps | ps in podSpecs
      ensures n in PodSpecRefs(ps).configMaps <==> ConfigMapReferenced(ps, n)
    {
      PodSpecConfigMaps(ps, n);
    }
  }

  /** A Secret is reported exactly when it is a candidate and no pod spec,
      Ingress or ServiceAccount references it. */
  lemma OrphanSecretIff(configMaps: set<string>, secrets: set<string>, podSpecs: seq<PodSpec>,
                        ingresses: seq<Ingress>, serviceAccounts: seq<ServiceAccount>, n: string)
    requires Reduce(configMaps, secrets, podSpecs, ingresses, serviceAccounts).Success?
    ensures n in Reduce(configMaps, secrets, podSpecs, ingresses, serviceAccounts).value.secrets
            <==> n in secrets
                 && (forall ps :: ps in podSpecs ==> !SecretReferenced(ps, n))
                 && (forall i :: i in ingresses ==> !IngressReferencesSecret(i, n))
                 && (forall sa :: sa in serviceAccounts ==> !ServiceAccountReferencesSecret(sa, n))
  {
    UnionOfHas(podSpecs, PodSpecRefs, n);
    UnionOfHas(ingresses, IngressRefs, n);
    UnionOfHas(serviceAccounts, ImagePullSecretRefs, n);
    UnionOfHas(serviceAccounts, TokenSecretRefs, n);
    forall ps | ps in podSpecs
      ensures n in PodSpecRefs(ps).secrets <==> SecretReferenced(ps, n)
    {
      PodSpecSecrets(ps, n);
    }
    forall i | i in ingresses
      ensures n in IngressRefs(i).secrets <==> IngressReferencesSecret(i, n)
    {
      IngressSecrets(i, n);
    }
    forall sa | sa in serviceAccounts
      ensures n in ImagePullSecretRefs(sa).secrets + TokenSecretRefs(sa).secrets
              <==> ServiceAccountReferencesSecret(sa, n)
    {
      ServiceAccountSecrets(sa, n);
    }
  }

  /** Processing the pod specs, Ingresses and ServiceAccounts in any order,
      or more than once, gives the same outcome: the sequential scan is
      equivalent to the parallel one. */
  lemma ReduceOrderIrrelevant(configMaps: set<string>, secrets: set<string>,
                              podSpecs: seq<PodSpec>, podSpecs': seq<PodSpec>,
                              ingresses: seq<Ingress>, ingresses': seq<Ingress>,
                              serviceAccounts: seq<ServiceAccount>, serviceAccounts': seq<ServiceAccount>)
    requires forall ps :: ps in podSpecs <==> ps in podSpecs'
    requires forall i :: i in ingresses <==> i in ingresses'
    requires forall sa :: sa in serviceAccounts <==> sa in serviceAccounts'
    ensures Reduce(configMaps, secrets, podSpecs, ingresses, serviceAccounts)
         == Reduce(configMaps, secrets, podSpecs', ingresses', serviceAccounts')
  {
    UnionOfSameElements(podSpecs, podSpecs', PodSpecRefs);
    UnionOfSameElements(ingresses, ingresses', IngressRefs);
    UnionOfSameElements(serviceAccounts, serviceAccounts', ImagePullSecretRefs);
    UnionOfSameElements(serviceAccounts, serviceAccounts', TokenSecretRefs);
  }

  // ---------------------------------------------------------------------
  // The whole search over a namespace
  // ---------------------------------------------------------------------

  /** `w` is one of the listed workloads of `c`, of its own kind's list. */
  ghost predicate InCluster(c: Cluster, w: Workload)
  {
    match w
    case OfDeployment(d) => d in c.deployments
    case OfReplicaSet(rs) => rs in c.replicaSets
    case OfStatefulSet(ss) => ss in c.statefulSets
    case OfDaemonSet(ds) => ds in c.daemonSets
    case OfJob(j) => j in c.jobs
    case OfCronJob(cj) => cj in c.cronJobs
    case OfReplicationController(rc) => rc in c.replicationControllers
    case OfPod(p) => p in c.pods
  }

  /** Every listed workload that resolves to a pod spec contributes it. */
  lemma WorkloadPodSpecCollected(c: Cluster, w: Workload)
    requires InCluster(c, w) && PodTemplateSpecOf(w).Some?
    ensures PodTemplateSpecOf(w).value in CollectPodSpecs(c)
  {
    match w
    case OfDeployment(_) => PodSpecsOfMembers(c.deployments, DeploymentPodSpec);
    case OfReplicaSet(_) => PodSpecsOfMembers(c.replicaSets, ReplicaSetPodSpec);
    case OfStatefulSet(_) => PodSpecsOfMembers(c.statefulSets, StatefulSetPodSpec);
    case OfDaemonSet(_) => PodSpecsOfMembers(c.daemonSets, DaemonSetPodSpec);
    case OfJob(_) => PodSpecsOfMembers(c.jobs, JobPodSpec);
    case OfCronJob(_) => PodSpecsOfMembers(c.cronJobs, CronJobPodSpec);
    case OfReplicationController(_) =>
      PodSpecsOfMembers(c.replicationControllers, ReplicationControllerPodSpec);
    case OfPod(_) => PodSpecsOfMembers(c.pods, PodPodSpec);
  }

  /** Every collected pod spec comes from some listed workload. */
  lemma CollectedPodSpecHasWorkload(c: Cluster, ps: PodSpec)
    requires ps in CollectPodSpecs(c)
    ensures exists w :: InCluster(c, w) && PodTemplateSpecOf(w) == Some(ps)
  {
    if ps in PodSpecsOf(c.deployments, DeploymentPodSpec) {
      PodSpecsOfMembers(c.deployments, DeploymentPodSpec);
      var x :| x in c.deployments && DeploymentPodSpec(x) == Some(ps);
      var w := OfDeployment(x);
      assert InCluster(c, w) && PodTemplateSpecOf(w) == Some(ps);
    } else if ps in PodSpecsOf(c.replicaSets, ReplicaSetPodSpec) {
      PodSpecsOfMembers(c.replicaSets, ReplicaSetPodSpec);
      var x :| x in c.replicaSets && ReplicaSetPodSpec(x) == Some(ps);
      var w := OfReplicaSet(x);
      assert InCluster(c, w) && PodTemplateSpecOf(w) == Some(ps);
    } else if ps in PodSpecsOf(c.statefulSets, StatefulSetPodSpec) {
      PodSpecsOfMembers(c.statefulSets, StatefulSetPodSpec);
      var x :| x in c.statefulSets && StatefulSetPodSpec(x) == Some(ps);
      var w := OfStatefulSet(x);
      assert InCluster(c, w) && PodTemplateSpecOf(w) == Some(ps);
    } else if ps in PodSpecsOf(c.daemonSets, DaemonSetPodSpec) {
      PodSpecsOfMembers(c.daemonSets, DaemonSetPodSpec);
      var x :| x in c.daemonSets && DaemonSetPodSpec(x) == Some(ps);
      var w := OfDaemonSet(x);
      assert InCluster(c, w) && PodTemplateSpecOf(w) == Some(ps);
    } else if ps in PodSpecsOf(c.jobs, JobPodSpec) {
      PodSpecsOfMembers(c.jobs, JobPodSpec);
      var x :| x in c.jobs && JobPodSpec(x) == Some(ps);
      var w := OfJob(x);
      assert InCluster(c, w) && PodTemplateSpecOf(w) == Some(ps);
    } else if ps in PodSpecsOf(c.cronJobs, CronJobPodSpec) {
      PodSpecsOfMembers(c.cronJobs, CronJobPodSpec);
      var x :| x in c.cronJobs && CronJobPodSpec(x) == Some(ps);
      var w := OfCronJob(x);
      assert InCluster(c, w) && PodTemplateSpecOf(w) == Some(ps);
    } else if ps in PodSpecsOf(c.replicationControllers, ReplicationControllerPodSpec) {
      PodSpecsOfMembers(c.replicationControllers, ReplicationControllerPodSpec);
      var x :| x in c.replicationControllers && ReplicationControllerPodSpec(x) == Some(ps);
      var w := OfReplicationController(x);
      assert InCluster(c, w) && PodTemplateSpecOf(w) == Some(ps);
    } else {
      PodSpecsOfMembers(c.pods, PodPodSpec);
      var x :| x in c.pods && PodPodSpec(x) == Some(ps);
      var w := OfPod(x);
      assert InCluster(c, w) && PodTemplateSpecOf(w) == Some(ps);
    }
  }

  /** The names of the listed ConfigMaps (or Secrets): the objects without a name are skipped. */
  ghost predicate Listed(objs: seq<NamedObject>, n: string)
  {
    exists o :: o in objs && o.metadata.name == Some(n)
  }

  /** A listed workload's pod spec names ConfigMap `n`. */
  ghost predicate WorkloadReferencesConfigMap(c: Cluster, n: string)
  {
    exists w :: InCluster(c, w) && PodTemplateSpecOf(w).Some? && ConfigMapReferenced(PodTemplateSpecOf(w).value, n)
  }

  /** A listed workload's pod spec names Secret `n`. */
  ghost predicate WorkloadReferencesSecret(c: Cluster, n: string)
  {
    exists w :: InCluster(c, w) && PodTemplateSpecOf(w).Some? && SecretReferenced(PodTemplateSpecOf(w).value, n)
  }

  /** The search aborts exactly when a listed workload's pod spec holds an
      unwrapped reference without a name, or a listed Ingress has no spec. */
  lemma SearchPanics(c: Cluster)
    ensures Orphaned(c) == Failure(MissingReferenceName) <==>
      exists w :: InCluster(c, w) && PodTemplateSpecOf(w).Some? && HasUnnamedRequiredRef(PodTemplateSpecOf(w).value)
    ensures Orphaned(c).Failure? <==>
      (exists w :: InCluster(c, w) && PodTemplateSpecOf(w).Some? && HasUnnamedRequiredRef(PodTemplateSpecOf(w).value))
      || exists i :: i in c.ingresses && i.spec.None?
  {
    ReducePanics(Names(c.configMaps), Names(c.secrets), CollectPodSpecs(c), c.ingresses, c.serviceAccounts);
    forall w | InCluster(c, w) && PodTemplateSpecOf(w).Some?
      ensures PodTemplateSpecOf(w).value in CollectPodSpecs(c)
    {
      WorkloadPodSpecCollected(c, w);
    }
    forall ps | ps in CollectPodSpecs(c)
      ensures exists w :: InCluster(c, w) && PodTemplateSpecOf(w) == Some(ps)
    {
      CollectedPodSpecHasWorkload(c, ps);
    }
  }

  /** A ConfigMap is reported exactly when it is listed under a name, is not
      `kube-root-ca.crt`, and no listed workload of any kind references it. */
  lemma SearchConfigMapIff(c: Cluster, n: string)
    requires Orphaned(c).Success?
    ensures n in Orphaned(c).value.configmaps <==>
      Listed(c.configMaps, n) && n != ROOT_CA_CERT && !WorkloadReferencesConfigMap(c, n)
  {
    OrphanConfigMapIff(Names(c.configMaps), Names(c.secrets), CollectPodSpecs(c), c.ingresses, c.serviceAccounts, n);
    forall w | InCluster(c, w) && PodTemplateSpecOf(w).Some?
      ensures PodTemplateSpecOf(w).value in CollectPodSpecs(c)
    {
      WorkloadPodSpecCollected(c, w);
    }
    forall ps | ps in CollectPodSpecs(c)
      ensures exists w :: InCluster(c, w) && PodTemplateSpecOf(w) == Some(ps)
    {
      CollectedPodSpecHasWorkload(c, ps);
    }
  }

  /** A Secret is reported exactly when it is listed under a name and no
      listed workload, Ingress or ServiceAccount references it. */
  lemma SearchSecretIff(c: Cluster, n: string)
    requires Orphaned(c).Success?
    ensures n in Orphaned(c).value.secrets <==>
      Listed(c.secrets, n) && !WorkloadReferencesSecret(c, n)
      && (forall i :: i in c.ingresses ==> !IngressReferencesSecret(i, n))
      && (forall sa :: sa in c.serviceAccounts ==> !ServiceAccountReferencesSecret(sa, n))
  {
    OrphanSecretIff(Names(c.configMaps), Names(c.secrets), CollectPodSpecs(c), c.ingresses, c.serviceAccounts, n);
    forall w | InCluster(c, w) && PodTemplateSpecOf(w).Some?
      ensures PodTemplateSpecOf(w).value in CollectPodSpecs(c)
    {
      WorkloadPodSpecCollected(c, w);
    }
    forall ps | ps in CollectPodSpecs(c)
      ensures exists w :: InCluster(c, w) && PodTemplateSpecOf(w) == Some(ps)
    {
      CollectedPodSpecHasWorkload(c, ps);
    }
  }

  /** `kube-root-ca.crt` is never reported, referenced or not. */
  lemma RootCaNeverReported(c: Cluster)
    requires Orphaned(c).Success?
    ensures ROOT_CA_CERT !in Orphaned(c).value.configmaps
  {
  }

  // ---------------------------------------------------------------------
  // The scenarios of the integration tests
  // ---------------------------------------------------------------------

  function Named(n: string): NamedObject
  {
    NamedObject(ObjectMeta(Some(n)))
  }

  function DeploymentOf(containers: seq<Container>): Deployment
  {
    Deployment(Some(DeploymentSpec(PodTemplateSpec(Some(PodSpec(containers, []))))))
  }

  function JustDeployments(configMaps: seq<ConfigMap>, secrets: seq<Secret>, deployments: seq<Deployment>): Cluster
  {
    Cluster(configMaps, secrets, deployments, [], [], [], [], [], [], [], [], [])
  }

  /** A Deployment importing a ConfigMap and a Secret through `envFrom` saves both. */
  lemma ScenarioReferencedByDeployment()
    ensures
      var container := Container([EnvFromSource(Some(NameRef(Some("configmap"))), None),
                                  EnvFromSource(None, Some(NameRef(Some("secret"))))], []);
      var c := JustDeployments([Named("configmap")], [Named("secret")], [DeploymentOf([container])]);
      Orphaned(c) == Success(Orphans({}, {}))
  {
    var container := Container([EnvFromSource(Some(NameRef(Some("configmap"))), None),
                                EnvFromSource(None, Some(NameRef(Some("secret"))))], []);
    var c := JustDeployments([Named("configmap")], [Named("secret")], [DeploymentOf([container])]);
    var ps := PodSpec([container], []);
    PodSpecsOfSingleton(DeploymentOf([container]), DeploymentPodSpec);
    assert CollectPodSpecs(c) == [ps];
    UnionOfSingleton(ps, PodSpecRefs);
    UnionOfSingleton(container, ContainerRefs);
    UnionOfPrefix(container.envFrom, EnvFromRefs, 1);
    assert container.envFrom[..2] == container.envFrom;
    UnionOfSingleton(container.envFrom[0], EnvFromRefs);
    assert container.envFrom[..1] == [container.envFrom[0]];
    assert ContainerRefs(container) == Refs({"configmap"}, {"secret"}, false);
    assert Names(c.configMaps) == {"configmap"};
    assert Names(c.secrets) == {"secret"};
    assert Orphaned(c).Success?;
    assert Orphaned(c).value.configmaps == {"configmap"} - {"configmap"} - {ROOT_CA_CERT};
    assert Orphaned(c).value.secrets == {"secret"} - {"secret"};
    assert Orphaned(c).value == Orphans({}, {});
  }

  /** With nothing referencing them, a ConfigMap and a Secret are both reported. */
  lemma ScenarioNothingReferenced()
    ensures
      var c := JustDeployments([Named("orphan-cfgmap")], [Named("orphan-secret")], []);
      Orphaned(c) == Success(Orphans({"orphan-cfgmap"}, {"orphan-secret"}))
  {
    var c := JustDeployments([Named("orphan-cfgmap")], [Named("orphan-secret")], []);
    assert Names(c.configMaps) == {"orphan-cfgmap"};
    assert Names(c.secrets) == {"orphan-secret"};
    assert CollectPodSpecs(c) == [];
    assert UnionOf(CollectPodSpecs(c), PodSpecRefs) == NoRefs;
    assert UnionOf(c.ingresses, IngressRefs) == NoRefs;
    assert UnionOf(c.serviceAccounts, ImagePullSecretRefs) == NoRefs;
    assert UnionOf(c.serviceAccounts, TokenSecretRefs) == NoRefs;
    assert "orphan-cfgmap" != ROOT_CA_CERT;
    assert Orphaned(c).Success?;
    assert Orphaned(c).value.configmaps == {"orphan-cfgmap"} - {ROOT_CA_CERT};
    assert Orphaned(c).value.configmaps == {"orphan-cfgmap"};
    assert Orphaned(c).value.secrets == {"orphan-secret"};
  }

  /** A Deployment whose container has no `envFrom` saves nothing. */
  lemma ScenarioNoEnvFrom()
    ensures
      var c := JustDeployments([Named("configmap-not-linked")], [Named("secret-not-linked")],
                               [DeploymentOf([Container([], [])])]);
      Orphaned(c) == Success(Orphans({"configmap-not-linked"}, {"secret-not-linked"}))
  {
    var c := JustDeployments([Named("configmap-not-linked")], [Named("secret-not-linked")],
                             [DeploymentOf([Container([], [])])]);
    var ps := PodSpec([Container([], [])], []);
    PodSpecsOfSingleton(DeploymentOf([Container([], [])]), DeploymentPodSpec);
    assert CollectPodSpecs(c) == [ps];
    UnionOfSingleton(ps, PodSpecRefs);
    UnionOfSingleton(Container([], []), ContainerRefs);
    assert Names(c.configMaps) == {"configmap-not-linked"};
    assert Names(c.secrets) == {"secret-not-linked"};
    assert "configmap-not-linked" != ROOT_CA_CERT;
    assert Orphaned(c).Success?;
    assert Orphaned(c).value.configmaps == {"configmap-not-linked"} - {ROOT_CA_CERT};
    assert Orphaned(c).value.configmaps == {"configmap-not-linked"};
    assert Orphaned(c).value.secrets == {"secret-not-linked"};
  }
}
