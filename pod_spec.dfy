/** Resolution of a workload's pod template spec: one explicit navigation
    per workload kind down its chain of optional fields. A missing link at
    any level yields `None`; resolution never fails. */
module PodTemplates {
  import opened Kube

  function DeploymentPodSpec(d: Deployment): (r: Option<PodSpec>)
    ensures r.None? <==> d.spec.None? || d.spec.value.template.spec.None?
    ensures r.Some? ==> r == d.spec.value.template.spec
  {
    match d.spec
    case None => None
    case Some(s) => s.template.spec
  }

  function ReplicaSetPodSpec(rs: ReplicaSet): (r: Option<PodSpec>)
    ensures r.None? <==>
      rs.spec.None? || rs.spec.value.template.None? || rs.spec.value.template.value.spec.None?
    ensures r.Some? ==> r == rs.spec.value.template.value.spec
  {
    match rs.spec
    case None => None
    case Some(s) =>
      match s.template
      case None => None
      case Some(t) => t.spec
  }

  function StatefulSetPodSpec(ss: StatefulSet): (r: Option<PodSpec>)
    ensures r.None? <==> ss.spec.None? || ss.spec.value.template.spec.None?
    ensures r.Some? ==> r == ss.spec.value.template.spec
  {
    match ss.spec
    case None => None
    case Some(s) => s.template.spec
  }

  function DaemonSetPodSpec(ds: DaemonSet): (r: Option<PodSpec>)
    ensures r.None? <==> ds.spec.None? || ds.spec.value.template.spec.None?
    ensures r.Some? ==> r == ds.spec.value.template.spec
  {
    match ds.spec
    case None => None
    case Some(s) => s.template.spec
  }

  function JobPodSpec(j: Job): (r: Option<PodSpec>)
    ensures r.None? <==> j.spec.None? || j.spec.value.template.spec.None?
    ensures r.Some? ==> r == j.spec.value.template.spec
  {
    match j.spec
    case None => None
    case Some(s) => s.template.spec
  }

  /** A CronJob reaches its pods through the job template's own spec. */
  function CronJobPodSpec(cj: CronJob): (r: Option<PodSpec>)
    ensures r.None? <==>
      cj.spec.None? || cj.spec.value.jobTemplate.spec.None?
      || cj.spec.value.jobTemplate.spec.value.template.spec.None?
    ensures r.Some? ==> r == cj.spec.value.jobTemplate.spec.value.template.spec
  {
    match cj.spec
    case None => None
    case Some(s) =>
      match s.jobTemplate.spec
      case None => None
      case Some(js) => js.template.spec
  }

  function ReplicationControllerPodSpec(rc: ReplicationController): (r: Option<PodSpec>)
    ensures r.None? <==>
      rc.spec.None? || rc.spec.value.template.None? || rc.spec.value.template.value.spec.None?
    ensures r.Some? ==> r == rc.spec.value.template.value.spec
  {
    match rc.spec
    case None => None
    case Some(s) =>
      match s.template
      case None => None
      case Some(t) => t.spec
  }

  /** A bare Pod is its own template. */
  function PodPodSpec(p: Pod): (r: Option<PodSpec>)
    ensures r == p.spec
    ensures r.Some? <==> p.spec.Some?
  {
    p.spec
  }

  /** The eight kinds that carry a pod template. */
  datatype Kind =
    | DeploymentKind | ReplicaSetKind | StatefulSetKind | DaemonSetKind
    | JobKind | CronJobKind | ReplicationControllerKind | PodKind

  /** A resource of any of the eight kinds, tagged with its kind. */
  datatype Workload =
    | OfDeployment(deployment: Deployment)
    | OfReplicaSet(replicaSet: ReplicaSet)
    | OfStatefulSet(statefulSet: StatefulSet)
    | OfDaemonSet(daemonSet: DaemonSet)
    | OfJob(job: Job)
    | OfCronJob(cronJob: CronJob)
    | OfReplicationController(replicationController: ReplicationController)
    | OfPod(pod: Pod)

  function KindOf(w: Workload): Kind
  {
    match w
    case OfDeployment(_) => DeploymentKind
    case OfReplicaSet(_) => ReplicaSetKind
    case OfStatefulSet(_) => StatefulSetKind
    case OfDaemonSet(_) => DaemonSetKind
    case OfJob(_) => JobKind
    case OfCronJob(_) => CronJobKind
    case OfReplicationController(_) => ReplicationControllerKind
    case OfPod(_) => PodKind
  }

  /** The uniform capability: the pod spec of any workload, by its kind's own path. */
  function PodTemplateSpecOf(w: Workload): Option<PodSpec>
  {
    match w
    case OfDeployment(d) => DeploymentPodSpec(d)
    case OfReplicaSet(rs) => ReplicaSetPodSpec(rs)
    case OfStatefulSet(ss) => StatefulSetPodSpec(ss)
    case OfDaemonSet(ds) => DaemonSetPodSpec(ds)
    case OfJob(j) => JobPodSpec(j)
    case OfCronJob(cj) => CronJobPodSpec(cj)
    case OfReplicationController(rc) => ReplicationControllerPodSpec(rc)
    case OfPod(p) => PodPodSpec(p)
  }

  /** The number of optional links between a resource of kind `k` and its pod spec. */
  function PathLength(k: Kind): nat
  {
    match k
    case PodKind => 1
    case ReplicaSetKind | ReplicationControllerKind | CronJobKind => 3
    case _ => 2
  }

  /** How many links of the kind's path are present, counted from the top,
      up to the first absent one. */
  function PresentLinks(w: Workload): nat
  {
    match w
    case OfDeployment(d) =>
      if d.spec.None? then 0 else if d.spec.value.template.spec.None? then 1 else 2
    case OfReplicaSet(rs) =>
      if rs.spec.None? then 0 else if rs.spec.value.template.None? then 1
      else if rs.spec.value.template.value.spec.None? then 2 else 3
    case OfStatefulSet(ss) =>
      if ss.spec.None? then 0 else if ss.spec.value.template.spec.None? then 1 else 2
    case OfDaemonSet(ds) =>
      if ds.spec.None? then 0 else if ds.spec.value.template.spec.None? then 1 else 2
    case OfJob(j) =>
      if j.spec.None? then 0 else if j.spec.value.template.spec.None? then 1 else 2
    case OfCronJob(cj) =>
      if cj.spec.None? then 0 else if cj.spec.value.jobTemplate.spec.None? then 1
      else if cj.spec.value.jobTemplate.spec.value.template.spec.None? then 2 else 3
    case OfReplicationController(rc) =>
      if rc.spec.None? then 0 else if rc.spec.value.template.None? then 1
      else if rc.spec.value.template.value.spec.None? then 2 else 3
    case OfPod(p) =>
      if p.spec.None? then 0 else 1
  }

  /** Resolution succeeds exactly when every link of the kind's path is
      present; a missing link at any level gives `None`. */
  lemma ResolvedIffPathComplete(w: Workload)
    ensures PresentLinks(w) <= PathLength(KindOf(w))
    ensures PodTemplateSpecOf(w).Some? <==> PresentLinks(w) == PathLength(KindOf(w))
  {
  }

  /** The smallest resource of kind `k` whose pod template holds `ps`. */
  function Embed(k: Kind, ps: PodSpec): Workload
  {
    var template := PodTemplateSpec(Some(ps));
    match k
    case DeploymentKind => OfDeployment(Deployment(Some(DeploymentSpec(template))))
    case ReplicaSetKind => OfReplicaSet(ReplicaSet(Some(ReplicaSetSpec(Some(template)))))
    case StatefulSetKind => OfStatefulSet(StatefulSet(Some(StatefulSetSpec(template))))
    case DaemonSetKind => OfDaemonSet(DaemonSet(Some(DaemonSetSpec(template))))
    case JobKind => OfJob(Job(Some(JobSpec(template))))
    case CronJobKind =>
      OfCronJob(CronJob(Some(CronJobSpec(JobTemplateSpec(Some(JobSpec(template)))))))
    case ReplicationControllerKind =>
      OfReplicationController(ReplicationController(Some(ReplicationControllerSpec(Some(template)))))
    case PodKind => OfPod(Pod(Some(ps)))
  }

  /** Resolution finds exactly the pod spec placed at the kind's template. */
  lemma EmbedRoundTrip(k: Kind, ps: PodSpec)
    ensures KindOf(Embed(k, ps)) == k
    ensures PodTemplateSpecOf(Embed(k, ps)) == Some(ps)
    ensures PresentLinks(Embed(k, ps)) == PathLength(k)
  {
  }

  /** The resource of kind `k` with no `spec` at all has no pod spec. */
  function Bare(k: Kind): Workload
  {
    match k
    case DeploymentKind => OfDeployment(Deployment(None))
    case ReplicaSetKind => OfReplicaSet(ReplicaSet(None))
    case StatefulSetKind => OfStatefulSet(StatefulSet(None))
    case DaemonSetKind => OfDaemonSet(DaemonSet(None))
    case JobKind => OfJob(Job(None))
    case CronJobKind => OfCronJob(CronJob(None))
    case ReplicationControllerKind => OfReplicationController(ReplicationController(None))
    case PodKind => OfPod(Pod(None))
  }

  lemma BareResolvesToNone(k: Kind)
    ensures KindOf(Bare(k)) == k
    ensures PresentLinks(Bare(k)) == 0
    ensures PodTemplateSpecOf(Bare(k)) == None
  {
  }
}
