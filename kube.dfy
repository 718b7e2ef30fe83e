/** The fields of the Kubernetes API objects that the orphan search reads.
    Every other field of these objects is irrelevant to the search and is
    not modelled. Optional fields are `Option`; list fields, which the
    API client decodes to an empty list when absent, are `seq`. */
module Kube {

  datatype Option<+T> = None | Some(value: T)

  /** `metadata` of an API object; only its `name` is read. */
  datatype ObjectMeta = ObjectMeta(name: Option<string>)

  /** ConfigMaps and Secrets are read only for their metadata name. */
  datatype NamedObject = NamedObject(metadata: ObjectMeta)
  type ConfigMap = NamedObject
  type Secret = NamedObject

  /** Every reference struct whose only inspected field is an optional
      `name`: ConfigMapEnvSource, SecretEnvSource, ConfigMapKeySelector,
      SecretKeySelector, ConfigMapVolumeSource, LocalObjectReference and
      ObjectReference. */
  datatype NameRef = NameRef(name: Option<string>)

  /** A secret volume names its Secret in `secretName`, not `name`. */
  datatype SecretVolumeSource = SecretVolumeSource(secretName: Option<string>)

  /** One `envFrom` entry of a container: imports a whole ConfigMap and/or Secret. */
  datatype EnvFromSource = EnvFromSource(configMapRef: Option<NameRef>, secretRef: Option<NameRef>)

  /** `valueFrom` of one environment variable: a single key of a ConfigMap or Secret. */
  datatype EnvVarSource = EnvVarSource(configMapKeyRef: Option<NameRef>, secretKeyRef: Option<NameRef>)
  datatype EnvVar = EnvVar(valueFrom: Option<EnvVarSource>)

  datatype Container = Container(envFrom: seq<EnvFromSource>, env: seq<EnvVar>)
  datatype Volume = Volume(configMap: Option<NameRef>, secret: Option<SecretVolumeSource>)
  datatype PodSpec = PodSpec(containers: seq<Container>, volumes: seq<Volume>)
  datatype PodTemplateSpec = PodTemplateSpec(spec: Option<PodSpec>)

  // Workload kinds, each with its own nesting down to the pod template.
  datatype DeploymentSpec = DeploymentSpec(template: PodTemplateSpec)
  datatype Deployment = Deployment(spec: Option<DeploymentSpec>)

  datatype ReplicaSetSpec = ReplicaSetSpec(template: Option<PodTemplateSpec>)
  datatype ReplicaSet = ReplicaSet(spec: Option<ReplicaSetSpec>)

  datatype StatefulSetSpec = StatefulSetSpec(template: PodTemplateSpec)
  datatype StatefulSet = StatefulSet(spec: Option<StatefulSetSpec>)

  datatype DaemonSetSpec = DaemonSetSpec(template: PodTemplateSpec)
  datatype DaemonSet = DaemonSet(spec: Option<DaemonSetSpec>)

  datatype JobSpec = JobSpec(template: PodTemplateSpec)
  datatype Job = Job(spec: Option<JobSpec>)

  datatype JobTemplateSpec = JobTemplateSpec(spec: Option<JobSpec>)
  datatype CronJobSpec = CronJobSpec(jobTemplate: JobTemplateSpec)
  datatype CronJob = CronJob(spec: Option<CronJobSpec>)

  datatype ReplicationControllerSpec = ReplicationControllerSpec(template: Option<PodTemplateSpec>)
  datatype ReplicationController = ReplicationController(spec: Option<ReplicationControllerSpec>)

  datatype Pod = Pod(spec: Option<PodSpec>)

  // Non-workload objects that can reference Secrets.
  datatype IngressTLS = IngressTLS(secretName: Option<string>)
  datatype IngressSpec = IngressSpec(tls: seq<IngressTLS>)
  datatype Ingress = Ingress(spec: Option<IngressSpec>)

  datatype ServiceAccount = ServiceAccount(imagePullSecrets: seq<NameRef>, secrets: seq<NameRef>)
}
