# Orphan ConfigMaps and Secrets — a Dafny model of the reference-resolution engine

This project models the core of kubectl-explorer, a read-only Kubernetes tool that reports
which ConfigMaps and Secrets of a namespace are referenced by nothing. It proves properties
of that model. The lists of objects in the namespace are taken as already fetched
(`OrphanReducer.Cluster`). The search then works as follows:

1. It seeds two candidate sets with the metadata names of the listed ConfigMaps and Secrets.
   Objects without a name are skipped.
2. It resolves a pod spec for every Deployment, ReplicaSet, StatefulSet, DaemonSet, Job,
   CronJob, ReplicationController and Pod. Each kind has its own chain of optional fields
   (`PodTemplates`).
3. It removes from the candidate sets every name found at a reference site
   (`References`, `OrphanReducer.Candidates`). The sites are:
   - container `envFrom` entries, `env[].valueFrom` key references and volumes;
   - Ingress TLS `secretName`;
   - ServiceAccount `imagePullSecrets` and `secrets`.
4. It drops `kube-root-ca.crt` from the ConfigMaps.

The source removes names in place from two hash sets. The model does the same in the class
`OrphanReducer.Candidates`, with one method per loop of the source. `OrphanReducer.FindOrphans`
drives those methods. It is proved equal to the function `OrphanReducer.Orphaned`, which states
the same search as a set difference (`OrphanReducer.Reduce`). The lemmas in
`OrphanProperties` then state what the report means, directly on the objects' shapes. A name
is reported exactly when it was listed, is not `kube-root-ca.crt` (for ConfigMaps), and no
reference site names it. The outcome does not depend on the order in which pod specs, Ingresses
or ServiceAccounts are processed.

The source crashes (`unwrap` on `None`) in two situations:
- a present `envFrom` reference or volume source has no name;
- an Ingress has no spec.

The model returns these as `Failure(MissingReferenceName)` and `Failure(MissingIngressSpec)`.
Key references of environment variables without a name are skipped, as in the source.
`Orphans::new` is the datatype constructor `OrphanReducer.Orphans`.

Files: `kube.dfy` (the inspected fields of the API objects), `pod_spec.dfy`,
`references.dfy`, `orphans.dfy`, `orphan_properties.dfy`.

## Model

| member | source | states |
|---|---|---|
| `PodTemplates.DeploymentPodSpec` | src/pod_spec/mod.rs:12-16 | the result is `spec.template.spec`, and `None` exactly when `spec` or `template.spec` is absent |
| `PodTemplates.ReplicaSetPodSpec` | src/pod_spec/mod.rs:18-22 | `None` exactly when `spec`, `template` or `template.spec` is absent; otherwise `template.spec` |
| `PodTemplates.StatefulSetPodSpec` | src/pod_spec/mod.rs:24-28 | `None` exactly when `spec` or `template.spec` is absent; otherwise `template.spec` |
| `PodTemplates.DaemonSetPodSpec` | src/pod_spec/mod.rs:30-34 | `None` exactly when `spec` or `template.spec` is absent; otherwise `template.spec` |
| `PodTemplates.JobPodSpec` | src/pod_spec/mod.rs:36-40 | `None` exactly when `spec` or `template.spec` is absent; otherwise `template.spec` |
| `PodTemplates.CronJobPodSpec` | src/pod_spec/mod.rs:42-53 | goes through the job template: `None` exactly when `spec`, `jobTemplate.spec` or `template.spec` is absent |
| `PodTemplates.ReplicationControllerPodSpec` | src/pod_spec/mod.rs:55-59 | `None` exactly when `spec`, `template` or `template.spec` is absent; otherwise `template.spec` |
| `PodTemplates.PodPodSpec` | src/pod_spec/mod.rs:61-65 | a Pod resolves to its own spec, `Some` exactly when it has one |
| `PodTemplates.ResolvedIffPathComplete` | src/pod_spec/mod.rs:12-65 | for every kind, resolution gives a pod spec exactly when every link of that kind's path is present; a missing link at any level gives `None` |
| `PodTemplates.EmbedRoundTrip` | src/pod_spec/mod.rs:12-65 | a resource of any kind built around a pod spec resolves to exactly that pod spec |
| `PodTemplates.BareResolvesToNone` | src/pod_spec/mod.rs:12-65 | a resource of any kind without `spec` resolves to `None`, not to a failure |
| `References.UnionOfHas` | src/orphans/mod.rs:115-162 | a name is removed by a scan over a list exactly when some element of the list names it |
| `References.UnionOfPanics` | src/orphans/mod.rs:115-162 | a scan over a list panics exactly when the scan of some element does |
| `References.UnionOfSameElements` | src/orphans/mod.rs:74-78 | what a scan over a list removes and whether it panics depend only on which elements occur, not on order or repetition |
| `References.PodSpecConfigMaps` | src/orphans/mod.rs:110-162 | the ConfigMaps a pod-spec scan removes are exactly those named by an `envFrom.configMapRef`, a `valueFrom.configMapKeyRef` or a `configMap` volume |
| `References.PodSpecSecrets` | src/orphans/mod.rs:110-162 | the Secrets a pod-spec scan removes are exactly those named by an `envFrom.secretRef`, a `valueFrom.secretKeyRef` or a `secret` volume's `secretName` |
| `References.PodSpecPanics` | src/orphans/mod.rs:120-162 | a pod-spec scan panics exactly when an `envFrom` reference or a volume source is present without a name; key references without a name never panic |
| `References.IngressSecrets` | src/orphans/mod.rs:80-86 | an Ingress removes exactly its TLS `secretName`s, never a ConfigMap, and panics exactly when it has no spec |
| `References.ServiceAccountSecrets` | src/orphans/mod.rs:88-102 | a ServiceAccount removes exactly the named entries of `imagePullSecrets` and `secrets`; unnamed entries are ignored and never panic |
| `OrphanReducer.Names` | src/orphans/mod.rs:28-36 | a name is a candidate exactly when some listed object has it as its metadata name; unnamed objects are skipped |
| `OrphanReducer.ExtendWith` | src/orphans/mod.rs:165-173 | the vector afterwards is the old entries, unchanged, followed by the `Some` pod specs of the resources in order |
| `OrphanReducer.PodSpecsOfMembers` | src/orphans/mod.rs:171-172 | a pod spec is appended exactly when some resource resolves to it |
| `OrphanReducer.PodSpecsOfAppend` | src/orphans/mod.rs:171-172 | collecting keeps the order of the resources: collecting a concatenation is the concatenation of the collections |
| `OrphanReducer.Candidates.constructor` | src/orphans/mod.rs:28-36 | the candidate sets start as the given name sets |
| `OrphanReducer.Candidates.RemoveConfigMap` | src/orphans/mod.rs:104 | removes one ConfigMap name; a no-op when absent; the Secrets are unchanged |
| `OrphanReducer.Candidates.RemoveSecret` | src/orphans/mod.rs:85 | removes one Secret name; a no-op when absent; the ConfigMaps are unchanged |
| `OrphanReducer.Candidates.ScanContainer` | src/orphans/mod.rs:115-150 | removes the names a container's `envFrom` and `env` reference, unless an `envFrom` name is missing; the sets only shrink |
| `OrphanReducer.Candidates.RemoveEnvFromRefs` | src/orphans/mod.rs:120-130 | removes the names of the `envFrom` entries; reports a panic at a present reference without a name |
| `OrphanReducer.Candidates.RemoveEnvKeyRefs` | src/orphans/mod.rs:132-149 | removes the names of the `valueFrom` key references that have one |
| `OrphanReducer.Candidates.RemoveVolumeRefs` | src/orphans/mod.rs:152-162 | removes the names of the `configMap` and `secret` volume sources; reports a panic at a source without a name |
| `OrphanReducer.Candidates.FindReferencesInPodSpec` | src/orphans/mod.rs:110-163 | removes exactly the names the pod spec references, or reports the panic; the sets only shrink |
| `OrphanReducer.Candidates.FindReferencesInPodSpecs` | src/orphans/mod.rs:74-78 | scanning every collected pod spec removes the union of their references, or reports a panic if any scan panics |
| `OrphanReducer.Candidates.RemoveIngressSecrets` | src/orphans/mod.rs:80-86 | removes every Ingress TLS secret name, or reports a panic when an Ingress has no spec; ConfigMaps unchanged |
| `OrphanReducer.Candidates.RemoveImagePullSecrets` | src/orphans/mod.rs:88-94 | removes every named `imagePullSecrets` entry of every ServiceAccount |
| `OrphanReducer.Candidates.RemoveTokenSecrets` | src/orphans/mod.rs:96-102 | removes every named `secrets` entry of every ServiceAccount |
| `OrphanReducer.Candidates.RemoveNamedSecrets` | src/orphans/mod.rs:88-102 | removes the name of each entry that has one and skips the others |
| `OrphanReducer.FindOrphans` | src/orphans/mod.rs:28-105 | the in-place search returns exactly the outcome of the set-difference specification `Orphaned` |
| `OrphanProperties.ReportWithinCandidates` | src/orphans/mod.rs:26-27 | the reported names are a subset of the initial candidates, and `kube-root-ca.crt` is never reported |
| `OrphanProperties.ReducePanics` | src/orphans/mod.rs:76-86 | the search fails exactly when a pod spec holds an unnamed required reference, or no pod spec does and some Ingress has no spec |
| `OrphanProperties.OrphanConfigMapIff` | src/orphans/mod.rs:63-105 | a ConfigMap is reported exactly when it is a candidate, is not `kube-root-ca.crt`, and no collected pod spec references it |
| `OrphanProperties.OrphanSecretIff` | src/orphans/mod.rs:63-105 | a Secret is reported exactly when it is a candidate and no pod spec, Ingress TLS entry or ServiceAccount references it |
| `OrphanProperties.ReduceOrderIrrelevant` | src/orphans/mod.rs:74-78 | any reordering or repetition of the pod specs, Ingresses and ServiceAccounts gives the same outcome |
| `OrphanProperties.WorkloadPodSpecCollected` | src/orphans/mod.rs:63-72 | the pod spec of every listed workload of the eight kinds is collected |
| `OrphanProperties.CollectedPodSpecHasWorkload` | src/orphans/mod.rs:63-72 | every collected pod spec is the pod spec of some listed workload |
| `OrphanProperties.SearchPanics` | src/orphans/mod.rs:63-105 | the search over a namespace fails exactly when a listed workload's pod spec holds an unnamed required reference or a listed Ingress has no spec |
| `OrphanProperties.SearchConfigMapIff` | src/orphans/mod.rs:28-105 | a ConfigMap is reported exactly when it is listed under a name, is not `kube-root-ca.crt`, and no listed workload of any kind references it |
| `OrphanProperties.SearchSecretIff` | src/orphans/mod.rs:33-105 | a Secret is reported exactly when it is listed under a name and no workload, Ingress or ServiceAccount references it |
| `OrphanProperties.RootCaNeverReported` | src/orphans/mod.rs:104 | `kube-root-ca.crt` is never in the reported ConfigMaps, whether referenced or not |
| `OrphanProperties.ScenarioReferencedByDeployment` | src/orphans/mod.rs:208-336 | a Deployment that imports a ConfigMap and a Secret through `envFrom` leaves nothing reported |
| `OrphanProperties.ScenarioNothingReferenced` | src/orphans/mod.rs:339-401 | an unreferenced ConfigMap and Secret are both reported |
| `OrphanProperties.ScenarioNoEnvFrom` | src/orphans/mod.rs:404-516 | a Deployment whose container has no `envFrom` saves neither the ConfigMap nor the Secret |

## Left out

- Listing the objects (`list_resource`, the kube `Client` and `Api` calls) is network I/O. The model takes the fetched lists as input, so a failed listing, which aborts the source, is not modelled.
- The concurrent fetching with `tokio::try_join!` is left out. The model takes every list as already fetched.
- The rayon `par_iter` scan and the two `Mutex`es are not modelled: their point is concurrency. The model scans the collected pod specs in sequence, holding both sets in one object. `OrphanProperties.ReduceOrderIrrelevant` and `References.UnionOfSameElements` state that any order gives the same outcome. Lock poisoning is not modelled either. It only turns one panic into several panics, and every panic aborts the search anyway.
- A panic is reported only by its kind (`MissingReferenceName` or `MissingIngressSpec`), not by the object or thread where it happened. All pod specs are scanned before the first Ingress, so the kind does not depend on scan order. Which names were removed before the panic is also not modelled, because a panic yields no report.
- The model follows the code on references that are present but unnamed: it panics, as the code does. It does not treat them as "no reference", which a reimplementation might prefer.
- `OrphanReducer.ExtendWith` collects pod specs as values. The source collects references (`&PodSpec`) into the resources, and that aliasing is not modelled.
- The command-line parser, `main`, kubeconfig loading, namespace defaulting and YAML/JSON output are left out. They are adapters around the core.
- Every field of the Kubernetes objects that the search does not read is left out. List fields the client decodes as empty when absent are plain sequences.
