/** What each reference site names. `Refs` collects the ConfigMap and
    Secret names a site contributes, and whether inspecting the site
    panics: the scan unwraps the name of an `envFrom` reference and of a
    volume source, so such a reference present without a name aborts the
    whole search, whereas a key reference without a name is skipped. */
module References {
  import opened Kube

  datatype Refs = Refs(configMaps: set<string>, secrets: set<string>, panics: bool)
  {
    function Join(other: Refs): Refs
    {
      Refs(configMaps + other.configMaps, secrets + other.secrets, panics || other.panics)
    }
  }

  const NoRefs := Refs({}, {}, false)

  function NameSet(name: Option<string>): set<string>
  {
    if name.Some? then {name.value} else {}
  }

  /** The name of a reference, if the reference and its name are both present. */
  function RefName(r: Option<NameRef>): set<string>
  {
    if r.Some? then NameSet(r.value.name) else {}
  }

  /** A reference that is present but has no name. */
  predicate Unnamed(r: Option<NameRef>)
  {
    r.Some? && r.value.name.None?
  }

  /** The union of the references of every element, in order. */
  function UnionOf<T>(xs: seq<T>, f: T -> Refs): Refs
    decreases |xs|
  {
    if xs == [] then NoRefs else UnionOf(xs[..|xs| - 1], f).Join(f(xs[|xs| - 1]))
  }

  /** `envFrom`: both references unwrap their name. */
  function EnvFromRefs(e: EnvFromSource): Refs
  {
    Refs(RefName(e.configMapRef), RefName(e.secretRef), Unnamed(e.configMapRef) || Unnamed(e.secretRef))
  }

  /** `env[].valueFrom`: key references without a name are skipped. */
  function EnvVarRefs(v: EnvVar): Refs
  {
    match v.valueFrom
    case None => NoRefs
    case Some(src) => Refs(RefName(src.configMapKeyRef), RefName(src.secretKeyRef), false)
  }

  /** Volumes: both sources unwrap their name. */
  function VolumeRefs(v: Volume): Refs
  {
    var secretName := if v.secret.Some? then v.secret.value.secretName else None;
    Refs(RefName(v.configMap), NameSet(secretName),
         Unnamed(v.configMap) || (v.secret.Some? && v.secret.value.secretName.None?))
  }

  function ContainerRefs(c: Container): Refs
  {
    UnionOf(c.envFrom, EnvFromRefs).Join(UnionOf(c.env, EnvVarRefs))
  }

  function PodSpecRefs(ps: PodSpec): Refs
  {
    UnionOf(ps.containers, ContainerRefs).Join(UnionOf(ps.volumes, VolumeRefs))
  }

  function TlsRefs(t: IngressTLS): Refs
  {
    Refs({}, NameSet(t.secretName), false)
  }

  /** An Ingress without a spec panics (its spec is unwrapped). */
  function IngressRefs(i: Ingress): Refs
  {
    match i.spec
    case None => Refs({}, {}, true)
    case Some(s) => UnionOf(s.tls, TlsRefs)
  }

  /** A ServiceAccount's secret references; entries without a name are skipped. */
  function SecretRef(r: NameRef): Refs
  {
    Refs({}, NameSet(r.name), false)
  }

  function ImagePullSecretRefs(sa: ServiceAccount): Refs
  {
    UnionOf(sa.imagePullSecrets, SecretRef)
  }

  function TokenSecretRefs(sa: ServiceAccount): Refs
  {
    UnionOf(sa.secrets, SecretRef)
  }

  // ---------------------------------------------------------------------
  // The reference sites, stated directly on the object shapes.
  // ---------------------------------------------------------------------

  /** Container `c` names ConfigMap `n` in an `envFrom` entry or an env var's key reference. */
  ghost predicate ContainerReferencesConfigMap(c: Container, n: string)
  {
    (exists e :: e in c.envFrom && e.configMapRef == Some(NameRef(Some(n))))
    || (exists v :: v in c.env && v.valueFrom.Some? && v.valueFrom.value.configMapKeyRef == Some(NameRef(Some(n))))
  }

  /** Container `c` names Secret `n` in an `envFrom` entry or an env var's key reference. */
  ghost predicate ContainerReferencesSecret(c: Container, n: string)
  {
    (exists e :: e in c.envFrom && e.secretRef == Some(NameRef(Some(n))))
    || (exists v :: v in c.env && v.valueFrom.Some? && v.valueFrom.value.secretKeyRef == Some(NameRef(Some(n))))
  }

  /** `ps` names ConfigMap `n` at some reference site. */
  ghost predicate ConfigMapReferenced(ps: PodSpec, n: string)
  {
    (exists c :: c in ps.containers && ContainerReferencesConfigMap(c, n))
    || (exists vol :: vol in ps.volumes && vol.configMap == Some(NameRef(Some(n))))
  }

  /** `ps` names Secret `n` at some reference site. */
  ghost predicate SecretReferenced(ps: PodSpec, n: string)
  {
    (exists c :: c in ps.containers && ContainerReferencesSecret(c, n))
    || (exists vol :: vol in ps.volumes && vol.secret == Some(SecretVolumeSource(Some(n))))
  }

  /** Container `c` has an `envFrom` reference without a name. */
  ghost predicate ContainerHasUnnamedRef(c: Container)
  {
    exists e :: e in c.envFrom && (e.configMapRef == Some(NameRef(None)) || e.secretRef == Some(NameRef(None)))
  }

  /** `ps` holds a reference whose name the scan unwraps but which has none. */
  ghost predicate HasUnnamedRequiredRef(ps: PodSpec)
  {
    (exists c :: c in ps.containers && ContainerHasUnnamedRef(c))
    || (exists vol :: vol in ps.volumes
          && (vol.configMap == Some(NameRef(None)) || vol.secret == Some(SecretVolumeSource(None))))
  }

  ghost predicate IngressReferencesSecret(i: Ingress, n: string)
  {
    i.spec.Some? && exists t :: t in i.spec.value.tls && t.secretName == Some(n)
  }

  ghost predicate ServiceAccountReferencesSecret(sa: ServiceAccount, n: string)
  {
    (exists r :: r in sa.imagePullSecrets && r.name == Some(n))
    || (exists r :: r in sa.secrets && r.name == Some(n))
  }

  // ---------------------------------------------------------------------
  // Lemmas
  // ---------------------------------------------------------------------

  /** A name is in the union exactly when some element contributes it. */
  lemma {:induction false} UnionOfHas<T>(xs: seq<T>, f: T -> Refs, n: string)
    ensures n in UnionOf(xs, f).configMaps <==> exists x :: x in xs && n in f(x).configMaps
    ensures n in UnionOf(xs, f).secrets <==> exists x :: x in xs && n in f(x).secrets
  {
    if xs != [] {
      var init, last := xs[..|xs| - 1], xs[|xs| - 1];
      UnionOfHas(init, f, n);
      assert xs == init + [last];
      assert forall x :: x in xs <==> x in init || x == last;
    }
  }

  /** The union panics exactly when some element does. */
  lemma {:induction false} UnionOfPanics<T>(xs: seq<T>, f: T -> Refs)
    ensures UnionOf(xs, f).panics <==> exists x :: x in xs && f(x).panics
  {
    if xs != [] {
      var init, last := xs[..|xs| - 1], xs[|xs| - 1];
      UnionOfPanics(init, f);
      assert xs == init + [last];
      assert forall x :: x in xs <==> x in init || x == last;
    }
  }

  /** Elements that contribute no ConfigMap give a union without ConfigMaps. */
  lemma {:induction false} UnionOfNoConfigMaps<T>(xs: seq<T>, f: T -> Refs)
    requires forall x :: x in xs ==> f(x).configMaps == {}
    ensures UnionOf(xs, f).configMaps == {}
  {
    if xs != [] {
      UnionOfNoConfigMaps(xs[..|xs| - 1], f);
    }
  }

  /** The union depends only on which elements occur, not on their order
      or multiplicity. */
  lemma UnionOfSameElements<T>(xs: seq<T>, ys: seq<T>, f: T -> Refs)
    requires forall x :: x in xs <==> x in ys
    ensures UnionOf(xs, f) == UnionOf(ys, f)
  {
    forall n
      ensures (n in UnionOf(xs, f).configMaps <==> n in UnionOf(ys, f).configMaps)
           && (n in UnionOf(xs, f).secrets <==> n in UnionOf(ys, f).secrets)
    {
      UnionOfHas(xs, f, n);
      UnionOfHas(ys, f, n);
    }
    UnionOfPanics(xs, f);
    UnionOfPanics(ys, f);
  }

  /** Extending a prefix by one element joins that element's references. */
  lemma UnionOfPrefix<T>(xs: seq<T>, f: T -> Refs, i: nat)
    requires i < |xs|
    ensures UnionOf(xs[..i + 1], f) == UnionOf(xs[..i], f).Join(f(xs[i]))
  {
    assert xs[..i + 1][..i] == xs[..i];
  }

  lemma UnionOfSingleton<T>(x: T, f: T -> Refs)
    ensures UnionOf([x], f) == f(x)
  {
    assert [x][..0] == [];
  }

  /** Every element's references are part of the union. */
  lemma UnionOfElement<T>(xs: seq<T>, f: T -> Refs, i: nat)
    requires i < |xs|
    ensures f(xs[i]).configMaps <= UnionOf(xs, f).configMaps
    ensures f(xs[i]).secrets <= UnionOf(xs, f).secrets
    ensures f(xs[i]).panics ==> UnionOf(xs, f).panics
  {
    forall n | n in f(xs[i]).configMaps || n in f(xs[i]).secrets
      ensures (n in f(xs[i]).configMaps ==> n in UnionOf(xs, f).configMaps)
           && (n in f(xs[i]).secrets ==> n in UnionOf(xs, f).secrets)
    {
      UnionOfHas(xs, f, n);
    }
    UnionOfPanics(xs, f);
  }

  lemma ContainerConfigMaps(c: Container, n: string)
    ensures n in ContainerRefs(c).configMaps <==> ContainerReferencesConfigMap(c, n)
  {
    UnionOfHas(c.envFrom, EnvFromRefs, n);
    UnionOfHas(c.env, EnvVarRefs, n);
  }

  lemma ContainerSecrets(c: Container, n: string)
    ensures n in ContainerRefs(c).secrets <==> ContainerReferencesSecret(c, n)
  {
    UnionOfHas(c.envFrom, EnvFromRefs, n);
    UnionOfHas(c.env, EnvVarRefs, n);
  }

  lemma ContainerPanics(c: Container)
    ensures ContainerRefs(c).panics <==> ContainerHasUnnamedRef(c)
  {
    UnionOfPanics(c.envFrom, EnvFromRefs);
    UnionOfPanics(c.env, EnvVarRefs);
  }

  /** The ConfigMap names `PodSpecRefs` collects are exactly those the pod spec references. */
  lemma PodSpecConfigMaps(ps: PodSpec, n: string)
    ensures n in PodSpecRefs(ps).configMaps <==> ConfigMapReferenced(ps, n)
  {
    UnionOfHas(ps.containers, ContainerRefs, n);
    UnionOfHas(ps.volumes, VolumeRefs, n);
    forall c | c in ps.containers
      ensures n in ContainerRefs(c).configMaps <==> ContainerReferencesConfigMap(c, n)
    {
      ContainerConfigMaps(c, n);
    }
  }

  /** The Secret names `PodSpecRefs` collects are exactly those the pod spec references. */
  lemma PodSpecSecrets(ps: PodSpec, n: string)
    ensures n in PodSpecRefs(ps).secrets <==> SecretReferenced(ps, n)
  {
    UnionOfHas(ps.containers, ContainerRefs, n);
    UnionOfHas(ps.volumes, VolumeRefs, n);
    forall c | c in ps.containers
      ensures n in ContainerRefs(c).secrets <==> ContainerReferencesSecret(c, n)
    {
      ContainerSecrets(c, n);
    }
  }

  /** Scanning a pod spec panics exactly when it holds an unnamed `envFrom`
      or volume reference; unnamed key references never panic. */
  lemma PodSpecPanics(ps: PodSpec)
    ensures PodSpecRefs(ps).panics <==> HasUnnamedRequiredRef(ps)
  {
    UnionOfPanics(ps.containers, ContainerRefs);
    UnionOfPanics(ps.volumes, VolumeRefs);
    forall c | c in ps.containers
      ensures ContainerRefs(c).panics <==> ContainerHasUnnamedRef(c)
    {
      ContainerPanics(c);
    }
  }

  /** An Ingress contributes exactly its TLS secret names, and never a ConfigMap. */
  lemma IngressSecrets(i: Ingress, n: string)
    ensures IngressRefs(i).configMaps == {}
    ensures IngressRefs(i).panics <==> i.spec.None?
    ensures n in IngressRefs(i).secrets <==> IngressReferencesSecret(i, n)
  {
    if i.spec.Some? {
      UnionOfHas(i.spec.value.tls, TlsRefs, n);
      UnionOfNoConfigMaps(i.spec.value.tls, TlsRefs);
      UnionOfPanics(i.spec.value.tls, TlsRefs);
    }
  }

  /** A ServiceAccount's two lists together contribute exactly its named secrets. */
  lemma ServiceAccountSecrets(sa: ServiceAccount, n: string)
    ensures n in ImagePullSecretRefs(sa).secrets + TokenSecretRefs(sa).secrets
            <==> ServiceAccountReferencesSecret(sa, n)
    ensures !ImagePullSecretRefs(sa).panics && !TokenSecretRefs(sa).panics
  {
    UnionOfHas(sa.imagePullSecrets, SecretRef, n);
    UnionOfHas(sa.secrets, SecretRef, n);
    UnionOfPanics(sa.imagePullSecrets, SecretRef);
    UnionOfPanics(sa.secrets, SecretRef);
  }
}
