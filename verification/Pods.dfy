/** Pod templates and the defaults the operator fills in before it compares a
    built template with a stored one. */
module Pods {
  import opened Kube

  datatype AnnotationKey = CredentialsHash | EmailHookHash | CdcScriptHash | PowerSyncConfigHash
                         | OtherAnnotation(key: string)

  type Annotations = map<AnnotationKey, string>

  /** `rest` fields stand for everything the normalisation leaves alone. */
  datatype Http = Http(scheme: string, rest: string)
  datatype Probe = Probe(timeout: int, period: int, success: int, failure: int, http: Option<Http>, rest: string)
  datatype Port = Port(protocol: string, rest: string)
  datatype Container = Container(messagePath: string, messagePolicy: string, ports: seq<Port>,
                                 liveness: Option<Probe>, readiness: Option<Probe>, startup: Option<Probe>,
                                 rest: string)
  datatype Source = Source(mode: Option<int>, rest: string)
  datatype Volume = Volume(configMap: Option<Source>, secret: Option<Source>,
                           downward: Option<Source>, projected: Option<Source>, rest: string)
  datatype PodTemplate = PodTemplate(annotations: Annotations, restartPolicy: string, grace: Option<int>,
                                     dnsPolicy: string, security: Option<string>, scheduler: string,
                                     volumes: seq<Volume>, init: seq<Container>, containers: seq<Container>,
                                     rest: string)

  const DEFAULT_MODE := 0x1a4 // 0644
  const TCP := "TCP"
  const HTTP := "HTTP"
  const MESSAGE_PATH := "/dev/termination-log"
  const MESSAGE_POLICY := "File"
  const RESTART_ALWAYS := "Always"
  const CLUSTER_FIRST := "ClusterFirst"
  const SCHEDULER := "default-scheduler"
  const NO_SECURITY := "{}"

  function Text(value: string, default: string): string { if value == "" then default else value }
  function Number(value: int, default: int): int { if value == 0 then default else value }
  function Present<T>(value: Option<T>, default: T): Option<T> { if value.None? then Some(default) else value }

  function NormalProbe(p: Probe): Probe {
    Probe(Number(p.timeout, 1), Number(p.period, 10), Number(p.success, 1), Number(p.failure, 3),
          if p.http.Some? then Some(p.http.value.(scheme := Text(p.http.value.scheme, HTTP))) else None, p.rest)
  }

  function NormalOptProbe(p: Option<Probe>): Option<Probe> {
    if p.Some? then Some(NormalProbe(p.value)) else None
  }

  function NormalPort(p: Port): Port { p.(protocol := Text(p.protocol, TCP)) }

  function NormalContainer(c: Container): Container {
    Container(Text(c.messagePath, MESSAGE_PATH), Text(c.messagePolicy, MESSAGE_POLICY),
              seq(|c.ports|, i requires 0 <= i < |c.ports| => NormalPort(c.ports[i])),
              NormalOptProbe(c.liveness), NormalOptProbe(c.readiness), NormalOptProbe(c.startup), c.rest)
  }

  function NormalSource(s: Option<Source>): Option<Source> {
    if s.Some? then Some(s.value.(mode := Present(s.value.mode, DEFAULT_MODE))) else None
  }

  function NormalVolume(v: Volume): Volume {
    Volume(NormalSource(v.configMap), NormalSource(v.secret), NormalSource(v.downward), NormalSource(v.projected),
        v.rest)
  }

  function NormalContainers(cs: seq<Container>): seq<Container> {
    seq(|cs|, i requires 0 <= i < |cs| => NormalContainer(cs[i]))
  }

  function NormalVolumes(vs: seq<Volume>): seq<Volume> {
    seq(|vs|, i requires 0 <= i < |vs| => NormalVolume(vs[i]))
  }

  /** normalizePodTemplateDefaults as a function of the template. */
  function Normal(t: PodTemplate): PodTemplate {
    PodTemplate(t.annotations, Text(t.restartPolicy, RESTART_ALWAYS), Present(t.grace, 30),
                Text(t.dnsPolicy, CLUSTER_FIRST), Present(t.security, NO_SECURITY), Text(t.scheduler, SCHEDULER),
                NormalVolumes(t.volumes), NormalContainers(t.init), NormalContainers(t.containers), t.rest)
  }

  /** The template mutated in place, one slice at a time. */
  class TemplateCell {
    var template: PodTemplate

    constructor (t: PodTemplate)
      ensures template == t
    {
      template := t;
    }

    method Normalize()
      modifies this
      ensures template == Normal(old(template))
    {
      if template.restartPolicy == "" { template := template.(restartPolicy := RESTART_ALWAYS); }
      if template.grace.None? { template := template.(grace := Some(30)); }
      if template.dnsPolicy == "" { template := template.(dnsPolicy := CLUSTER_FIRST); }
      if template.security.None? { template := template.(security := Some(NO_SECURITY)); }
      if template.scheduler == "" { template := template.(scheduler := SCHEDULER); }
      var volumes := NormalizeVolumes(template.volumes);
      template := template.(volumes := volumes);
      var init := NormalizeContainers(template.init);
      template := template.(init := init);
      var containers := NormalizeContainers(template.containers);
      template := template.(containers := containers);
    }
  }

  method NormalizeVolumes(volumes: seq<Volume>) returns (r: seq<Volume>)
    ensures r == NormalVolumes(volumes)
  {
    r := volumes;
    for i := 0 to |volumes|
      invariant |r| == |volumes|
      invariant forall j :: 0 <= j < i ==> r[j] == NormalVolume(volumes[j])
      invariant forall j :: i <= j < |r| ==> r[j] == volumes[j]
    {
      var v := r[i];
      if v.configMap.Some? && v.configMap.value.mode.None? {
        v := v.(configMap := Some(v.configMap.value.(mode := Some(DEFAULT_MODE))));
      }
      if v.secret.Some? && v.secret.value.mode.None? {
        v := v.(secret := Some(v.secret.value.(mode := Some(DEFAULT_MODE))));
      }
      if v.downward.Some? && v.downward.value.mode.None? {
        v := v.(downward := Some(v.downward.value.(mode := Some(DEFAULT_MODE))));
      }
      if v.projected.Some? && v.projected.value.mode.None? {
        v := v.(projected := Some(v.projected.value.(mode := Some(DEFAULT_MODE))));
      }
      r := r[i := v];
    }
  }

  method NormalizeContainers(containers: seq<Container>) returns (r: seq<Container>)
    ensures r == NormalContainers(containers)
  {
    r := containers;
    for i := 0 to |containers|
      invariant |r| == |containers|
      invariant forall j :: 0 <= j < i ==> r[j] == NormalContainer(containers[j])
      invariant forall j :: i <= j < |r| ==> r[j] == containers[j]
    {
      var c := r[i];
      if c.messagePath == "" { c := c.(messagePath := MESSAGE_PATH); }
      if c.messagePolicy == "" { c := c.(messagePolicy := MESSAGE_POLICY); }
      var ports := c.ports;
      for p := 0 to |c.ports|
        invariant |ports| == |c.ports|
        invariant forall j :: 0 <= j < p ==> ports[j] == NormalPort(c.ports[j])
        invariant forall j :: p <= j < |ports| ==> ports[j] == c.ports[j]
      {
        if ports[p].protocol == "" {
          ports := ports[p := ports[p].(protocol := TCP)];
        }
      }
      c := c.(ports := ports, liveness := NormalOptProbe(c.liveness),
              readiness := NormalOptProbe(c.readiness), startup := NormalOptProbe(c.startup));
      r := r[i := c];
    }
  }

  // ---- API-server defaulting ------------------------------------------------
  //
  // What the API server stores may lie anywhere between the submitted template
  // and the template with every default of the API in place: each field left
  // unset is still unset or holds the API's own default, and no other moves.

  predicate Filled<T(==)>(submitted: T, stored: T, unset: T, default: T) {
    stored == submitted || (submitted == unset && stored == default)
  }

  ghost predicate HttpStored(h: Option<Http>, k: Option<Http>) {
    h.Some? == k.Some?
    && (h.Some? ==> Filled(h.value.scheme, k.value.scheme, "", "HTTP") && h.value.rest == k.value.rest)
  }

  ghost predicate ProbeStored(p: Option<Probe>, q: Option<Probe>) {
    && p.Some? == q.Some?
    && (p.Some? ==>
          && Filled(p.value.timeout, q.value.timeout, 0, 1) && Filled(p.value.period, q.value.period, 0, 10)
          && Filled(p.value.success, q.value.success, 0, 1) && Filled(p.value.failure, q.value.failure, 0, 3)
          && HttpStored(p.value.http, q.value.http) && p.value.rest == q.value.rest)
  }

  ghost predicate PortStored(p: Port, q: Port) { Filled(p.protocol, q.protocol, "", "TCP") && p.rest == q.rest }

  ghost predicate ContainerStored(c: Container, d: Container) {
    && Filled(c.messagePath, d.messagePath, "", "/dev/termination-log")
    && Filled(c.messagePolicy, d.messagePolicy, "", "File")
    && |c.ports| == |d.ports| && (forall i :: 0 <= i < |c.ports| ==> PortStored(c.ports[i], d.ports[i]))
    && ProbeStored(c.liveness, d.liveness) && ProbeStored(c.readiness, d.readiness)
    && ProbeStored(c.startup, d.startup) && c.rest == d.rest
  }

  ghost predicate SourceStored(s: Option<Source>, r: Option<Source>) {
    s.Some? == r.Some?
    && (s.Some? ==> Filled(s.value.mode, r.value.mode, None, Some(420)) && s.value.rest == r.value.rest)
  }

  ghost predicate VolumeStored(v: Volume, w: Volume) {
    && SourceStored(v.configMap, w.configMap) && SourceStored(v.secret, w.secret)
    && SourceStored(v.downward, w.downward) && SourceStored(v.projected, w.projected)
    && v.rest == w.rest
  }

  ghost predicate ContainersStored(cs: seq<Container>, ds: seq<Container>) {
    |cs| == |ds| && forall i :: 0 <= i < |cs| ==> ContainerStored(cs[i], ds[i])
  }

  ghost predicate VolumesStored(vs: seq<Volume>, ws: seq<Volume>) {
    |vs| == |ws| && forall i :: 0 <= i < |vs| ==> VolumeStored(vs[i], ws[i])
  }

  ghost predicate Stored(t: PodTemplate, u: PodTemplate) {
    && t.annotations == u.annotations && t.rest == u.rest
    && Filled(t.restartPolicy, u.restartPolicy, "", "Always") && Filled(t.grace, u.grace, None, Some(30))
    && Filled(t.dnsPolicy, u.dnsPolicy, "", "ClusterFirst") && Filled(t.security, u.security, None, Some("{}"))
    && Filled(t.scheduler, u.scheduler, "", "default-scheduler")
    && VolumesStored(t.volumes, u.volumes) && ContainersStored(t.init, u.init)
    && ContainersStored(t.containers, u.containers)
  }

  lemma ContainerStoredNormal(c: Container, d: Container)
    requires ContainerStored(c, d)
    ensures NormalContainer(d) == NormalContainer(c)
  {
    assert NormalContainer(d).ports == NormalContainer(c).ports;
  }

  lemma ContainersStoredNormal(cs: seq<Container>, ds: seq<Container>)
    requires ContainersStored(cs, ds)
    ensures NormalContainers(ds) == NormalContainers(cs)
  {
    forall i | 0 <= i < |cs| ensures NormalContainer(ds[i]) == NormalContainer(cs[i]) {
      ContainerStoredNormal(cs[i], ds[i]);
    }
  }

  lemma VolumesStoredNormal(vs: seq<Volume>, ws: seq<Volume>)
    requires VolumesStored(vs, ws)
    ensures NormalVolumes(ws) == NormalVolumes(vs)
  {
    forall i | 0 <= i < |vs| ensures NormalVolume(ws[i]) == NormalVolume(vs[i]) {
      assert VolumeStored(vs[i], ws[i]);
    }
  }

  /** However much of the defaulting the API server does, the comparison sees the submitted template. */
  lemma StoredNormal(t: PodTemplate, u: PodTemplate)
    requires Stored(t, u)
    ensures Normal(u) == Normal(t)
  {
    VolumesStoredNormal(t.volumes, u.volumes);
    ContainersStoredNormal(t.init, u.init);
    ContainersStoredNormal(t.containers, u.containers);
  }

  lemma NormalIsStored(t: PodTemplate)
    ensures Stored(t, Normal(t))
  {
    forall i | 0 <= i < |t.init| ensures ContainerStored(t.init[i], Normal(t).init[i]) {
      NormalContainerIsStored(t.init[i]);
    }
    forall i | 0 <= i < |t.containers| ensures ContainerStored(t.containers[i], Normal(t).containers[i]) {
      NormalContainerIsStored(t.containers[i]);
    }
  }

  lemma NormalContainerIsStored(c: Container)
    ensures ContainerStored(c, NormalContainer(c))
  {
  }

  /** Normalising twice is normalising once. */
  lemma NormalIdempotent(t: PodTemplate)
    ensures Normal(Normal(t)) == Normal(t)
  {
    NormalIsStored(t);
    StoredNormal(t, Normal(t));
  }
}
