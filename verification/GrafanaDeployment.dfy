/** Merging the required environment, mounts and volumes into an existing Grafana deployment
    (pkg/grafana/deployment.go) without overwriting anything. */
module GrafanaDeployment {
  import opened Wrappers

  datatype ValueFrom = SecretKeyRef(name: string, key: string) | OtherSource

  datatype EnvVar = EnvVar(name: string, value: string, valueFrom: Option<ValueFrom>)

  datatype Mount = Mount(name: string, path: string)

  /** A volume with the name of its ConfigMap, if that is what it is. */
  datatype Volume = Volume(name: string, configMap: Option<string>)

  datatype Container = Container(name: string, env: seq<EnvVar>, mounts: seq<Mount>)

  datatype Pod = Pod(containers: seq<Container>, volumes: seq<Volume>)

  const CONTAINER := "grafana"
  const SOURCE_VOLUME := "grafana-source-config"
  const PROVIDER_VOLUME := "grafana-dash-config"
  const DASHBOARD_VOLUME := "dashboard-templates"

  const ENV1 := SecretEnv("PROMETHEUS_TOKEN", "grafana-prometheus-token")
  const ENV2 := SecretEnv("LOKI_TOKEN", "grafana-loki-token")
  const MOUNT1 := Mount(SOURCE_VOLUME, "/etc/grafana/provisioning/datasources")
  const MOUNT2 := Mount(PROVIDER_VOLUME, "/etc/grafana/provisioning/dashboards")
  const MOUNT3 := Mount(DASHBOARD_VOLUME, "/var/lib/grafana/dashboards")
  const VOLUME1 := Volume(SOURCE_VOLUME, Some("grafana-source-config"))
  const VOLUME2 := Volume(PROVIDER_VOLUME, Some("grafana-dashboard-config"))
  const VOLUME3 := Volume(DASHBOARD_VOLUME, Some("grafana-dashboards"))

  function SecretEnv(name: string, secret: string): EnvVar {
    EnvVar(name, "", Some(SecretKeyRef(secret, "token")))
  }

  function FindContainer(containers: seq<Container>): (i: nat)
    ensures i <= |containers|
    ensures i < |containers| ==> containers[i].name == CONTAINER
    ensures forall j :: 0 <= j < i ==> containers[j].name != CONTAINER
  {
    if containers == [] || containers[0].name == CONTAINER then 0 else 1 + FindContainer(containers[1..])
  }

  // ---------------------------------------------------------------- conflicts

  /** The first entry of a kind, if there is one, is the wanted entry. */
  predicate FirstIs<T(==)>(entries: seq<T>, kin: T -> bool, want: T) {
    forall i :: 0 <= i < |entries| && kin(entries[i]) && (forall j :: 0 <= j < i ==> !kin(entries[j])) ==>
      entries[i] == want
  }

  function EnvKin(want: EnvVar): EnvVar -> bool {
    (e: EnvVar) => e.name == want.name
  }

  predicate Related(m: Mount, want: Mount) {
    m.name == want.name || m.path == want.path
  }

  function MountKin(want: Mount): Mount -> bool {
    (m: Mount) => Related(m, want)
  }

  function VolumeKin(want: Volume): Volume -> bool {
    (v: Volume) => v.name == want.name
  }

  /** No variable of the wanted name, or first of all the wanted one. */
  predicate EnvFree(env: seq<EnvVar>, want: EnvVar) {
    FirstIs(env, EnvKin(want), want)
  }

  /** No mount of the wanted name or path, or first of all the wanted one. */
  predicate MountFree(mounts: seq<Mount>, want: Mount) {
    FirstIs(mounts, MountKin(want), want)
  }

  /** No volume of the wanted name, or first of all the wanted one. */
  predicate VolumeFree(volumes: seq<Volume>, want: Volume) {
    FirstIs(volumes, VolumeKin(want), want)
  }

  function With<T(==)>(entries: seq<T>, want: T): seq<T> {
    if want in entries then entries else entries + [want]
  }

  /** The pod with everything required; says nothing about conflicts. */
  function Complete(pod: Pod): Pod {
    var i := FindContainer(pod.containers);
    if i == |pod.containers| then pod
    else
      var c := pod.containers[i];
      Pod(pod.containers[i := Container(c.name, With(With(c.env, ENV1), ENV2),
                                        With(With(With(c.mounts, MOUNT1), MOUNT2), MOUNT3))],
          With(With(With(pod.volumes, VOLUME1), VOLUME2), VOLUME3))
  }

  /** Nothing in the pod, as it is, stands in the way of a required entry. */
  predicate NoConflict(pod: Pod) {
    var i := FindContainer(pod.containers);
    && i < |pod.containers|
    && EnvFree(pod.containers[i].env, ENV1) && EnvFree(pod.containers[i].env, ENV2)
    && MountFree(pod.containers[i].mounts, MOUNT1) && MountFree(pod.containers[i].mounts, MOUNT2)
    && MountFree(pod.containers[i].mounts, MOUNT3)
    && VolumeFree(pod.volumes, VOLUME1) && VolumeFree(pod.volumes, VOLUME2) && VolumeFree(pod.volumes, VOLUME3)
  }

  // ---------------------------------------------------------------- the merge

  /** The deployment read from the API server, edited in place. */
  class Deployment {
    var containers: seq<Container>
    var volumes: seq<Volume>

    constructor (pod: Pod)
      ensures Value() == pod
    {
      containers, volumes := pod.containers, pod.volumes;
    }

    function Value(): Pod
      reads this
    {
      Pod(containers, volumes)
    }

    method EnsureSecretEnvVar(c: nat, want: EnvVar) returns (ok: bool)
      requires c < |containers| && want.value == "" && want.valueFrom.Some? && want.valueFrom.value.SecretKeyRef?
      modifies this`containers
      ensures ok <==> EnvFree(old(containers[c].env), want)
      ensures containers == if ok then old(containers)[c := old(containers[c]).(env := With(old(containers[c].env), want))]
                            else old(containers)
    {
      var env := containers[c].env;
      assert containers[c := containers[c].(env := env)] == containers;
      for i := 0 to |env|
        invariant forall j :: 0 <= j < i ==> env[j].name != want.name
        invariant containers == old(containers)
      {
        if env[i].name == want.name {
          if env[i].value != "" {
            return false;
          }
          if env[i].valueFrom.None? || !env[i].valueFrom.value.SecretKeyRef? {
            return false;
          }
          if env[i].valueFrom.value.name != want.valueFrom.value.name || env[i].valueFrom.value.key != want.valueFrom.value.key {
            return false;
          }
          assert env[i] == want;
          return true;
        }
      }
      containers := containers[c := containers[c].(env := env + [want])];
      return true;
    }

    method EnsureVolumeMount(c: nat, want: Mount) returns (ok: bool)
      requires c < |containers|
      modifies this`containers
      ensures ok <==> MountFree(old(containers[c].mounts), want)
      ensures containers == if ok then old(containers)[c := old(containers[c]).(mounts := With(old(containers[c].mounts), want))]
                            else old(containers)
    {
      var mounts := containers[c].mounts;
      assert containers[c := containers[c].(mounts := mounts)] == containers;
      for i := 0 to |mounts|
        invariant forall j :: 0 <= j < i ==> !Related(mounts[j], want)
        invariant containers == old(containers)
      {
        if mounts[i].name == want.name {
          if mounts[i].path != want.path {
            assert Related(mounts[i], want) && mounts[i] != want;
            return false;
          }
          assert mounts[i] == want && Related(mounts[i], want);
          return true;
        }
        if mounts[i].path == want.path {
          assert Related(mounts[i], want) && mounts[i] != want;
          return false;
        }
      }
      assert want !in mounts by { assert Related(want, want); }
      containers := containers[c := containers[c].(mounts := mounts + [want])];
      return true;
    }

    method EnsureConfigMapVolume(want: Volume) returns (ok: bool)
      requires want.configMap.Some?
      modifies this`volumes
      ensures ok <==> VolumeFree(old(volumes), want)
      ensures volumes == if ok then With(old(volumes), want) else old(volumes)
    {
      for i := 0 to |volumes|
        invariant volumes == old(volumes)
        invariant forall j :: 0 <= j < i ==> volumes[j].name != want.name
      {
        if volumes[i].name == want.name {
          if volumes[i].configMap.None? || volumes[i].configMap != want.configMap {
            return false;
          }
          assert volumes[i] == want;
          return true;
        }
      }
      volumes := volumes + [want];
      return true;
    }

    /** `mergeExistingGrafanaDeployment`. */
    method MergeExisting() returns (ok: bool)
      modifies this
      ensures ok <==> NoConflict(old(Value()))
      ensures ok ==> Value() == Complete(old(Value()))
    {
      hide EnvFree, MountFree, VolumeFree, With;
      ghost var before := Value();
      var c := FindContainer(containers);
      if c == |containers| {
        return false;
      }
      ghost var env, mounts := containers[c].env, containers[c].mounts;
      EnvsIndependent(env);
      MountsIndependent(mounts);
      VolumesIndependent(volumes);
      ok := EnsureSecretEnvVar(c, ENV1);
      if !ok { return; }
      ok := EnsureSecretEnvVar(c, ENV2);
      if !ok { return; }
      ok := EnsureVolumeMount(c, MOUNT1);
      if !ok { return; }
      ok := EnsureVolumeMount(c, MOUNT2);
      if !ok { return; }
      ok := EnsureVolumeMount(c, MOUNT3);
      if !ok { return; }
      ok := EnsureConfigMapVolume(VOLUME1);
      if !ok { return; }
      ok := EnsureConfigMapVolume(VOLUME2);
      if !ok { return; }
      ok := EnsureConfigMapVolume(VOLUME3);
    }
  }

  /** An entry of another kind, added at the end, is not in the way. */
  lemma Appended<T>(entries: seq<T>, other: T, kin: T -> bool, want: T)
    requires !kin(other)
    ensures FirstIs(entries + [other], kin, want) <==> FirstIs(entries, kin, want)
  {
    var more := entries + [other];
    assert forall i :: 0 <= i < |entries| ==> more[i] == entries[i];
  }

  lemma RequiredUnrelated()
    ensures !Related(MOUNT1, MOUNT2) && !Related(MOUNT1, MOUNT3) && !Related(MOUNT2, MOUNT3)
    ensures VOLUME1.name != VOLUME2.name && VOLUME1.name != VOLUME3.name && VOLUME2.name != VOLUME3.name
  {
    assert |SOURCE_VOLUME| == 21 && |PROVIDER_VOLUME| == 19 && |DASHBOARD_VOLUME| == 19;
    assert PROVIDER_VOLUME[0] != DASHBOARD_VOLUME[0];
    assert |MOUNT1.path| == 37 && |MOUNT2.path| == 36 && |MOUNT3.path| == 27;
  }

  /** Whether a required entry is in the way of another can be told from the original lists. */
  lemma EnvsIndependent(env: seq<EnvVar>)
    ensures EnvFree(With(env, ENV1), ENV2) <==> EnvFree(env, ENV2)
  {
    assert |ENV1.name| == 16 && |ENV2.name| == 10;
    Appended(env, ENV1, EnvKin(ENV2), ENV2);
  }

  lemma MountsIndependent(mounts: seq<Mount>)
    ensures MountFree(With(mounts, MOUNT1), MOUNT2) <==> MountFree(mounts, MOUNT2)
    ensures MountFree(With(With(mounts, MOUNT1), MOUNT2), MOUNT3) <==> MountFree(mounts, MOUNT3)
  {
    RequiredUnrelated();
    hide FirstIs, Related;
    var m1 := With(mounts, MOUNT1);
    Appended(mounts, MOUNT1, MountKin(MOUNT2), MOUNT2);
    Appended(mounts, MOUNT1, MountKin(MOUNT3), MOUNT3);
    Appended(m1, MOUNT2, MountKin(MOUNT3), MOUNT3);
  }

  lemma VolumesIndependent(volumes: seq<Volume>)
    ensures VolumeFree(With(volumes, VOLUME1), VOLUME2) <==> VolumeFree(volumes, VOLUME2)
    ensures VolumeFree(With(With(volumes, VOLUME1), VOLUME2), VOLUME3) <==> VolumeFree(volumes, VOLUME3)
  {
    RequiredUnrelated();
    hide FirstIs;
    var v1 := With(volumes, VOLUME1);
    Appended(volumes, VOLUME1, VolumeKin(VOLUME2), VOLUME2);
    Appended(volumes, VOLUME1, VolumeKin(VOLUME3), VOLUME3);
    Appended(v1, VOLUME2, VolumeKin(VOLUME3), VOLUME3);
  }

  // ---------------------------------------------------------------- properties

  /** With distinct names and paths, as a valid pod has, a wanted mount is free exactly when no mount
      shares its name without its path or its path without its name. */
  lemma MountFreeIff(mounts: seq<Mount>, want: Mount)
    requires forall i, j :: 0 <= i < j < |mounts| ==> mounts[i].name != mounts[j].name && mounts[i].path != mounts[j].path
    ensures MountFree(mounts, want)
            <==> forall i :: 0 <= i < |mounts| ==> (mounts[i].name == want.name <==> mounts[i].path == want.path)
  {
    if MountFree(mounts, want) {
      forall i | 0 <= i < |mounts| ensures mounts[i].name == want.name <==> mounts[i].path == want.path {
        if Related(mounts[i], want) {
          var f := FirstOfKind(mounts, MountKin(want), i);
          assert mounts[f] == want;
        }
      }
    }
  }

  lemma {:induction false} FirstOfKind<T>(entries: seq<T>, kin: T -> bool, i: nat) returns (f: nat)
    requires i < |entries| && kin(entries[i])
    ensures f <= i && kin(entries[f]) && forall j :: 0 <= j < f ==> !kin(entries[j])
    decreases i
  {
    if j :| 0 <= j < i && kin(entries[j]) {
      f := FirstOfKind(entries, kin, j);
    } else {
      f := i;
    }
  }

  predicate DistinctPaths(mounts: seq<Mount>) {
    forall i, j :: 0 <= i < j < |mounts| ==> mounts[i].path != mounts[j].path
  }

  lemma MountKeepsPaths(mounts: seq<Mount>, want: Mount)
    requires MountFree(mounts, want) && DistinctPaths(mounts)
    ensures DistinctPaths(With(mounts, want))
  {
    if want !in mounts {
      NoneOfKind(mounts, MountKin(want), want);
      assert forall i :: 0 <= i < |mounts| ==> !MountKin(want)(mounts[i]);
    }
  }

  /** If the wanted entry would be the first of its kind but is missing, there is none of the kind. */
  lemma NoneOfKind<T>(entries: seq<T>, kin: T -> bool, want: T)
    requires FirstIs(entries, kin, want) && want !in entries
    ensures forall i :: 0 <= i < |entries| ==> !kin(entries[i])
  {
    forall i | 0 <= i < |entries| ensures !kin(entries[i]) {
      if kin(entries[i]) {
        var f := FirstOfKind(entries, kin, i);
        assert false;
      }
    }
  }

  /** Once added, it is the first of its kind. */
  lemma AddedIsFirst<T>(entries: seq<T>, kin: T -> bool, want: T)
    requires FirstIs(entries, kin, want)
    ensures FirstIs(With(entries, want), kin, want)
  {
    if want !in entries { NoneOfKind(entries, kin, want); }
  }

  /** All required entries are there. */
  predicate HasAll(pod: Pod) {
    var i := FindContainer(pod.containers);
    && i < |pod.containers|
    && ENV1 in pod.containers[i].env && ENV2 in pod.containers[i].env
    && MOUNT1 in pod.containers[i].mounts && MOUNT2 in pod.containers[i].mounts && MOUNT3 in pod.containers[i].mounts
    && VOLUME1 in pod.volumes && VOLUME2 in pod.volumes && VOLUME3 in pod.volumes
  }

  /** Entries are added at the end and only if missing. */
  lemma AddedAtEnd<T>(entries: seq<T>, first: T, second: T, third: T)
    ensures var two := With(With(entries, first), second); entries <= two && first in two && second in two
    ensures var three := With(With(With(entries, first), second), third);
            entries <= three && first in three && second in three && third in three
  {
    var one := With(entries, first);
    var two := With(one, second);
    var three := With(two, third);
    assert first == one[|one| - 1] || first in entries;
    assert second == two[|two| - 1] || second in one;
    assert third == three[|three| - 1] || third in two;
    assert entries <= one <= two <= three;
  }

  predicate SeenUnder(pod: Pod, path: string, configMap: string) {
    var i := FindContainer(pod.containers);
    i < |pod.containers| && pod.containers[i].name == "grafana" &&
    exists m, v :: 0 <= m < |pod.containers[i].mounts| && 0 <= v < |pod.volumes| && pod.containers[i].mounts[m].path == path
      && pod.containers[i].mounts[m].name == pod.volumes[v].name && pod.volumes[v].configMap == Some(configMap)
  }

  predicate TokenFrom(pod: Pod, name: string, secret: string) {
    var i := FindContainer(pod.containers);
    i < |pod.containers| && pod.containers[i].name == "grafana" && EnvVar(name, "", Some(SecretKeyRef(secret, "token"))) in pod.containers[i].env
  }

  lemma MountShows(pod: Pod, mount: Mount, volume: Volume, configMap: string)
    requires var i := FindContainer(pod.containers);
             i < |pod.containers| && mount in pod.containers[i].mounts && volume in pod.volumes
    requires mount.name == volume.name && volume.configMap == Some(configMap)
    ensures SeenUnder(pod, mount.path, configMap)
  {
    var i := FindContainer(pod.containers);
    var m :| 0 <= m < |pod.containers[i].mounts| && pod.containers[i].mounts[m] == mount;
    var v :| 0 <= v < |pod.volumes| && pod.volumes[v] == volume;
  }

  /** What a complete pod serves: each of the three ConfigMaps under the path where Grafana looks for it,
      and the two tokens from their Secrets. */
  lemma CompletePodServes(pod: Pod)
    requires HasAll(pod)
    ensures SeenUnder(pod, "/etc/grafana/provisioning/datasources", "grafana-source-config")
    ensures SeenUnder(pod, "/etc/grafana/provisioning/dashboards", "grafana-dashboard-config")
    ensures SeenUnder(pod, "/var/lib/grafana/dashboards", "grafana-dashboards")
    ensures TokenFrom(pod, "PROMETHEUS_TOKEN", "grafana-prometheus-token") && TokenFrom(pod, "LOKI_TOKEN", "grafana-loki-token")
  {
    MountShows(pod, MOUNT1, VOLUME1, "grafana-source-config");
    MountShows(pod, MOUNT2, VOLUME2, "grafana-dashboard-config");
    MountShows(pod, MOUNT3, VOLUME3, "grafana-dashboards");
    hide SeenUnder;
  }

  /** A merged pod has all required entries; what was there is a prefix of what is there, other
      containers are untouched, and mount paths stay distinct. */
  lemma MergeAddsOnlyWhatIsRequired(pod: Pod)
    requires NoConflict(pod)
    ensures var i, after := FindContainer(pod.containers), Complete(pod);
            && HasAll(after)
            && |after.containers| == |pod.containers|
            && (forall j :: 0 <= j < |pod.containers| && j != i ==> after.containers[j] == pod.containers[j])
            && pod.containers[i].env <= after.containers[i].env
            && pod.containers[i].mounts <= after.containers[i].mounts
            && pod.volumes <= after.volumes
            && (DistinctPaths(pod.containers[i].mounts) ==> DistinctPaths(after.containers[i].mounts))
  {
    hide EnvFree, MountFree, VolumeFree, DistinctPaths, With;
    SameContainer(pod);
    var c := pod.containers[FindContainer(pod.containers)];
    var m0 := c.mounts;
    AddedAtEnd(c.env, ENV1, ENV2, ENV2);
    AddedAtEnd(m0, MOUNT1, MOUNT2, MOUNT3);
    AddedAtEnd(pod.volumes, VOLUME1, VOLUME2, VOLUME3);
    MountsIndependent(m0);
    if DistinctPaths(m0) {
      MountKeepsPaths(m0, MOUNT1);
      MountKeepsPaths(With(m0, MOUNT1), MOUNT2);
      MountKeepsPaths(With(With(m0, MOUNT1), MOUNT2), MOUNT3);
    }
  }

  lemma SameContainer(pod: Pod)
    ensures FindContainer(Complete(pod).containers) == FindContainer(pod.containers)
  {
    var i, after := FindContainer(pod.containers), Complete(pod).containers;
    var k := FindContainer(after);
    if i < |pod.containers| {
      assert after[i].name == CONTAINER;
      assert forall j :: 0 <= j < i ==> after[j] == pod.containers[j];
    }
  }

  /** A complete pod is left exactly as it is. */
  lemma CompleteIsFixed(pod: Pod)
    requires HasAll(pod)
    ensures Complete(pod) == pod
  {
    var i := FindContainer(pod.containers);
    assert pod.containers[i := pod.containers[i]] == pod.containers;
  }

  /** A second merge finds no conflict and changes nothing. */
  lemma RerunChangesNothing(pod: Pod)
    requires NoConflict(pod)
    ensures NoConflict(Complete(pod)) && Complete(Complete(pod)) == Complete(pod)
  {
    MergeAddsOnlyWhatIsRequired(pod);
    CompleteIsFixed(Complete(pod));
    SameContainer(pod);
    var c := pod.containers[FindContainer(pod.containers)];
    EnvStaysFree(c.env);
    MountStaysFree(c.mounts);
    VolumeStaysFree(pod.volumes);
    hide EnvFree, MountFree, VolumeFree, With, HasAll, DistinctPaths;
  }

  lemma EnvStaysFree(env: seq<EnvVar>)
    requires EnvFree(env, ENV1) && EnvFree(env, ENV2)
    ensures var after := With(With(env, ENV1), ENV2); EnvFree(after, ENV1) && EnvFree(after, ENV2)
  {
    assert |ENV1.name| == 16 && |ENV2.name| == 10;
    EnvsIndependent(env);
    hide FirstIs;
    AddedIsFirst(env, EnvKin(ENV1), ENV1);
    AddedIsFirst(With(env, ENV1), EnvKin(ENV2), ENV2);
    Appended(With(env, ENV1), ENV2, EnvKin(ENV1), ENV1);
  }

  lemma MountStaysFree(mounts: seq<Mount>)
    requires MountFree(mounts, MOUNT1) && MountFree(mounts, MOUNT2) && MountFree(mounts, MOUNT3)
    ensures var after := With(With(With(mounts, MOUNT1), MOUNT2), MOUNT3);
            MountFree(after, MOUNT1) && MountFree(after, MOUNT2) && MountFree(after, MOUNT3)
  {
    hide FirstIs;
    RequiredUnrelated();
    MountsIndependent(mounts);
    var m1 := With(mounts, MOUNT1);
    var m2 := With(m1, MOUNT2);
    AddedIsFirst(mounts, MountKin(MOUNT1), MOUNT1);
    AddedIsFirst(m1, MountKin(MOUNT2), MOUNT2);
    AddedIsFirst(m2, MountKin(MOUNT3), MOUNT3);
    Appended(m1, MOUNT2, MountKin(MOUNT1), MOUNT1);
    Appended(m2, MOUNT3, MountKin(MOUNT1), MOUNT1);
    Appended(m2, MOUNT3, MountKin(MOUNT2), MOUNT2);
  }

  lemma VolumeStaysFree(volumes: seq<Volume>)
    requires VolumeFree(volumes, VOLUME1) && VolumeFree(volumes, VOLUME2) && VolumeFree(volumes, VOLUME3)
    ensures var after := With(With(With(volumes, VOLUME1), VOLUME2), VOLUME3);
            VolumeFree(after, VOLUME1) && VolumeFree(after, VOLUME2) && VolumeFree(after, VOLUME3)
  {
    hide FirstIs;
    RequiredUnrelated();
    VolumesIndependent(volumes);
    var v1 := With(volumes, VOLUME1);
    var v2 := With(v1, VOLUME2);
    AddedIsFirst(volumes, VolumeKin(VOLUME1), VOLUME1);
    AddedIsFirst(v1, VolumeKin(VOLUME2), VOLUME2);
    AddedIsFirst(v2, VolumeKin(VOLUME3), VOLUME3);
    Appended(v1, VOLUME2, VolumeKin(VOLUME1), VOLUME1);
    Appended(v2, VOLUME3, VolumeKin(VOLUME1), VOLUME1);
    Appended(v2, VOLUME3, VolumeKin(VOLUME2), VOLUME2);
  }

  // ---------------------------------------------------------------- installing

  /** `newGrafanaDeployment`. */
  const NEW_POD := Pod([Container(CONTAINER, [ENV1, ENV2], [MOUNT1, MOUNT2, MOUNT3])], [VOLUME1, VOLUME2, VOLUME3])

  lemma FromNothing<T>(first: T, second: T, third: T)
    requires first != second && first != third
    ensures With(With([], first), second) == [first, second]
    ensures second != third ==> With(With(With([], first), second), third) == [first, second, third]
  {
  }

  lemma RequiredDiffer()
    ensures ENV1 != ENV2
    ensures MOUNT1 != MOUNT2 && MOUNT1 != MOUNT3 && MOUNT2 != MOUNT3
    ensures VOLUME1 != VOLUME2 && VOLUME1 != VOLUME3 && VOLUME2 != VOLUME3
  {
    RequiredUnrelated();
    assert |ENV1.name| == 16 && |ENV2.name| == 10;
  }

  /** The merge is a no-op on the deployment the program creates itself. */
  lemma NewPodIsComplete()
    ensures NoConflict(NEW_POD) && Complete(NEW_POD) == NEW_POD
  {
    var bare := Pod([Container(CONTAINER, [], [])], []);
    hide ENV1, ENV2, MOUNT1, MOUNT2, MOUNT3, VOLUME1, VOLUME2, VOLUME3, CONTAINER, With;
    assert FindContainer(bare.containers) == 0;
    assert NoConflict(bare);
    RerunChangesNothing(bare);
    RequiredDiffer();
    FromNothing(ENV1, ENV2, ENV2);
    FromNothing(MOUNT1, MOUNT2, MOUNT3);
    FromNothing(VOLUME1, VOLUME2, VOLUME3);
    hide NoConflict;
    assert Complete(bare) == NEW_POD;
  }

  datatype Reply = Fine | AlreadyExists | Failing

  class DeploymentStore {
    /** The deployment in the API server. */
    var stored: Option<Pod>

    constructor (stored: Option<Pod>)
      ensures this.stored == stored
    {
      this.stored := stored;
    }

    /** `EnsureDeployment`.  The in-memory object of a merge that fails half-way is dropped: on any
        error the stored deployment is what it was. */
    method EnsureDeployment(getFails: bool, update: Reply, create: Reply) returns (ok: bool)
      modifies this
      ensures !ok ==> stored == old(stored)
      ensures getFails ==> !ok
      ensures !getFails && old(stored).Some? ==>
                && (ok <==> NoConflict(old(stored).value) && update == Fine)
                && (ok ==> stored == Some(Complete(old(stored).value)))
      ensures !getFails && old(stored).None? ==>
                && (ok <==> create != Failing)
                && stored == if create == Fine then Some(NEW_POD) else None
    {
      if getFails {
        return false;
      }
      if stored.Some? {
        var existing := new Deployment(stored.value);
        var merged := existing.MergeExisting();
        if !merged || update != Fine {
          return false;
        }
        stored := Some(Pod(existing.containers, existing.volumes));
        return true;
      }
      if create == Fine {
        stored := Some(NEW_POD);
      }
      return create != Failing;
    }
  }
}
