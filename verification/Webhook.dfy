/** pkg/webhook/controller.go: the admission step that adds the sidecar container, and the RBAC objects
    it creates on the way. */
module Webhook {
  import opened Kube

  const ANNOTATION_ADDRESS := "storage.kubesphere.io/storage-capability-address"
  const ANNOTATION_VOLUME_NAME := "storage.kubesphere.io/storage-capability-volume-name"
  const ANNOTATION_MOUNT_PATH := "storage.kubesphere.io/storage-capability-mount-path"
  const STORAGE_CAPABILITY_IMAGE := "kubespheredev/storage-capability-sidecar:v0.1.0"
  const CLUSTER_ROLE_NAME := "storage-capability-sidecar"

  datatype Resource = Resource(group: string, version: string, resource: string)

  const POD_RESOURCE := Resource("", "v1", "pods")

  datatype EnvVar = EnvVar(name: string, value: string)
  datatype VolumeMount = VolumeMount(name: string, mountPath: string)
  datatype Container = Container(name: string, image: string, pullPolicy: string, args: seq<string>,
                                 env: seq<EnvVar>, mounts: seq<VolumeMount>)
  datatype Pod = Pod(annotations: map<string, string>, serviceAccount: string, containers: seq<Container>)

  /** pod is None when the raw bytes do not decode to a pod. */
  datatype Request = Request(resource: Resource, namespace: string, pod: Option<Pod>)

  datatype PatchOperation = PatchOperation(op: string, path: string, value: Container)

  // ---------------------------------------------------------------- annotations and the patch

  function Annotation(annotations: map<string, string>, key: string): string {
    if key in annotations then annotations[key] else ""
  }

  /** Go ranges over a map in any order; whatever the order, the result is three lookups. */
  method RetrieveAnnotations(annotations: map<string, string>) returns (address: string, volumeName: string, mountPath: string)
    ensures address == if "storage.kubesphere.io/storage-capability-address" in annotations
                       then annotations["storage.kubesphere.io/storage-capability-address"] else ""
    ensures volumeName == if "storage.kubesphere.io/storage-capability-volume-name" in annotations
                          then annotations["storage.kubesphere.io/storage-capability-volume-name"] else ""
    ensures mountPath == if "storage.kubesphere.io/storage-capability-mount-path" in annotations
                         then annotations["storage.kubesphere.io/storage-capability-mount-path"] else ""
  {
    address, volumeName, mountPath := "", "", "";
    KeysDiffer();
    var todo := annotations.Keys;
    while todo != {}
      invariant todo <= annotations.Keys
      invariant address == if ANNOTATION_ADDRESS in todo then "" else Annotation(annotations, ANNOTATION_ADDRESS)
      invariant volumeName == if ANNOTATION_VOLUME_NAME in todo then "" else Annotation(annotations, ANNOTATION_VOLUME_NAME)
      invariant mountPath == if ANNOTATION_MOUNT_PATH in todo then "" else Annotation(annotations, ANNOTATION_MOUNT_PATH)
    {
      var k :| k in todo;
      if k == ANNOTATION_ADDRESS {
        address := annotations[k];
      } else if k == ANNOTATION_VOLUME_NAME {
        volumeName := annotations[k];
      } else if k == ANNOTATION_MOUNT_PATH {
        mountPath := annotations[k];
      }
      todo := todo - {k};
    }
  }

  lemma KeysDiffer()
    ensures ANNOTATION_ADDRESS != ANNOTATION_VOLUME_NAME && ANNOTATION_VOLUME_NAME != ANNOTATION_MOUNT_PATH
    ensures ANNOTATION_ADDRESS != ANNOTATION_MOUNT_PATH
  {
    assert ANNOTATION_ADDRESS[41] == 'a' && ANNOTATION_VOLUME_NAME[41] == 'v' && ANNOTATION_MOUNT_PATH[41] == 'm';
  }

  function SidecarContainer(addr: string, volName: string, mountPath: string): Container {
    Container("storage-capability", STORAGE_CAPABILITY_IMAGE, "Always",
              ["--csi-address=$(ADDRESS)", "--v=5"], [EnvVar("ADDRESS", addr)], [VolumeMount(volName, mountPath)])
  }

  /** The pod asks for a sidecar: all three annotations are there and not empty. */
  ghost predicate AsksForSidecar(pod: Pod) {
    && "storage.kubesphere.io/storage-capability-address" in pod.annotations
    && pod.annotations["storage.kubesphere.io/storage-capability-address"] != ""
    && "storage.kubesphere.io/storage-capability-volume-name" in pod.annotations
    && pod.annotations["storage.kubesphere.io/storage-capability-volume-name"] != ""
    && "storage.kubesphere.io/storage-capability-mount-path" in pod.annotations
    && pod.annotations["storage.kubesphere.io/storage-capability-mount-path"] != ""
  }

  /** The reference tokens of a JSON pointer (section 3 of RFC 6901). */
  function Tokens(path: string): seq<string>
    decreases |path|
  {
    if path == "" || path[0] != '/' then []
    else [FirstToken(path[1..])] + Tokens(path[1 + |FirstToken(path[1..])|..])
  }

  function FirstToken(s: string): (t: string)
    ensures |t| <= |s|
  {
    if s == "" || s[0] == '/' then "" else [s[0]] + FirstToken(s[1..])
  }

  /** What the API server makes of an operation on a pod's container list: "add" at the position after
      the last element (section 4.1 of RFC 6902, section 4 of RFC 6901).  None: not such an operation. */
  function ApplyPatch(pod: Pod, p: PatchOperation): Option<Pod> {
    if p.op == "add" && Tokens(p.path) == ["spec", "containers", "-"]
    then Some(pod.(containers := pod.containers + [p.value]))
    else None
  }

  lemma {:induction false} FirstTokenIs(token: string, rest: string)
    requires '/' !in token && (rest == "" || rest[0] == '/')
    ensures FirstToken(token + rest) == token
  {
    if token == "" {
      assert token + rest == rest;
    } else {
      assert (token + rest)[1..] == token[1..] + rest;
      FirstTokenIs(token[1..], rest);
    }
  }

  lemma TokenThenRest(path: string, token: string, rest: string)
    requires path == ['/'] + token + rest && '/' !in token && (rest == "" || rest[0] == '/')
    ensures Tokens(path) == [token] + Tokens(rest)
  {
    FirstTokenIs(token, rest);
    assert path[1..] == token + rest;
    assert path[1 + |token|..] == rest;
  }

  lemma ContainersPath()
    ensures Tokens("/spec/containers/-") == ["spec", "containers", "-"]
  {
    hide Tokens, FirstToken;
    TokenThenRest("/-", "-", "");
    TokenThenRest("/containers/-", "containers", "/-");
    TokenThenRest("/spec/containers/-", "spec", "/containers/-");
    NoTokens();
  }

  lemma NoTokens()
    ensures Tokens("") == []
  {
  }

  /** What a patch with a sidecar means: the original containers stay, in order, and exactly one container
      with these values follows them; nothing else of the pod changes. */
  lemma PatchMeaning(pod: Pod, addr: string, volName: string, mountPath: string)
    ensures var t := ApplyPatch(pod, PatchOperation("add", "/spec/containers/-", SidecarContainer(addr, volName, mountPath)));
            && t.Some?
            && |t.value.containers| == |pod.containers| + 1
            && (forall i :: 0 <= i < |pod.containers| ==> t.value.containers[i] == pod.containers[i])
            && t.value.annotations == pod.annotations && t.value.serviceAccount == pod.serviceAccount
            && var sidecar := t.value.containers[|pod.containers|];
               && sidecar.name == "storage-capability"
               && sidecar.image == "kubespheredev/storage-capability-sidecar:v0.1.0"
               && sidecar.pullPolicy == "Always"
               && sidecar.args == ["--csi-address=$(ADDRESS)", "--v=5"]
               && sidecar.env == [EnvVar("ADDRESS", addr)]
               && sidecar.mounts == [VolumeMount(volName, mountPath)]
  {
    ContainersPath();
  }

  // ---------------------------------------------------------------- the RBAC store

  datatype ClusterRole = ClusterRole(name: string, apiGroups: seq<string>, resources: seq<string>, verbs: seq<string>)
  datatype Binding = Binding(name: string, role: string, subject: string, namespace: string)

  /** The manifests, decoded. */
  const SIDECAR_ROLE := ClusterRole(CLUSTER_ROLE_NAME, ["storage.kubesphere.io"], ["provisionercapabilities"],
                                    ["create", "get", "list", "watch", "update", "patch"])

  function UniqueName(sa: string, ns: string): string {
    sa + "-in-" + ns
  }

  function BindingFor(sa: string, ns: string): Binding {
    Binding(UniqueName(sa, ns), CLUSTER_ROLE_NAME, sa, ns)
  }

  datatype Rbac = Rbac(roles: map<string, ClusterRole>, bindings: map<string, Binding>)

  /** Create, for either kind: an object that exists is left alone. */
  function Created<T>(m: map<string, T>, name: string, o: T, fault: Fault): (map<string, T>, Err) {
    if fault.Rejected? then (m, Unavailable)
    else if name in m then (m, AlreadyExists)
    else (m[name := o], Said(Okay, fault))
  }

  /** The create functions of the webhook take "already exists" for success. */
  predicate Accepted(err: Err) {
    err.Okay? || err.AlreadyExists?
  }

  /** What may go wrong in one admission: either call, or rendering and decoding the binding. */
  datatype Trouble = Trouble(role: Fault, manifestFails: bool, binding: Fault)

  /** The two create functions on the store.  A manifest that does not decode is None. */
  function RolePut(st: Rbac, manifest: Option<ClusterRole>, fault: Fault): (Rbac, bool) {
    if manifest.None? then (st, false)
    else
      var (roles, err) := Created(st.roles, manifest.value.name, manifest.value, fault);
      (st.(roles := roles), Accepted(err))
  }

  function BindingPut(st: Rbac, manifest: Option<Binding>, fault: Fault): (Rbac, bool) {
    if manifest.None? then (st, false)
    else
      var (bindings, err) := Created(st.bindings, manifest.value.name, manifest.value, fault);
      (st.(bindings := bindings), Accepted(err))
  }

  function RoleCreated(st: Rbac, fault: Fault): (Rbac, bool) {
    RolePut(st, Some(SIDECAR_ROLE), fault)
  }

  function BindingCreated(st: Rbac, sa: string, ns: string, fault: Fault): (Rbac, bool) {
    BindingPut(st, Some(BindingFor(sa, ns)), fault)
  }

  /** AddClusterRoleBinding on the store. */
  function Granted(st: Rbac, sa: string, ns: string, trouble: Trouble): (Rbac, bool) {
    var (withRole, ok) := RoleCreated(st, trouble.role);
    if !ok || trouble.manifestFails then (withRole, false) else BindingCreated(withRole, sa, ns, trouble.binding)
  }

  class RbacServer {
    var roles: map<string, ClusterRole>
    var bindings: map<string, Binding>

    function State(): Rbac
      reads this
    {
      Rbac(roles, bindings)
    }

    method CreateClusterRole(role: ClusterRole, fault: Fault) returns (err: Err)
      modifies this`roles
      ensures (roles, err) == Created(old(roles), role.name, role, fault)
    {
      var r := Created(roles, role.name, role, fault);
      roles, err := r.0, r.1;
    }

    method CreateClusterRoleBinding(binding: Binding, fault: Fault) returns (err: Err)
      modifies this`bindings
      ensures (bindings, err) == Created(old(bindings), binding.name, binding, fault)
    {
      var r := Created(bindings, binding.name, binding, fault);
      bindings, err := r.0, r.1;
    }
  }

  method CreateSidecarClusterRole(client: RbacServer, manifest: Option<ClusterRole>, fault: Fault) returns (ok: bool)
    modifies client
    ensures (client.State(), ok) == RolePut(old(client.State()), manifest, fault)
    ensures client.bindings == old(client.bindings)
    ensures client.roles == if manifest.None? || fault.Rejected? || manifest.value.name in old(client.roles)
                            then old(client.roles) else old(client.roles)[manifest.value.name := manifest.value]
    ensures ok <==> manifest.Some? && (fault.NoFault? || (fault.ReplyLost? && manifest.value.name in old(client.roles)))
  {
    if manifest.None? {
      return false;
    }
    var err := client.CreateClusterRole(manifest.value, fault);
    if !err.Okay? {
      if err.AlreadyExists? {
        return true;
      }
      return false;
    }
    return true;
  }

  method CreateSidecarClusterRoleBinding(client: RbacServer, manifest: Option<Binding>, fault: Fault) returns (ok: bool)
    modifies client
    ensures (client.State(), ok) == BindingPut(old(client.State()), manifest, fault)
    ensures client.roles == old(client.roles)
    ensures client.bindings == if manifest.None? || fault.Rejected? || manifest.value.name in old(client.bindings)
                               then old(client.bindings) else old(client.bindings)[manifest.value.name := manifest.value]
    ensures ok <==> manifest.Some? && (fault.NoFault? || (fault.ReplyLost? && manifest.value.name in old(client.bindings)))
  {
    if manifest.None? {
      return false;
    }
    var err := client.CreateClusterRoleBinding(manifest.value, fault);
    if !err.Okay? {
      if err.AlreadyExists? {
        return true;
      }
      return false;
    }
    return true;
  }

  /** Nothing that was there changes.  What is added is at most a role that allows to create, get and update
      ProvisionerCapabilities, and a binding that gives it to this account in this namespace; after a
      success there is an object under either name. */
  method AddClusterRoleBinding(client: RbacServer, sa: string, ns: string, trouble: Trouble) returns (ok: bool)
    modifies client
    ensures (client.State(), ok) == Granted(old(client.State()), sa, ns, trouble)
    ensures forall n :: n in old(client.roles) ==> n in client.roles && client.roles[n] == old(client.roles)[n]
    ensures forall n :: n in old(client.bindings) ==> n in client.bindings && client.bindings[n] == old(client.bindings)[n]
    ensures forall n :: n in client.roles && n !in old(client.roles) ==>
              && n == "storage-capability-sidecar" && client.roles[n].name == n
              && client.roles[n].apiGroups == ["storage.kubesphere.io"]
              && client.roles[n].resources == ["provisionercapabilities"]
              && client.roles[n].verbs == ["create", "get", "list", "watch", "update", "patch"]
    ensures forall n :: n in client.bindings && n !in old(client.bindings) ==>
              && n == sa + "-in-" + ns && client.bindings[n].name == n
              && client.bindings[n].subject == sa && client.bindings[n].namespace == ns
              && client.bindings[n].role == "storage-capability-sidecar"
    ensures ok ==> "storage-capability-sidecar" in client.roles && sa + "-in-" + ns in client.bindings
  {
    ok := CreateSidecarClusterRole(client, Some(SIDECAR_ROLE), trouble.role);
    if !ok {
      return;
    }
    var manifest := if trouble.manifestFails then None else Some(Binding(sa + "-in-" + ns, CLUSTER_ROLE_NAME, sa, ns));
    ok := CreateSidecarClusterRoleBinding(client, manifest, trouble.binding);
  }

  /** The whole admission.  A pod request is patched if and only if the pod asks for a sidecar and its
      RBAC writes succeed; the patch adds one container with the annotated values, whose effect on the pod
      PatchMeaning states.  Every other request leaves the RBAC store alone and is let through, unless
      its pod cannot be decoded. */
  method AddSidecarContainer(req: Request, client: RbacServer, trouble: Trouble)
    returns (patches: seq<PatchOperation>, failed: bool)
    modifies client
    ensures var asks := req.resource == Resource("", "v1", "pods") && req.pod.Some? && AsksForSidecar(req.pod.value);
            && (patches != [] <==> asks && !failed)
            && (!asks ==> client.State() == old(client.State())
                          && (failed <==> req.resource == Resource("", "v1", "pods") && req.pod.None?))
            && (asks ==> (client.State(), !failed)
                           == Granted(old(client.State()), req.pod.value.serviceAccount, req.namespace, trouble))
    ensures patches != [] ==>
              && |patches| == 1 && patches[0].op == "add" && patches[0].path == "/spec/containers/-"
              && var values, sidecar := req.pod.value.annotations, patches[0].value;
                 && sidecar.name == "storage-capability"
                 && sidecar.image == "kubespheredev/storage-capability-sidecar:v0.1.0"
                 && sidecar.pullPolicy == "Always"
                 && sidecar.args == ["--csi-address=$(ADDRESS)", "--v=5"]
                 && sidecar.env == [EnvVar("ADDRESS", values["storage.kubesphere.io/storage-capability-address"])]
                 && sidecar.mounts == [VolumeMount(values["storage.kubesphere.io/storage-capability-volume-name"],
                                                   values["storage.kubesphere.io/storage-capability-mount-path"])]
  {
    patches, failed := [], false;
    if req.resource != POD_RESOURCE {
      return;
    }
    if req.pod.None? {
      failed := true;
      return;
    }
    var pod := req.pod.value;
    var addr, volName, mountPath := RetrieveAnnotations(pod.annotations);
    if addr != "" && volName != "" && mountPath != "" {
      patches := patches + [PatchOperation("add", "/spec/containers/-", SidecarContainer(addr, volName, mountPath))];
    } else {
      return;
    }
    var ok := AddClusterRoleBinding(client, pod.serviceAccount, req.namespace, trouble);
    if !ok {
      patches, failed := [], true;
    }
  }

  // ---------------------------------------------------------------- unique names

  predicate InfixAt(s: string, i: int) {
    0 <= i && i + 4 <= |s| && s[i] == '-' && s[i + 1] == 'i' && s[i + 2] == 'n' && s[i + 3] == '-'
  }

  /** s contains "-in-". */
  ghost predicate Infixed(s: string) {
    exists i :: InfixAt(s, i)
  }

  /** A namespace for which the generated name is unambiguous. */
  ghost predicate Clean(ns: string) {
    !Infixed("-" + ns)
  }

  lemma NameParts(sa: string, ns: string)
    ensures var name := UniqueName(sa, ns);
            && name[..|sa|] == sa && name[|sa| + 4..] == ns && InfixAt(name, |sa|)
            && forall x :: 0 <= x <= |ns| ==> ("-" + ns)[x] == name[|sa| + 3 + x]
  {
  }

  /** A second way to read a name shows the infix in the first way's namespace. */
  lemma TwoReadings(sa: string, ns: string, sb: string, nt: string)
    requires UniqueName(sa, ns) == UniqueName(sb, nt) && |sa| < |sb|
    ensures !Clean(ns)
  {
    hide UniqueName;
    NameParts(sa, ns);
    NameParts(sb, nt);
    var d := |sb| - |sa|;
    assert |UniqueName(sa, ns)| == |sa| + 4 + |ns|;
    assert d >= 3;
    assert InfixAt("-" + ns, d - 3);
  }

  lemma NameSplitsOnce(sa: string, ns: string, sb: string, nt: string)
    requires UniqueName(sa, ns) == UniqueName(sb, nt) && |sa| <= |sb| && Clean(ns)
    ensures sa == sb && ns == nt
  {
    if |sa| < |sb| {
      TwoReadings(sa, ns, sb, nt);
    } else {
      NameParts(sa, ns);
      NameParts(sb, nt);
    }
  }

  /** The generated name determines the service account and the namespace, among clean namespaces. */
  lemma UniqueNameInjective(sa: string, ns: string, sb: string, nt: string)
    requires UniqueName(sa, ns) == UniqueName(sb, nt) && Clean(ns) && Clean(nt)
    ensures sa == sb && ns == nt
  {
    if |sa| <= |sb| {
      NameSplitsOnce(sa, ns, sb, nt);
    } else {
      NameSplitsOnce(sb, nt, sa, ns);
    }
  }

  /** The longer account name of a namespace that is not clean. */
  lemma LongerCollision(sa: string, ns: string) returns (sb: string, nt: string)
    requires !Clean(ns)
    ensures UniqueName(sb, nt) == UniqueName(sa, ns) && |sb| > |sa|
  {
    var dashed := "-" + ns;
    var i :| InfixAt(dashed, i);
    assert dashed == dashed[..i] + "-in-" + dashed[i + 4..];
    sb, nt := sa + "-in" + dashed[..i], dashed[i + 4..];
    calc {
      UniqueName(sb, nt);
      sa + "-in" + (dashed[..i] + "-in-" + dashed[i + 4..]);
      sa + "-in" + dashed;
      UniqueName(sa, ns);
    }
  }

  /** The shorter account name of an account that contains the infix, or would with a dash after it. */
  lemma ShorterCollision(sa: string, ns: string) returns (sb: string, nt: string)
    requires Infixed(sa + "-")
    ensures UniqueName(sb, nt) == UniqueName(sa, ns) && |sb| < |sa|
  {
    var dashed := sa + "-";
    var i :| InfixAt(dashed, i);
    assert dashed == dashed[..i] + "-in-" + dashed[i + 4..];
    sb, nt := dashed[..i], dashed[i + 4..] + "in-" + ns;
    calc {
      UniqueName(sb, nt);
      dashed[..i] + "-in-" + dashed[i + 4..] + "in-" + ns;
      dashed + "in-" + ns;
      UniqueName(sa, ns);
    }
  }

  /** A second, shorter way to read a name shows the infix in the first way's account. */
  lemma ShorterReading(sa: string, ns: string, sb: string, nt: string)
    requires UniqueName(sa, ns) == UniqueName(sb, nt) && |sb| < |sa|
    ensures Infixed(sa + "-")
  {
    hide UniqueName;
    NameParts(sa, ns);
    NameParts(sb, nt);
    var name := UniqueName(sa, ns);
    assert |sa| - |sb| >= 3;
    assert forall x :: 0 <= x < |sa| ==> sa[x] == name[..|sa|][x] == name[x];
    assert InfixAt(sa + "-", |sb|);
  }

  /** Exactly which accounts have a name of their own: those whose namespace is clean and whose account
      name does not contain the infix either, the dash that follows it included.  Either half alone
      is not enough: ("a-in-b", "c") has a clean namespace and the name of ("a", "b-in-c"). */
  lemma OwnNameExactly(sa: string, ns: string)
    ensures Clean(ns) && !Infixed(sa + "-")
            <==> forall sb, nt :: UniqueName(sb, nt) == UniqueName(sa, ns) ==> sb == sa && nt == ns
  {
    if !Clean(ns) {
      var sb, nt := LongerCollision(sa, ns);
      assert UniqueName(sb, nt) == UniqueName(sa, ns) && sb != sa;
    } else if Infixed(sa + "-") {
      var sb, nt := ShorterCollision(sa, ns);
      assert UniqueName(sb, nt) == UniqueName(sa, ns) && sb != sa;
    } else {
      forall sb, nt | UniqueName(sb, nt) == UniqueName(sa, ns)
        ensures sb == sa && nt == ns
      {
        if |sb| < |sa| {
          ShorterReading(sa, ns, sb, nt);
        } else {
          NameSplitsOnce(sa, ns, sb, nt);
        }
      }
    }
  }

  // ---------------------------------------------------------------- among names that Kubernetes accepts

  predicate Alphanumeric(c: char) {
    'a' <= c <= 'z' || '0' <= c <= '9'
  }

  /** A label (RFC 1123), as namespaces have to be. */
  predicate Label(s: string) {
    && 0 < |s| <= 63
    && Alphanumeric(s[0]) && Alphanumeric(s[|s| - 1])
    && forall i :: 0 <= i < |s| ==> Alphanumeric(s[i]) || s[i] == '-'
  }

  /** A subdomain (RFC 1123), as service account names have to be: dots separate labels. */
  predicate Subdomain(s: string) {
    && 0 < |s| <= 253
    && Alphanumeric(s[0]) && Alphanumeric(s[|s| - 1])
    && (forall i :: 0 <= i < |s| ==> Alphanumeric(s[i]) || s[i] == '-' || s[i] == '.')
    && (forall i :: 0 < i < |s| - 1 && s[i] == '.' ==> Alphanumeric(s[i - 1]) && Alphanumeric(s[i + 1]))
  }

  /** The name can be read as an account that ends at p. */
  predicate SplitsAt(name: string, p: nat) {
    InfixAt(name, p) && Subdomain(name[..p]) && Label(name[p + 4..])
  }

  /** Exactly which accounts that Kubernetes accepts have a name of their own among such accounts: those
      whose name splits in no other place.  A namespace need not be clean for that. */
  lemma OwnValidNameExactly(sa: string, ns: string)
    requires Subdomain(sa) && Label(ns)
    ensures (forall p: nat :: SplitsAt(UniqueName(sa, ns), p) ==> p == |sa|)
            <==> forall sb, nt :: Subdomain(sb) && Label(nt) && UniqueName(sb, nt) == UniqueName(sa, ns) ==> sb == sa && nt == ns
  {
    hide Subdomain, Label, UniqueName;
    var name := UniqueName(sa, ns);
    NameParts(sa, ns);
    if p: nat :| SplitsAt(name, p) && p != |sa| {
      assert name[..p] + "-in-" + name[p + 4..] == name;
      assert UniqueName(name[..p], name[p + 4..]) == name by { NameOf(name[..p], name[p + 4..]); }
    } else {
      forall sb, nt | Subdomain(sb) && Label(nt) && UniqueName(sb, nt) == name
        ensures sb == sa && nt == ns
      {
        NameParts(sb, nt);
        assert SplitsAt(name, |sb|);
      }
    }
  }

  lemma NameOf(sa: string, ns: string)
    ensures UniqueName(sa, ns) == sa + "-in-" + ns
  {
  }

  /** An account whose namespace is not clean, and yet with a name of its own: read the other way, the name
      would belong to a namespace that begins with a dash. */
  lemma UncleanButOwn(p: nat)
    ensures Subdomain("x") && Label("a-in--b") && !Clean("a-in--b")
    ensures SplitsAt(UniqueName("x", "a-in--b"), p) ==> p == |"x"|
  {
    assert InfixAt("-" + "a-in--b", 2);
    var name := UniqueName("x", "a-in--b");
    assert name == "x-in-a-in--b";
    if SplitsAt(name, p) {
      assert name[p + 4..][0] == name[p + 4];
    }
  }

  // ---------------------------------------------------------------- concurrent admissions

  /** An admission in progress: nothing created yet, the role created, answered with a patch, refused. */
  datatype Stage = Wanted | RoleReady | Patched | Refused
  datatype Admission = Admission(sa: string, ns: string, stage: Stage)
  datatype Hook = Hook(rbac: Rbac, admissions: seq<Admission>)

  /** A pod that asks for a sidecar arrives, or some admission makes its next API call. */
  datatype Move = Arrive(sa: string, ns: string) | Call(i: nat, fault: Fault, manifestFails: bool)

  predicate CanMove(h: Hook, m: Move) {
    m.Arrive? || (m.i < |h.admissions| && (h.admissions[m.i].stage.Wanted? || h.admissions[m.i].stage.RoleReady?))
  }

  function Moved(h: Hook, m: Move): Hook
    requires CanMove(h, m)
  {
    match m
    case Arrive(sa, ns) => h.(admissions := h.admissions + [Admission(sa, ns, Wanted)])
    case Call(i, fault, manifestFails) =>
      var a := h.admissions[i];
      if a.stage.Wanted? then
        var (rbac, ok) := RoleCreated(h.rbac, fault);
        Hook(rbac, h.admissions[i := a.(stage := if ok && !manifestFails then RoleReady else Refused)])
      else
        var (rbac, ok) := BindingCreated(h.rbac, a.sa, a.ns, fault);
        Hook(rbac, h.admissions[i := a.(stage := if ok then Patched else Refused)])
  }

  ghost predicate CanMoveAll(h: Hook, ms: seq<Move>)
    decreases |ms|
  {
    ms == [] || (CanMove(h, ms[0]) && CanMoveAll(Moved(h, ms[0]), ms[1..]))
  }

  ghost function MovedAll(h: Hook, ms: seq<Move>): Hook
    requires CanMoveAll(h, ms)
    decreases |ms|
  {
    if ms == [] then h else MovedAll(Moved(h, ms[0]), ms[1..])
  }

  datatype Account = Account(sa: string, ns: string)

  /** No two of these accounts get the same binding name. */
  ghost predicate Unambiguous(accounts: iset<Account>) {
    forall a, b :: a in accounts && b in accounts && UniqueName(a.sa, a.ns) == UniqueName(b.sa, b.ns) ==> a == b
  }

  /** The accounts of clean namespaces are such a set, and an infinite one. */
  lemma CleanUnambiguous()
    ensures Unambiguous(iset a: Account | Clean(a.ns))
  {
    hide Clean, UniqueName;
    forall a: Account, b: Account | Clean(a.ns) && Clean(b.ns) && UniqueName(a.sa, a.ns) == UniqueName(b.sa, b.ns)
      ensures a == b
    {
      UniqueNameInjective(a.sa, a.ns, b.sa, b.ns);
    }
  }

  /** The role lets its holders maintain ProvisionerCapabilities. */
  predicate Allows(role: ClusterRole) {
    && "storage.kubesphere.io" in role.apiGroups && "provisionercapabilities" in role.resources
    && "create" in role.verbs && "get" in role.verbs && "update" in role.verbs
  }

  /** The binding gives the sidecar's role to this account. */
  predicate Binds(b: Binding, sa: string, ns: string) {
    b.subject == sa && b.namespace == ns && b.role == "storage-capability-sidecar"
  }

  /** Nothing foreign sits under the role's name or under the name of one of these accounts. */
  ghost predicate NoForeign(st: Rbac, accounts: iset<Account>) {
    && ("storage-capability-sidecar" in st.roles ==> Allows(st.roles["storage-capability-sidecar"]))
    && (forall a :: a in accounts && UniqueName(a.sa, a.ns) in st.bindings ==>
          Binds(st.bindings[UniqueName(a.sa, a.ns)], a.sa, a.ns))
  }

  predicate HasRole(st: Rbac) {
    "storage-capability-sidecar" in st.roles && Allows(st.roles["storage-capability-sidecar"])
  }

  /** A stored binding of the account's name has exactly this account as its subject, and the role it
      refers to is stored and lets the account create, get and update ProvisionerCapabilities. */
  predicate MayReport(st: Rbac, sa: string, ns: string) {
    && sa + "-in-" + ns in st.bindings
    && var b := st.bindings[sa + "-in-" + ns];
       && b.subject == sa && b.namespace == ns && b.role in st.roles
       && var role := st.roles[b.role];
          && "storage.kubesphere.io" in role.apiGroups && "provisionercapabilities" in role.resources
          && "create" in role.verbs && "get" in role.verbs && "update" in role.verbs
  }

  ghost predicate HookOk(h: Hook, accounts: iset<Account>) {
    && NoForeign(h.rbac, accounts)
    && forall i :: 0 <= i < |h.admissions| ==>
         && Account(h.admissions[i].sa, h.admissions[i].ns) in accounts
         && (h.admissions[i].stage.RoleReady? ==> HasRole(h.rbac))
         && (h.admissions[i].stage.Patched? ==> MayReport(h.rbac, h.admissions[i].sa, h.admissions[i].ns))
  }

  lemma BindingKeepsOthers(st: Rbac, accounts: iset<Account>, sa: string, ns: string, fault: Fault)
    requires Unambiguous(accounts) && NoForeign(st, accounts) && Account(sa, ns) in accounts
    ensures var (t, ok) := BindingCreated(st, sa, ns, fault);
            && NoForeign(t, accounts) && t.roles == st.roles
            && (forall n :: n in st.bindings ==> n in t.bindings && t.bindings[n] == st.bindings[n])
            && (ok && HasRole(st) ==> MayReport(t, sa, ns))
  {
    hide UniqueName;
    var (t, ok) := BindingCreated(st, sa, ns, fault);
    NameOf(sa, ns);
    forall b | b in accounts && UniqueName(b.sa, b.ns) in t.bindings
      ensures Binds(t.bindings[UniqueName(b.sa, b.ns)], b.sa, b.ns)
    {
      if UniqueName(b.sa, b.ns) == UniqueName(sa, ns) {
        assert b == Account(sa, ns);
      }
    }
  }

  lemma MoveOk(h: Hook, accounts: iset<Account>, m: Move)
    requires Unambiguous(accounts) && HookOk(h, accounts) && CanMove(h, m)
    requires m.Arrive? ==> Account(m.sa, m.ns) in accounts
    ensures HookOk(Moved(h, m), accounts)
  {
    hide UniqueName, NoForeign, Unambiguous;
    if m.Call? {
      var a := h.admissions[m.i];
      if a.stage.Wanted? {
        RoleKeeps(h.rbac, accounts, m.fault);
      } else {
        BindingKeepsOthers(h.rbac, accounts, a.sa, a.ns, m.fault);
      }
    }
  }

  lemma RoleKeeps(st: Rbac, accounts: iset<Account>, fault: Fault)
    requires NoForeign(st, accounts)
    ensures var (t, ok) := RoleCreated(st, fault);
            NoForeign(t, accounts) && t.bindings == st.bindings && (ok ==> HasRole(t)) && (HasRole(st) ==> t == st)
  {
  }

  /** Every pod that arrives belongs to one of these accounts. */
  ghost predicate Among(ms: seq<Move>, accounts: iset<Account>) {
    forall j :: 0 <= j < |ms| && ms[j].Arrive? ==> Account(ms[j].sa, ms[j].ns) in accounts
  }

  /** Every admission answered with a patch has the role and a binding with exactly its account as subject. */
  ghost predicate KeptPromises(h: Hook) {
    forall i :: 0 <= i < |h.admissions| && h.admissions[i].stage.Patched? ==>
      MayReport(h.rbac, h.admissions[i].sa, h.admissions[i].ns)
  }

  /** Over any interleaving of any number of admissions for accounts with distinct names, with any failing
      calls, from a store with nothing foreign under the generated names: every admission that was
      answered with a patch has, from then on, what its sidecar needs. */
  lemma {:induction false} PatchedMayReport(h: Hook, ms: seq<Move>, accounts: iset<Account>)
    requires Unambiguous(accounts) && HookOk(h, accounts) && CanMoveAll(h, ms) && Among(ms, accounts)
    ensures KeptPromises(MovedAll(h, ms))
    decreases |ms|
  {
    hide MayReport, NoForeign, CanMove, Moved, Unambiguous;
    if ms != [] {
      assert ms[0].Arrive? ==> Account(ms[0].sa, ms[0].ns) in accounts;
      MoveOk(h, accounts, ms[0]);
      PatchedMayReport(Moved(h, ms[0]), ms[1..], accounts);
      assert MovedAll(h, ms) == MovedAll(Moved(h, ms[0]), ms[1..]);
    }
  }

  const NEW_HOOK := Hook(Rbac(map[], map[]), [])

  /** The untroubled admissions of two accounts, one after the other. */
  function TwoAdmissions(a: Account, b: Account): seq<Move> {
    [Arrive(a.sa, a.ns), Call(0, NoFault, false), Call(0, NoFault, false),
     Arrive(b.sa, b.ns), Call(1, NoFault, false), Call(1, NoFault, false)]
  }

  lemma MoveOn(h: Hook, ms: seq<Move>)
    requires ms != [] && CanMove(h, ms[0]) && CanMoveAll(Moved(h, ms[0]), ms[1..])
    ensures CanMoveAll(h, ms) && MovedAll(h, ms) == MovedAll(Moved(h, ms[0]), ms[1..])
  {
  }

  lemma TwoAdmissionsEnd(a: Account, b: Account)
    requires UniqueName(a.sa, a.ns) == UniqueName(b.sa, b.ns) && a != b
    ensures CanMoveAll(NEW_HOOK, TwoAdmissions(a, b)) && !KeptPromises(MovedAll(NEW_HOOK, TwoAdmissions(a, b)))
  {
    hide UniqueName, CanMoveAll, MovedAll;
    var ms := TwoAdmissions(a, b);
    var h1 := Moved(NEW_HOOK, ms[0]);
    var h2 := Moved(h1, ms[1]);
    var h3 := Moved(h2, ms[2]);
    var h4 := Moved(h3, ms[3]);
    var h5 := Moved(h4, ms[4]);
    var h6 := Moved(h5, ms[5]);
    assert h6.admissions == [Admission(a.sa, a.ns, Patched), Admission(b.sa, b.ns, Patched)];
    assert h6.rbac.bindings == map[UniqueName(a.sa, a.ns) := BindingFor(a.sa, a.ns)];
    assert !MayReport(h6.rbac, h6.admissions[1].sa, h6.admissions[1].ns);
    NoMoves(h6);
    assert ms[5..] == [ms[5]] && ms[4..][1..] == ms[5..] && ms[3..][1..] == ms[4..];
    assert ms[2..][1..] == ms[3..] && ms[1..][1..] == ms[2..] && ms[5..][1..] == [];
    MoveOn(h5, ms[5..]);
    MoveOn(h4, ms[4..]);
    MoveOn(h3, ms[3..]);
    MoveOn(h2, ms[2..]);
    MoveOn(h1, ms[1..]);
    MoveOn(NEW_HOOK, ms);
  }

  lemma NoMoves(h: Hook)
    ensures CanMoveAll(h, []) && MovedAll(h, []) == h
  {
  }

  /** The exact condition.  For whatever accounts the pods may have: every run of admissions from an empty
      store keeps its promises if and only if no two of the accounts get the same name. */
  lemma PromisesKeptExactly(accounts: iset<Account>)
    ensures Unambiguous(accounts)
            <==> forall ms :: CanMoveAll(NEW_HOOK, ms) && Among(ms, accounts) ==> KeptPromises(MovedAll(NEW_HOOK, ms))
  {
    hide KeptPromises, UniqueName, CanMoveAll, MovedAll;
    if Unambiguous(accounts) {
      forall ms | CanMoveAll(NEW_HOOK, ms) && Among(ms, accounts)
        ensures KeptPromises(MovedAll(NEW_HOOK, ms))
      {
        PatchedMayReport(NEW_HOOK, ms, accounts);
      }
    } else {
      var a, b :| a in accounts && b in accounts && UniqueName(a.sa, a.ns) == UniqueName(b.sa, b.ns) && a != b;
      TwoAdmissionsEnd(a, b);
      assert Among(TwoAdmissions(a, b), accounts);
    }
  }

  // ---------------------------------------------------------------- one admission at a time

  /** Exactly when an admission is granted: both creates find or leave an object, and are told so, and the
      binding's manifest can be rendered. */
  lemma GrantedExactly(st: Rbac, sa: string, ns: string, trouble: Trouble)
    ensures Granted(st, sa, ns, trouble).1
            <==> && (trouble.role.NoFault? || (trouble.role.ReplyLost? && "storage-capability-sidecar" in st.roles))
                 && !trouble.manifestFails
                 && (trouble.binding.NoFault? || (trouble.binding.ReplyLost? && sa + "-in-" + ns in st.bindings))
  {
  }

  /** An undisturbed admission is a run of the concurrent ones: the same effect, patched if granted. */
  lemma GrantedIsMoves(st: Rbac, sa: string, ns: string, trouble: Trouble)
    ensures var wanted := Hook(st, [Admission(sa, ns, Wanted)]);
            var one := Moved(wanted, Call(0, trouble.role, trouble.manifestFails));
            var two := if CanMove(one, Call(0, trouble.binding, false)) then Moved(one, Call(0, trouble.binding, false)) else one;
            && two.rbac == Granted(st, sa, ns, trouble).0
            && two.admissions[0].stage == if Granted(st, sa, ns, trouble).1 then Patched else Refused
  {
  }

  /** Without the assumption on names: an untroubled admission always returns a patch, and it leaves its
      account able to report exactly if what had the generated names before, if anything, served it. */
  lemma GrantIsRight(st: Rbac, sa: string, ns: string)
    ensures var (t, ok) := Granted(st, sa, ns, Trouble(NoFault, false, NoFault));
            var name := sa + "-in-" + ns;
            && ok
            && (MayReport(t, sa, ns) <==>
                  if name in st.bindings then
                    && st.bindings[name].subject == sa && st.bindings[name].namespace == ns
                    && if st.bindings[name].role in st.roles then Allows(st.roles[st.bindings[name].role])
                       else st.bindings[name].role == "storage-capability-sidecar"
                  else
                    "storage-capability-sidecar" in st.roles ==> Allows(st.roles["storage-capability-sidecar"]))
  {
  }

  /** Two pods, two namespaces, one name: the second is admitted with a patch but never bound. */
  lemma CollidingAdmissions()
    ensures var quiet := Trouble(NoFault, false, NoFault);
            var (first, _) := Granted(Rbac(map[], map[]), "a", "b-in-c", quiet);
            var (second, ok) := Granted(first, "a-in-b", "c", quiet);
            ok && second == first && MayReport(second, "a", "b-in-c") && !MayReport(second, "a-in-b", "c")
  {
    assert UniqueName("a", "b-in-c") == "a-in-b-in-c" == UniqueName("a-in-b", "c");
    assert |"a"| != |"a-in-b"|;
  }

  /** Admitting again after a success changes nothing, whatever fails this time. */
  lemma RepeatChangesNothing(st: Rbac, sa: string, ns: string, first: Trouble, again: Trouble)
    requires Granted(st, sa, ns, first).1
    ensures Granted(Granted(st, sa, ns, first).0, sa, ns, again).0 == Granted(st, sa, ns, first).0
  {
  }
}
