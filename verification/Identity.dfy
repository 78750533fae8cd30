/**
 Instances, components and the names and labels derived from them
 (internal/shared/identity, and the name functions of the installers' value helpers).
 */
module Identity {
  import opened Base32

  // ---------------------------------------------------------------- names

  datatype Component = Controller | Main | Webhooks | Helm | Manifest

  function ComponentName(c: Component): string {
    match c
    case Controller => "landscaper-controller"
    case Main => "landscaper-controller-main"
    case Webhooks => "landscaper-webhooks-server"
    case Helm => "helm-deployer"
    case Manifest => "manifest-deployer"
  }

  datatype Suffix = Config | ControllerMcp | ControllerWorkload | WebhooksMcp | McpKubeconfig

  function SuffixText(x: Suffix): string {
    match x
    case Config => "config"
    case ControllerMcp => "controller-mcp-kubeconfig"
    case ControllerWorkload => "controller-workload-kubeconfig"
    case WebhooksMcp => "webhooks-mcp-kubeconfig"
    case McpKubeconfig => "mcp-kubeconfig"
  }

  /**
   The name of an object, in the terms the installers compute it from. Itself is the
   name of a namespace object, Plain a name taken over from elsewhere. PullCopy is the
   copy of the source pull secret for one component.
   */
  datatype Name =
    | Itself
    | Default(c: Component)
    | Suffixed(c: Component, x: Suffix)
    | PullCopy(c: Component, source: string)
    | Plain(text: string)

  /** NameHashSHAKE128Base32: any function, which has to separate the sources at hand where that matters. */
  type NameHash = string -> string

  /** The hash does not take the sources of two copies for the same. */
  predicate Separated(hash: NameHash, m: Name, n: Name) {
    m.PullCopy? && n.PullCopy? && hash(m.source) == hash(n.source) ==> m.source == n.source
  }

  /** The text of a name on the API server. */
  function Render(hash: NameHash, n: Name): string {
    match n
    case Itself => ""
    case Default(c) => ComponentName(c)
    case Suffixed(c, x) => ComponentName(c) + "-" + SuffixText(x)
    case PullCopy(c, source) => ComponentName(c) + "-" + ("imgpull-" + hash(source))
    case Plain(text) => text
  }

  predicate SecretName(n: Name) {
    n.Suffixed? || n.PullCopy?
  }

  /** What follows the component and the dash in the name of a Secret. */
  function Tail(hash: NameHash, n: Name): (t: string)
    requires SecretName(n)
    ensures Render(hash, n) == ComponentName(n.c) + "-" + t
  {
    match n
    case Suffixed(c, x) => SuffixText(x)
    case PullCopy(c, source) => "imgpull-" + hash(source)
  }

  /** No tail reads on as "main-": it is what keeps the prefix-related pair of components apart. */
  lemma TailIsNotMain(hash: NameHash, n: Name)
    requires SecretName(n)
    ensures |Tail(hash, n)| >= 2
    ensures Tail(hash, n)[..2] != "ma"
  {
    var t := Tail(hash, n);
    match n
    case Suffixed(c, x) => assert t[..2][0] != 'm' || t[..2][1] != 'a';
    case PullCopy(c, source) => assert t[..2][0] == 'i';
  }

  lemma ControllerOrMain(s: string, t: string)
    requires "landscaper-controller" + "-" + s == "landscaper-controller-main" + "-" + t && |s| >= 2
    ensures s[..2] == "ma"
  {
    var a, b := "landscaper-controller" + "-" + s, "landscaper-controller-main" + "-" + t;
    assert s[0] == a[22] == b[22] == 'm' && s[1] == a[23] == b[23] == 'a';
  }

  /** The first letters tell the components apart, but for the controller and its main part. */
  lemma FirstLetters(c: Component, d: Component, s: string, t: string)
    requires ComponentName(c) + "-" + s == ComponentName(d) + "-" + t
    ensures c == d || {c, d} == {Controller, Main}
  {
    var a, b := ComponentName(c) + "-" + s, ComponentName(d) + "-" + t;
    assert a[0] == ComponentName(c)[0] && b[0] == ComponentName(d)[0];
    assert a[11] == ComponentName(c)[11] && b[11] == ComponentName(d)[11];
  }

  lemma SameComponent(c: Component, d: Component, s: string, t: string)
    requires ComponentName(c) + "-" + s == ComponentName(d) + "-" + t
    requires |s| >= 2 && s[..2] != "ma" && |t| >= 2 && t[..2] != "ma"
    ensures c == d
  {
    FirstLetters(c, d, s, t);
    if c == Controller && d == Main { ControllerOrMain(s, t); }
    if c == Main && d == Controller { ControllerOrMain(t, s); }
  }

  lemma SameTail(c: Component, s: string, t: string)
    requires ComponentName(c) + "-" + s == ComponentName(c) + "-" + t
    ensures s == t
  {
    var p := ComponentName(c) + "-";
    assert (p + s)[|p|..] == s && (p + t)[|p|..] == t;
  }

  /**
   Two Secrets of an instance with the same text of a name are the same Secret: a fixed
   Secret never meets another one or a copy, and (component, source) determines the copy.
   */
  lemma SecretNamesDistinct(hash: NameHash, m: Name, n: Name)
    requires SecretName(m) && SecretName(n) && Separated(hash, m, n)
    requires Render(hash, m) == Render(hash, n)
    ensures m == n
  {
    var s, t := Tail(hash, m), Tail(hash, n);
    TailIsNotMain(hash, m); TailIsNotMain(hash, n);
    SameComponent(m.c, n.c, s, t);
    SameTail(m.c, s, t);
    assert s[0] == t[0];
    if m.PullCopy? && n.PullCopy? {
      assert s[8..] == hash(m.source) && t[8..] == hash(n.source);
    }
  }

  lemma DefaultNamesDistinct(c: Component, d: Component)
    requires ComponentName(c) == ComponentName(d)
    ensures c == d
  {}

  // ---------------------------------------------------------------- labels

  type Labels = map<string, string>

  const APP_NAME := "app.kubernetes.io/name"
  const APP_INSTANCE := "app.kubernetes.io/instance"
  const APP_COMPONENT := "app.kubernetes.io/component"
  const TOPOLOGY := "landscaper.openmcp-project.cloud/topology"
  const TOPOLOGY_NS := "landscaper.openmcp-project.cloud/topology-ns"

  function SelectorLabels(instance: string, name: string): Labels {
    map[APP_NAME := "landscaper", APP_INSTANCE := "landscaper-" + instance, APP_COMPONENT := name]
  }

  function TopologyLabels(instance: string, name: string): Labels {
    map[TOPOLOGY := name, TOPOLOGY_NS := Namespace(instance)]
  }

  function DeploymentTemplateLabels(instance: string, name: string): Labels {
    TopologyLabels(instance, name) + SelectorLabels(instance, name)
  }

  /** A selector matches the pods that carry all its labels. */
  predicate Matches(selector: Labels, labels: Labels) {
    forall k :: k in selector ==> k in labels && labels[k] == selector[k]
  }

  lemma LabelKeysDistinct()
    ensures APP_NAME != APP_INSTANCE && APP_NAME != APP_COMPONENT && APP_INSTANCE != APP_COMPONENT
    ensures TOPOLOGY !in {APP_NAME, APP_INSTANCE, APP_COMPONENT}
    ensures TOPOLOGY_NS !in {APP_NAME, APP_INSTANCE, APP_COMPONENT}
  {
    assert APP_INSTANCE[18] != APP_COMPONENT[18];
    assert |TOPOLOGY| == 41;
  }

  /** The central Deployment labels its pods with the selector labels alone, the others add the topology. */
  function TemplateLabels(instance: string, name: string, central: bool): Labels {
    if central then SelectorLabels(instance, name) else DeploymentTemplateLabels(instance, name)
  }

  /** A selector picks exactly the pods of its own component in its own instance. */
  lemma SelectorExact(i: string, c: string, j: string, d: string, central: bool)
    ensures Matches(SelectorLabels(i, c), TemplateLabels(j, d, central)) <==> i == j && c == d
  {
    LabelKeysDistinct();
    var s, t := SelectorLabels(i, c), TemplateLabels(j, d, central);
    assert t[APP_COMPONENT] == d && t[APP_INSTANCE] == "landscaper-" + j;
    assert APP_COMPONENT in s && APP_INSTANCE in s;
    if Matches(s, t) {
      assert s[APP_COMPONENT] == c && s[APP_INSTANCE] == "landscaper-" + i;
      assert ("landscaper-" + i)[11..] == i && ("landscaper-" + j)[11..] == j;
    }
  }

  // ---------------------------------------------------------------- instances

  function Namespace(instance: string): string {
    "ls-system-" + instance
  }

  lemma NamespaceInjective(i: string, j: string)
    requires Namespace(i) == Namespace(j)
    ensures i == j
  {
    assert Namespace(i)[10..] == i && Namespace(j)[10..] == j;
  }

  /**
   What is hashed into an instance id. The namespace of the Landscaper stands where a
   format string is expected, so the separator and the name end up as extra operands.
   Fprintf is modelled for format strings without a verb: namespaces contain no '%'.
   */
  function HashedText(namespace: string, name: string): string
    requires '%' !in namespace
  {
    namespace + ("%!(EXTRA string=/, string=" + name + ")")
  }

  lemma SameInside(p: string, x: string, y: string, q: string)
    requires p + x + q == p + y + q
    ensures x == y
  {
    var a, b := p + x + q, p + y + q;
    assert a[|p|..|a| - |q|] == x && b[|p|..|b| - |q|] == y;
  }

  lemma Reassociate(p: string, x: string, q: string)
    ensures "%" + p + x + q == "%" + (p + x + q)
  {}

  lemma FirstPercent(n: string, m: string, s: string, t: string)
    requires '%' !in n && '%' !in m
    requires n + ("%" + s) == m + ("%" + t)
    ensures n == m && s == t
  {
    var a := n + ("%" + s);
    var b := m + ("%" + t);
    assert a[|n|] == '%' && b[|m|] == '%';
    assert forall i :: 0 <= i < |n| ==> a[i] == n[i] && a[i] in n;
    assert forall i :: 0 <= i < |m| ==> b[i] == m[i] && b[i] in m;
    assert n == a[..|n|] && m == b[..|m|];
    assert s == a[|n| + 1..] && t == b[|m| + 1..];
  }

  /** The odd text still identifies the Landscaper. */
  lemma HashedTextInjective(ns: string, name: string, ns': string, name': string)
    requires '%' !in ns && '%' !in ns'
    requires HashedText(ns, name) == HashedText(ns', name')
    ensures ns == ns' && name == name'
  {
    var p, q := "!(EXTRA string=/, string=", ")";
    var s, t := p + name + q, p + name' + q;
    assert HashedText(ns, name) == ns + ("%" + s) && HashedText(ns', name') == ns' + ("%" + t) by {
      assert "%!(EXTRA string=/, string=" == "%" + p;
      Reassociate(p, name, q); Reassociate(p, name', q);
    }
    FirstPercent(ns, ns', s, t);
    SameInside(p, name, name', q);
  }

  type Digest = d: seq<Byte> | |d| == 20 witness seq(20, _ => 0)

  /** SHA-1: any function to twenty bytes that separates the texts it is used on. */
  type Sha1 = string -> Digest

  function ComputeInstanceID(sha1: Sha1, namespace: string, name: string): string
    requires '%' !in namespace
  {
    Encode(sha1(HashedText(namespace, name)))
  }

  /** The text is the one that is hashed for the Landscaper. */
  predicate Hashes(namespace: string, name: string, text: string)
    requires '%' !in namespace
  {
    text == HashedText(namespace, name)
  }

  /** The id is the one computed for the Landscaper. */
  ghost predicate Identifies(sha1: Sha1, namespace: string, name: string, id: string) {
    '%' !in namespace && forall text :: Hashes(namespace, name, text) ==> id == Encode(sha1(text))
  }

  lemma IdentifiesComputed(sha1: Sha1, namespace: string, name: string, id: string)
    requires '%' !in namespace
    ensures Identifies(sha1, namespace, name, id) <==> id == ComputeInstanceID(sha1, namespace, name)
  {
    assert Hashes(namespace, name, HashedText(namespace, name));
  }

  /** A label of at most 63 lower-case letters, digits and inner dashes (section 2.1 of RFC 1123). */
  predicate ValidLabel(s: string) {
    && 1 <= |s| <= 63
    && (forall i :: 0 <= i < |s| ==>
      InAlphabet(s[i]) || s[i] == '0' || s[i] == '1' || s[i] == '8' || s[i] == '9' || s[i] == '-')
    && s[0] != '-' && s[|s| - 1] != '-'
  }

  /** Every computed id is 32 characters long, and its namespace is a valid label. */
  lemma InstanceNamespaceValid(sha1: Sha1, namespace: string, name: string)
    requires '%' !in namespace
    ensures |ComputeInstanceID(sha1, namespace, name)| == 32
    ensures ValidLabel(Namespace(ComputeInstanceID(sha1, namespace, name)))
  {
    var id := ComputeInstanceID(sha1, namespace, name);
    var s := Namespace(id);
    assert s[41] == id[31];
    forall i | 0 <= i < |s|
      ensures InAlphabet(s[i]) || s[i] == '-'
    {
      if i >= 10 { assert s[i] == id[i - 10]; }
    }
  }

  /** No two digests share an encoding. */
  lemma EncodeInjective(a: Digest, b: Digest)
    requires Encode(a) == Encode(b)
    ensures a == b
  {
    RoundTrip(a);
    RoundTrip(b);
  }

  /** Different Landscapers get different namespaces, as far as SHA-1 separates the hashed texts. */
  lemma DistinctNamespaces(sha1: Sha1, ns: string, name: string, ns': string, name': string)
    requires '%' !in ns && '%' !in ns'
    requires (ns, name) != (ns', name')
    requires sha1(HashedText(ns, name)) == sha1(HashedText(ns', name')) ==>
      HashedText(ns, name) == HashedText(ns', name')
    ensures Namespace(ComputeInstanceID(sha1, ns, name)) != Namespace(ComputeInstanceID(sha1, ns', name'))
  {
    var i, j := ComputeInstanceID(sha1, ns, name), ComputeInstanceID(sha1, ns', name');
    if Namespace(i) == Namespace(j) {
      NamespaceInjective(i, j);
      EncodeInjective(sha1(HashedText(ns, name)), sha1(HashedText(ns', name')));
      HashedTextInjective(ns, name, ns', name');
    }
  }
}
