/**
 Everything a reconcile reads and writes, as one value: the stored Landscaper, the access
 requests, the objects of the instance, the platform cluster, and the triggers on their way.
 Around it: what the environment may do at any time, what each call of the controller does,
 and what holds in every reachable state.
 */
module World {
  import opened Wrappers
  import opened Identity
  import opened Store
  import opened Conditions
  import opened Plans
  import opened Platform

  // ---------------------------------------------------------------- state

  datatype Landscaper = Landscaper(
    uid: nat, rv: nat, generation: nat,
    deleting: bool,           // has a deletion timestamp
    finalizer: bool,          // has the controller's finalizer
    foreign: bool,            // has finalizers of others
    annotated: bool,          // has the reconcile annotation
    id: string,               // the instance-id label, "" if missing
    version: string, configRef: Option<string>,
    status: LandscaperStatus)

  const FRESH_STATUS := LandscaperStatus(None, [], 0, NoPhase)

  datatype Request = Absent | Pending | Granted | Deleting

  predicate Live(r: Request) { r == Pending || r == Granted }

  datatype RouteCondition = RouteCondition(kind: string, status: string)
  datatype RouteParent = RouteParent(name: string, ns: Option<string>, conditions: seq<RouteCondition>)

  /** What other controllers report: the gateway and its base domain, the status of the route, ready Deployments. */
  datatype Observed = Observed(gateway: Option<Option<string>>, parents: seq<RouteParent>, ready: set<Component>)

  /** A pull secret or a CA ConfigMap of the platform cluster, and a copy of it in the instance. */
  datatype Source = PullSource(name: string) | CaSource(name: string)
  datatype Target = PullTarget(c: Component, name: string) | CaTarget(name: string) {
    function Origin(): Source { if PullTarget? then PullSource(name) else CaSource(name) }

    function Key(ns: string): Key {
      if PullTarget? then SecretKey(ns, PullCopy(c, name)) else ConfigMapKey(ns, name)
    }

    function Copy(data: Data): Object { if PullTarget? then SecretObject(data) else ConfigMapObject(data) }
  }

  datatype Held = Held(source: Source, data: Data)

  /**
   Triggers on their way and the progress of the running reconcile. events: watch events not
   yet handled; listing: handled, the Landscaper not yet listed; patching: listed without the
   annotation, not yet patched. queued: the key is in the work queue on account of a change;
   retry: it is there because the last run ended early. lapsed: since the last run began, a
   handler's call failed or the provider configuration changed. held: the source just read.
   */
  datatype Book = Book(
    events: set<Source>, listing: set<Source>, patching: set<Source>,
    queued: bool, retry: bool, lapsed: bool,
    running: bool, written: set<Target>, held: Option<Held>)

  /** What the names of a Landscaper's objects are computed from: the id for its namespace and name, and the hash. */
  datatype Naming = Naming(id: string, hash: NameHash)

  datatype World = World(
    ls: Option<Landscaper>,
    clock: nat,               // the last uid or resource version given out
    now: nat,
    platform: PlatformState,
    mcp: Request, workload: Request,
    objects: Objects,         // created by the runs for this Landscaper
    observed: Observed,
    retired: bool,            // a delete run has put a request of this Landscaper into deletion
    naming: Naming,           // never changes
    book: Book)

  predicate Same(w: World, v: World) {
    w.ls.Some? && v.ls.Some? && w.ls.value.uid == v.ls.value.uid
  }

  function Current(w: World, s: Source): Option<Data> {
    match s
    case PullSource(n) => if n in w.platform.secrets then Some(w.platform.secrets[n]) else None
    case CaSource(n) => if n in w.platform.configMaps then Some(w.platform.configMaps[n]) else None
  }

  // ---------------------------------------------------------------- writes to the Landscaper

  /** Stores ls under a new resource version. */
  function Stamp(w: World, ls: Landscaper): World {
    w.(ls := Some(ls.(rv := w.clock + 1)), clock := w.clock + 1)
  }

  /** Stores ls, or removes it when nothing holds up its deletion. */
  function StampOrRemove(w: World, ls: Landscaper): World {
    if ls.deleting && !ls.finalizer && !ls.foreign then w.(ls := None, clock := w.clock + 1, retired := false)
    else Stamp(w, ls)
  }

  function Enqueue(w: World): World { w.(book := w.book.(queued := true)) }

  // ---------------------------------------------------------------- environment

  datatype Edit =
    | Creates(version: string, configRef: Option<string>, id: string, foreign: bool)
    | Edits(version: string, configRef: Option<string>)
    | Deletes
    | Annotates(on: bool)     // the reconcile annotation
    | SetsForeign(on: bool)   // some other controller sets or removes its finalizer

  datatype OperatorAct = Grants | Revokes | Finishes

  datatype Change =
    | OfSecret(name: string, data: Option<Data>)
    | OfConfigMap(name: string, data: Option<Data>)
    | OfProvider(configs: seq<ProviderConfig>, serviceProvider: Option<seq<string>>)

  datatype HandlerAct = Takes | Lists | Patches | Fails

  datatype Event =
    | UserActs(edit: Edit)
    | OperatorActs(forMcp: bool, act: OperatorAct)
    | PlatformChanges(change: Change)
    | HandlerActs(step: HandlerAct, source: Source)
    | ClusterReports(observed: Observed)
    | TimePasses
    | TimerFires

  function UserStep(w: World, e: Edit): World {
    match e
    case Creates(version, configRef, id, foreign) =>
      if w.ls.Some? then w
      else
        var ls := Landscaper(w.clock + 1, 0, 1, false, false, foreign, false, id, version, configRef, FRESH_STATUS);
        Enqueue(Stamp(w, ls))
    case Edits(version, configRef) =>
      if w.ls.None? then w
      else
        var ls := w.ls.value;
        Enqueue(Stamp(w, ls.(version := version, configRef := configRef, generation := ls.generation + 1)))
    case Deletes =>
      if w.ls.None? || w.ls.value.deleting then w
      else Enqueue(StampOrRemove(w, w.ls.value.(deleting := true, generation := w.ls.value.generation + 1)))
    case Annotates(on) =>
      if w.ls.None? then w else Enqueue(Stamp(w, w.ls.value.(annotated := on)))
    case SetsForeign(on) =>
      if w.ls.None? then w else Enqueue(StampOrRemove(w, w.ls.value.(foreign := on)))
  }

  function Step(r: Request, act: OperatorAct): Request {
    match act
    case Grants => if r == Pending then Granted else r
    case Revokes => if r == Granted then Pending else r
    case Finishes => if r == Deleting then Absent else r
  }

  function OperatorStep(w: World, forMcp: bool, act: OperatorAct): World {
    if forMcp then w.(mcp := Step(w.mcp, act)) else w.(workload := Step(w.workload, act))
  }

  function SetEntry(m: map<string, Data>, k: string, d: Option<Data>): map<string, Data> {
    if d.Some? then m[k := d.value] else m - {k}
  }

  function PlatformStep(w: World, c: Change): World {
    var p, b := w.platform, w.book;
    match c
    case OfSecret(n, data) =>
      w.(platform := p.(secrets := SetEntry(p.secrets, n, data)), book := b.(events := b.events + {PullSource(n)}))
    case OfConfigMap(n, data) =>
      w.(platform := p.(configMaps := SetEntry(p.configMaps, n, data)), book := b.(events := b.events + {CaSource(n)}))
    case OfProvider(configs, serviceProvider) =>
      w.(platform := p.(configs := configs, serviceProvider := serviceProvider), book := b.(lapsed := true))
  }

  predicate Referenced(p: PlatformState, s: Source) {
    match s
    case PullSource(n) => ReferencesPullSecret(p, n)
    case CaSource(n) => ReferencesCa(p, n)
  }

  /** A watch handler takes an event, lists the Landscapers, and annotates those without the annotation. */
  function HandlerStep(w: World, act: HandlerAct, s: Source): World {
    var b := w.book;
    match act
    case Takes =>
      if s !in b.events then w
      else w.(book := b.(events := b.events - {s},
                         listing := if Referenced(w.platform, s) then b.listing + {s} else b.listing))
    case Lists =>
      if s !in b.listing then w
      else w.(book := b.(listing := b.listing - {s},
                         patching := if w.ls.Some? && !w.ls.value.annotated then b.patching + {s} else b.patching))
    case Patches =>
      if s !in b.patching then w
      else
        var v := w.(book := b.(patching := b.patching - {s}));
        if w.ls.None? then v else Enqueue(Stamp(v, w.ls.value.(annotated := true)))
    case Fails =>
      w.(book := b.(events := b.events - {s}, listing := b.listing - {s}, patching := b.patching - {s}, lapsed := true))
  }

  /** Events that are not possible in w leave it as it is. */
  function EnvStep(w: World, e: Event): World {
    match e
    case UserActs(edit) => UserStep(w, edit)
    case OperatorActs(forMcp, act) => OperatorStep(w, forMcp, act)
    case PlatformChanges(change) => PlatformStep(w, change)
    case HandlerActs(act, source) => HandlerStep(w, act, source)
    case ClusterReports(observed) => w.(observed := observed)
    case TimePasses => w.(now := w.now + 1)
    case TimerFires => Enqueue(w)
  }

  // ---------------------------------------------------------------- invariants

  predicate Stamped(w: World) {
    w.ls.Some? ==> w.ls.value.uid <= w.clock && w.ls.value.rv <= w.clock
  }

  predicate HasFinalizer(w: World) { w.ls.Some? && w.ls.value.finalizer }

  predicate BothLive(w: World) { Live(w.mcp) && Live(w.workload) }

  /** Access requests exist only for a Landscaper with the finalizer and an instance id. */
  predicate RequestsOwned(w: World) {
    w.mcp != Absent || w.workload != Absent ==> HasFinalizer(w) && w.ls.value.id != ""
  }

  /** Objects of an instance other than the workload namespace, pull-secret copies and the CA bundle. */
  predicate Disposable(k: Key) {
    && !(k.kind == NamespaceKind && k.cluster == Workload)
    && !(k.kind == Secret && k.name.PullCopy?)
    && k.kind != ConfigMap
  }

  /** The keys of disposable objects that a delete run of the instance in ns names. */
  predicate Addressed(ns: string, k: Key) {
    k.ns == ns && match k.kind
      case NamespaceKind => k == NamespaceKey(Mcp, ns)
      case Secret => k.cluster == Workload && FixedSecret(k.name)
      case Service => k.cluster == Workload && (k.name == Default(Controller) || k.name == Plain(DNS_SERVICE_NAME))
      case Hpa => k.cluster == Workload && k.name.Default?
      case Deployment => k.cluster == Workload && k.name.Default?
      case Route => k.cluster == Workload && k.name == Plain(DNS_SERVICE_NAME)
      case ConfigMap => false
  }

  /**
   Cleanup safety: as long as an object is there that an uninstall has to remove, both access
   requests are live, the Landscaper has its finalizer, and its instance id leads to the object.
   */
  ghost predicate CleanupSafe(w: World) {
    forall k :: k in w.objects && Disposable(k) ==>
      && HasFinalizer(w) && BothLive(w) && !w.retired
      && w.ls.value.id != "" && Addressed(Namespace(w.ls.value.id), k)
  }

  predicate NoDisposables(w: World) {
    forall k :: k in w.objects ==> !Disposable(k)
  }

  /** A request is in deletion, or gone again, only after a delete run has come to that point. */
  predicate RetiredForGood(w: World) {
    && (w.retired ==> w.ls.Some? && w.ls.value.deleting && !BothLive(w))
    && (w.mcp == Deleting || w.workload == Deleting ==> w.retired)
  }

  /** A Deployment as the installers store it: it refers to Secrets and pull-secret copies of its own component. */
  predicate Formed(k: Key, o: Object) {
    o.DeploymentObject? ==>
      && k.name.Default? && k == DeploymentKey(k.ns, k.name.c) && o.pod.secrets == Mounts(k.name.c)
      && forall n :: n in o.pod.pullSecrets ==> n.PullCopy? && n.c == k.name.c
  }

  ghost predicate AllFormed(w: World) {
    forall k :: k in w.objects ==> Formed(k, w.objects[k])
  }

  predicate StatusKept(w: World) {
    w.ls.Some? ==>
      var ls := w.ls.value;
      && Coherent(ls.status) && ls.status.observedGeneration <= ls.generation
      && (ls.status.phase == Terminating ==> ls.deleting)
  }

  function ResolvedConfig(w: World): Option<ProviderConfig>
    requires w.ls.Some?
  {
    FindConfig(w.platform.configs, ConfigName(w.platform.configs, w.ls.value.configRef, w.ls.value.status.configRef))
  }

  /** The copies a complete reconcile of the present Landscaper makes. */
  predicate Desired(w: World, t: Target) {
    && w.ls.Some? && ResolvedConfig(w).Some? && w.platform.serviceProvider.Some?
    && var pc := ResolvedConfig(w).value;
       match t
       case PullTarget(c, n) => n in PullSecretsOf(pc, w.platform.serviceProvider.value, c)
       case CaTarget(n) => pc.ca.Some? && pc.ca.value.name == n
  }

  predicate Copied(w: World, t: Target)
    requires w.ls.Some?
  {
    var k := t.Key(Namespace(w.ls.value.id));
    && w.ls.value.id != "" && Current(w, t.Origin()).Some?
    && k in w.objects && w.objects[k] == t.Copy(Current(w, t.Origin()).value)
  }

  /** A change of the source is still on its way to a run that has not begun, or not begun to read. */
  predicate Underway(w: World, s: Source)
    requires w.ls.Some?
  {
    s in w.book.events || s in w.book.listing || s in w.book.patching
    || w.ls.value.annotated || w.book.queued || w.book.lapsed
  }

  /** The running reconcile has still to read the source, or to write what it has just read. */
  predicate Ahead(w: World, t: Target) {
    && w.book.running && t !in w.book.written
    && (w.book.held.Some? && w.book.held.value.source == t.Origin() ==>
      Current(w, t.Origin()) == Some(w.book.held.value.data))
  }

  predicate Covered(w: World, t: Target)
    requires w.ls.Some?
  {
    Copied(w, t) || Underway(w, t.Origin()) || w.book.retry || Ahead(w, t)
  }

  /** No lost trigger: a copy that is not current is never forgotten. */
  ghost predicate Triggered(w: World) {
    && (w.ls.Some? && !w.ls.value.deleting ==> forall t :: Desired(w, t) ==> Covered(w, t))
    && (w.ls.Some? && w.book.held.Some? && Current(w, w.book.held.value.source) != Some(w.book.held.value.data) ==>
          Underway(w, w.book.held.value.source) || !Referenced(w.platform, w.book.held.value.source))
  }

  ghost predicate Inv(w: World) {
    && Stamped(w) && RequestsOwned(w) && CleanupSafe(w) && AllFormed(w) && RetiredForGood(w) && StatusKept(w)
    && Triggered(w)
  }

  // ---------------------------------------------------------------- steps

  /** A step of others, or a call of the controller; a write to the clusters is on record with its operation. */
  datatype Label =
    | Environment | Bookkeeping | Onboarding | PlatformRead | AccessCreate | AccessDelete
    | ClusterRead | ClusterWrite(op: Op)
  {
    predicate OnClusters() { ClusterRead? || ClusterWrite? }
  }

  /** The Landscaper with this uid existed and does not any more. */
  predicate Lost(w: World, uid: nat) {
    uid <= w.clock && (w.ls.Some? ==> w.ls.value.uid != uid)
  }

  /** A delete by source name comes after the source with that name has been read. */
  predicate SourceRead(w: World, op: Op) {
    op.DelNamed? ==> w.book.held.Some? && w.book.held.value.source == PullSource(op.text)
  }

  /** A route is stored with a host of the instance in its namespace. */
  predicate RouteNamed(hash: NameHash, op: Op) {
    op.Put? && op.obj.RouteObject? ==> HostOf(hash, op.key.ns, op.obj.host)
  }

  /** A write to the clusters: one operation, in the namespace of the stored id, at its turn. */
  ghost predicate Written(w: World, op: Op, v: World) {
    && v.objects == Do(w.objects, op) && v.ls == w.ls
    && HasFinalizer(w) && w.ls.value.id != "" && Area(op) == Namespace(w.ls.value.id)
    && Orderly(w.objects, op) && SourceRead(w, op) && RouteNamed(w.naming.hash, op)
  }

  /** A source is taken to be what it is at the time. */
  predicate Reads(w: World, v: World) {
    v.book.held.Some? && v.book.held != w.book.held ==>
      Current(w, v.book.held.value.source) == Some(v.book.held.value.data)
  }

  /** What every single step respects, whoever takes it. */
  ghost predicate Linked(w: World, l: Label, v: World) {
    && w.clock <= v.clock && v.naming == w.naming
    && (w.ls.Some? ==> Same(w, v) || Lost(v, w.ls.value.uid))
    && (v.ls.Some? && !Same(w, v) ==> v.ls.value.uid > w.clock)
    && (Same(w, v) ==>
          var a, b := w.ls.value, v.ls.value;
          && a.generation <= b.generation && (a.deleting ==> b.deleting)
          && (if a.id == "" then b.id == "" || b.id == w.naming.id else b.id == a.id)
          && a.status.observedGeneration <= b.status.observedGeneration
          && (a.status.phase == Terminating ==> b.status.phase == Terminating)
          && (w.retired ==> v.retired && !l.AccessCreate? && !l.OnClusters()))
    && (if l.ClusterWrite? then Written(w, l.op, v) else v.objects == w.objects)
    && Reads(w, v)
  }

  /** What the controller can rely on while others act. Any number of their steps is of this kind. */
  ghost predicate Rely(w: World, v: World) {
    RelyLandscaper(w, v) && RelyClusters(w, v)
  }

  ghost predicate RelyLandscaper(w: World, v: World) {
    && w.clock <= v.clock && v.naming == w.naming
    && (w.ls.Some? ==> Same(w, v) || Lost(v, w.ls.value.uid))
    && Stamped(v)
    && (v.ls.Some? && !Same(w, v) ==>
          v.ls.value.uid > w.clock && !v.ls.value.finalizer && v.ls.value.status == FRESH_STATUS && v.book.queued)
    && (HasFinalizer(w) ==> Same(w, v) && HasFinalizer(v))
    && (Same(w, v) ==>
          var x, y := w.ls.value, v.ls.value;
          && y.finalizer == x.finalizer && y.id == x.id && y.status == x.status
          && x.generation <= y.generation && (x.deleting ==> y.deleting)
          && (y.rv == x.rv ==> y == x) && (y.rv != x.rv ==> y.rv > w.clock)
          && (!v.book.queued ==> y.version == x.version && y.configRef == x.configRef)
          && v.retired == w.retired)
    && (!Same(w, v) ==> !v.retired)
  }

  ghost predicate RelyClusters(w: World, v: World) {
    RelyRequests(w, v) && v.objects == w.objects && RelyBook(w, v)
  }

  ghost predicate RelyRequests(w: World, v: World) {
    && (Live(w.mcp) <==> Live(v.mcp)) && (w.mcp == Absent ==> v.mcp == Absent)
    && (Live(w.workload) <==> Live(v.workload)) && (w.workload == Absent ==> v.workload == Absent)
  }

  ghost predicate RelyBook(w: World, v: World) {
    var a, b := w.book, v.book;
    && (a.queued ==> b.queued) && (a.lapsed ==> b.lapsed)
    && b.retry == a.retry && b.running == a.running && b.written == a.written && b.held == a.held
    && (!b.lapsed ==>
      v.platform.configs == w.platform.configs && v.platform.serviceProvider == w.platform.serviceProvider)
  }

  /**
   What is known of v to a run that has seen w, when since then only others have acted and the
   run has worked on the clusters. Facts about the Landscaper and its requests last that way.
   */
  ghost predicate Onward(w: World, v: World) {
    Stamped(w) && RelyLandscaper(w, v) && RelyRequests(w, v) && OnwardBook(w, v)
  }

  ghost predicate OnwardBook(w: World, v: World) {
    var a, b := w.book, v.book;
    && (a.queued ==> b.queued) && (a.lapsed ==> b.lapsed)
    && b.retry == a.retry && b.running == a.running && a.written <= b.written
    && (!b.lapsed ==>
      v.platform.configs == w.platform.configs && v.platform.serviceProvider == w.platform.serviceProvider)
  }

  lemma OnwardReflexive(w: World)
    requires Stamped(w) && RetiredForGood(w)
    ensures Onward(w, w)
  {}

  lemma OnwardTransitive(u: World, w: World, v: World)
    requires Onward(u, w) && Onward(w, v)
    ensures Onward(u, v)
  {}

  /** Whatever a call does to objects and to the progress of the run, it goes onward. */
  lemma WorkOnward(w: World, v: World)
    requires Stamped(w) && RetiredForGood(w)
    requires v == w.(objects := v.objects, book := w.book.(written := v.book.written, held := v.book.held))
    requires w.book.written <= v.book.written
    ensures Onward(w, v)
  {}

  /** A write to the stored Landscaper that leaves alone what only the controller changes, and queues the key. */
  predicate Touched(a: Landscaper, b: Landscaper) {
    && b.uid == a.uid && b.finalizer == a.finalizer && b.id == a.id && b.status == a.status
    && a.generation <= b.generation && (a.deleting ==> b.deleting)
  }

  lemma TouchedRely(w: World, ls: Landscaper)
    requires Stamped(w) && RetiredForGood(w) && w.ls.Some? && Touched(w.ls.value, ls)
    ensures Rely(w, Enqueue(Stamp(w, ls)))
  {}

  lemma RemovedRely(w: World, ls: Landscaper)
    requires Stamped(w) && RetiredForGood(w) && w.ls.Some? && !w.ls.value.finalizer
    requires ls.deleting && !ls.finalizer && !ls.foreign
    ensures Rely(w, Enqueue(StampOrRemove(w, ls)))
  {}

  lemma CreatedRely(w: World, ls: Landscaper)
    requires Stamped(w) && RetiredForGood(w) && w.ls.None? && ls.uid == w.clock + 1 && !ls.finalizer
      && ls.status == FRESH_STATUS
    ensures Rely(w, Enqueue(Stamp(w, ls)))
  {}

  lemma UserRely(w: World, e: Edit)
    requires Stamped(w) && RetiredForGood(w)
    ensures Rely(w, UserStep(w, e))
  {
    if w.ls.None? {
      if e.Creates? {
        var ls := Landscaper(w.clock + 1, 0, 1, false, false, e.foreign, false, e.id, e.version, e.configRef,
                             FRESH_STATUS);
        CreatedRely(w, ls);
      }
    } else if UserStep(w, e) != w {
      WrittenRely(w, Edited(w.ls.value, e));
    }
  }

  /** The Landscaper as an edit leaves it. */
  function Edited(ls: Landscaper, e: Edit): Landscaper {
    match e
    case Creates(_, _, _, _) => ls
    case Edits(version, configRef) => ls.(version := version, configRef := configRef, generation := ls.generation + 1)
    case Deletes => ls.(deleting := true, generation := ls.generation + 1)
    case Annotates(on) => ls.(annotated := on)
    case SetsForeign(on) => ls.(foreign := on)
  }

  lemma WrittenRely(w: World, ls: Landscaper)
    requires Stamped(w) && RetiredForGood(w) && w.ls.Some? && Touched(w.ls.value, ls)
    ensures Rely(w, Enqueue(Stamp(w, ls))) && Rely(w, Enqueue(StampOrRemove(w, ls)))
  {
    TouchedRely(w, ls);
    if ls.deleting && !ls.finalizer && !ls.foreign { RemovedRely(w, ls); }
  }

  lemma BookRely(w: World, v: World)
    requires Stamped(w) && RetiredForGood(w)
    requires v == w.(platform := v.platform, book := w.book.(events := v.book.events, listing := v.book.listing,
                                                             patching := v.book.patching, lapsed := v.book.lapsed))
    requires w.book.lapsed ==> v.book.lapsed
    requires v.book.lapsed
      || (v.platform.configs == w.platform.configs && v.platform.serviceProvider == w.platform.serviceProvider)
    ensures Rely(w, v)
  {}

  lemma HandlerRely(w: World, act: HandlerAct, s: Source)
    requires Stamped(w) && RetiredForGood(w)
    ensures Rely(w, HandlerStep(w, act, s))
  {
    if act == Patches && s in w.book.patching {
      var u := w.(book := w.book.(patching := w.book.patching - {s}));
      BookRely(w, u);
      if w.ls.Some? {
        TouchedRely(u, w.ls.value.(annotated := true));
        RelyBoth(w, u, HandlerStep(w, act, s));
      }
    } else {
      BookRely(w, HandlerStep(w, act, s));
    }
  }

  lemma RelyBoth(u: World, w: World, v: World)
    requires Stamped(u) && Rely(u, w) && Rely(w, v)
    ensures Rely(u, v)
  {}

  lemma PlatformRely(w: World, c: Change)
    requires Stamped(w) && RetiredForGood(w)
    ensures Rely(w, PlatformStep(w, c))
  {
    BookRely(w, PlatformStep(w, c));
  }

  lemma OperatorRely(w: World, forMcp: bool, act: OperatorAct)
    requires Stamped(w) && RetiredForGood(w)
    ensures Rely(w, OperatorStep(w, forMcp, act))
  {}

  lemma EnvRely(w: World, e: Event)
    requires Inv(w)
    ensures Rely(w, EnvStep(w, e))
  {
    match e
    case UserActs(edit) => UserRely(w, edit);
    case OperatorActs(forMcp, act) => OperatorRely(w, forMcp, act);
    case PlatformChanges(change) => PlatformRely(w, change);
    case HandlerActs(act, s) => HandlerRely(w, act, s);
    case _ =>
  }

  lemma RelyLinked(w: World, v: World)
    requires Inv(w) && Rely(w, v)
    ensures Linked(w, Environment, v)
  {}

  /** All invariants but the triggers follow from what the controller relies on. */
  lemma RelyKeeps(w: World, v: World)
    requires Inv(w) && Rely(w, v)
    ensures Stamped(v) && RequestsOwned(v) && CleanupSafe(v) && RetiredForGood(v) && StatusKept(v)
  {}

  /** Trigger completeness, for the copies a reconcile would make. */
  lemma DesiredIsReferenced(w: World, t: Target)
    requires Desired(w, t)
    ensures Referenced(w.platform, t.Origin())
  {
    var pc := ResolvedConfig(w).value;
    FindConfigMember(w.platform.configs,
                     ConfigName(w.platform.configs, w.ls.value.configRef, w.ls.value.status.configRef));
    if t.PullTarget? { PullSecretsReferenced(w.platform, pc, t.c, t.name); }
  }

  /** A queued key or a lapse covers everything. */
  lemma QueuedTriggered(v: World)
    requires v.ls.None? || v.book.queued || v.book.lapsed
    ensures Triggered(v)
  {}

  lemma SourceCovered(w: World, c: Change, t: Target)
    requires Inv(w) && !c.OfProvider?
    requires var v := PlatformStep(w, c); v.ls.Some? && !v.ls.value.deleting && Desired(v, t)
    ensures Covered(PlatformStep(w, c), t)
  {
    assert Desired(w, t) && Covered(w, t);
  }

  lemma SourceTriggered(w: World, c: Change)
    requires Inv(w) && !c.OfProvider?
    ensures Triggered(PlatformStep(w, c))
  {
    var v := PlatformStep(w, c);
    forall t | v.ls.Some? && !v.ls.value.deleting && Desired(v, t) ensures Covered(v, t) { SourceCovered(w, c, t); }
  }

  lemma HandlerCovered(w: World, act: HandlerAct, s: Source, t: Target)
    requires Inv(w) && (act == Takes || act == Lists)
    requires w.ls.Some? && !w.ls.value.deleting && Desired(w, t)
    ensures Covered(HandlerStep(w, act, s), t)
  {
    DesiredIsReferenced(w, t);
    assert Covered(w, t);
  }

  lemma HandlerTriggered(w: World, act: HandlerAct, s: Source)
    requires Inv(w) && (act == Takes || act == Lists)
    ensures Triggered(HandlerStep(w, act, s))
  {
    var v := HandlerStep(w, act, s);
    forall t | v.ls.Some? && !v.ls.value.deleting && Desired(v, t) ensures Covered(v, t) {
      assert Desired(w, t);
      HandlerCovered(w, act, s, t);
    }
  }

  /** Steps that concern neither the Landscaper nor the sources. */
  lemma UnrelatedTriggered(w: World, v: World)
    requires Inv(w) && v.ls == w.ls && v.platform == w.platform && v.objects == w.objects && v.book == w.book
    ensures Triggered(v)
  {
    forall t | v.ls.Some? && !v.ls.value.deleting && Desired(v, t) ensures Covered(v, t) {
      assert Desired(w, t) && Covered(w, t);
    }
  }

  lemma EnvKeepsTriggered(w: World, e: Event)
    requires Inv(w)
    ensures Triggered(EnvStep(w, e))
  {
    var v := EnvStep(w, e);
    match e
    case UserActs(edit) => if v != w { QueuedTriggered(v); }
    case PlatformChanges(c) => if c.OfProvider? { QueuedTriggered(v); } else { SourceTriggered(w, c); }
    case HandlerActs(act, s) =>
      if act == Takes || act == Lists { HandlerTriggered(w, act, s); } else if v != w { QueuedTriggered(v); }
    case TimerFires => QueuedTriggered(v);
    case _ => UnrelatedTriggered(w, v);
  }

  /** Whatever others do, the invariants stay. */
  lemma EnvKeepsInv(w: World, e: Event)
    requires Inv(w)
    ensures Inv(EnvStep(w, e)) && Rely(w, EnvStep(w, e)) && Linked(w, Environment, EnvStep(w, e))
  {
    EnvRely(w, e);
    RelyLinked(w, EnvStep(w, e));
    RelyKeeps(w, EnvStep(w, e));
    EnvKeepsTriggered(w, e);
  }
}
