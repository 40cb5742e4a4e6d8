/** The versioned object store, the cluster of child objects, and one reconcile session
    running against both while users patch and delete the instance between its API calls. */
module World {
  import opened Types
  import opened Names

  /** A child object. A Secret holds the nonces of the calls that generated its SSH private
      key, the public key inside its cloud-init userdata, and its CA. */
  datatype Child =
    | VpcChild(namespace: string, routes: seq<string>)
    | SubnetChild(vpc: string, allowed: string)
    | NadChild
    | VolumeChild(sizeGiB: int, storageClass: string)
    | VmChild(running: bool, cpuCores: int, memoryMB: int, volume: string, nad: string, userdataSecret: string)
    | SecretChild(sshKey: nat, authorizedKey: nat, ca: nat)
    | ServiceChild
    | MonitorChild
    | PeeringChild(localVpc: string, localSubnet: string, remote: Peering)

  /** `fatal`: failed calls whose error fails a provisioning phase. `peering`: failed peering
      calls, which are only logged. `leaked`: monitoring and peering calls that took effect
      unacknowledged, and teardowns with a failed delete. */
  datatype Faults = Faults(fatal: nat, peering: nat, leaked: nat)

  predicate Within(a: Faults, b: Faults) { a.fatal <= b.fatal && a.peering <= b.peering && a.leaked <= b.leaked }

  datatype Event = Created(key: Key) | TornDown

  /** `past` and `cur` are all committed versions; a resourceVersion is an index into them.
      `cached` is the newest version the informer cache has served. The last three fields
      tally failed cluster calls, store calls that failed or never returned, and not-ready
      polls. */
  datatype World = World(
    id: string, ns: string,
    past: seq<Object>, cur: Object, live: bool, cached: nat,
    cluster: map<Key, Child>, log: seq<Event>, nonce: nat,
    faults: Faults, lost: nat, polls: nat)

  /** Version `i`; indices past the newest one give the newest. */
  function Version(w: World, i: nat): Object {
    if i < |w.past| then w.past[i] else w.cur
  }

  function Append(w: World, o: Object): World {
    w.(past := w.past + [w.cur], cur := o)
  }

  function Init(id: string, ns: string, spec: Spec, cluster: map<Key, Child>): World {
    World(id, ns, [], Object(spec, NewStatus, false, false, 1), true, 0, cluster, [], 0, Faults(0, 0, 0), 0, 0)
  }

  // ---- What users do to the stored object ----

  datatype UserAction = PatchSpec(spec: Spec) | RequestDelete

  /** A spec change bumps the generation; a delete either marks the object, when a finalizer
      holds it, or removes it. */
  function User(w: World, a: UserAction): World {
    if !w.live then w
    else match a
      case PatchSpec(spec) =>
        if spec == w.cur.spec then w
        else Append(w, w.cur.(spec := spec, generation := w.cur.generation + 1))
      case RequestDelete =>
        if w.cur.deleting then w
        else if w.cur.finalizer then
          Append(w, w.cur.(deleting := true, generation := w.cur.generation + 1))
        else w.(live := false)
  }

  function Users(w: World, actions: seq<UserAction>): World
    decreases |actions|
  {
    if actions == [] then w else Users(User(w, actions[0]), actions[1..])
  }

  // ---- One reconcile session ----

  /** `Lost`: the call fails and has no effect. `AckLost`: it takes effect, the reply is lost. */
  datatype Outcome = Normal | Lost | AckLost

  datatype Interface = Malformed | Interface(name: string, address: string)

  datatype Vmi = Vmi(running: bool, interfaces: seq<Interface>, upThreeMinutes: bool)

  /** Everything the environment decides about one API call: what users do just before it,
      which version a cached read serves, the fate of a store or cluster call, whether an
      update that changes nothing still gets a new version, what a VMI fetch returns, whether
      key generation, the S3 secret and the VM image are usable, and which deletes succeed. */
  datatype Turn = Turn(
    users: seq<UserAction>, readAt: nat, store: Outcome, bump: bool, api: Outcome,
    vmi: Option<Vmi>, usable: bool, deleted: set<Key>)

  datatype Err = NoErr | AlreadyExists | OtherErr

  /** A session ends by returning, by the process dying, or by a nil dereference. */
  datatype Halt = Going | Crashed | Panicked

  /** The in-memory copy of the instance with the resourceVersion it was read at. */
  datatype Instance = Instance(obj: Object, rv: nat)

  datatype Session = Session(
    w: World, inst: Instance, script: seq<Turn>, now: Turn, err: Err, halt: Halt)

  const Idle: Turn := Turn([], 0, Normal, true, Normal, None, true, {})

  function Begin(w: World, script: seq<Turn>): Session {
    Session(w, Instance(w.cur, 0), script, Idle, NoErr, Going)
  }

  predicate Halted(s: Session) { s.halt != Going }

  function St(s: Session): Status { s.inst.obj.status }

  function WithStatus(s: Session, st: Status): Session {
    s.(inst := s.inst.(obj := s.inst.obj.(status := st)))
  }

  /** Moves to the next API call: users act first. A script that has run out is a crash. */
  function Take(s: Session): Session {
    if Halted(s) then s
    else if s.script == [] then s.(halt := Crashed, w := s.w.(lost := s.w.lost + 1))
    else s.(w := Users(s.w, s.script[0].users), script := s.script[1..], now := s.script[0])
  }

  function StoreFails(s: Session): Session {
    s.(w := s.w.(lost := s.w.lost + 1), err := OtherErr)
  }

  /** The read that opens a reconcile: any version from the newest one already served on.
      `NotFound` and a failed read both end the reconcile, here with `OtherErr`. */
  function Read(s: Session): Session {
    var t := Take(s);
    if Halted(t) then t
    else if t.now.store != Normal then StoreFails(t)
    else if !t.w.live && t.now.readAt > |t.w.past| then t.(err := OtherErr)
    else
      var at := if t.now.readAt < t.w.cached then t.w.cached else t.now.readAt;
      var rv := if at > |t.w.past| then |t.w.past| else at;
      t.(w := t.w.(cached := rv), inst := Instance(Version(t.w, rv), rv), err := NoErr)
  }

  /** Writes `o` over the current version, which the session still holds. */
  function Commit(t: Session, o: Object, live: bool): Session {
    var w := (if o == t.w.cur && !t.now.bump then t.w else Append(t.w, o)).(live := live);
    if t.now.store == AckLost then StoreFails(t.(w := w))
    else t.(w := w, inst := Instance(o, |w.past|), err := NoErr)
  }

  predicate Writable(t: Session) {
    t.w.live && t.inst.rv == |t.w.past| && t.now.store != Lost
  }

  /** `Status().Update`: only the status travels, and only onto the version that was read. */
  function StatusUpdate(s: Session): Session {
    var t := Take(s);
    if Halted(t) then t
    else if !Writable(t) then StoreFails(t)
    else Commit(t, t.w.cur.(status := St(t)), true)
  }

  /** `Update` after adding or removing the finalizer: the status does not travel, and a
      deleting object without a finalizer leaves the store. */
  function FinalizerUpdate(s: Session, finalizer: bool): Session {
    var t := Take(s);
    if Halted(t) then t
    else if !Writable(t) then StoreFails(t)
    else Commit(t, t.w.cur.(finalizer := finalizer), finalizer || !t.w.cur.deleting)
  }

  // ---- Cluster calls ----

  function ApiFails(s: Session): Session { s.(err := OtherErr) }

  /** Tallies a failed create of `k`; `took` tells whether the child was created all the same. */
  function Tally(f: Faults, k: Kind, took: bool): Faults {
    var leaked := f.leaked + if took then 1 else 0;
    match k
    case Service => f
    case ServiceMonitor => f.(leaked := leaked)
    case VpcPeering => f.(peering := f.peering + 1, leaked := leaked)
    case _ => f.(fatal := f.fatal + 1)
  }

  function CreateFails(s: Session, k: Key, took: bool): Session {
    ApiFails(s.(w := s.w.(faults := Tally(s.w.faults, k.kind, took))))
  }

  function PutChild(s: Session, k: Key, c: Child): Session {
    s.(w := s.w.(cluster := s.w.cluster[k := c]), err := NoErr)
  }

  function AddChild(s: Session, k: Key, c: Child): Session {
    s.(w := s.w.(cluster := s.w.cluster[k := c], log := s.w.log + [Created(k)]), err := NoErr)
  }

  function Create(s: Session, k: Key, c: Child): Session {
    var t := Take(s);
    if Halted(t) then t
    else if t.now.api == Lost then CreateFails(t, k, false)
    else if k in t.w.cluster then
      if t.now.api == AckLost then CreateFails(t, k, false) else t.(err := AlreadyExists)
    else if t.now.api == AckLost then CreateFails(AddChild(t, k, c), k, true)
    else AddChild(t, k, c)
  }

  /** `Get` of a child: an error when the call fails or the child is missing. */
  function Get(s: Session, k: Key): Session {
    var t := Take(s);
    if Halted(t) then t
    else if t.now.api != Normal then ApiFails(t)
    else t.(err := if k in t.w.cluster then NoErr else OtherErr)
  }

  /** `Update` of a child fetched earlier in the same call. */
  function Put(s: Session, k: Key, c: Child): Session {
    var t := Take(s);
    if Halted(t) then t
    else if t.now.api == Lost then ApiFails(t)
    else if k !in t.w.cluster then
      if t.now.api == AckLost then ApiFails(t) else t.(err := OtherErr)
    else if t.now.api == AckLost then ApiFails(PutChild(t, k, c))
    else PutChild(t, k, c)
  }

  function IgnoreAlreadyExists(s: Session): Session {
    if s.err == AlreadyExists then s.(err := NoErr) else s
  }

  /** A local or foreign precondition (keys, S3 secret, image) that may fail. */
  function Check(s: Session): Session {
    var t := Take(s);
    if Halted(t) then t
    else if t.now.usable then t.(err := NoErr)
    else ApiFails(t.(w := t.w.(faults := t.w.faults.(fatal := t.w.faults.fatal + 1))))
  }
}
