/** The deep-copy methods of `DBInstance` and its list, on the heap: which pointers, slices and
    maps a copy shares with its source. A Go struct is a value holding references; a pointer to
    one is a `Cell`. */
module DeepCopy {
  import opened Types

  class Cell<T> {
    var value: T

    constructor (value: T)
      ensures this.value == value
    {
      this.value := value;
    }
  }

  /** A Go map, which is a reference. */
  class Table {
    var entries: map<string, string>

    constructor ()
      ensures entries == map[]
    {
      entries := map[];
    }
  }

  datatype KeyRef = KeyRef(name: string, key: string)
  datatype S3Config = S3Config(endpoint: string, bucket: string, region: string, secretRef: string)
  datatype Condition = Condition(kind: string, status: string, observedGeneration: int)
  datatype BackupState = BackupState(walArchiving: bool)
  datatype SecretRef = SecretRef(name: string, status: string)

  /** What a spec and a status say, pointers followed: the content that copies must share. */
  datatype SpecContent = SpecContent(
    plain: seq<int>, passwordRef: Option<KeyRef>, running: Option<bool>, s3: Option<S3Config>,
    peering: Option<Peering>, tags: Option<map<string, string>>)

  datatype StatusContent = StatusContent(
    plain: seq<int>, conditions: Option<seq<Condition>>, endpoint: Option<Endpoint>,
    userSecret: Option<SecretRef>, backup: Option<BackupState>, replicas: Option<seq<string>>)

  ghost function Ref(o: object?): set<object> { if o == null then {} else {o} }

  ghost function At<T>(c: Cell?<T>): Option<T>
    reads c
  {
    if c == null then None else Some(c.value)
  }

  ghost function Elements<T>(a: array?<T>): Option<seq<T>>
    reads a
  {
    if a == null then None else Some(a[..])
  }

  ghost function Entries(t: Table?): Option<map<string, string>>
    reads t
  {
    if t == null then None else Some(t.entries)
  }

  // ---- Pointers, slices and maps ----

  method CopyCell<T>(c: Cell?<T>) returns (d: Cell?<T>)
    ensures At(d) == At(c)
    ensures d == null || fresh(d)
  {
    if c == null { return null; }
    d := new Cell<T>(c.value);
  }

  method CopySlice<T(0)>(a: array?<T>) returns (b: array?<T>)
    ensures Elements(b) == Elements(a)
    ensures b == null || fresh(b)
  {
    if a == null { return null; }
    b := new T[a.Length];
    for i := 0 to a.Length
      invariant b[..i] == a[..i]
    {
      b[i] := a[i];
    }
    assert b[..] == b[..a.Length] == a[..a.Length] == a[..];
  }

  method CopyTable(t: Table?) returns (u: Table?)
    ensures Entries(u) == Entries(t)
    ensures u == null || fresh(u)
  {
    if t == null { return null; }
    u := new Table();
    var rest := t.entries.Keys;
    while rest != {}
      invariant rest <= t.entries.Keys
      invariant u.entries == map k | k in t.entries && k !in rest :: t.entries[k]
      decreases |rest|
    {
      var key :| key in rest;
      u.entries := u.entries[key := t.entries[key]];
      rest := rest - {key};
    }
    assert u.entries == t.entries;
  }

  // ---- Spec and status ----

  /** `plain` stands for every field held by value. */
  datatype DBInstanceSpec = DBInstanceSpec(
    plain: seq<int>, passwordRef: Cell?<KeyRef>, running: Cell?<bool>, s3: Cell?<S3Config>,
    peering: Cell?<Peering>, tags: Table?)
  {
    ghost function References(): set<object> {
      Ref(passwordRef) + Ref(running) + Ref(s3) + Ref(peering) + Ref(tags)
    }

    ghost function Says(): SpecContent
      reads References()
    {
      SpecContent(plain, At(passwordRef), At(running), At(s3), At(peering), Entries(tags))
    }

    /** Shallow assignment first, then every pointer and map is replaced by a fresh copy. */
    method DeepCopyInto() returns (out: DBInstanceSpec)
      ensures out.Says() == Says()
      ensures fresh(out.References())
    {
      out := this;
      var passwordRef := CopyCell(this.passwordRef);
      var running := CopyCell(this.running);
      var s3 := CopyCell(this.s3);
      var peering := CopyCell(this.peering);
      var tags := CopyTable(this.tags);
      out := out.(passwordRef := passwordRef, running := running, s3 := s3, peering := peering, tags := tags);
    }
  }

  datatype DBInstanceStatus = DBInstanceStatus(
    plain: seq<int>, conditions: array?<Condition>, endpoint: Cell?<Endpoint>,
    userSecret: Cell?<SecretRef>, backup: Cell?<BackupState>, replicas: array?<string>)
  {
    /** The references a copy replaces: all but `backup`. */
    ghost function Replaced(): set<object> {
      Ref(conditions) + Ref(endpoint) + Ref(userSecret) + Ref(replicas)
    }

    ghost function References(): set<object> { Replaced() + Ref(backup) }

    ghost function Says(): StatusContent
      reads References()
    {
      StatusContent(plain, Elements(conditions), At(endpoint), At(userSecret), At(backup), Elements(replicas))
    }

    /** As for the spec, except that the shallow copy of `backup` is never replaced. */
    method DeepCopyInto() returns (out: DBInstanceStatus)
      ensures out.Says() == Says()
      ensures fresh(out.Replaced()) && out.backup == backup
    {
      out := this;
      var conditions := CopySlice(this.conditions);
      var endpoint := CopyCell(this.endpoint);
      var userSecret := CopyCell(this.userSecret);
      var replicas := CopySlice(this.replicas);
      out := out.(conditions := conditions, endpoint := endpoint, userSecret := userSecret, replicas := replicas);
    }
  }

  // ---- Instances and lists ----

  datatype DBInstance = DBInstance(spec: DBInstanceSpec, status: DBInstanceStatus) {
    /** The references a copy replaces: all but `status.backup`. */
    ghost function Replaced(): set<object> { spec.References() + status.Replaced() }

    ghost function References(): set<object> { Replaced() + Ref(status.backup) }

    ghost function Says(): (SpecContent, StatusContent)
      reads References()
    {
      (spec.Says(), status.Says())
    }

    method DeepCopyInto() returns (out: DBInstance)
      ensures out.Says() == Says()
      ensures fresh(out.Replaced()) && out.status.backup == status.backup
      ensures Separate(this, out) <==> status.backup == null
    {
      hide DBInstanceSpec.References, DBInstanceSpec.Says, DBInstanceStatus.Replaced, DBInstanceStatus.Says, Separate;
      OldSpec(this.spec);
      OldStatus(this.status);
      var spec := this.spec.DeepCopyInto();
      OldSpec(spec);
      var status := this.status.DeepCopyInto();
      out := DBInstance(spec, status);
      SeparateIffNoBackup(this, out);
    }
  }

  /** Two instances are separate when no mutable object can be reached from both. */
  ghost predicate Separate(a: DBInstance, b: DBInstance) { a.References() !! b.References() }

  /** Copies made of replaced references and a shared `backupStatus` are separate exactly when
      that pointer is nil. */
  lemma SeparateIffNoBackup(a: DBInstance, b: DBInstance)
    requires a.References() !! b.Replaced() && b.status.backup == a.status.backup
    ensures Separate(a, b) <==> a.status.backup == null
  {
    hide DBInstanceSpec.References, DBInstanceStatus.Replaced;
    if a.status.backup != null {
      assert a.status.backup in a.References() && a.status.backup in b.References();
    }
  }

  lemma OldSpec(s: DBInstanceSpec)
    ensures forall o <- s.References() :: allocated(o)
  {
  }

  lemma OldStatus(s: DBInstanceStatus)
    ensures (forall o <- s.Replaced() :: allocated(o)) && (forall o <- Ref(s.backup) :: allocated(o))
  {
  }

  lemma OldReferences(a: DBInstance)
    ensures forall o <- a.References() :: allocated(o)
  {
    hide DBInstanceSpec.References, DBInstanceStatus.Replaced;
    OldSpec(a.spec);
    OldStatus(a.status);
  }

  /** `DBInstance.DeepCopy`, which passes a nil pointer through. */
  method DeepCopy(from: Cell?<DBInstance>) returns (out: Cell?<DBInstance>)
    ensures from == null <==> out == null
    ensures out != null ==> fresh(out) && out.value.Says() == from.value.Says()
    ensures out != null ==> fresh(out.value.Replaced()) && out.value.status.backup == from.value.status.backup
    ensures out != null ==> (Separate(from.value, out.value) <==> from.value.status.backup == null)
  {
    hide *;
    if from == null { return null; }
    var copy := from.value.DeepCopyInto();
    OldReferences(from.value);
    OldReferences(copy);
    out := new Cell(copy);
  }

  /** Editing a copy in place, as the reconciler edits a status, cannot reach the source: of
      `EditStatus` only its frame is known. */
  method EditCopy(from: Cell<DBInstance>, address: Endpoint, condition: Condition, replica: string)
    returns (out: Cell<DBInstance>)
    requires from.value.status.backup == null
    ensures from.value == old(from.value) && from.value.Says() == old(from.value.Says())
  {
    hide *;
    OldReferences(from.value);
    out := DeepCopy(from);
    NoBackupReferences(out.value);
    EditStatus(out.value.status, address, condition, replica);
  }

  lemma NoBackupReferences(d: DBInstance)
    requires d.status.backup == null
    ensures d.status.References() <= d.Replaced()
  {
    hide DBInstanceStatus.Replaced;
  }

  method EditStatus(s: DBInstanceStatus, address: Endpoint, condition: Condition, replica: string)
    modifies s.References()
  {
    if s.endpoint != null { s.endpoint.value := address; }
    if s.conditions != null && s.conditions.Length > 0 { s.conditions[0] := condition; }
    if s.replicas != null && s.replicas.Length > 0 { s.replicas[0] := replica; }
  }

  // ---- Lists ----

  /** `DBInstanceList.DeepCopy`: a new slice whose elements say the same; no element shares
      anything with its original exactly when that one's `backupStatus` is nil, and two copies share
      nothing with each other unless both have one. */
  method DeepCopyItems(items: array?<DBInstance>) returns (out: array?<DBInstance>)
    ensures items == null <==> out == null
    ensures out != null ==> fresh(out) && out.Length == items.Length
    ensures out != null ==> forall i | 0 <= i < out.Length :: out[i].Says() == items[i].Says()
    ensures out != null ==> forall i | 0 <= i < out.Length ::
                              (Separate(items[i], out[i]) <==> items[i].status.backup == null)
    ensures out != null ==> forall i, j | 0 <= i < out.Length && 0 <= j < out.Length && items[j].status.backup == null ::
                              Separate(items[i], out[j])
    ensures out != null ==> forall i, j | 0 <= i < j < out.Length && (items[i].status.backup == null || items[j].status.backup == null) ::
                              Separate(out[i], out[j])
  {
    hide *;
    if items == null { return null; }
    forall i | 0 <= i < items.Length
      ensures forall o <- items[i].References() :: allocated(o)
    {
      OldReferences(items[i]);
    }
    out := new DBInstance[items.Length];
    for n := 0 to items.Length
      invariant forall i | 0 <= i < n :: out !in out[i].References() && out[i].Says() == items[i].Says()
      invariant forall i | 0 <= i < n :: forall o <- out[i].References() :: allocated(o)
      invariant forall i | 0 <= i < n :: (Separate(items[i], out[i]) <==> items[i].status.backup == null)
      invariant forall i | 0 <= i < n && items[i].status.backup == null :: fresh(out[i].References())
      invariant forall i, j | 0 <= i < j < n && (items[i].status.backup == null || items[j].status.backup == null) ::
                  out[i].References() !! out[j].References()
    {
      var copy := items[n].DeepCopyInto();
      CopyReferences(items[n], copy);
      OldReferences(copy);
      assert out !in copy.References();
      assert out !in items[n].References();
      NoBackupReplaced(copy);
      out[n] := copy;
    }
    forall i, j | 0 <= i < out.Length && 0 <= j < out.Length && items[j].status.backup == null
      ensures Separate(items[i], out[j])
    {
      SeparateSets(items[i], out[j]);
    }
    forall i, j | 0 <= i < j < out.Length && (items[i].status.backup == null || items[j].status.backup == null)
      ensures Separate(out[i], out[j])
    {
      SeparateSets(out[i], out[j]);
    }
  }

  lemma NoBackupReplaced(d: DBInstance)
    ensures d.status.backup == null ==> d.References() == d.Replaced()
  {
    hide DBInstance.Replaced;
  }

  lemma SeparateSets(a: DBInstance, b: DBInstance)
    requires a.References() !! b.References()
    ensures Separate(a, b)
  {
  }

  lemma CopyReferences(a: DBInstance, b: DBInstance)
    requires a.status.backup == b.status.backup
    ensures b.References() <= b.Replaced() + a.References()
  {
    hide DBInstance.Replaced;
  }
}
