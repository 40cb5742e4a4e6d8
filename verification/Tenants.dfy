/** Tenant configuration: what `validate` accepts and what the two lookups then find. */
module Tenants {
  import opened Types

  datatype Quotas = Quotas(maxInstances: int, maxStorageGiB: int, allowedClasses: seq<string>)

  datatype Tenant = Tenant(group: string, namespace: string, networkRef: string, quotas: Quotas)

  datatype Verdict =
    | Accepted
    | GroupRequired(at: nat)
    | NamespaceRequired(at: nat)
    | NetworkRefRequired(at: nat)
    | DuplicateGroup(group: string)

  ghost predicate Distinct(keys: seq<string>) {
    forall i, j | 0 <= i < j < |keys| :: keys[i] != keys[j]
  }

  predicate Complete(t: Tenant) { t.group != "" && t.namespace != "" && t.networkRef != "" }

  function Groups(tenants: seq<Tenant>): seq<string> { seq(|tenants|, i requires 0 <= i < |tenants| => tenants[i].group) }

  function Namespaces(tenants: seq<Tenant>): seq<string> { seq(|tenants|, i requires 0 <= i < |tenants| => tenants[i].namespace) }

  ghost predicate WellFormed(tenants: seq<Tenant>) {
    && (forall t <- tenants :: Complete(t))
    && Distinct(Groups(tenants))
  }

  /** Why tenant `i`, after well-formed predecessors, is the first to be rejected. */
  ghost predicate RejectedAt(tenants: seq<Tenant>, i: nat, v: Verdict)
    requires i < |tenants|
  {
    var t := tenants[i];
    && WellFormed(tenants[..i])
    && match v
       case Accepted => false
       case GroupRequired(at) => at == i && t.group == ""
       case NamespaceRequired(at) => at == i && t.group != "" && t.namespace == ""
       case NetworkRefRequired(at) => at == i && t.group != "" && t.namespace != "" && t.networkRef == ""
       case DuplicateGroup(group) => Complete(t) && group == t.group && exists j | 0 <= j < i :: tenants[j].group == group
  }

  /** Accepts exactly the well-formed configurations; otherwise reports the first offender. */
  method Validate(tenants: seq<Tenant>) returns (v: Verdict)
    ensures v == Accepted <==> WellFormed(tenants)
    ensures v != Accepted ==> exists i | 0 <= i < |tenants| :: RejectedAt(tenants, i, v)
  {
    var seen: set<string> := {};
    for n := 0 to |tenants|
      invariant WellFormed(tenants[..n])
      invariant seen == set t <- tenants[..n] :: t.group
    {
      var t := tenants[n];
      assert t in tenants;
      if t.group == "" { v := GroupRequired(n); assert RejectedAt(tenants, n, v); return; }
      if t.namespace == "" { v := NamespaceRequired(n); assert RejectedAt(tenants, n, v); return; }
      if t.networkRef == "" { v := NetworkRefRequired(n); assert RejectedAt(tenants, n, v); return; }
      if t.group in seen {
        v := DuplicateGroup(t.group);
        var j :| 0 <= j < n && tenants[j].group == t.group;
        assert Groups(tenants)[j] == Groups(tenants)[n];
        assert RejectedAt(tenants, n, v);
        return;
      }
      seen := seen + {t.group};
      assert Groups(tenants[..n + 1]) == Groups(tenants[..n]) + [t.group];
      assert forall g <- Groups(tenants[..n]) :: g in seen;
    }
    v := Accepted;
    assert tenants[..|tenants|] == tenants;
  }

  // ---- Lookups ----

  /** The first position of `key`. */
  function First(keys: seq<string>, key: string): (r: Option<nat>)
    ensures r.Some? ==> r.value < |keys| && keys[r.value] == key && key !in keys[..r.value]
    ensures r == None <==> key !in keys
  {
    if keys == [] then None
    else if keys[0] == key then Some(0)
    else match First(keys[1..], key) case None => None case Some(i) => Some(i + 1)
  }

  lemma FirstIs(keys: seq<string>, i: nat)
    requires i < |keys| && forall j | 0 <= j < i :: keys[j] != keys[i]
    ensures First(keys, keys[i]) == Some(i)
  {
  }

  method Lookup(tenants: seq<Tenant>, group: string) returns (r: Option<nat>)
    ensures r == First(Groups(tenants), group)
  {
    for i := 0 to |tenants|
      invariant forall j | 0 <= j < i :: tenants[j].group != group
    {
      if tenants[i].group == group {
        FirstIs(Groups(tenants), i);
        return Some(i);
      }
    }
    return None;
  }

  method LookupByNamespace(tenants: seq<Tenant>, namespace: string) returns (r: Option<nat>)
    ensures r == First(Namespaces(tenants), namespace)
  {
    for i := 0 to |tenants|
      invariant forall j | 0 <= j < i :: tenants[j].namespace != namespace
    {
      if tenants[i].namespace == namespace {
        FirstIs(Namespaces(tenants), i);
        return Some(i);
      }
    }
    return None;
  }

  /** Every tenant is found under its own key. */
  ghost predicate AllFound(keys: seq<string>) {
    forall i | 0 <= i < |keys| :: First(keys, keys[i]) == Some(i)
  }

  lemma AllFoundIffDistinct(keys: seq<string>)
    ensures AllFound(keys) <==> Distinct(keys)
  {
    if Distinct(keys) {
      forall i | 0 <= i < |keys| ensures First(keys, keys[i]) == Some(i) { FirstIs(keys, i); }
    }
  }

  /** Validation makes the group lookup find every tenant; the namespace lookup does so exactly
      when the namespaces differ too, which validation does not check. */
  lemma ValidatedLookups(tenants: seq<Tenant>)
    requires WellFormed(tenants)
    ensures AllFound(Groups(tenants))
    ensures AllFound(Namespaces(tenants)) <==> Distinct(Namespaces(tenants))
  {
    AllFoundIffDistinct(Groups(tenants));
    AllFoundIffDistinct(Namespaces(tenants));
  }

  lemma NamespaceShared()
    ensures exists tenants: seq<Tenant> :: WellFormed(tenants) && !AllFound(Namespaces(tenants))
  {
    var q := Quotas(0, 0, []);
    var tenants := [Tenant("a-dbs", "shared", "net/a", q), Tenant("b-dbs", "shared", "net/b", q)];
    assert Groups(tenants) == ["a-dbs", "b-dbs"] && Namespaces(tenants) == ["shared", "shared"];
    assert "a-dbs"[0] != "b-dbs"[0];
    assert WellFormed(tenants);
    AllFoundIffDistinct(Namespaces(tenants));
  }
}
