/** The REST gateway: API keys cached from a Secret, a role gate in front of every handler, and
    the handlers as transitions of the DBInstance store. */
module Gateway {
  import opened Types

  const Admin := "admin"
  const Operator := "operator"
  const Viewer := "viewer"

  predicate KnownRole(role: string) { role == Admin || role == Operator || role == Viewer }

  // ---- Text ----

  /** The white space of Unicode, which `strings.TrimSpace` drops. */
  predicate IsSpace(c: char) {
    || c in {' ', '\t', '\n', '\r', '\U{000B}', '\U{000C}', '\U{0085}', '\U{00A0}', '\U{1680}', '\U{2028}', '\U{2029}',
             '\U{202F}', '\U{205F}', '\U{3000}'}
    || '\U{2000}' <= c <= '\U{200A}'
  }

  function TrimLeft(s: string, drop: char -> bool): string {
    if s != [] && drop(s[0]) then TrimLeft(s[1..], drop) else s
  }

  function TrimRight(s: string, drop: char -> bool): string {
    if s != [] && drop(s[|s| - 1]) then TrimRight(s[..|s| - 1], drop) else s
  }

  function Trim(s: string, drop: char -> bool): string { TrimRight(TrimLeft(s, drop), drop) }

  predicate IsSlash(c: char) { c == '/' }

  /** The pieces of `s` between slashes; never empty. */
  function SplitSlash(s: string): (r: seq<string>)
    ensures r != []
  {
    if s == [] then [""]
    else
      var rest := SplitSlash(s[1..]);
      if s[0] == '/' then [""] + rest else [[s[0]] + rest[0]] + rest[1..]
  }

  function JoinSlash(parts: seq<string>): string
    requires parts != []
  {
    if |parts| == 1 then parts[0] else parts[0] + "/" + JoinSlash(parts[1..])
  }

  /** Splitting loses nothing and leaves no slash inside a piece. */
  lemma {:induction false} SplitJoins(s: string)
    ensures JoinSlash(SplitSlash(s)) == s
    ensures forall p | p in SplitSlash(s) :: '/' !in p
  {
    if s != [] {
      SplitJoins(s[1..]);
      var rest := SplitSlash(s[1..]);
      if s[0] == '/' {
        assert ([""] + rest)[1..] == rest;
      } else {
        var parts := [[s[0]] + rest[0]] + rest[1..];
        assert parts[1..] == rest[1..];
        assert s == [s[0]] + s[1..];
        forall p | p in parts ensures '/' !in p {
          if p == parts[0] { assert rest[0] in rest; } else { assert p in rest; }
        }
      }
    }
  }

  /** A piece without slashes comes out whole. */
  lemma {:induction false} SplitFirst(a: string, b: string)
    requires '/' !in a
    ensures SplitSlash(a) == [a] && SplitSlash(a + "/" + b) == [a] + SplitSlash(b)
  {
    if a == [] {
      assert (a + "/" + b)[1..] == b;
    } else {
      SplitFirst(a[1..], b);
      assert (a + "/" + b)[1..] == a[1..] + "/" + b;
      assert [a[0]] + a[1..] == a;
      assert ([a[1..]] + SplitSlash(b))[1..] == SplitSlash(b);
    }
  }

  ghost predicate Surrounded(s: string, a: string, t: string, b: string, drop: char -> bool) {
    s == a + t + b && (forall c | c in a :: drop(c)) && (forall c | c in b :: drop(c))
  }

  /** Trimming drops exactly what it should from the ends. */
  lemma {:induction false} TrimParts(s: string, drop: char -> bool)
    ensures var t := Trim(s, drop);
            && (t == "" || (!drop(t[0]) && !drop(t[|t| - 1])))
            && exists a, b :: Surrounded(s, a, t, b, drop)
  {
    TrimLeftParts(s, drop);
    var l := TrimLeft(s, drop);
    var a :| s == a + l && forall c | c in a :: drop(c);
    TrimRightParts(l, drop);
    var t := TrimRight(l, drop);
    var b :| l == t + b && forall c | c in b :: drop(c);
    assert Surrounded(s, a, t, b, drop);
    if t != "" { assert t[0] == l[0]; }
  }

  lemma {:induction false} TrimLeftParts(s: string, drop: char -> bool)
    ensures var l := TrimLeft(s, drop);
            && (l == "" || !drop(l[0]))
            && exists a :: s == a + l && forall c | c in a :: drop(c)
  {
    if s != [] && drop(s[0]) {
      TrimLeftParts(s[1..], drop);
      var l := TrimLeft(s[1..], drop);
      var a :| s[1..] == a + l && forall c | c in a :: drop(c);
      assert s == ([s[0]] + a) + l;
    } else {
      assert s == [] + s;
    }
  }

  lemma {:induction false} TrimRightParts(s: string, drop: char -> bool)
    ensures var t := TrimRight(s, drop);
            && (t == "" || !drop(t[|t| - 1]))
            && exists b :: s == t + b && forall c | c in b :: drop(c)
  {
    if s != [] && drop(s[|s| - 1]) {
      TrimRightParts(s[..|s| - 1], drop);
      var t := TrimRight(s[..|s| - 1], drop);
      var b :| s[..|s| - 1] == t + b && forall c | c in b :: drop(c);
      assert s == t + (b + [s[|s| - 1]]);
    } else {
      assert s == s + [];
    }
  }

  /** A text without droppable ends stays whole, whatever droppable text surrounds it. */
  lemma {:induction false} TrimSurrounded(a: string, t: string, b: string, drop: char -> bool)
    requires (forall c | c in a :: drop(c)) && (forall c | c in b :: drop(c))
    requires t != "" && !drop(t[0]) && !drop(t[|t| - 1])
    ensures Trim(a + t + b, drop) == t
    decreases |a| + |b|
  {
    if a != [] {
      assert a[0] in a;
      TrimSurrounded(a[1..], t, b, drop);
      assert (a + t + b)[1..] == a[1..] + t + b;
    } else if b != [] {
      var n := |b| - 1;
      assert b[n] in b;
      TrimSurrounded(a, t, b[..n], drop);
      assert (a + t + b)[..|t| + n] == a + t + b[..n] && (a + t + b)[0] == t[0];
    } else {
      assert a + t + b == t;
    }
  }

  // ---- The key cache ----

  /** What `loadKeys` keeps of a Secret: keys whose trimmed value is a known role. */
  function Roles(secret: map<string, string>): map<string, string> {
    map k | k in secret && KnownRole(Trim(secret[k], IsSpace)) :: Trim(secret[k], IsSpace)
  }

  /** Key by key: a key is kept exactly when its value is one of the three roles between white
      space, and then with that role. */
  lemma RolesKept(secret: map<string, string>, key: string)
    ensures key in Roles(secret) <==>
              key in secret && exists a, role, b :: IsRoleIn(secret[key], a, role, b)
    ensures forall a, role, b :: key in secret && IsRoleIn(secret[key], a, role, b) ==>
              key in Roles(secret) && Roles(secret)[key] == role
  {
    forall a, role, b | key in secret && IsRoleIn(secret[key], a, role, b)
      ensures key in Roles(secret) && Roles(secret)[key] == role
    {
      TrimSurrounded(a, role, b, IsSpace);
    }
    if key in Roles(secret) {
      TrimParts(secret[key], IsSpace);
      var t := Trim(secret[key], IsSpace);
      var a, b :| Surrounded(secret[key], a, t, b, IsSpace);
      assert IsRoleIn(secret[key], a, t, b);
    }
  }

  ghost predicate IsRoleIn(value: string, a: string, role: string, b: string) {
    && Surrounded(value, a, role, b, IsSpace)
    && (role == "admin" || role == "operator" || role == "viewer")
  }

  /** One lookup: the cached role, or a reload from the Secret as read now, if it can be read. */
  function Reload(keys: map<string, string>, token: string, secret: Option<map<string, string>>): map<string, string> {
    if token in keys || secret == None then keys else Roles(secret.value)
  }

  // ---- The store ----

  /** A stored instance; `rest` stands for every field the gateway never edits by itself. */
  datatype Entry = Entry(running: Option<bool>, rest: int, finalizer: bool, deleting: bool)

  datatype Id = Id(namespace: string, name: string)

  datatype Method = Get | Post | Delete | OtherMethod

  /** `fails`: the API call of the handler fails. `body`: the decoded body of a create. */
  datatype Request = Request(
    path: string, verb: Method, authorization: string, body: Option<(Id, Entry)>, fails: bool,
    secret: Option<map<string, string>>)

  type Store = map<Id, Entry>

  /** `loads` counts the times the Secret was asked for. */
  datatype State = State(keys: map<string, string>, store: Store, defaultNamespace: string, loads: nat)

  /** `Delete` on the API server: a finalizer turns it into a mark. */
  function Erase(store: Store, id: Id): Store {
    if id !in store then store
    else if store[id].finalizer then store[id := store[id].(deleting := true)]
    else store - {id}
  }

  function CreateInstance(st: State, r: Request): Store {
    if r.body == None || r.body.value.0.name == "" || r.fails then st.store
    else
      var (id, entry) := r.body.value;
      var key := if id.namespace == "" then Id(st.defaultNamespace, id.name) else id;
      if key in st.store then st.store else st.store[key := entry]
  }

  function DeleteInstance(st: State, r: Request, name: string): Store {
    if r.fails then st.store else Erase(st.store, Id(st.defaultNamespace, name))
  }

  function SetRunning(st: State, r: Request, name: string, running: bool): Store {
    var id := Id(st.defaultNamespace, name);
    if r.fails || id !in st.store then st.store
    else st.store[id := st.store[id].(running := Some(running))]
  }

  predicate Allowed(role: string, roles: seq<string>) { role in roles }

  function InstanceRoute(st: State, r: Request, role: string): Store
    requires "/dbinstances/" <= r.path
  {
    var parts := SplitSlash(Trim(r.path[|"/dbinstances/"|..], IsSlash));
    if parts[0] == "" then st.store
    else if |parts| == 1 then
      if r.verb == Delete && Allowed(role, [Admin]) then DeleteInstance(st, r, parts[0]) else st.store
    else if r.verb != Post then st.store
    else if parts[1] == "start" && Allowed(role, [Admin, Operator]) then SetRunning(st, r, parts[0], true)
    else if parts[1] == "stop" && Allowed(role, [Admin, Operator]) then SetRunning(st, r, parts[0], false)
    else st.store
  }

  /** The handlers behind the authentication wrapper, for a caller with `role`. */
  function Route(st: State, r: Request, role: string): Store {
    if r.path == "/dbinstances" then
      if r.verb == Post && Allowed(role, [Admin]) then CreateInstance(st, r) else st.store
    else if "/dbinstances/" <= r.path then InstanceRoute(st, r, role)
    else st.store
  }

  /** The bearer token, when the request carries one and is not a health check. */
  function Token(r: Request): Option<string> {
    if r.path != "/healthz" && "Bearer " <= r.authorization then Some(r.authorization[|"Bearer "|..]) else None
  }

  /** The role a request ends up with; `""` when it is turned away or is a health check. */
  function RoleOf(st: State, r: Request): string {
    var token := Token(r);
    if token == None then ""
    else
      var keys := Reload(st.keys, token.value, r.secret);
      if token.value in keys then keys[token.value] else ""
  }

  function LookedUp(st: State, token: string, secret: Option<map<string, string>>): State {
    st.(keys := Reload(st.keys, token, secret), loads := st.loads + if token in st.keys then 0 else 1)
  }

  function Serve(st: State, r: Request): State {
    var token := Token(r);
    if token == None then st
    else
      var next := LookedUp(st, token.value, r.secret);
      if token.value in next.keys then next.(store := Route(next, r, next.keys[token.value])) else next
  }

  function ServeAll(st: State, requests: seq<Request>): State
    decreases |requests|
  {
    if requests == [] then st else ServeAll(Serve(st, requests[0]), requests[1..])
  }

  // ---- What a request does ----

  /** A bearer of `token` who is known under `role`. */
  predicate Bears(st: State, r: Request, token: string, role: string) {
    r.authorization == "Bearer " + token && token in st.keys && st.keys[token] == role
  }

  lemma Served(st: State, r: Request, token: string, role: string)
    requires Bears(st, r, token, role) && r.path != "/healthz"
    ensures Serve(st, r) == st.(store := Route(st, r, role))
  {
    hide Route;
    assert r.authorization[|"Bearer "|..] == token;
  }

  lemma PathTail(path: string, tail: string)
    requires path == "/dbinstances/" + tail
    ensures path != "/healthz" && path != "/dbinstances" && "/dbinstances/" <= path && path[|"/dbinstances/"|..] == tail
  {
    assert path[1] == 'd' && "/healthz"[1] == 'h';
    assert |path| > |"/dbinstances"|;
  }

  /** The pieces of a path that names an instance, and of one that names an action on it. */
  lemma NamedParts(name: string, action: string)
    requires name != "" && '/' !in name && action != "" && '/' !in action
    ensures SplitSlash(Trim(name, IsSlash)) == [name]
    ensures SplitSlash(Trim(name + "/" + action, IsSlash)) == [name, action]
  {
    var tail := name + "/" + action;
    assert name[0] in name && name[|name| - 1] in name && action[|action| - 1] in action;
    assert tail[0] == name[0] && tail[|tail| - 1] == action[|action| - 1];
    SplitFirst(name, action);
    SplitFirst(action, "");
    hide SplitSlash, Trim;
    assert [] + name + [] == name && [] + tail + [] == tail;
    TrimSurrounded([], name, [], IsSlash);
    TrimSurrounded([], tail, [], IsSlash);
  }

  /** POST /dbinstances/name/start and /stop, by an administrator or operator: exactly the named
      entry changes, and its `running` becomes true for start and false for stop. */
  lemma SwitchRequest(st: State, r: Request, token: string, role: string, name: string, on: bool)
    requires Bears(st, r, token, role) && (role == "admin" || role == "operator")
    requires r.verb == Post && !r.fails && name != "" && '/' !in name
    requires r.path == "/dbinstances/" + name + (if on then "/start" else "/stop")
    ensures var id := Id(st.defaultNamespace, name);
            Serve(st, r) == st.(store := if id in st.store then st.store[id := st.store[id].(running := Some(on))] else st.store)
  {
    hide SplitSlash, Trim, Serve, Erase, CreateInstance;
    var action := if on then "start" else "stop";
    assert r.path == "/dbinstances/" + (name + "/" + action);
    assert "start"[2] == 'a' && "stop"[2] == 'o';
    PathTail(r.path, name + "/" + action);
    NamedParts(name, action);
    Served(st, r, token, role);
  }

  /** DELETE /dbinstances/name by an administrator: exactly the named entry is marked as deleting
      if it has a finalizer, and removed if not. */
  lemma DeleteRequest(st: State, r: Request, token: string, name: string)
    requires Bears(st, r, token, "admin") && r.verb == Delete && !r.fails && name != "" && '/' !in name
    requires r.path == "/dbinstances/" + name
    ensures var id := Id(st.defaultNamespace, name);
            Serve(st, r) == st.(store := if id !in st.store then st.store
                                         else if st.store[id].finalizer then st.store[id := st.store[id].(deleting := true)]
                                         else st.store - {id})
  {
    hide SplitSlash, Trim, Serve, CreateInstance;
    PathTail(r.path, name);
    NamedParts(name, "start");
    Served(st, r, token, "admin");
  }

  /** POST /dbinstances by an administrator: a named body is added as it is, under its own
      namespace or the default one, unless that entry exists. */
  lemma CreateRequest(st: State, r: Request, token: string, id: Id, entry: Entry)
    requires Bears(st, r, token, "admin") && r.verb == Post && !r.fails && r.path == "/dbinstances"
    requires r.body == Some((id, entry)) && id.name != ""
    ensures var key := if id.namespace != "" then id else Id(st.defaultNamespace, id.name);
            Serve(st, r) == st.(store := if key in st.store then st.store else st.store[key := entry])
  {
    assert "/dbinstances"[1] != "/healthz"[1];
    Served(st, r, token, "admin");
  }

  /** Nothing else changes an instance: a change is a create, a delete or a switch, by a caller who
      may, with the verb and the path for it. */
  lemma ChangeCauses(st: State, r: Request, role: string)
    requires Route(st, r, role) != st.store
    ensures !r.fails && (r.verb == Post || r.verb == Delete)
    ensures
      || (r.path == "/dbinstances" && r.verb == Post && role == "admin" && r.body.Some? && r.body.value.0.name != "")
      || ("/dbinstances/" <= r.path &&
            var parts := SplitSlash(Trim(r.path[|"/dbinstances/"|..], IsSlash));
            parts[0] != "" &&
              if |parts| == 1 then r.verb == Delete && role == "admin"
              else r.verb == Post && (role == "admin" || role == "operator") && (parts[1] == "start" || parts[1] == "stop"))
  {
    hide SplitSlash, Trim;
  }

  /** A request without bearer token changes nothing at all; one whose key is unknown to the cache
      and to the Secret changes no instance; nor does a failing call or a read. */
  lemma TurnedAway(st: State, r: Request)
    ensures r.path == "/healthz" || !("Bearer " <= r.authorization) ==> Serve(st, r) == st
    ensures Token(r).Some? && Token(r).value !in st.keys && (r.secret == None || Token(r).value !in Roles(r.secret.value)) ==>
              Serve(st, r).store == st.store
    ensures r.fails || r.verb == Get ==> Serve(st, r).store == st.store
  {
    hide Trim, SplitSlash, Roles;
  }

  // ---- What roles can do ----

  /** Same instances, equal but for `spec.running`. */
  predicate SameButRunning(a: Store, b: Store) {
    a.Keys == b.Keys && forall id | id in a :: b[id] == a[id].(running := b[id].running)
  }

  lemma RouteGate(st: State, r: Request, role: string)
    ensures role !in {Admin, Operator} ==> Route(st, r, role) == st.store
    ensures role != Admin ==> SameButRunning(st.store, Route(st, r, role))
  {
    hide SplitSlash, Trim;
  }

  /** Every request of the sequence is served with one of `roles` or turned away. */
  predicate ServedAs(st: State, requests: seq<Request>, roles: set<string>)
    decreases |requests|
  {
    requests == [] ||
      ((RoleOf(st, requests[0]) == "" || RoleOf(st, requests[0]) in roles)
       && ServedAs(Serve(st, requests[0]), requests[1..], roles))
  }

  /** Any number of viewer and unauthenticated requests leaves every instance untouched. */
  lemma {:induction false} ViewersChangeNothing(st: State, requests: seq<Request>)
    requires ServedAs(st, requests, {Viewer})
    ensures ServeAll(st, requests).store == st.store
    decreases |requests|
  {
    hide Route;
    if requests != [] {
      var r := requests[0];
      RouteGate(LookedUp(st, if Token(r).Some? then Token(r).value else "", r.secret), r, RoleOf(st, r));
      ViewersChangeNothing(Serve(st, r), requests[1..]);
    }
  }

  /** Without an administrator nothing but `spec.running` ever changes. */
  lemma {:induction false} OperatorsOnlySwitch(st: State, requests: seq<Request>)
    requires ServedAs(st, requests, {Viewer, Operator})
    ensures SameButRunning(st.store, ServeAll(st, requests).store)
    decreases |requests|
  {
    hide Route;
    if requests != [] {
      var r := requests[0];
      RouteGate(LookedUp(st, if Token(r).Some? then Token(r).value else "", r.secret), r, RoleOf(st, r));
      OperatorsOnlySwitch(Serve(st, r), requests[1..]);
    }
  }

  // ---- The cache against the Secret ----

  /** The cache is empty or the role-filtered image of one Secret version that was read. */
  ghost predicate FromSome(keys: map<string, string>, seen: set<map<string, string>>) {
    keys == map[] || exists s :: s in seen && keys == Roles(s)
  }

  function Seen(requests: seq<Request>): set<map<string, string>> {
    set i | 0 <= i < |requests| && requests[i].secret.Some? :: requests[i].secret.value
  }

  lemma {:induction false} CacheIsSomeSecret(st: State, requests: seq<Request>, before: set<map<string, string>>)
    requires FromSome(st.keys, before)
    ensures FromSome(ServeAll(st, requests).keys, before + Seen(requests))
    decreases |requests|
  {
    hide Route, Roles, Token;
    if requests != [] {
      var r := requests[0];
      var now := before + (if r.secret.Some? then {r.secret.value} else {});
      assert FromSome(Serve(st, r).keys, now) by {
        if Serve(st, r).keys != st.keys { assert r.secret.value in now; }
      }
      CacheIsSomeSecret(Serve(st, r), requests[1..], now);
      assert now + Seen(requests[1..]) <= before + Seen(requests) by { SeenHead(requests); }
    }
  }

  lemma SeenHead(requests: seq<Request>)
    requires requests != []
    ensures Seen(requests[1..]) <= Seen(requests)
    ensures requests[0].secret.Some? ==> requests[0].secret.value in Seen(requests)
  {
    forall s | s in Seen(requests[1..]) ensures s in Seen(requests) {
      var i :| 0 <= i < |requests[1..]| && requests[1..][i].secret == Some(s);
      assert requests[i + 1].secret == Some(s);
    }
  }

  /** The role a Secret gives to a token; `""` for none. */
  function RoleIn(secret: map<string, string>, token: string): string {
    if token in Roles(secret) then Roles(secret)[token] else ""
  }

  /** When the Secret can be read, a request is served with the role the Secret gives now exactly
      when its key is not cached, or cached with that role. So a refusal is always current and
      an acceptance need not be. */
  lemma RoleIsCurrentIff(st: State, r: Request)
    requires Token(r).Some? && r.secret.Some?
    ensures var token, current := Token(r).value, RoleIn(r.secret.value, Token(r).value);
            && (RoleOf(st, r) == current <==> token !in st.keys || st.keys[token] == current)
            && (token !in st.keys ==> (RoleOf(st, r) != "" <==> token in Roles(r.secret.value)))
            && (token in st.keys ==> RoleOf(st, r) == st.keys[token])
  {
    hide Token, Trim;
  }

  /** The request makes the cache follow the Secret: an unknown key, and a Secret that can be read. */
  predicate Misses(keys: map<string, string>, r: Request) {
    Token(r).Some? && Token(r).value !in keys && r.secret.Some?
  }

  lemma {:induction false} CacheKeptWithoutMiss(st: State, requests: seq<Request>)
    requires forall r | r in requests :: !Misses(st.keys, r)
    ensures ServeAll(st, requests).keys == st.keys
    decreases |requests|
  {
    hide Route, Roles, Token;
    if requests != [] {
      assert requests[0] in requests;
      CacheKeptWithoutMiss(Serve(st, requests[0]), requests[1..]);
    }
  }

  /** A cached key is honoured through any trace, revoked or not, until the first unknown key
      arrives while the Secret can be read; from then on the Secret read then decides. */
  lemma HonouredUntilMiss(st: State, before: seq<Request>, miss: Request, r: Request)
    requires (forall q | q in before :: !Misses(st.keys, q)) && Misses(st.keys, miss)
    requires Token(r).Some? && Token(r).value in st.keys
    ensures RoleOf(ServeAll(st, before), r) == st.keys[Token(r).value]
    ensures var after := Serve(ServeAll(st, before), miss);
            && after.keys == Roles(miss.secret.value)
            && (r.secret.Some? ==>
                  RoleOf(after, r) == if Token(r).value in Roles(miss.secret.value) then RoleIn(miss.secret.value, Token(r).value)
                                      else RoleIn(r.secret.value, Token(r).value))
  {
    CacheKeptWithoutMiss(st, before);
    hide Route, Roles, Token, ServeAll;
  }

  /** The input: a key loaded as admin and then removed from the Secret still creates an instance. */
  lemma RevokedKeyHonoured() returns (first: Request, later: Request)
    ensures var st := Serve(State(map[], map[], "default", 0), first);
            && Token(later).Some? && later.secret.Some? && Token(later).value !in Roles(later.secret.value)
            && RoleOf(st, later) == Admin && Serve(st, later).store != st.store
  {
    var entry := Entry(None, 0, false, false);
    first := Request("/dbinstances", Get, "Bearer key", None, false, Some(map["key" := "admin"]));
    later := Request("/dbinstances", Post, "Bearer key", Some((Id("ns", "db"), entry)), false, Some(map[]));
    assert "Bearer key"[|"Bearer "|..] == "key";
    assert Token(first) == Some("key") && Token(later) == Some("key");
    NoSpaceAtEnds("admin");
    hide Token, Trim, IsSpace, InstanceRoute;
    assert Roles(map["key" := "admin"]) == map["key" := "admin"];
    var st := Serve(State(map[], map[], "default", 0), first);
    assert st.keys == map["key" := "admin"] && st.store == map[];
    assert Serve(st, later).store == map[Id("ns", "db") := entry];
  }

  lemma NoSpaceAtEnds(s: string)
    requires s != [] && !IsSpace(s[0]) && !IsSpace(s[|s| - 1])
    ensures Trim(s, IsSpace) == s
  {
  }

  /** Reloads are not limited: a trace reads the Secret at most once per request, and exactly
      once per request when every key is unknown to the cache and to the Secret. */
  lemma {:induction false} UnknownKeysReload(st: State, requests: seq<Request>)
    ensures st.loads <= ServeAll(st, requests).loads <= st.loads + |requests|
    ensures (forall r | r in requests ::
               && Token(r).Some? && Token(r).value !in st.keys
               && (forall q | q in requests && q.secret.Some? :: Token(r).value !in Roles(q.secret.value)))
            ==> ServeAll(st, requests).loads == st.loads + |requests|
    decreases |requests|
  {
    hide Route, Roles, Token;
    if requests != [] {
      assert requests[0] in requests;
      UnknownKeysReload(Serve(st, requests[0]), requests[1..]);
    }
  }

  /** Any number of reloads can be provoked: one unknown key sent `n` times asks `n` times. */
  lemma NoReloadLimit(st: State, r: Request, n: nat)
    requires Token(r).Some? && Token(r).value !in st.keys
    requires r.secret.Some? ==> Token(r).value !in Roles(r.secret.value)
    ensures ServeAll(st, seq(n, i => r)).loads == st.loads + n
  {
    hide Token, ServeAll, Roles;
    UnknownKeysReload(st, seq(n, i => r));
  }

  /** The middleware and the server it guards. */
  class Server {
    var keys: map<string, string>
    var store: Store
    var loads: nat
    const defaultNamespace: string

    constructor (defaultNamespace: string, store: Store)
      ensures Abstract() == State(map[], store, defaultNamespace, 0)
    {
      this.keys := map[];
      this.store := store;
      this.loads := 0;
      this.defaultNamespace := defaultNamespace;
    }

    ghost function Abstract(): State
      reads this
    {
      State(keys, store, defaultNamespace, loads)
    }

    /** Rebuilds the map key by key, then swaps it in; a failed read keeps the old one. */
    method LoadKeys(secret: Option<map<string, string>>)
      modifies this`keys, this`loads
      ensures keys == if secret.Some? then Roles(secret.value) else old(keys)
      ensures loads == old(loads) + 1
    {
      hide IsSpace, Trim;
      loads := loads + 1;
      if secret == None { return; }
      var data := secret.value;
      var loaded: map<string, string> := map[];
      var rest := data.Keys;
      while rest != {}
        invariant rest <= data.Keys
        invariant loaded == map k | k in data && k !in rest && KnownRole(Trim(data[k], IsSpace)) :: Trim(data[k], IsSpace)
        decreases |rest|
      {
        var key :| key in rest;
        var role := Trim(data[key], IsSpace);
        if role == Admin || role == Operator || role == Viewer {
          loaded := loaded[key := role];
        }
        rest := rest - {key};
      }
      keys := loaded;
    }

    method Lookup(token: string, secret: Option<map<string, string>>) returns (role: string, ok: bool)
      modifies this`keys, this`loads
      ensures keys == Reload(old(keys), token, secret)
      ensures loads == old(loads) + if token in old(keys) then 0 else 1
      ensures ok <==> token in keys
      ensures ok ==> role == keys[token]
    {
      if token in keys { return keys[token], true; }
      LoadKeys(secret);
      if token in keys { return keys[token], true; }
      return "", false;
    }

    /** Scans the allowed roles for the caller's. */
    method RequireRole(role: string, allowed: seq<string>) returns (ok: bool)
      ensures ok <==> Allowed(role, allowed)
    {
      for i := 0 to |allowed|
        invariant role !in allowed[..i]
      {
        if role == allowed[i] { return true; }
      }
      return false;
    }

    method Handle(r: Request)
      modifies this`keys, this`store, this`loads
      ensures Abstract() == Serve(old(Abstract()), r)
    {
      hide InstanceRoute, CreateInstance, Roles;
      if r.path == "/healthz" { return; }
      if !("Bearer " <= r.authorization) { return; }
      var token := r.authorization[|"Bearer "|..];
      var role, ok := Lookup(token, r.secret);
      if !ok { return; }
      if r.path == "/dbinstances" {
        if r.verb == Post {
          var admin := RequireRole(role, [Admin]);
          if admin { store := CreateInstance(State(keys, store, defaultNamespace, loads), r); }
        }
      } else if "/dbinstances/" <= r.path {
        HandleInstanceRoute(r, role);
      }
    }

    method HandleInstanceRoute(r: Request, role: string)
      requires "/dbinstances/" <= r.path
      modifies this`store
      ensures store == InstanceRoute(old(Abstract()), r, role)
    {
      var parts := SplitSlash(Trim(r.path[|"/dbinstances/"|..], IsSlash));
      if parts[0] == "" { return; }
      var name := parts[0];
      if |parts| == 1 {
        if r.verb == Delete {
          var admin := RequireRole(role, [Admin]);
          if admin { store := DeleteInstance(State(keys, store, defaultNamespace, loads), r, name); }
        }
        return;
      }
      if r.verb != Post { return; }
      if parts[1] == "start" {
        HandleSetRunning(r, role, name, true);
      } else if parts[1] == "stop" {
        HandleSetRunning(r, role, name, false);
      }
    }

    method HandleSetRunning(r: Request, role: string, name: string, running: bool)
      modifies this`store
      ensures store == if Allowed(role, [Admin, Operator]) then SetRunning(old(Abstract()), r, name, running) else old(store)
    {
      var may := RequireRole(role, [Admin, Operator]);
      if !may { return; }
      var id := Id(defaultNamespace, name);
      if r.fails || id !in store { return; }
      var instance := store[id];
      instance := instance.(running := Some(running));
      store := store[id := instance];
    }
  }
}
