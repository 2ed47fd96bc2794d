/** The cache of cloud clients (pkg/aliyun/cache.go): one client per identity, for one version of its credentials. */
module ClientCache {
  import opened Wrappers
  import opened Text

  datatype ClientKey = ClientKey(
    namespace: string, name: string, resourceVersion: string,
    region: string, endpoint: string, resourceGroup: string, kind: string)

  function Components(k: ClientKey): seq<string> {
    [k.namespace, k.name, k.region, k.endpoint, k.resourceGroup, k.kind]
  }

  /** Everything but the version, joined with slashes. */
  function Identity(k: ClientKey): string {
    Join(Components(k), '/')
  }

  predicate SlashFree(k: ClientKey) {
    AllFree(Components(k), '/')
  }

  lemma SameComponents(k: ClientKey, l: ClientKey)
    requires Components(k) == Components(l)
    ensures k == l.(resourceVersion := k.resourceVersion)
  {
    var c, d := Components(k), Components(l);
    assert c[0] == d[0] && c[1] == d[1] && c[2] == d[2] && c[3] == d[3] && c[4] == d[4] && c[5] == d[5];
  }

  /** A slash-free key shares its slot with no key but its own other versions. */
  lemma SlashFreeIsAlone(k: ClientKey, l: ClientKey)
    requires SlashFree(k) && Identity(k) == Identity(l)
    ensures l == k.(resourceVersion := l.resourceVersion)
  {
    JoinInjective(Components(k), Components(l), '/');
    SameComponents(l, k);
  }

  /** A slash in a region can be read as the boundary to the endpoint. */
  lemma SlashesShareASlot(k: ClientKey, a: string, b: string, c: string)
    ensures var l, m := k.(region := a + "/" + b, endpoint := c), k.(region := a, endpoint := b + "/" + c);
            l != m && Identity(l) == Identity(m)
  {
    var l, m := k.(region := a + "/" + b, endpoint := c), k.(region := a, endpoint := b + "/" + c);
    assert |l.endpoint| < |m.endpoint|;
    var p, q := Components(l), Components(m);
    assert p[..2] == q[..2] && p[4..] == q[4..];
    assert p[2] + ['/'] + p[3] == (a + "/" + b) + "/" + c == a + "/" + (b + "/" + c) == q[2] + ['/'] + q[3];
    JoinReplaced(p, q, 2, '/');
  }

  /** Exactly when an identity names one key, up to its version. */
  lemma IdentityNamesOneKey(k: ClientKey)
    ensures SlashFree(k) <==> forall l :: Identity(l) == Identity(k) ==> l == k.(resourceVersion := l.resourceVersion)
  {
    if SlashFree(k) {
      forall l | Identity(l) == Identity(k) ensures l == k.(resourceVersion := l.resourceVersion) { SlashFreeIsAlone(k, l); }
    } else {
      var i :| 0 <= i < |Components(k)| && !Free(Components(k)[i], '/');
      var q := Ambiguous(Components(k), '/', i);
      var l := ClientKey(q[0], q[1], k.resourceVersion, q[2], q[3], q[4], q[5]);
      assert Components(l) == q;
      assert l != k;
    }
  }

  datatype Entry<T> = Entry(resourceVersion: string, client: T)

  class Cache<T, E> {
    /** What building a client for a key yields, when it succeeds. */
    const make: ClientKey -> T
    var m: map<string, Entry<T>>
    ghost var asked: set<ClientKey>

    /** Each entry was built for its identity and its version. */
    ghost predicate Valid()
      reads this
    {
      forall id :: id in m ==>
        exists k :: k in asked && Identity(k) == id && k.resourceVersion == m[id].resourceVersion && m[id].client == make(k)
    }

    constructor (make: ClientKey -> T)
      ensures Valid() && this.make == make && m == map[] && asked == {}
    {
      this.make, m, asked := make, map[], {};
    }

    /** failure is how the builder would fail this time, if it is called and does fail. A cached client
        is what building now would give, unless this very key has a slash in it. */
    method GetOrBuild(key: ClientKey, failure: Option<E>) returns (r: Result<T, E>)
      requires Valid()
      modifies this
      ensures Valid() && old(asked) <= asked <= old(asked) + {key}
      ensures r.Err? ==> failure == Some(r.error) && m == old(m)
      ensures r.Ok? ==> m == old(m)[Identity(key) := Entry(key.resourceVersion, r.value)]
      ensures r.Ok? ==> exists k :: k in asked && Identity(k) == Identity(key) && k.resourceVersion == key.resourceVersion
                                    && r.value == make(k)
      ensures r.Ok? && SlashFree(key) ==> r.value == make(key)
      ensures failure.None? ==> r.Ok?
      ensures var hit := Identity(key) in old(m) && old(m)[Identity(key)].resourceVersion == key.resourceVersion;
              if hit then r == Ok(old(m)[Identity(key)].client) && m == old(m)
              else if failure.Some? then r == Err(failure.value)
              else r == Ok(make(key))
    {
      hide Identity, SlashFree;
      var id := Identity(key);
      if id in m && m[id].resourceVersion == key.resourceVersion {
        r := Ok(m[id].client);
        ghost var k :| k in asked && Identity(k) == id && k.resourceVersion == key.resourceVersion && r.value == make(k);
        if SlashFree(key) { SlashFreeIsAlone(key, k); }
        return;
      }
      if failure.Some? { return Err(failure.value); }
      r := Ok(make(key));
      m := m[id := Entry(key.resourceVersion, r.value)];
      asked := asked + {key};
    }
  }
}
