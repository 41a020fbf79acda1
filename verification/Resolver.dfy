/** The cache of live clients (internal/controller/resolve.go): a client is built once per revision of its record. */
module Resolvers {
  import opened Types
  import opened Decimals

  type Params = map<string, string>

  /** A stored record: `rev` is the time of its last update in nanoseconds, `spec` what a client is built from. */
  datatype Record<S> = Record(id: nat, rev: int, spec: S)
  datatype CloudSpec = CloudSpec(name: string, driver: string, settings: Params, credentials: Params)
  datatype ForgeSpec = ForgeSpec(name: string, kind: string, settings: Params, credentials: Params)

  /** A client is what it was built from. */
  datatype CloudClient = CloudClient(name: string, driver: string, cfg: Params)
  datatype ForgeClient = ForgeClient(kind: string, cfg: Params)

  /** One map for the driver; credentials win over settings of the same name. */
  function MergeSettings(settings: Params, credentials: Params): (cfg: Params)
    ensures forall k :: k in credentials ==> k in cfg && cfg[k] == credentials[k]
    ensures forall k :: k in cfg && k !in credentials ==> k in settings && cfg[k] == settings[k]
    ensures cfg.Keys == settings.Keys + credentials.Keys
  {
    settings + credentials
  }

  /** `cfg` says what the settings and the credentials say, and where both do, what the credentials do. */
  predicate Merges(settings: Params, credentials: Params, cfg: Params) {
    && cfg.Keys == settings.Keys + credentials.Keys
    && forall k :: k in cfg ==> cfg[k] == if k in credentials then credentials[k] else settings[k]
  }

  function BuildCloud(c: CloudSpec): CloudClient {
    CloudClient(c.name, c.driver, MergeSettings(c.settings, c.credentials))
  }

  function BuildForge(f: ForgeSpec): ForgeClient {
    ForgeClient(f.kind, MergeSettings(f.settings, f.credentials)["name" := f.name])
  }

  /** A cloud's client is built from its name, its driver and its settings with the credentials over them; a forge's
      from its kind and the same, and its name goes over them all. */
  lemma ClientsSay(c: CloudSpec, f: ForgeSpec)
    ensures BuildCloud(c).name == c.name && BuildCloud(c).driver == c.driver
    ensures Merges(c.settings, c.credentials, BuildCloud(c).cfg)
    ensures BuildForge(f).kind == f.kind
    ensures Merges(f.settings, f.credentials["name" := f.name], BuildForge(f).cfg)
  {
  }

  // ---- keys ----

  function IdPrefix(id: nat): string { Format(id) + "/" }

  function CacheKey(id: nat, rev: int): string { IdPrefix(id) + FormatInt(rev) }

  lemma {:induction false} SlashEndsTheNumber(i: nat, j: nat, s: string, t: string)
    requires Format(i) + "/" + s == Format(j) + "/" + t
    ensures i == j && s == t
  {
    FormatIsDigits(i);
    FormatIsDigits(j);
    var a, b := Format(i) + "/" + s, Format(j) + "/" + t;
    assert a[|Format(i)|] == '/' && b[|Format(j)|] == '/';
    forall p | 0 <= p < |Format(i)| ensures a[p] != '/' { assert a[p] == Format(i)[p] && Format(i)[p] in Format(i); }
    forall p | 0 <= p < |Format(j)| ensures b[p] != '/' { assert b[p] == Format(j)[p] && Format(j)[p] in Format(j); }
    assert |Format(i)| == |Format(j)|;
    assert Format(i) == a[..|Format(i)|] && Format(j) == b[..|Format(j)|];
    assert s == a[|Format(i)| + 1..] && t == b[|Format(j)| + 1..];
    FormatIsInjective(i, j);
  }

  /** A key tells the record and its revision. */
  lemma CacheKeyIsInjective(i: nat, r: int, j: nat, q: int)
    requires CacheKey(i, r) == CacheKey(j, q)
    ensures i == j && r == q
  {
    SlashEndsTheNumber(i, j, FormatInt(r), FormatInt(q));
    FormatIntIsInjective(r, q);
  }

  /** The prefixes of different records never overlap: 1/ is no prefix of a key of record 12. */
  lemma PrefixFindsExactlyItsRecord(i: nat, j: nat, r: int)
    ensures IdPrefix(i) <= CacheKey(j, r) <==> i == j
  {
    var key := CacheKey(j, r);
    if IdPrefix(i) <= key {
      var rest := key[|IdPrefix(i)|..];
      assert Format(i) + "/" + rest == key == Format(j) + "/" + FormatInt(r);
      SlashEndsTheNumber(i, j, rest, FormatInt(r));
    }
  }

  /** Drops the entries whose key starts with the id. */
  method Prune<T(!new)>(m: map<string, T>, id: nat) returns (left: map<string, T>)
    ensures left == map k | k in m && !(IdPrefix(id) <= k) :: m[k]
  {
    var prefix := IdPrefix(id);
    var keys := Enumerate(m.Keys);
    left := m;
    for i := 0 to |keys|
      invariant left == map k | k in m && !(k in keys[..i] && prefix <= k) :: m[k]
    {
      var k := keys[i];
      assert keys[..i + 1] == keys[..i] + [k];
      if |k| >= |prefix| && k[..|prefix|] == prefix {
        left := left - {k};
      }
    }
    assert keys[..|keys|] == keys;
  }

  // ---- the cache ----

  /** Every entry is the client of the record revision its key names, and no record has two entries; `from` holds the
      records the entries were built from. */
  ghost predicate Coherent<S(!new), C>(m: map<string, C>, from: map<string, Record<S>>, build: S -> C) {
    && m.Keys == from.Keys
    && (forall k :: k in m ==> k == CacheKey(from[k].id, from[k].rev) && m[k] == build(from[k].spec))
    && (forall k, l :: k in m && l in m && from[k].id == from[l].id ==> k == l)
  }

  /** A record of the same id and revision as a cached one says the same. */
  ghost predicate Unchanged<S(!new)>(from: map<string, Record<S>>, r: Record<S>) {
    forall k :: k in from && from[k].id == r.id && from[k].rev == r.rev ==> from[k] == r
  }

  function KeyOf<S>(r: Record<S>): string { CacheKey(r.id, r.rev) }

  /** The cache and its history after a new build of `r`. */
  function Replaced<C>(m: map<string, C>, id: nat, key: string, client: C): map<string, C> {
    (map k | k in m && !(IdPrefix(id) <= k) :: m[k])[key := client]
  }

  ghost function ReplacedFrom<S>(from: map<string, Record<S>>, r: Record<S>): map<string, Record<S>> {
    (map k | k in from && from[k].id != r.id :: from[k])[KeyOf(r) := r]
  }

  lemma HitIsCurrent<S(!new), C>(m: map<string, C>, from: map<string, Record<S>>, build: S -> C, r: Record<S>)
    requires Coherent(m, from, build) && Unchanged(from, r) && KeyOf(r) in m
    ensures m[KeyOf(r)] == build(r.spec)
  {
    var k := KeyOf(r);
    CacheKeyIsInjective(from[k].id, from[k].rev, r.id, r.rev);
  }

  /** A new build replaces exactly the entries of its own record. */
  lemma ReplacingIsCoherent<S(!new), C>(m: map<string, C>, from: map<string, Record<S>>, build: S -> C, r: Record<S>)
    requires Coherent(m, from, build)
    ensures var m', from' := Replaced(m, r.id, KeyOf(r), build(r.spec)), ReplacedFrom(from, r);
            && Coherent(m', from', build)
            && (forall k :: k in m && from[k].id != r.id ==> k in m' && m'[k] == m[k])
            && (forall k :: k in m' ==> k == KeyOf(r) || (k in m && from[k].id != r.id))
  {
    forall k | k in m
      ensures IdPrefix(r.id) <= k <==> from[k].id == r.id
      ensures from[k].id != r.id ==> k != KeyOf(r)
    {
      PrefixFindsExactlyItsRecord(r.id, from[k].id, from[k].rev);
      PrefixFindsExactlyItsRecord(r.id, r.id, r.rev);
    }
  }

  class Resolver {
    var clouds: map<string, CloudClient>
    var forges: map<string, ForgeClient>
    ghost var cloudsFrom: map<string, Record<CloudSpec>>
    ghost var forgesFrom: map<string, Record<ForgeSpec>>

    ghost predicate Valid()
      reads this
    {
      Coherent(clouds, cloudsFrom, BuildCloud) && Coherent(forges, forgesFrom, BuildForge)
    }

    constructor ()
      ensures Valid() && clouds == map[] && forges == map[]
    {
      clouds, forges, cloudsFrom, forgesFrom := map[], map[], map[], map[];
    }

    /** What is returned is what would be built from the record now. A hit and a failing build leave the cache alone; a
        new build replaces the entries of its own record and no others. */
    method Cloud(c: Option<Record<CloudSpec>>, builds: bool) returns (p: Option<CloudClient>)
      requires Valid() && (c.Some? ==> Unchanged(cloudsFrom, c.value))
      modifies this`clouds, this`cloudsFrom
      ensures Valid()
      ensures p == if c.Some? && (builds || KeyOf(c.value) in old(clouds)) then Some(BuildCloud(c.value.spec)) else None
      ensures clouds == if p.Some? && KeyOf(c.value) !in old(clouds)
                        then Replaced(old(clouds), c.value.id, KeyOf(c.value), p.value) else old(clouds)
    {
      if c.None? {
        return None;
      }
      var r := c.value;
      var key := CacheKey(r.id, r.rev);
      if key in clouds {
        HitIsCurrent(clouds, cloudsFrom, BuildCloud, r);
        return Some(clouds[key]);
      }
      if !builds {
        return None;
      }
      var cfg := MergeSettings(r.spec.settings, r.spec.credentials);
      var client := CloudClient(r.spec.name, r.spec.driver, cfg);
      ReplacingIsCoherent(clouds, cloudsFrom, BuildCloud, r);
      clouds := Prune(clouds, r.id);
      clouds := clouds[key := client];
      cloudsFrom := ReplacedFrom(cloudsFrom, r);
      return Some(client);
    }

    method Forge(f: Option<Record<ForgeSpec>>, builds: bool) returns (p: Option<ForgeClient>)
      requires Valid() && (f.Some? ==> Unchanged(forgesFrom, f.value))
      modifies this`forges, this`forgesFrom
      ensures Valid()
      ensures p == if f.Some? && (builds || KeyOf(f.value) in old(forges)) then Some(BuildForge(f.value.spec)) else None
      ensures forges == if p.Some? && KeyOf(f.value) !in old(forges)
                        then Replaced(old(forges), f.value.id, KeyOf(f.value), p.value) else old(forges)
    {
      if f.None? {
        return None;
      }
      var r := f.value;
      var key := CacheKey(r.id, r.rev);
      if key in forges {
        HitIsCurrent(forges, forgesFrom, BuildForge, r);
        return Some(forges[key]);
      }
      if !builds {
        return None;
      }
      var cfg := MergeSettings(r.spec.settings, r.spec.credentials);
      cfg := cfg["name" := r.spec.name];
      var client := ForgeClient(r.spec.kind, cfg);
      ReplacingIsCoherent(forges, forgesFrom, BuildForge, r);
      forges := Prune(forges, r.id);
      forges := forges[key := client];
      forgesFrom := ReplacedFrom(forgesFrom, r);
      return Some(client);
    }
  }
}
