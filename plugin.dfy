/** Plug-in start-up: the partition registry, the media-match table and the cache configuration. */
module Plugin {
  import opened Strings
  import opened Patchwork
  import opened Cache

  /** Short names for media classes. */
  const MediaMatchTable: seq<MediaMatch> := [
    MediaMatch("collection", "http://purl.org/dc/dcmitype/Collection"),
    MediaMatch("dataset", "http://purl.org/dc/dcmitype/Dataset"),
    MediaMatch("video", "http://purl.org/dc/dcmitype/MovingImage"),
    MediaMatch("image", "http://purl.org/dc/dcmitype/StillImage"),
    MediaMatch("interactive", "http://purl.org/dc/dcmitype/InteractiveResource"),
    MediaMatch("software", "http://purl.org/dc/dcmitype/Software"),
    MediaMatch("audio", "http://purl.org/dc/dcmitype/Sound"),
    MediaMatch("text", "http://purl.org/dc/dcmitype/Text")
  ]

  /** 1 when some element of the (possibly absent) list is exactly `s`, else 0. */
  method ArrayContains(list: Option<seq<string>>, s: string) returns (r: int)
    ensures r == 0 || r == 1
    ensures r == 1 <==> list.Some? && s in list.value
  {
    if list.None? {
      return 0;
    }
    var a := list.value;
    var i := 0;
    while i < |a|
      invariant 0 <= i <= |a|
      invariant s !in a[..i]
    {
      if a[i] == s {
        return 1;
      }
      i := i + 1;
    }
    assert a[..i] == a;
    r := 0;
  }

  /** Partition paths are never registered twice. */
  ghost predicate UniqueUris(indices: seq<IndexEntry>)
  {
    forall i, j :: 0 <= i < j < |indices| ==> indices[i].uri != indices[j].uri
  }

  /** A configuration key `partition:<name>:<prop>` split into its name and property;
    * `None` for keys of any other shape or with a name of 63 characters or more. */
  function ParsePartitionKey(key: string): (r: Option<(string, string)>)
    ensures r.Some? <==> HasPrefix(key, "partition:") && ':' in key[10..] && |Before(key[10..], ':')| < 63
    ensures r.Some? ==> key == "partition:" + r.value.0 + ":" + r.value.1
    ensures r.Some? ==> ':' !in r.value.0 && |r.value.0| < 63
  {
    if !HasPrefix(key, "partition:") then None
    else
      var rest := key[10..];
      match After(rest, ':')
      case None => None
      case Some(prop) =>
        var name := Before(rest, ':');
        if |name| >= 63 then None
        else
          assert key == key[..10] + rest;
          Some((name, prop))
  }

  /** A registry key round-trips: the name and property it was written with are recovered. */
  lemma {:induction false} PartitionKeyRoundTrip(name: string, prop: string)
    requires ':' !in name && |name| < 63
    ensures ParsePartitionKey("partition:" + name + ":" + prop) == Some((name, prop))
  {
    var key := "partition:" + name + ":" + prop;
    var rest := key[10..];
    assert HasPrefix(key, "partition:");
    assert rest == name + ":" + prop;
    BeforeOfPrefix(name, prop);
  }

  lemma {:induction false} BeforeOfPrefix(name: string, prop: string)
    requires ':' !in name
    ensures Before(name + ":" + prop, ':') == name
  {
    if name != [] {
      assert (name + ":" + prop)[1..] == name[1..] + ":" + prop;
      BeforeOfPrefix(name[1..], prop);
    }
  }

  /** The registry once `path` was looked up (and appended when missing) and `prop` set to `value`:
    * `class` replaces the class filter, `title` the title, any other property changes nothing. */
  function Configure(indices: seq<IndexEntry>, path: string, prop: string, value: string): (r: seq<IndexEntry>)
    ensures |r| == |indices| + (if Find(indices, path).Some? then 0 else 1)
    ensures UniqueUris(indices) ==> UniqueUris(r)
    ensures Find(r, path).Some?
    ensures LookupClass(r, path) == if prop == "class" then Some(value) else LookupClass(indices, path)
    ensures LookupTitle(r, path) == if prop == "title" then Some(value) else LookupTitle(indices, path)
    ensures forall j :: 0 <= j < |indices| && indices[j].uri != path ==> r[j] == indices[j]
  {
    var i := Find(indices, path);
    var base := if i.Some? then indices else indices + [IndexEntry(path, None, None)];
    var k := if i.Some? then i.value else |indices|;
    var e := base[k];
    var e' := if prop == "class" then e.(qclass := Some(value))
              else if prop == "title" then e.(title := Some(value))
              else e;
    var r := base[k := e'];
    assert forall j :: 0 <= j < k ==> r[j] == base[j];
    FindFirst(base, path, k);
    FindFirst(r, path, k);
    assert UniqueUris(indices) ==> UniqueUris(base);
    r
  }

  /** The first position of `path` in the registry. */
  function Find(indices: seq<IndexEntry>, path: string): (r: Option<nat>)
    ensures r.Some? ==> r.value < |indices| && indices[r.value].uri == path
    ensures r.Some? ==> forall j :: 0 <= j < r.value ==> indices[j].uri != path
    ensures r.None? ==> forall j :: 0 <= j < |indices| ==> indices[j].uri != path
  {
    if indices == [] then None
    else if indices[0].uri == path then Some(0)
    else match Find(indices[1..], path)
      case Some(i) => Some(i + 1)
      case None => None
  }

  lemma FindFirst(indices: seq<IndexEntry>, path: string, k: nat)
    requires k < |indices| && indices[k].uri == path
    requires forall j :: 0 <= j < k ==> indices[j].uri != path
    ensures Find(indices, path) == Some(k)
  {
    if k > 0 {
      FindFirst(indices[1..], path, k - 1);
    }
  }

  function LookupClass(indices: seq<IndexEntry>, path: string): Option<string>
  {
    match Find(indices, path)
    case Some(i) => indices[i].qclass
    case None => None
  }

  function LookupTitle(indices: seq<IndexEntry>, path: string): Option<string>
  {
    match Find(indices, path)
    case Some(i) => indices[i].title
    case None => None
  }

  /** The configuration start-up reads: the score threshold, the database URI, the cache keys and
    * every key-value pair in scan order. */
  datatype PluginConfig = PluginConfig(
    score: Option<int>,
    db: Option<string>,
    cache: CacheConfig,
    entries: seq<(string, string)>)

  /** The process-wide state (`patchwork_struct`). */
  class State {
    const cache: CacheSettings
    var db: bool
    var threshold: int
    var indices: seq<IndexEntry>
    var mediamatch: seq<MediaMatch>

    constructor (cache: CacheSettings)
      ensures this.cache == cache && !db && threshold == 0 && indices == [] && mediamatch == []
    {
      this.cache := cache;
      db, threshold, indices, mediamatch := false, 0, [], [];
    }

    /** `patchwork_partition_`: the entry for `resource`, appended (with no title and no class) when missing. */
    method Partition(resource: string) returns (i: nat)
      modifies this`indices
      ensures i < |indices| && indices[i].uri == resource
      ensures Find(old(indices), resource).Some? ==> indices == old(indices) && Find(old(indices), resource) == Some(i)
      ensures Find(old(indices), resource).None? ==>
                indices == old(indices) + [IndexEntry(resource, None, None)] && i == |old(indices)|
      ensures UniqueUris(old(indices)) ==> UniqueUris(indices)
    {
      var c := 0;
      while c < |indices|
        invariant 0 <= c <= |indices|
        invariant forall j :: 0 <= j < c ==> indices[j].uri != resource
      {
        if indices[c].uri == resource {
          return c;
        }
        c := c + 1;
      }
      indices := indices + [IndexEntry(resource, None, None)];
      i := c;
    }

    /** `patchwork_partition_cb_`: applies one configuration key to the registry; always 0. */
    method PartitionCb(key: string, value: string) returns (r: int)
      modifies this`indices
      ensures r == 0
      ensures ParsePartitionKey(key).None? ==> indices == old(indices)
      ensures ParsePartitionKey(key).Some? ==>
                var (name, prop) := ParsePartitionKey(key).value;
                indices == Configure(old(indices), "/" + name, prop, value)
    {
      var parsed := ParsePartitionKey(key);
      if parsed.None? {
        return 0;
      }
      var (name, prop) := parsed.value;
      var i := Partition("/" + name);
      if prop == "class" {
        indices := indices[i := indices[i].(qclass := Some(value))];
        return 0;
      }
      if prop == "title" {
        indices := indices[i := indices[i].(title := Some(value))];
      }
      r := 0;
    }

    /** `quilt_plugin_init`: engine registration, threshold, database and cache, then the registry:
      * `/everything` titled "Everything" first, then every configuration key in order. */
    method Init(cfg: PluginConfig, registered: bool, dbConnects: bool, s3Created: bool)
      returns (r: int)
      requires indices == [] && !db
      modifies this, cache
      ensures mediamatch == MediaMatchTable
      ensures !registered ==> r == -1
      ensures registered ==> threshold == (if cfg.score.Some? then cfg.score.value else Threshold)
      ensures registered && cfg.db.Some? && !dbConnects ==> r == -1
      ensures r == 0 ==> db == cfg.db.Some?
      ensures registered && (cfg.db.None? || dbConnects) && Choose(cfg.cache).BadScheme? ==> r == -1
      ensures registered && (cfg.db.None? || dbConnects) && Choose(cfg.cache).UseS3? && !s3Created ==> r == -1
      ensures (registered && (cfg.db.None? || dbConnects) && !Choose(cfg.cache).BadScheme?
               && !(Choose(cfg.cache).UseS3? && !s3Created)) ==> r == 0
      ensures r == 0 || r == -1
      ensures r == 0 && Choose(cfg.cache).UseS3? ==>
                cache.bucket == Some(Choose(cfg.cache).bucket) && cache.path == old(cache.path)
                && cache.s3FetchLimit == 1024 * (if cfg.cache.s3.fetchLimit.Some? then cfg.cache.s3.fetchLimit.value else DefaultFetchLimit)
                && cache.s3Verbose == (cfg.cache.s3.verbose.Some? && cfg.cache.s3.verbose.value)
      ensures r == 0 && Choose(cfg.cache).UseFile? ==>
                cache.bucket == old(cache.bucket)
                && cache.path == if Choose(cfg.cache).path.Some? && Choose(cfg.cache).path.value != ""
                                 then Some(EnsureSlash(Choose(cfg.cache).path.value)) else old(cache.path)
      ensures r == 0 && Choose(cfg.cache).NoCache? ==> cache.bucket == old(cache.bucket) && cache.path == old(cache.path)
      ensures r == 0 ==> indices == ScanAll([IndexEntry("/everything", Some("Everything"), None)], cfg.entries)
      ensures r == 0 ==> UniqueUris(indices)
    {
      mediamatch := MediaMatchTable;
      if !registered {
        return -1;
      }
      threshold := if cfg.score.Some? then cfg.score.value else Threshold;
      if cfg.db.Some? {
        if !dbConnects {
          return -1;
        }
        db := true;
      }
      var c := cache.Init(cfg.cache, s3Created);
      if c != 0 {
        return -1;
      }
      var e := Partition("/everything");
      indices := indices[e := indices[e].(title := Some("Everything"))];
      assert indices == [IndexEntry("/everything", Some("Everything"), None)];
      var k := 0;
      while k < |cfg.entries|
        invariant 0 <= k <= |cfg.entries|
        invariant indices == ScanAll([IndexEntry("/everything", Some("Everything"), None)], cfg.entries[..k])
        invariant UniqueUris(indices)
        modifies this`indices
      {
        var _ := PartitionCb(cfg.entries[k].0, cfg.entries[k].1);
        ScanAllStep([IndexEntry("/everything", Some("Everything"), None)], cfg.entries, k);
        k := k + 1;
      }
      assert cfg.entries[..k] == cfg.entries;
      r := 0;
    }
  }

  /** The registry after the configuration scan applied `entries` in order. */
  function ScanAll(indices: seq<IndexEntry>, entries: seq<(string, string)>): (r: seq<IndexEntry>)
    ensures UniqueUris(indices) ==> UniqueUris(r)
    decreases |entries|
  {
    if entries == [] then indices
    else
      var last := entries[|entries| - 1];
      var before := ScanAll(indices, entries[..|entries| - 1]);
      match ParsePartitionKey(last.0)
      case None => before
      case Some((name, prop)) => Configure(before, "/" + name, prop, last.1)
  }

  lemma ScanAllStep(indices: seq<IndexEntry>, entries: seq<(string, string)>, k: nat)
    requires k < |entries|
    ensures ScanAll(indices, entries[..k + 1]) ==
              match ParsePartitionKey(entries[k].0)
              case None => ScanAll(indices, entries[..k])
              case Some((name, prop)) => Configure(ScanAll(indices, entries[..k]), "/" + name, prop, entries[k].1)
  {
    assert entries[..k + 1][..k] == entries[..k];
  }

  /** Keys for `/everything` edit the entry registered before the scan: no second entry appears. */
  lemma {:induction false} EverythingStaysSingle(entries: seq<(string, string)>)
    ensures var r := ScanAll([IndexEntry("/everything", Some("Everything"), None)], entries);
            |r| > 0 && r[0].uri == "/everything" && UniqueUris(r)
    decreases |entries|
  {
    if entries != [] {
      EverythingStaysSingle(entries[..|entries| - 1]);
    }
  }
}
