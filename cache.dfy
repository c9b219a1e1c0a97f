/** Start-up selection of the item cache: an S3 bucket or a directory of N-Quads files. */
module Cache {
  import opened Strings
  import opened Patchwork

  /** A cache URI as the URI parser leaves it. */
  datatype CacheUri = CacheUri(scheme: string, host: string, path: Option<string>)

  /** The S3 options the engine keeps (kilobytes for the fetch limit). */
  datatype S3Config = S3Config(fetchLimit: Option<int>, verbose: Option<bool>)

  /** The configuration keys `<plugin>:cache` and the deprecated `<plugin>:bucket`. */
  datatype CacheConfig = CacheConfig(cache: Option<CacheUri>, bucket: Option<string>, s3: S3Config)

  /** Which initialiser start-up runs. */
  datatype CacheChoice = UseS3(bucket: string) | UseFile(path: Option<string>) | BadScheme | NoCache

  /** The cache URI's scheme decides; the deprecated bucket is used only when there is no cache URI. */
  function Choose(cfg: CacheConfig): (c: CacheChoice)
    ensures c.BadScheme? <==> cfg.cache.Some? && cfg.cache.value.scheme != "s3" && cfg.cache.value.scheme != "file"
    ensures c.UseS3? <==> (cfg.cache.Some? && cfg.cache.value.scheme == "s3") || (cfg.cache.None? && cfg.bucket.Some?)
    ensures c.UseS3? ==> c.bucket == if cfg.cache.Some? then cfg.cache.value.host else cfg.bucket.value
    ensures c.UseFile? <==> cfg.cache.Some? && cfg.cache.value.scheme == "file"
    ensures c.UseFile? ==> c.path == cfg.cache.value.path
    ensures c.NoCache? <==> cfg.cache.None? && cfg.bucket.None?
  {
    match cfg.cache
    case Some(u) =>
      if u.scheme == "s3" then UseS3(u.host)
      else if u.scheme == "file" then UseFile(u.path)
      else BadScheme
    case None =>
      if cfg.bucket.Some? then UseS3(cfg.bucket.value) else NoCache
  }

  /** The cache fields of the process-wide state. */
  class CacheSettings {
    var bucket: Option<string>
    var path: Option<string>
    var s3Verbose: bool
    /** In bytes. */
    var s3FetchLimit: int

    constructor ()
      ensures bucket == None && path == None && !s3Verbose && s3FetchLimit == 0
    {
      bucket, path, s3Verbose, s3FetchLimit := None, None, false, 0;
    }

    /** The bucket handle is whatever the S3 client created (`created` says whether it could);
      * the fetch limit is configured in kilobytes and kept in bytes. */
    method InitS3(name: string, created: bool, s3: S3Config) returns (r: int)
      modifies this
      ensures r == (if created then 0 else -1)
      ensures bucket == (if created then Some(name) else None)
      ensures path == old(path)
      ensures created ==> s3FetchLimit == 1024 * (if s3.fetchLimit.Some? then s3.fetchLimit.value else DefaultFetchLimit)
      ensures created ==> s3Verbose == (s3.verbose.Some? && s3.verbose.value)
      ensures !created ==> s3FetchLimit == old(s3FetchLimit) && s3Verbose == old(s3Verbose)
    {
      bucket := if created then Some(name) else None;
      if !created {
        return -1;
      }
      var kb := if s3.fetchLimit.Some? then s3.fetchLimit.value else DefaultFetchLimit;
      s3FetchLimit := 1024 * kb;
      s3Verbose := s3.verbose.Some? && s3.verbose.value;
      r := 0;
    }

    /** A missing or empty path configures no cache; otherwise the path is kept with one trailing '/'. */
    method InitFile(p: Option<string>) returns (r: int)
      modifies this`path
      ensures r == 0
      ensures p.None? || p.value == "" ==> path == old(path)
      ensures p.Some? && p.value != "" ==> path == Some(EnsureSlash(p.value))
    {
      if p.None? || p.value == "" {
        return 0;
      }
      var t := p.value;
      if t[|t| - 1] != '/' {
        t := t + "/";
      }
      path := Some(t);
      r := 0;
    }

    /** Start-up cache selection; any scheme other than `s3` or `file` fails with -1. */
    method Init(cfg: CacheConfig, created: bool) returns (r: int)
      modifies this
      ensures Choose(cfg).BadScheme? ==> r == -1 && unchanged(this)
      ensures Choose(cfg).NoCache? ==> r == 0 && unchanged(this)
      ensures Choose(cfg).UseFile? ==>
                r == 0 && bucket == old(bucket) && s3FetchLimit == old(s3FetchLimit) && s3Verbose == old(s3Verbose)
      ensures Choose(cfg).UseFile? && (Choose(cfg).path.None? || Choose(cfg).path.value == "") ==> path == old(path)
      ensures Choose(cfg).UseFile? && Choose(cfg).path.Some? && Choose(cfg).path.value != "" ==>
                path == Some(EnsureSlash(Choose(cfg).path.value))
      ensures Choose(cfg).UseS3? ==> r == (if created then 0 else -1) && path == old(path)
      ensures Choose(cfg).UseS3? ==> bucket == if created then Some(Choose(cfg).bucket) else None
      ensures Choose(cfg).UseS3? && created ==>
                s3FetchLimit == 1024 * (if cfg.s3.fetchLimit.Some? then cfg.s3.fetchLimit.value else DefaultFetchLimit)
                && s3Verbose == (cfg.s3.verbose.Some? && cfg.s3.verbose.value)
      ensures Choose(cfg).UseS3? && !created ==> s3FetchLimit == old(s3FetchLimit) && s3Verbose == old(s3Verbose)
    {
      match Choose(cfg)
      case UseS3(name) => r := InitS3(name, created, cfg.s3);
      case UseFile(p) => r := InitFile(p);
      case BadScheme => r := -1;
      case NoCache => r := 0;
    }
  }
}
