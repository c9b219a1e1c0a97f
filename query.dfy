/** Queries against the index: building the descriptor from a request, dispatching it to a
  * back-end, and describing the result set (pagination, dataset typing, OpenSearch, title). */
module Query {
  import opened Strings
  import opened Patchwork
  import opened Quilt
  import Plugin

  /** The query descriptor (`struct query_struct`); `None` stands for a NULL pointer. */
  datatype Descriptor = Descriptor(
    mode: QueryMode,
    base: Option<string>,
    resource: Option<string>,
    explicit: bool,
    collection: Option<string>,
    about: Option<seq<string>>,
    aboutmode: int,
    rcanon: Option<Canon>,
    qclass: Option<string>,
    text: Option<string>,
    lang: Option<string>,
    media: Option<string>,
    audience: Option<seq<string>>,
    mediaType: Option<string>,
    limit: int,
    offset: int,
    more: bool,
    score: int,
    durationMin: int,
    durationMax: int)

  /** What a back-end executor reports: its status, whether more results exist, and the statements it adds. */
  datatype Outcome = Outcome(status: int, more: bool, added: seq<Quad>)

  /** A back-end query executor, seen from outside: it reads the descriptor and the canonical URI. */
  type Executor = (Descriptor, Canon) -> Outcome

  /** The executor that runs: the database one when a database is configured, SPARQL otherwise. */
  function Execute(db: bool, execDb: Executor, execSparql: Executor, d: Descriptor, c: Canon): Outcome
  {
    if db then execDb(d, c) else execSparql(d, c)
  }

  /** What the query steps of a request handler take from the configuration: whether a database
    * is configured, the score threshold, the media table and the two executors. */
  datatype Engine = Engine(db: bool, threshold: int, table: seq<MediaMatch>, execDb: Executor, execSparql: Executor)

  /** `patchwork_query_init`: score -1 ("not given"), everything else zero or absent. */
  function QueryInit(): (d: Descriptor)
    ensures d.score == -1 && d.mode == Default && !d.explicit && !d.more
    ensures d.base.None? && d.resource.None? && d.rcanon.None?
    ensures d.collection.None? && d.about.None? && d.qclass.None? && d.text.None? && d.lang.None?
    ensures d.media.None? && d.audience.None? && d.mediaType.None?
    ensures d.aboutmode == 0 && d.limit == 0 && d.offset == 0 && d.durationMin == 0 && d.durationMax == 0
  {
    Descriptor(Default, None, None, false, None, None, 0, None, None, None, None, None, None, None,
               0, 0, false, -1, 0, 0)
  }

  predicate NonEmpty(t: Option<string>) { t.Some? && t.value != "" }

  /** The request parameters a query reads, as the framework returns them. */
  datatype QueryParams = QueryParams(
    q: Option<string>,
    lang: Option<string>,
    collection: Option<string>,
    qclass: Option<string>,
    media: Option<string>,
    durationMin: int,
    durationMax: int,
    about: Option<seq<string>>,
    audience: Option<seq<string>>,
    mediaType: Option<string>,
    mode: Option<string>,
    score: Option<string>)

  function ReadParams(p: Params): QueryParams
  {
    QueryParams(GetParam(p, "q"), GetParam(p, "lang"), GetParam(p, "collection"), GetParam(p, "class"),
                GetParam(p, "media"), GetParamInt(p, "duration-min"), GetParamInt(p, "duration-max"),
                GetParamMulti(p, "about"), GetParamMulti(p, "for"), GetParam(p, "type"),
                GetParam(p, "mode"), GetParam(p, "score"))
  }

  /** The text parameters that make a query explicit (rather than a plain listing). */
  predicate ExplicitText(a: QueryParams)
  {
    NonEmpty(a.q) || NonEmpty(a.collection) || NonEmpty(a.qclass)
  }

  /** The filter parameters that make a query explicit. */
  predicate ExplicitFilters(a: QueryParams)
  {
    a.media.Some? || a.durationMin != 0 || a.durationMax != 0 || a.about.Some? || a.audience.Some?
    || NonEmpty(a.mediaType)
  }

  /** Every request parameter that makes a query explicit. */
  predicate SetsExplicit(a: QueryParams)
  {
    ExplicitText(a) || ExplicitFilters(a) || NonEmpty(a.mode) || NonEmpty(a.score)
  }

  /** The score once the request was read: a non-empty `score` parameter is read as a number, and
    * a score still at -1 falls back to the configured threshold. */
  function ResolveScore(prior: int, score: Option<string>, threshold: int): (s: int)
    ensures threshold != -1 ==> s != -1
    ensures NonEmpty(score) && Atoi(score.value) != -1 ==> s == Atoi(score.value)
    ensures !NonEmpty(score) && prior != -1 ==> s == prior
    ensures (NonEmpty(score) && Atoi(score.value) == -1) || (!NonEmpty(score) && prior == -1) ==> s == threshold
  {
    var given := if NonEmpty(score) then Atoi(score.value) else prior;
    if given == -1 then threshold else given
  }

  /** The parameters the query reads and may echo into the canonical URI. */
  predicate IsEchoed(j: string)
  {
    j == "q" || j == "collection" || j == "class" || j == "offset" || j == "limit" || j == "media"
    || j == "duration-min" || j == "duration-max" || j == "about" || j == "for" || j == "type"
    || j == "mode" || j == "score"
  }

  /** Parameter `k` has the same values in `r` as in `c`. */
  predicate Kept(r: CanonParams, c: CanonParams, k: string)
  {
    ValuesOf(r, k) == ValuesOf(c, k)
  }

  /** What the free-text part echoes: a non-empty `q` and a non-empty `collection`. */
  function EchoText(c: CanonParams, a: QueryParams): (r: CanonParams)
    ensures ValuesOf(r, "q") == if NonEmpty(a.q) then [Str(a.q.value)] else ValuesOf(c, "q")
    ensures ValuesOf(r, "collection") == if NonEmpty(a.collection) then [Str(a.collection.value)] else ValuesOf(c, "collection")
    ensures Kept(r, c, "class") && Kept(r, c, "offset") && Kept(r, c, "limit") && Kept(r, c, "media")
      && Kept(r, c, "duration-min") && Kept(r, c, "duration-max") && Kept(r, c, "about") && Kept(r, c, "for")
      && Kept(r, c, "type") && Kept(r, c, "mode") && Kept(r, c, "score")
    ensures forall j :: !IsEchoed(j) ==> ValuesOf(r, j) == ValuesOf(c, j)
  {
    var c1 := if NonEmpty(a.q) then c["q" := [Str(a.q.value)]] else c;
    if NonEmpty(a.collection) then c1["collection" := [Str(a.collection.value)]] else c1
  }

  /** A non-empty `class` is echoed; the partition's class never is. */
  function EchoClass(c: CanonParams, a: QueryParams): (r: CanonParams)
    ensures ValuesOf(r, "class") == if NonEmpty(a.qclass) then [Str(a.qclass.value)] else ValuesOf(c, "class")
    ensures Kept(r, c, "q") && Kept(r, c, "collection") && Kept(r, c, "offset") && Kept(r, c, "limit")
      && Kept(r, c, "media") && Kept(r, c, "duration-min") && Kept(r, c, "duration-max") && Kept(r, c, "about")
      && Kept(r, c, "for") && Kept(r, c, "type") && Kept(r, c, "mode") && Kept(r, c, "score")
    ensures forall j :: !IsEchoed(j) ==> ValuesOf(r, j) == ValuesOf(c, j)
  {
    if NonEmpty(a.qclass) then c["class" := [Str(a.qclass.value)]] else c
  }

  /** An offset other than 0 and a limit other than the default are echoed. */
  function EchoPaging(c: CanonParams, offset: int, limit: int, deflimit: int): (r: CanonParams)
    ensures ValuesOf(r, "offset") == if offset != 0 then [Num(offset)] else ValuesOf(c, "offset")
    ensures ValuesOf(r, "limit") == if limit != deflimit then [Num(limit)] else ValuesOf(c, "limit")
    ensures Kept(r, c, "q") && Kept(r, c, "collection") && Kept(r, c, "class") && Kept(r, c, "media")
      && Kept(r, c, "duration-min") && Kept(r, c, "duration-max") && Kept(r, c, "about") && Kept(r, c, "for")
      && Kept(r, c, "type") && Kept(r, c, "mode") && Kept(r, c, "score")
    ensures forall j :: !IsEchoed(j) ==> ValuesOf(r, j) == ValuesOf(c, j)
  {
    var c1 := if offset != 0 then c["offset" := [Num(offset)]] else c;
    if limit != deflimit then c1["limit" := [Num(limit)]] else c1
  }

  /** A media class is echoed whenever one is given. */
  function EchoMedia(c: CanonParams, a: QueryParams): (r: CanonParams)
    ensures ValuesOf(r, "media") == if a.media.Some? then [Str(a.media.value)] else ValuesOf(c, "media")
    ensures Kept(r, c, "q") && Kept(r, c, "collection") && Kept(r, c, "class") && Kept(r, c, "offset")
      && Kept(r, c, "limit") && Kept(r, c, "duration-min") && Kept(r, c, "duration-max") && Kept(r, c, "about")
      && Kept(r, c, "for") && Kept(r, c, "type") && Kept(r, c, "mode") && Kept(r, c, "score")
    ensures forall j :: !IsEchoed(j) ==> ValuesOf(r, j) == ValuesOf(c, j)
  {
    if a.media.Some? then c["media" := [Str(a.media.value)]] else c
  }

  /** Non-zero duration bounds are echoed. */
  function EchoDuration(c: CanonParams, a: QueryParams): (r: CanonParams)
    ensures ValuesOf(r, "duration-min") == if a.durationMin != 0 then [Num(a.durationMin)] else ValuesOf(c, "duration-min")
    ensures ValuesOf(r, "duration-max") == if a.durationMax != 0 then [Num(a.durationMax)] else ValuesOf(c, "duration-max")
    ensures Kept(r, c, "q") && Kept(r, c, "collection") && Kept(r, c, "class") && Kept(r, c, "offset")
      && Kept(r, c, "limit") && Kept(r, c, "media") && Kept(r, c, "about") && Kept(r, c, "for")
      && Kept(r, c, "type") && Kept(r, c, "mode") && Kept(r, c, "score")
    ensures forall j :: !IsEchoed(j) ==> ValuesOf(r, j) == ValuesOf(c, j)
  {
    var c1 := if a.durationMin != 0 then c["duration-min" := [Num(a.durationMin)]] else c;
    if a.durationMax != 0 then c1["duration-max" := [Num(a.durationMax)]] else c1
  }

  /** Topics and audiences are echoed with every value given. */
  function EchoTopics(c: CanonParams, a: QueryParams): (r: CanonParams)
    ensures ValuesOf(r, "about") == if a.about.Some? then Strs(a.about.value) else ValuesOf(c, "about")
    ensures ValuesOf(r, "for") == if a.audience.Some? then Strs(a.audience.value) else ValuesOf(c, "for")
    ensures Kept(r, c, "q") && Kept(r, c, "collection") && Kept(r, c, "class") && Kept(r, c, "offset")
      && Kept(r, c, "limit") && Kept(r, c, "media") && Kept(r, c, "duration-min") && Kept(r, c, "duration-max")
      && Kept(r, c, "type") && Kept(r, c, "mode") && Kept(r, c, "score")
    ensures forall j :: !IsEchoed(j) ==> ValuesOf(r, j) == ValuesOf(c, j)
  {
    var c1 := if a.about.Some? then c["about" := Strs(a.about.value)] else c;
    if a.audience.Some? then c1["for" := Strs(a.audience.value)] else c1
  }

  /** A media type is echoed unless it is "any". */
  function EchoType(c: CanonParams, a: QueryParams): (r: CanonParams)
    ensures ValuesOf(r, "type") == if a.mediaType.Some? && a.mediaType.value != "any" then [Str(a.mediaType.value)] else ValuesOf(c, "type")
    ensures Kept(r, c, "q") && Kept(r, c, "collection") && Kept(r, c, "class") && Kept(r, c, "offset")
      && Kept(r, c, "limit") && Kept(r, c, "media") && Kept(r, c, "duration-min") && Kept(r, c, "duration-max")
      && Kept(r, c, "about") && Kept(r, c, "for") && Kept(r, c, "mode") && Kept(r, c, "score")
    ensures forall j :: !IsEchoed(j) ==> ValuesOf(r, j) == ValuesOf(c, j)
  {
    if a.mediaType.Some? && a.mediaType.value != "any" then c["type" := [Str(a.mediaType.value)]] else c
  }

  /** The mode is echoed only when it is "autocomplete"; a non-empty score is echoed as given. */
  function EchoModeScore(c: CanonParams, a: QueryParams): (r: CanonParams)
    ensures ValuesOf(r, "mode") == if a.mode == Some("autocomplete") then [Str("autocomplete")] else ValuesOf(c, "mode")
    ensures ValuesOf(r, "score") == if NonEmpty(a.score) then [Str(a.score.value)] else ValuesOf(c, "score")
    ensures Kept(r, c, "q") && Kept(r, c, "collection") && Kept(r, c, "class") && Kept(r, c, "offset")
      && Kept(r, c, "limit") && Kept(r, c, "media") && Kept(r, c, "duration-min") && Kept(r, c, "duration-max")
      && Kept(r, c, "about") && Kept(r, c, "for") && Kept(r, c, "type")
    ensures forall j :: !IsEchoed(j) ==> ValuesOf(r, j) == ValuesOf(c, j)
  {
    var c1 := if a.mode == Some("autocomplete") then c["mode" := [Str("autocomplete")]] else c;
    if NonEmpty(a.score) then c1["score" := [Str(a.score.value)]] else c1
  }

  /** The canonical-URI parameters after `patchwork_query_request`, part by part in the order the
    * request is read. */
  function Echo(c: CanonParams, a: QueryParams, offset: int, limit: int, deflimit: int): CanonParams
  {
    var c1 := EchoClass(EchoText(c, a), a);
    var c2 := EchoDuration(EchoMedia(EchoPaging(c1, offset, limit, deflimit), a), a);
    EchoModeScore(EchoType(EchoTopics(c2, a), a), a)
  }

  /** What `patchwork_query_request` echoes into the canonical URI: only meaningful values (no
    * empty text, no offset of 0, no default limit, no zero duration, no media type "any", no mode
    * but "autocomplete"), each parameter given once (topics and audiences with every value), and
    * parameters the query does not read are never touched. */
  lemma EchoSpec(c: CanonParams, a: QueryParams, offset: int, limit: int, deflimit: int)
    ensures var r := Echo(c, a, offset, limit, deflimit);
      && ValuesOf(r, "q") == (if NonEmpty(a.q) then [Str(a.q.value)] else ValuesOf(c, "q"))
      && ValuesOf(r, "collection") == (if NonEmpty(a.collection) then [Str(a.collection.value)] else ValuesOf(c, "collection"))
      && ValuesOf(r, "class") == (if NonEmpty(a.qclass) then [Str(a.qclass.value)] else ValuesOf(c, "class"))
      && ValuesOf(r, "offset") == (if offset != 0 then [Num(offset)] else ValuesOf(c, "offset"))
      && ValuesOf(r, "limit") == (if limit != deflimit then [Num(limit)] else ValuesOf(c, "limit"))
      && ValuesOf(r, "media") == (if a.media.Some? then [Str(a.media.value)] else ValuesOf(c, "media"))
      && ValuesOf(r, "duration-min") == (if a.durationMin != 0 then [Num(a.durationMin)] else ValuesOf(c, "duration-min"))
      && ValuesOf(r, "duration-max") == (if a.durationMax != 0 then [Num(a.durationMax)] else ValuesOf(c, "duration-max"))
      && ValuesOf(r, "about") == (if a.about.Some? then Strs(a.about.value) else ValuesOf(c, "about"))
      && ValuesOf(r, "for") == (if a.audience.Some? then Strs(a.audience.value) else ValuesOf(c, "for"))
      && ValuesOf(r, "type") ==
           (if a.mediaType.Some? && a.mediaType.value != "any" then [Str(a.mediaType.value)] else ValuesOf(c, "type"))
      && ValuesOf(r, "mode") == (if a.mode == Some("autocomplete") then [Str("autocomplete")] else ValuesOf(c, "mode"))
      && ValuesOf(r, "score") == (if NonEmpty(a.score) then [Str(a.score.value)] else ValuesOf(c, "score"))
    ensures forall j :: !IsEchoed(j) ==> ValuesOf(Echo(c, a, offset, limit, deflimit), j) == ValuesOf(c, j)
  {
  }

  /** The free-text, collection and class part of `patchwork_query_request`; the class of the
    * partition applies when the request gives none. */
  method ReadText(d: Descriptor, a: QueryParams, qclass: Option<string>)
    returns (d': Descriptor)
    ensures d' == d.(explicit := d.explicit || ExplicitText(a),
                     text := if NonEmpty(a.q) then a.q else d.text,
                     lang := if NonEmpty(a.q) then a.lang else d.lang,
                     collection := if NonEmpty(a.collection) then a.collection else d.collection,
                     qclass := if NonEmpty(a.qclass) then a.qclass else if NonEmpty(qclass) then qclass else d.qclass)
  {
    d' := d;
    var t := a.q;
    if t.Some? && t.value != "" {
      d' := d'.(explicit := true, text := t, lang := a.lang);
    }
    t := a.collection;
    if t.Some? && t.value != "" {
      d' := d'.(explicit := true, collection := t);
    }
    t := a.qclass;
    if t.Some? && t.value != "" {
      d' := d'.(explicit := true, qclass := t);
    } else if qclass.Some? && qclass.value != "" {
      d' := d'.(qclass := qclass);
    }
  }

  /** The media and duration filters of `patchwork_query_request`: each one given makes the query explicit. */
  method ReadMedia(d: Descriptor, a: QueryParams) returns (d': Descriptor)
    ensures d' == d.(explicit := d.explicit || a.media.Some? || a.durationMin != 0 || a.durationMax != 0,
                     media := a.media, durationMin := a.durationMin, durationMax := a.durationMax)
  {
    d' := d.(media := a.media);
    if d'.media.Some? {
      d' := d'.(explicit := true);
    }
    d' := d'.(durationMin := a.durationMin);
    if d'.durationMin != 0 {
      d' := d'.(explicit := true);
    }
    d' := d'.(durationMax := a.durationMax);
    if d'.durationMax != 0 {
      d' := d'.(explicit := true);
    }
  }

  /** The topic, audience and media-type filters of `patchwork_query_request`: topics and audiences
    * make the query explicit whenever given, a media type only when it is not empty. */
  method ReadTopics(d: Descriptor, a: QueryParams) returns (d': Descriptor)
    ensures d' == d.(explicit := d.explicit || a.about.Some? || a.audience.Some? || NonEmpty(a.mediaType),
                     about := a.about, audience := a.audience, mediaType := a.mediaType)
  {
    d' := d.(about := a.about);
    if d'.about.Some? {
      d' := d'.(explicit := true);
    }
    d' := d'.(audience := a.audience);
    if d'.audience.Some? {
      d' := d'.(explicit := true);
    }
    d' := d'.(mediaType := a.mediaType);
    if d'.mediaType.Some? && d'.mediaType.value != "" {
      d' := d'.(explicit := true);
    }
  }

  /** The mode and score part of `patchwork_query_request`: only "autocomplete" is a mode (any
    * other non-empty mode still makes the query explicit), and the score is resolved. */
  method ReadModeScore(d: Descriptor, a: QueryParams, threshold: int)
    returns (d': Descriptor)
    ensures d' == d.(explicit := d.explicit || NonEmpty(a.mode) || NonEmpty(a.score),
                     mode := if a.mode == Some("autocomplete") then Autocomplete else d.mode,
                     score := ResolveScore(d.score, a.score, threshold))
  {
    d' := d;
    var t := a.mode;
    if t.Some? && t.value != "" {
      d' := d'.(explicit := true);
      if t.value == "autocomplete" {
        d' := d'.(mode := Autocomplete);
      } else {
        t := None;
      }
    }
    t := a.score;
    if t.Some? && t.value != "" {
      d' := d'.(explicit := true, score := Atoi(t.value));
    }
    if d'.score == -1 {
      d' := d'.(score := threshold);
    }
  }

  /** The descriptor `patchwork_query_request` leaves, read from the request's parameters `a`:
    * free text and its language only from a non-empty `q`; the collection from a non-empty
    * `collection`; the class from a non-empty `class`, else the partition's class `qclass`;
    * the request's paging; media, durations, topics, audience and type as given; the
    * autocomplete mode only for "autocomplete"; the score resolved against the threshold; and
    * `explicit` set (never cleared) exactly when some parameter sets it. */
  function Requested(d: Descriptor, a: QueryParams, qclass: Option<string>, threshold: int, offset: int, limit: int): Descriptor
  {
    d.(explicit := d.explicit || SetsExplicit(a),
       text := if NonEmpty(a.q) then a.q else d.text,
       lang := if NonEmpty(a.q) then a.lang else d.lang,
       collection := if NonEmpty(a.collection) then a.collection else d.collection,
       qclass := if NonEmpty(a.qclass) then a.qclass else if NonEmpty(qclass) then qclass else d.qclass,
       offset := offset, limit := limit, media := a.media,
       durationMin := a.durationMin, durationMax := a.durationMax,
       about := a.about, audience := a.audience, mediaType := a.mediaType,
       mode := if a.mode == Some("autocomplete") then Autocomplete else d.mode,
       score := ResolveScore(d.score, a.score, threshold))
  }

  /** `patchwork_query_request`: fills the descriptor from the request parameters and echoes the
    * meaningful ones into the request's canonical URI, leaving the others alone; always 200. */
  method QueryRequest(d: Descriptor, req: Request, qclass: Option<string>, threshold: int)
    returns (d': Descriptor, r: int)
    modifies req`canonical
    ensures r == 200
    ensures d' == Requested(d, ReadParams(req.params), qclass, threshold, req.offset, req.limit)
    ensures req.canonical == old(req.canonical).(params := Echo(old(req.canonical).params, ReadParams(req.params), req.offset, req.limit, req.deflimit))
  {
    var a := ReadParams(req.params);
    d' := ReadText(d, a, qclass);
    d' := d'.(offset := req.offset, limit := req.limit);
    d' := ReadMedia(d', a);
    d' := ReadTopics(d', a);
    d' := ReadModeScore(d', a, threshold);
    req.canonical := req.canonical.(params := Echo(req.canonical.params, a, req.offset, req.limit, req.deflimit));
    r := 200;
  }

  predicate SingleAbout(about: Option<seq<string>>) { about.Some? && |about.value| == 1 }

  /** The canonical URI of the subject of a single-topic query: `<request base>/<topic>#id`. */
  function AboutCanon(canonical: Canon, base: string, topic: string): (c: Canon)
    ensures c.base == base && c.path == canonical.path + [topic] && c.fragment == Some("id")
    ensures c.params == canonical.params && c.ext == canonical.ext
  {
    canonical.(base := base, path := canonical.path + [topic], fragment := Some("id"))
  }

  /** The first half of `patchwork_query`: `base` and `resource` default to renderings of the
    * canonical URI, and a single-topic query gets the topic's own canonical URI. */
  function FillRefs(req: Request, c: Canon, d: Descriptor): (d': Descriptor)
    ensures d'.base == (if d.base.Some? then d.base else Some(req.render(c, AbstractForm)))
    ensures d'.resource == (if d.resource.Some? then d.resource else Some(req.render(c, UserSuppliedForm)))
    ensures d'.rcanon == (if SingleAbout(d.about) then Some(AboutCanon(c, req.base, d.about.value[0])) else d.rcanon)
    ensures d'.(base := d.base, resource := d.resource, rcanon := d.rcanon) == d
  {
    var withBase := if d.base.None? then d.(base := Some(req.render(c, AbstractForm))) else d;
    var withRes := if withBase.resource.None? then withBase.(resource := Some(req.render(c, UserSuppliedForm))) else withBase;
    if SingleAbout(withRes.about) then withRes.(rcanon := Some(AboutCanon(c, req.base, withRes.about.value[0]))) else withRes
  }

  /** `patchwork_query`: fills in `base` and `resource` when absent, sets the request subject for
    * explicit queries and indices when the resource was absent, builds the single-topic subject,
    * and runs the DB executor when there is a database, the SPARQL one otherwise. */
  method Run(req: Request, d: Descriptor, db: bool, execDb: Executor, execSparql: Executor)
    returns (d': Descriptor, r: int)
    modifies req`subject, req`model
    ensures Members(old(req.model)) <= Members(req.model)
    ensures req.subject == (if d.resource.None? && (d.explicit || req.index) then FillRefs(req, req.canonical, d).resource.value else old(req.subject))
    ensures var out := Execute(db, execDb, execSparql, FillRefs(req, req.canonical, d), req.canonical);
            r == out.status && d' == FillRefs(req, req.canonical, d).(more := out.more) && req.model == AddAll(old(req.model), out.added)
  {
    d' := FillRefs(req, req.canonical, d);
    if d.resource.None? && (d.explicit || req.index) {
      req.subject := d'.resource.value;
    }
    var out := Execute(db, execDb, execSparql, d', req.canonical);
    req.model := AddAll(req.model, out.added);
    d' := d'.(more := out.more);
    r := out.status;
  }

  function UriSt(ctx: Option<string>, s: string, p: string, o: string): Quad
  {
    Quad(ctx, Uri(s), p, Uri(o))
  }

  function LitSt(ctx: Option<string>, s: string, p: string, v: string, lang: Option<string>): Quad
  {
    Quad(ctx, Uri(s), p, Literal(v, lang))
  }

  /** The offset of the previous page: one page back, but never before the first result. */
  function PrevOffset(offset: int, limit: int): (c: int)
    ensures c >= 0
    ensures c == 0 <==> offset <= limit
    ensures c > 0 ==> c == offset - limit
  {
    if offset - limit < 0 then 0 else offset - limit
  }

  /** The link to the previous page: the offset parameter is dropped when it would be 0. */
  function PrevCanon(canonical: Canon, offset: int, limit: int): (c: Canon)
    ensures ValuesOf(c.params, "offset") == if PrevOffset(offset, limit) != 0 then [Num(PrevOffset(offset, limit))] else []
    ensures forall j :: j != "offset" ==> ValuesOf(c.params, j) == ValuesOf(canonical.params, j)
    ensures c.(params := canonical.params) == canonical
  {
    var o := PrevOffset(offset, limit);
    canonical.(params := SetParam(canonical.params, "offset", if o != 0 then Some(Num(o)) else None))
  }

  function NextCanon(canonical: Canon, offset: int, limit: int): (c: Canon)
    ensures ValuesOf(c.params, "offset") == [Num(offset + limit)]
    ensures forall j :: j != "offset" ==> ValuesOf(c.params, j) == ValuesOf(canonical.params, j)
    ensures c.(params := canonical.params) == canonical
  {
    canonical.(params := SetParam(canonical.params, "offset", Some(Num(offset + limit))))
  }

  predicate HasPredicate(m: seq<Quad>, p: string) { exists q :: q in m && q.p == p }

  const XhvPrev := NsXhtml + "prev"
  const XhvNext := NsXhtml + "next"
  const DctIsPartOf := NsDcterms + "isPartOf"

  /** The five predicates of the navigation statements are different URIs. */
  lemma {:induction false} MetaPredicatesDistinct()
    ensures XhvPrev != XhvNext
    ensures XhvPrev != DctIsPartOf && XhvNext != DctIsPartOf
    ensures XhvPrev != RdfType && XhvNext != RdfType && DctIsPartOf != RdfType
    ensures XhvPrev != RdfsLabel && XhvNext != RdfsLabel && DctIsPartOf != RdfsLabel && RdfType != RdfsLabel
  {
    assert XhvPrev[|NsXhtml|] == 'p' && XhvNext[|NsXhtml|] == 'n';
    assert |XhvPrev| == 39 && |XhvNext| == 39 && |DctIsPartOf| == 33;
    assert |RdfType| == 47 && |RdfsLabel| == 42;
  }

  /** The link to the previous page, when the request had an offset. */
  function PrevPart(req: Request, res: string): seq<Quad>
    reads req`canonical
  {
    if req.offset != 0
    then [UriSt(Some(req.graph), res, XhvPrev, req.render(PrevCanon(req.canonical, req.offset, req.limit), DefaultForm))]
    else []
  }

  /** The link to the next page, when the executor found more results. */
  function NextPart(req: Request, res: string, more: bool): seq<Quad>
    reads req`canonical
  {
    if more
    then [UriSt(Some(req.graph), res, XhvNext, req.render(NextCanon(req.canonical, req.offset, req.limit), DefaultForm))]
    else []
  }

  /** A resource other than the base is part of the base dataset, labelled with the index title. */
  function DatasetPart(req: Request, res: string, base: string): seq<Quad>
    reads req`indextitle
  {
    if res != base
    then [UriSt(Some(req.graph), res, DctIsPartOf, base), UriSt(Some(req.graph), base, RdfType, VoidDataset)]
         + (if req.indextitle.Some? then [LitSt(Some(req.graph), base, RdfsLabel, req.indextitle.value, Some("en-gb"))] else [])
    else []
  }

  /** The navigation and dataset statements of `patchwork_query_meta`, before the title. */
  function MetaLinks(req: Request, d: Descriptor): (r: seq<Quad>)
    requires d.resource.Some? && d.base.Some?
    reads req`canonical, req`indextitle
    ensures UriSt(Some(req.graph), d.resource.value, RdfType, VoidDataset) in r
  {
    var res := d.resource.value;
    PrevPart(req, res) + NextPart(req, res, d.more) + DatasetPart(req, res, d.base.value)
      + [UriSt(Some(req.graph), res, RdfType, VoidDataset)]
  }

  lemma {:induction false} HasPredicateAppend(a: seq<Quad>, b: seq<Quad>, p: string)
    ensures HasPredicate(a + b, p) <==> HasPredicate(a, p) || HasPredicate(b, p)
  {
    if HasPredicate(a + b, p) {
      var q :| q in a + b && q.p == p;
      assert q in a || q in b;
    }
    if HasPredicate(a, p) {
      var q :| q in a && q.p == p;
      assert q in a + b;
    }
    if HasPredicate(b, p) {
      var q :| q in b && q.p == p;
      assert q in a + b;
    }
  }

  lemma {:induction false} PrevPartPredicates(req: Request, res: string, p: string)
    ensures HasPredicate(PrevPart(req, res), p) <==> req.offset != 0 && p == XhvPrev
  {
    if req.offset != 0 && p == XhvPrev { assert PrevPart(req, res)[0] in PrevPart(req, res); }
  }

  lemma {:induction false} NextPartPredicates(req: Request, res: string, more: bool, p: string)
    ensures HasPredicate(NextPart(req, res, more), p) <==> more && p == XhvNext
  {
    if more && p == XhvNext { assert NextPart(req, res, more)[0] in NextPart(req, res, more); }
  }

  lemma {:induction false} DatasetPartPredicates(req: Request, res: string, base: string, p: string)
    ensures HasPredicate(DatasetPart(req, res, base), p) <==>
      res != base && (p == DctIsPartOf || p == RdfType || (p == RdfsLabel && req.indextitle.Some?))
  {
    if res != base {
      var g := Some(req.graph);
      var c0 := [UriSt(g, res, DctIsPartOf, base), UriSt(g, base, RdfType, VoidDataset)];
      var c1 := if req.indextitle.Some? then [LitSt(g, base, RdfsLabel, req.indextitle.value, Some("en-gb"))] else [];
      assert DatasetPart(req, res, base) == c0 + c1;
      HasPredicateAppend(c0, c1, p);
      if p == DctIsPartOf { assert c0[0] in c0; }
      if p == RdfType { assert c0[1] in c0; }
      if p == RdfsLabel && req.indextitle.Some? { assert c1[0] in c1; }
    }
  }

  /** The predicates the navigation statements use: each exactly under its own condition. */
  lemma {:induction false} MetaLinksPredicates(req: Request, d: Descriptor, p: string)
    requires d.resource.Some? && d.base.Some?
    ensures var res := d.resource.value; var base := d.base.value;
      HasPredicate(MetaLinks(req, d), p) <==>
        (req.offset != 0 && p == XhvPrev) || (d.more && p == XhvNext) || p == RdfType
        || (res != base && (p == DctIsPartOf || (p == RdfsLabel && req.indextitle.Some?)))
  {
    var res := d.resource.value;
    var a := PrevPart(req, res);
    var b := NextPart(req, res, d.more);
    var c := DatasetPart(req, res, d.base.value);
    var t := [UriSt(Some(req.graph), res, RdfType, VoidDataset)];
    HasPredicateAppend(a, b, p);
    HasPredicateAppend(a + b, c, p);
    HasPredicateAppend(a + b + c, t, p);
    PrevPartPredicates(req, res, p);
    NextPartPredicates(req, res, d.more, p);
    DatasetPartPredicates(req, res, d.base.value, p);
    if p == RdfType { assert t[0] in t; }
  }

  /** Which navigation statements `patchwork_query_meta` adds, and exactly when: a previous-page
    * link exactly when there is an offset, a next-page link exactly when there are more results,
    * membership of the base dataset exactly when the resource is not the base, and its label
    * exactly when there is also an index title. */
  lemma {:induction false} MetaLinksSpec(req: Request, d: Descriptor)
    requires d.resource.Some? && d.base.Some?
    ensures HasPredicate(MetaLinks(req, d), XhvPrev) <==> req.offset != 0
    ensures HasPredicate(MetaLinks(req, d), XhvNext) <==> d.more
    ensures HasPredicate(MetaLinks(req, d), DctIsPartOf) <==> d.resource.value != d.base.value
    ensures HasPredicate(MetaLinks(req, d), RdfsLabel) <==> d.resource.value != d.base.value && req.indextitle.Some?
  {
    MetaPredicatesDistinct();
    MetaLinksPredicates(req, d, XhvPrev);
    MetaLinksPredicates(req, d, XhvNext);
    MetaLinksPredicates(req, d, DctIsPartOf);
    MetaLinksPredicates(req, d, RdfsLabel);
  }

  /** The page links render the previous and next pages' canonical URIs. */
  lemma {:induction false} MetaPageLinks(req: Request, d: Descriptor)
    requires d.resource.Some? && d.base.Some?
    ensures var g := Some(req.graph); var res := d.resource.value;
      req.offset != 0 ==>
        UriSt(g, res, XhvPrev, req.render(PrevCanon(req.canonical, req.offset, req.limit), DefaultForm)) in MetaLinks(req, d)
    ensures var g := Some(req.graph); var res := d.resource.value;
      d.more ==>
        UriSt(g, res, XhvNext, req.render(NextCanon(req.canonical, req.offset, req.limit), DefaultForm)) in MetaLinks(req, d)
  {
    var res := d.resource.value;
    var r := MetaLinks(req, d);
    var a := PrevPart(req, res);
    var b := NextPart(req, res, d.more);
    assert r == a + (b + (DatasetPart(req, res, d.base.value) + [UriSt(Some(req.graph), res, RdfType, VoidDataset)]));
    if req.offset != 0 { assert a[0] in r; }
    if d.more { assert r[|a|] == b[0]; }
  }

  /** A resource other than the base is part of it and the base is a dataset, labelled with the
    * index title when there is one. */
  lemma {:induction false} MetaDatasetLinks(req: Request, d: Descriptor)
    requires d.resource.Some? && d.base.Some?
    ensures var g := Some(req.graph); var res := d.resource.value; var base := d.base.value;
      res != base ==> UriSt(g, res, DctIsPartOf, base) in MetaLinks(req, d) && UriSt(g, base, RdfType, VoidDataset) in MetaLinks(req, d)
    ensures var g := Some(req.graph); var res := d.resource.value; var base := d.base.value;
      res != base && req.indextitle.Some? ==> LitSt(g, base, RdfsLabel, req.indextitle.value, Some("en-gb")) in MetaLinks(req, d)
  {
    var res := d.resource.value;
    var r := MetaLinks(req, d);
    var ab := PrevPart(req, res) + NextPart(req, res, d.more);
    var c := DatasetPart(req, res, d.base.value);
    assert r == ab + (c + [UriSt(Some(req.graph), res, RdfType, VoidDataset)]);
    if res != d.base.value {
      assert r[|ab|] == c[0] && r[|ab| + 1] == c[1];
      if req.indextitle.Some? { assert r[|ab| + 2] == c[2]; }
    }
  }

  /** Every navigation statement goes into the request's graph. */
  lemma {:induction false} MetaLinksContext(req: Request, d: Descriptor)
    requires d.resource.Some? && d.base.Some?
    ensures forall q :: q in MetaLinks(req, d) ==> q.ctx == Some(req.graph)
  {
    var res := d.resource.value;
    var a, b := PrevPart(req, res), NextPart(req, res, d.more);
    var c := DatasetPart(req, res, d.base.value);
    var t := [UriSt(Some(req.graph), res, RdfType, VoidDataset)];
    assert MetaLinks(req, d) == a + b + c + t;
    assert forall q :: q in a ==> q.ctx == Some(req.graph);
    assert forall q :: q in b ==> q.ctx == Some(req.graph);
    assert forall q :: q in c ==> q.ctx == Some(req.graph);
  }

  /** `patchwork_query_meta`: navigation links, dataset typing and, for indices and explicit
    * queries, the title; always 200. */
  method Meta(req: Request, d: Descriptor, table: seq<MediaMatch>) returns (r: int)
    requires d.resource.Some? && d.base.Some?
    modifies req`model
    ensures r == 200
    ensures Members(old(req.model)) <= Members(req.model)
    ensures var links := AddAll(old(req.model), MetaLinks(req, d));
            req.model == if req.index || d.explicit then Add(links, TitleStatement(req, links, d.resource.value, d, table)) else links
  {
    req.model := AddAll(req.model, MetaLinks(req, d));
    if req.index || d.explicit {
      var _ := Title(req, d.resource.value, d, table);
    }
    r := 200;
  }

  /** A query followed, once it succeeds, by the navigation links of its result and the
    * OpenSearch description, as `patchwork_index` and `patchwork_item_related` run them. Only the
    * query can fail, so its status is the result. */
  method Answer(req: Request, d: Descriptor, e: Engine) returns (r: int)
    modifies req`subject, req`model
    ensures req.subject == if d.resource.None? && (d.explicit || req.index) then FillRefs(req, req.canonical, d).resource.value else old(req.subject)
    ensures var d' := FillRefs(req, req.canonical, d);
            var out := Execute(e.db, e.execDb, e.execSparql, d', req.canonical);
            && r == out.status
            && (r != 200 ==> req.model == AddAll(old(req.model), out.added))
            && Members(old(req.model)) + Members(out.added) <= Members(req.model)
            && (r == 200 ==> Members(MetaLinks(req, d'.(more := out.more))) <= Members(req.model))
    ensures r == 200 ==> Members(OsdStatements(req)) <= Members(req.model)
  {
    var d';
    d', r := Run(req, d, e.db, e.execDb, e.execSparql);
    if r == 200 {
      r := Enrich(req, d', e.table);
    }
  }

  /** `patchwork_query_meta` and then, if that returned 200, `patchwork_query_osd`; both return 200. */
  method Enrich(req: Request, d: Descriptor, table: seq<MediaMatch>) returns (r: int)
    requires d.resource.Some? && d.base.Some?
    modifies req`model
    ensures r == 200
    ensures Members(old(req.model)) + Members(MetaLinks(req, d)) + Members(OsdStatements(req)) <= Members(req.model)
  {
    r := Meta(req, d, table);
    if r == 200 {
      r := Osd(req);
    }
  }

  /** The OpenSearch URL template: the request's canonical URI with its parameters replaced by
    * placeholders and no extension; `class` and `collection` only at the root or outside an
    * index, `mode` only at the root. */
  function OsdTemplate(canonical: Canon, home: bool, index: bool): (c: Canon)
    ensures c.ext.None? && c.base == canonical.base && c.path == canonical.path
    ensures ValuesOf(c.params, "q") == [Str("{searchTerms?}")]
    ensures ValuesOf(c.params, "lang") == [Str("{language?}")]
    ensures ValuesOf(c.params, "limit") == [Str("{count?}")]
    ensures ValuesOf(c.params, "offset") == [Str("{startIndex?}")]
    ensures ValuesOf(c.params, "class") == if home || !index then [Str("{rdfs:Class?}")] else []
    ensures ValuesOf(c.params, "collection") == if home || !index then [Str("{dcmitype:Collection?}")] else []
    ensures ValuesOf(c.params, "for") == [Str("{odrl:Party?}")]
    ensures ValuesOf(c.params, "media") == [Str("{dct:DCMIType?}")]
    ensures ValuesOf(c.params, "type") == [Str("{dct:IMT?}")]
    ensures ValuesOf(c.params, "mode") == if home then [Str("{quilt.patchwork:queryMode?}")] else []
    ensures forall k :: k !in OsdNames ==> ValuesOf(c.params, k) == []
  {
    var always := map["q" := [Str("{searchTerms?}")], "lang" := [Str("{language?}")],
                      "limit" := [Str("{count?}")], "offset" := [Str("{startIndex?}")],
                      "for" := [Str("{odrl:Party?}")], "media" := [Str("{dct:DCMIType?}")],
                      "type" := [Str("{dct:IMT?}")]];
    var browse := if home || !index
      then always["class" := [Str("{rdfs:Class?}")]]["collection" := [Str("{dcmitype:Collection?}")]]
      else always;
    var ps := if home then browse["mode" := [Str("{quilt.patchwork:queryMode?}")]] else browse;
    canonical.(params := ps, ext := None)
  }

  const OsdNames: set<string> := {"q", "lang", "limit", "offset", "class", "collection", "for", "media", "type", "mode"}

  const OsdTemplateP := NsOsd + "template"
  const OsdLanguage := NsOsd + "Language"
  const VoidUriLookup := NsVoid + "uriLookupEndpoint"
  const VoidOsd := NsVoid + "openSearchDescription"

  /** The endpoint for URI lookups: the canonical URI with `uri` as its only, empty, parameter. */
  function LookupEndpoint(canonical: Canon): (c: Canon)
    ensures ValuesOf(c.params, "uri") == [Str("")]
    ensures forall k :: k != "uri" ==> ValuesOf(c.params, k) == []
    ensures c.(params := canonical.params) == canonical
  {
    canonical.(params := map["uri" := [Str("")]])
  }

  /** The template and the four languages, for every request. */
  function OsdCore(req: Request): seq<Quad>
    reads req`canonical, req`home, req`index, req`subject
  {
    var g := Some(req.graph);
    var s := req.subject;
    [LitSt(g, s, OsdTemplateP, req.render(OsdTemplate(req.canonical, req.home, req.index), AbstractForm), None),
     LitSt(g, s, OsdLanguage, "en-gb", None),
     LitSt(g, s, OsdLanguage, "cy-gb", None),
     LitSt(g, s, OsdLanguage, "gd-gb", None),
     LitSt(g, s, OsdLanguage, "ga-gb", None)]
  }

  /** The VoID description of the home page. */
  function OsdHome(req: Request): seq<Quad>
    reads req`canonical, req`home, req`subject
  {
    var g := Some(req.graph);
    var s := req.subject;
    if req.home
    then [UriSt(g, s, RdfType, VoidDataset),
          UriSt(g, s, VoidUriLookup, req.render(LookupEndpoint(req.canonical), AbstractForm)),
          UriSt(g, s, VoidOsd, req.render(OsdDescription(req.canonical), ConcreteForm))]
    else []
  }

  /** The statements of `patchwork_query_osd`, about the request subject, in the request's graph. */
  function OsdStatements(req: Request): seq<Quad>
    reads req`canonical, req`home, req`index, req`subject
  {
    OsdCore(req) + OsdHome(req)
  }

  /** Every statement of the description is about the request subject, in the request's graph. */
  lemma {:induction false} OsdStatementsAbout(req: Request)
    ensures forall q :: q in OsdStatements(req) ==> q.ctx == Some(req.graph) && q.s == Uri(req.subject)
  {
    var a, b := OsdCore(req), OsdHome(req);
    assert OsdStatements(req) == a + b;
  }

  /** Every request's description carries the URL template and the four languages. */
  lemma {:induction false} OsdCoreSpec(req: Request)
    ensures var g := Some(req.graph); var s := req.subject;
      LitSt(g, s, OsdTemplateP, req.render(OsdTemplate(req.canonical, req.home, req.index), AbstractForm), None) in OsdStatements(req)
    ensures var g := Some(req.graph); var s := req.subject;
      forall l :: l in ["en-gb", "cy-gb", "gd-gb", "ga-gb"] ==> LitSt(g, s, OsdLanguage, l, None) in OsdStatements(req)
  {
    var c := OsdCore(req);
    assert OsdStatements(req)[..5] == c;
    assert forall i :: 0 <= i < 5 ==> c[i] in OsdStatements(req);
  }

  /** The core statements are all literals, with the template or language predicate. */
  lemma {:induction false} OsdCoreShape(req: Request)
    ensures forall q :: q in OsdCore(req) ==> q.o.Literal? && (q.p == OsdTemplateP || q.p == OsdLanguage)
  {
  }

  /** The VoID description (dataset type, lookup endpoint, description document) is there exactly
    * on the home page. */
  lemma {:induction false} OsdHomeSpec(req: Request)
    ensures UriSt(Some(req.graph), req.subject, RdfType, VoidDataset) in OsdStatements(req) <==> req.home
    ensures req.home ==>
      UriSt(Some(req.graph), req.subject, VoidOsd, req.render(OsdDescription(req.canonical), ConcreteForm)) in OsdStatements(req)
  {
    var a, b := OsdCore(req), OsdHome(req);
    OsdCoreShape(req);
    assert OsdStatements(req) == a + b;
    if req.home {
      assert OsdStatements(req)[5] == b[0] && OsdStatements(req)[7] == b[2];
    }
  }

  /** The lookup endpoint and the description document are advertised exactly on the home page. */
  lemma {:induction false} OsdHomePredicates(req: Request)
    ensures HasPredicate(OsdStatements(req), VoidUriLookup) <==> req.home
    ensures HasPredicate(OsdStatements(req), VoidOsd) <==> req.home
  {
    var a, b := OsdCore(req), OsdHome(req);
    OsdCoreShape(req);
    assert |OsdLanguage| == 44 && |OsdTemplateP| == 44 && |VoidUriLookup| == 41 && |VoidOsd| == 45;
    HasPredicateAppend(a, b, VoidUriLookup);
    HasPredicateAppend(a, b, VoidOsd);
    if req.home {
      assert b[1] in b && b[2] in b;
    }
  }

  /** The OpenSearch description document: no parameters, no explicit extension, extension `osd`. */
  function OsdDescription(canonical: Canon): (c: Canon)
    ensures c.params == map[] && c.explicitExt.None? && c.ext == Some("osd")
    ensures c.base == canonical.base && c.path == canonical.path && c.fragment == canonical.fragment
  {
    canonical.(params := map[], explicitExt := None, ext := Some("osd"))
  }

  /** `patchwork_query_osd`; always 200. */
  method Osd(req: Request) returns (r: int)
    modifies req`model
    ensures r == 200
    ensures Members(old(req.model)) <= Members(req.model)
    ensures Members(OsdStatements(req)) <= Members(req.model)
    ensures req.model == AddAll(old(req.model), OsdStatements(req))
  {
    req.model := AddAll(req.model, OsdStatements(req));
    r := 200;
  }

  /** A literal `rdfs:label` of `subj`. */
  predicate IsLabel(q: Quad, subj: string)
  {
    q.s == Uri(subj) && q.p == RdfsLabel && q.o.Literal?
  }

  /** Whether a label's language tag matches `lang` (`None`: the label has no tag). */
  predicate LangMatches(q: Quad, lang: Option<string>)
    requires q.o.Literal?
  {
    if lang.None? then q.o.lang.None? else q.o.lang.Some? && EqualsIgnoreCase(q.o.lang.value, lang.value)
  }

  /** The value of the first label of `subj` whose tag matches `lang`, in model order. */
  function FirstLabel(m: seq<Quad>, subj: string, lang: Option<string>): (r: Option<string>)
    ensures r.None? <==> forall i :: 0 <= i < |m| && IsLabel(m[i], subj) ==> !LangMatches(m[i], lang)
    ensures r.Some? ==> exists i :: 0 <= i < |m| && IsLabel(m[i], subj) && LangMatches(m[i], lang)
                                 && m[i].o.value == r.value
                                 && forall j :: 0 <= j < i && IsLabel(m[j], subj) ==> !LangMatches(m[j], lang)
  {
    if m == [] then None
    else if IsLabel(m[0], subj) && LangMatches(m[0], lang) then Some(m[0].o.value)
    else
      var r := FirstLabel(m[1..], subj, lang);
      assert forall i :: 1 <= i < |m| ==> m[i] == m[1..][i - 1];
      r
  }

  /** `patchwork_query_subjtitle_` with the preferences the title uses: the first label tagged
    * en-gb, else the first tagged en, else the first untagged one; non-literal objects never count. */
  function SubjTitle(m: seq<Quad>, subj: string): (r: Option<string>)
    ensures r.None? <==> forall i :: 0 <= i < |m| && IsLabel(m[i], subj) ==>
                            m[i].o.lang.Some? && !EqualsIgnoreCase(m[i].o.lang.value, "en-gb")
                                              && !EqualsIgnoreCase(m[i].o.lang.value, "en")
    ensures FirstLabel(m, subj, Some("en-gb")).Some? ==> r == FirstLabel(m, subj, Some("en-gb"))
    ensures FirstLabel(m, subj, Some("en-gb")).None? && FirstLabel(m, subj, Some("en")).Some? ==>
              r == FirstLabel(m, subj, Some("en"))
    ensures FirstLabel(m, subj, Some("en-gb")).None? && FirstLabel(m, subj, Some("en")).None? ==>
              r == FirstLabel(m, subj, None)
    ensures r.Some? ==> exists q :: q in m && IsLabel(q, subj) && q.o.value == r.value
  {
    var pri := FirstLabel(m, subj, Some("en-gb"));
    var sec := FirstLabel(m, subj, Some("en"));
    if pri.Some? then pri else if sec.Some? then sec else FirstLabel(m, subj, None)
  }

  /** The head of the title and whether it reads as singular. */
  function TitleHead(indextitle: Option<string>, qclass: Option<string>): (string, bool)
  {
    if indextitle.Some? then (indextitle.value, EqualsIgnoreCase(indextitle.value, "everything"))
    else if qclass.Some? then ("Items with class <" + qclass.value + ">", false)
    else ("Everything", true)
  }

  function WithinPart(collection: Option<string>, caption: Option<string>): string
  {
    if collection.None? then ""
    else if caption.Some? then " within “" + caption.value + "”"
    else " within <" + collection.value + ">"
  }

  function ContainingPart(text: Option<string>): string
  {
    if text.Some? then " containing \"" + text.value + "\"" else ""
  }

  /** The position of the first media-match entry whose URI is `media`. */
  function FindMedia(table: seq<MediaMatch>, media: Option<string>): (r: Option<nat>)
    ensures r.Some? ==> media.Some? && r.value < |table| && table[r.value].uri == media.value
    ensures r.Some? ==> forall j :: 0 <= j < r.value ==> table[j].uri != media.value
    ensures r.None? ==> media.None? || forall j :: 0 <= j < |table| ==> table[j].uri != media.value
  {
    if media.None? || table == [] then None
    else if table[0].uri == media.value then Some(0)
    else match FindMedia(table[1..], media)
      case Some(i) => Some(i + 1)
      case None => None
  }

  function MediaPart(table: seq<MediaMatch>, media: Option<string>): string
  {
    match FindMedia(table, media)
    case Some(i) => " " + table[i].name
    case None => (if media.Some? && media.value != "any" then " <" + media.value + ">" else "") + " media"
  }

  function TypePart(t: Option<string>): string
  {
    if t.Some? && t.value != "any" then " which is " + t.value else ""
  }

  /** Only "everyone" survives: the explicit list is written past the end of the title and cut off. */
  function AudiencePart(audience: Option<seq<string>>): string
  {
    if audience.Some? && "any" !in audience.value && "all" in audience.value then " available to everyone" else ""
  }

  predicate HasSuffix(d: Descriptor) { d.media.Some? || d.mediaType.Some? || d.audience.Some? }

  /** The English title of a result set. */
  function TitleText(indextitle: Option<string>, d: Descriptor, caption: Option<string>, table: seq<MediaMatch>): string
  {
    var (head, sing) := TitleHead(indextitle, d.qclass);
    var scoped := head + WithinPart(d.collection, caption) + ContainingPart(d.text);
    if HasSuffix(d)
    then scoped + (if sing then " which has related" else " which have related")
         + MediaPart(table, d.media) + TypePart(d.mediaType) + AudiencePart(d.audience)
    else scoped
  }

  /** A string opens with any of its prefixes. */
  lemma {:induction false} PrefixOfAppend(a: string, b: string)
    ensures HasPrefix(a + b, a)
  {
    assert (a + b)[..|a|] == a;
  }

  /** The title opens with its head, and with no clause it is the head alone. */
  lemma {:induction false} TitleOpens(indextitle: Option<string>, d: Descriptor, caption: Option<string>, table: seq<MediaMatch>)
    ensures HasPrefix(TitleText(indextitle, d, caption, table), TitleHead(indextitle, d.qclass).0)
    ensures !HasSuffix(d) && d.collection.None? && d.text.None? ==>
              TitleText(indextitle, d, caption, table) == TitleHead(indextitle, d.qclass).0
  {
    var (head, sing) := TitleHead(indextitle, d.qclass);
    var tail := TitleText(indextitle, d, caption, table)[|head|..];
    assert TitleText(indextitle, d, caption, table) == head + tail;
    PrefixOfAppend(head, tail);
  }

  /** The related-media clause follows the scope and agrees in number with the head. */
  lemma {:induction false} TitleNumber(indextitle: Option<string>, d: Descriptor, caption: Option<string>, table: seq<MediaMatch>)
    requires HasSuffix(d)
    ensures var (head, sing) := TitleHead(indextitle, d.qclass);
      HasPrefix(TitleText(indextitle, d, caption, table),
                head + WithinPart(d.collection, caption) + ContainingPart(d.text)
                + if sing then " which has related" else " which have related")
  {
    var (head, sing) := TitleHead(indextitle, d.qclass);
    var lead := head + WithinPart(d.collection, caption) + ContainingPart(d.text)
                + if sing then " which has related" else " which have related";
    var m, t := lead + MediaPart(table, d.media), lead + MediaPart(table, d.media) + TypePart(d.mediaType);
    PrefixOfAppend(lead, MediaPart(table, d.media));
    PrefixExtend(m, lead, TypePart(d.mediaType));
    PrefixExtend(t, lead, AudiencePart(d.audience));
  }

  /** A prefix of a string stays a prefix when the string is extended. */
  lemma {:induction false} PrefixExtend(s: string, p: string, b: string)
    requires HasPrefix(s, p)
    ensures HasPrefix(s + b, p)
  {
    assert (s + b)[..|p|] == s[..|p|];
  }

  /** A medium the table does not name ends the title with " media" when no type or audience follows. */
  lemma {:induction false} TitleMediaWord(indextitle: Option<string>, d: Descriptor, caption: Option<string>, table: seq<MediaMatch>)
    requires HasSuffix(d) && d.mediaType.None? && d.audience.None? && FindMedia(table, d.media).None?
    ensures var t := TitleText(indextitle, d, caption, table);
      |t| >= 6 && t[|t| - 6..] == " media"
  {
    var t := TitleText(indextitle, d, caption, table);
    var body := t[..|t| - 6];
    assert t == body + " media";
  }

  /** A medium the table names ends the title with that name when no type or audience follows. */
  lemma {:induction false} TitleMediaNamed(indextitle: Option<string>, d: Descriptor, caption: Option<string>,
                                           table: seq<MediaMatch>, i: nat)
    requires FindMedia(table, d.media) == Some(i) && d.mediaType.None? && d.audience.None?
    ensures var t := TitleText(indextitle, d, caption, table); var nm := " " + table[i].name;
      |t| >= |nm| && t[|t| - |nm|..] == nm
  {
    var t := TitleText(indextitle, d, caption, table);
    var nm := " " + table[i].name;
    var body := t[..|t| - |nm|];
    assert t == body + nm;
  }

  /** An audience list without "all" leaves the title as an empty list does: only "everyone" is written. */
  lemma {:induction false} TitleAudienceCut(indextitle: Option<string>, d: Descriptor, caption: Option<string>,
                                            table: seq<MediaMatch>)
    requires d.audience.Some? && "all" !in d.audience.value
    ensures TitleText(indextitle, d, caption, table) == TitleText(indextitle, d.(audience := Some([])), caption, table)
  {
    assert AudiencePart(d.audience) == "" == AudiencePart(Some([]));
  }

  /** The text the explicit-audience branch writes past the end of the title. */
  function AudienceList(a: seq<string>): string
  {
    " available to <" + Join(a) + ">"
  }

  function Join(a: seq<string>): (r: string)
    decreases |a|
  {
    if a == [] then "" else if |a| == 1 then a[0] else Join(a[..|a| - 1]) + ", " + a[|a| - 1]
  }

  /** The title's head, written into an empty buffer, and whether it reads as singular. */
  method WriteHead(indextitle: Option<string>, qclass: Option<string>) returns (buf: string, sing: bool)
    ensures (buf, sing) == TitleHead(indextitle, qclass)
  {
    buf, sing := "", false;
    if indextitle.Some? {
      buf := indextitle.value;
      if EqualsIgnoreCase(indextitle.value, "everything") {
        sing := true;
      }
    } else if qclass.Some? {
      buf := "Items with class <";
      buf := buf + qclass.value;
      buf := buf + ">";
    } else {
      buf := "Everything";
      sing := true;
    }
  }

  /** The collection and free-text clauses. */
  method WriteScope(buf: string, d: Descriptor, caption: Option<string>) returns (buf': string)
    ensures buf' == buf + WithinPart(d.collection, caption) + ContainingPart(d.text)
  {
    buf' := buf;
    if d.collection.Some? {
      if caption.Some? {
        buf' := buf' + " within “";
        buf' := buf' + caption.value;
        buf' := buf' + "”";
      } else {
        buf' := buf' + " within <";
        buf' := buf' + d.collection.value;
        buf' := buf' + ">";
      }
    }
    if d.text.Some? {
      buf' := buf' + " containing \"";
      buf' := buf' + d.text.value;
      buf' := buf' + "\"";
    }
  }

  /** The media clause: the short name of the first table entry for the medium, else the medium's
    * URI (unless it is `any`) followed by "media". */
  method WriteMedia(buf: string, table: seq<MediaMatch>, media: Option<string>) returns (buf': string)
    ensures buf' == buf + MediaPart(table, media)
  {
    buf' := buf;
    var c := 0;
    while c < |table|
      invariant 0 <= c <= |table|
      invariant forall j :: 0 <= j < c ==> !(media.Some? && table[j].uri == media.value)
      invariant buf' == buf
    {
      if media.Some? && table[c].uri == media.value {
        buf' := buf' + " ";
        buf' := buf' + table[c].name;
        break;
      }
      c := c + 1;
    }
    if c == |table| {
      if media.Some? && media.value != "any" {
        buf' := buf' + " ";
        buf' := buf' + "<";
        buf' := buf' + media.value;
        buf' := buf' + ">";
      }
      buf' := buf' + " media";
      assert FindMedia(table, media).None?;
    } else {
      FindMediaFirst(table, media, c);
    }
  }

  /** The media-type clause, unless the type is `any`. */
  method WriteType(buf: string, mediaType: Option<string>) returns (buf': string)
    ensures buf' == buf + TypePart(mediaType)
  {
    buf' := buf;
    if mediaType.Some? && mediaType.value != "any" {
      buf' := buf' + " which is ";
      buf' := buf' + mediaType.value;
    }
  }

  /** The audience clause; `cut` is what the explicit-audience branch writes past the end of the
    * title. */
  method WriteAudience(buf: string, audience: Option<seq<string>>) returns (buf': string, cut: string)
    ensures buf' == buf + AudiencePart(audience)
    ensures cut == if audience.Some? && "any" !in audience.value && "all" !in audience.value
                   then AudienceList(audience.value) else ""
  {
    buf', cut := buf, "";
    if audience.Some? {
      var any := Plugin.ArrayContains(audience, "any");
      if any == 0 {
        var all := Plugin.ArrayContains(audience, "all");
        if all != 0 {
          buf' := buf' + " available to everyone";
        } else {
          cut := ListAudience(audience.value);
        }
      }
    }
  }

  /** The part of the title composer that writes into a buffer through a moving end pointer: `title`
    * is the buffer up to the pointer, `cut` what the audience branch wrote beyond it. */
  method ComposeTitle(indextitle: Option<string>, d: Descriptor, caption: Option<string>, table: seq<MediaMatch>)
    returns (title: string, cut: string)
    ensures title == TitleText(indextitle, d, caption, table)
    ensures cut == if HasSuffix(d) && d.audience.Some? && "any" !in d.audience.value && "all" !in d.audience.value
                   then AudienceList(d.audience.value) else ""
  {
    var buf, sing := WriteHead(indextitle, d.qclass);
    buf := WriteScope(buf, d, caption);
    cut := "";
    if d.media.Some? || d.mediaType.Some? || d.audience.Some? {
      if sing {
        buf := buf + " which has related";
      } else {
        buf := buf + " which have related";
      }
      buf := WriteMedia(buf, table, d.media);
      buf := WriteType(buf, d.mediaType);
      buf, cut := WriteAudience(buf, d.audience);
    }
    title := buf;
  }

  lemma FindMediaFirst(table: seq<MediaMatch>, media: Option<string>, c: nat)
    requires media.Some? && c < |table| && table[c].uri == media.value
    requires forall j :: 0 <= j < c ==> table[j].uri != media.value
    ensures FindMedia(table, media) == Some(c)
  {
    if c > 0 {
      FindMediaFirst(table[1..], media, c - 1);
    }
  }

  /** The `strcat` loop of the explicit-audience branch. */
  method ListAudience(a: seq<string>) returns (s: string)
    ensures s == AudienceList(a)
  {
    s := " available to <";
    var i := 0;
    while i < |a|
      invariant 0 <= i <= |a|
      invariant s == " available to <" + Join(a[..i]) + (if 0 < i < |a| then ", " else "")
    {
      assert a[..i + 1][..i] == a[..i];
      s := s + a[i];
      i := i + 1;
      if i < |a| {
        s := s + ", ";
      }
    }
    assert a[..i] == a;
    s := s + ">";
  }

  /** The label of the collection a title mentions: looked up on the result set's own URI. */
  function CollectionLabel(m: seq<Quad>, abstr: string, d: Descriptor): Option<string>
  {
    if d.collection.Some? then SubjTitle(m, abstr) else None
  }

  function TitleStatement(req: Request, m: seq<Quad>, abstr: string, d: Descriptor, table: seq<MediaMatch>): Quad
    reads req`indextitle
  {
    LitSt(Some(req.graph), abstr, RdfsLabel,
          TitleText(req.indextitle, d, CollectionLabel(m, abstr, d), table), Some("en-gb"))
  }

  /** `patchwork_query_title_`: adds the title of `abstract` to the concrete graph; returns 0. */
  method Title(req: Request, abstr: string, d: Descriptor, table: seq<MediaMatch>) returns (r: int)
    modifies req`model
    ensures r == 0
    ensures req.model == Add(old(req.model), TitleStatement(req, old(req.model), abstr, d, table))
  {
    var caption := None;
    if d.collection.Some? {
      caption := SubjTitle(req.model, abstr);
    }
    var title, _ := ComposeTitle(req.indextitle, d, caption, table);
    req.model := Add(req.model, LitSt(Some(req.graph), abstr, RdfsLabel, title, Some("en-gb")));
    r := 0;
  }

  /** `patchwork_membership`: the database decides; without one every item passes. */
  function Membership(db: bool, fromDb: int): (r: int)
    ensures !db ==> r == 200
    ensures db ==> r == fromDb
  {
    if db then fromDb else 200
  }
}
