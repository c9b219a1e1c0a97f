/** Item requests: the identifier in the path, where the item's description comes from, the
  * post-processing of the retrieved graph and the query for related items. */
module Item {
  import opened Strings
  import opened Patchwork
  import opened Quilt
  import Query
  import Dispatch

  /** The identifier a path segment spells: hyphens dropped, alphanumerics lower-cased; `None`
    * as soon as any other character occurs. */
  function IdChars(s: string): (r: Option<string>)
    ensures r.None? <==> exists i :: 0 <= i < |s| && !IsAlnum(s[i]) && s[i] != '-'
    ensures r.Some? ==> |r.value| <= |s|
    ensures r.Some? ==> forall i :: 0 <= i < |r.value| ==> IsAlnum(r.value[i]) && !IsUpper(r.value[i])
    decreases |s|
  {
    if s == [] then Some([])
    else
      var c := s[|s| - 1];
      assert forall i :: 0 <= i < |s| - 1 ==> s[..|s| - 1][i] == s[i];
      match IdChars(s[..|s| - 1])
      case None => None
      case Some(p) => if c == '-' then Some(p) else if IsAlnum(c) then Some(p + [ToLower(c)]) else None
  }

  /** A longer segment never spells a shorter identifier than its prefix does. */
  lemma {:induction false} IdCharsPrefix(s: string, i: nat)
    requires i <= |s| && IdChars(s).Some?
    ensures IdChars(s[..i]).Some? && |IdChars(s[..i]).value| <= |IdChars(s).value|
    decreases |s| - i
  {
    if i < |s| {
      var s' := s[..|s| - 1];
      assert s'[..i] == s[..i];
      IdCharsPrefix(s', i);
    } else {
      assert s[..i] == s;
    }
  }

  /** One more character of the segment: a hyphen adds nothing, an alphanumeric its lower case. */
  lemma {:induction false} IdCharsStep(s: string, i: nat)
    requires i < |s| && IdChars(s[..i]).Some?
    ensures s[i] == '-' ==> IdChars(s[..i + 1]) == IdChars(s[..i])
    ensures IsAlnum(s[i]) ==> IdChars(s[..i + 1]) == Some(IdChars(s[..i]).value + [ToLower(s[i])])
    ensures !IsAlnum(s[i]) && s[i] != '-' ==> IdChars(s[..i + 1]).None?
  {
    assert s[..i + 1][..i] == s[..i];
  }

  /** The size of `patchwork_item`'s identifier buffer, terminating NUL included. */
  const IdBufSize := 36

  /** A segment names an item when it spells an identifier of exactly 32 characters. */
  predicate ValidId(seg: Option<string>)
  {
    seg.Some? && IdChars(seg.value).Some? && |IdChars(seg.value).value| == 32
  }

  /** `patchwork_item_id_`: the identifier of the segment the request consumes, or 404. A 36th
    * alphanumeric, which the source would write past its buffer, is refused with 404 as well. */
  method ItemId(seg: Option<string>) returns (r: int, id: string)
    ensures r == 0 || r == 404
    ensures r == 0 <==> ValidId(seg)
    ensures r == 0 ==> id == IdChars(seg.value).value
  {
    if seg.None? {
      return 404, "";
    }
    var s := seg.value;
    var idbuf := new char[IdBufSize];
    var p := 0;
    var i := 0;
    while i < |s|
      invariant 0 <= i <= |s| && 0 <= p < IdBufSize
      invariant IdChars(s[..i]) == Some(idbuf[..p])
    {
      var ch := s[i];
      IdCharsStep(s, i);
      if ch == '-' {
      } else if IsAlnum(ch) {
        if p == IdBufSize - 1 {
          if IdChars(s).Some? {
            IdCharsPrefix(s, i + 1);
          }
          return 404, "";
        }
        ghost var pre := idbuf[..p];
        idbuf[p] := ToLower(ch);
        assert idbuf[..p + 1] == pre + [ToLower(ch)];
        p := p + 1;
      } else {
        return 404, "";
      }
      i := i + 1;
    }
    assert s[..i] == s;
    id := idbuf[..p];
    if |id| != 32 {
      return 404, id;
    }
    r := 0;
  }

  /** What a source of item descriptions reports: its status and the statements it added. */
  datatype Fetch = Fetch(status: int, added: seq<Quad>)

  /** What reading a cache file yields: no such file, a read error, content that does not parse
    * as N-Quads, or the statements it holds. */
  datatype FileRead = Unopenable | ReadError | Unparsable | Parsed(quads: seq<Quad>)

  /** `patchwork_item_file`: the description cached in the file named by the identifier under
    * the cache directory; `disk` stands for the file system and the N-Quads parser. */
  function FileFetch(dir: string, id: string, disk: string -> FileRead): (f: Fetch)
    ensures f.status == 200 || f.status == 404 || f.status == 500
    ensures f.status == 404 <==> |id| != 32 || disk(dir + "/" + id).Unopenable?
    ensures f.status == 200 <==> |id| == 32 && disk(dir + "/" + id).Parsed?
    ensures f.status == 200 ==> f.added == disk(dir + "/" + id).quads
    ensures f.status != 200 ==> f.added == []
  {
    if |id| != 32 then Fetch(404, [])
    else
      match disk(dir + "/" + id)
      case Unopenable => Fetch(404, [])
      case ReadError => Fetch(500, [])
      case Unparsable => Fetch(500, [])
      case Parsed(qs) => Fetch(200, qs)
  }

  /** The configured sources of item descriptions; the S3, SPARQL and database fetchers are
    * outside this model and appear as oracles. */
  datatype Sources = Sources(
    bucket: Option<string>,
    cachePath: Option<string>,
    db: bool,
    s3: string -> Fetch,
    disk: string -> FileRead,
    sparql: string -> Fetch,
    fromDb: string -> Fetch)

  /** The one primary source tried: S3 when a bucket is configured, else the file cache when a
    * cache path is, else SPARQL (even when a database is configured). */
  function Primary(src: Sources, id: string): (f: Fetch)
    ensures src.bucket.Some? ==> f == src.s3(id)
    ensures src.bucket.None? && src.cachePath.Some? ==> f == FileFetch(src.cachePath.value, id, src.disk)
    ensures src.bucket.None? && src.cachePath.None? ==> f == src.sparql(id)
  {
    if src.bucket.Some? then src.s3(id)
    else if src.cachePath.Some? then FileFetch(src.cachePath.value, id, src.disk)
    else src.sparql(id)
  }

  function DbFetch(src: Sources, id: string): Fetch
  {
    src.fromDb(id)
  }

  /** Whether the database is asked after the primary source. */
  predicate FallsBack(src: Sources, id: string)
  {
    Primary(src, id).status != 200 && src.db
  }

  /** The status of retrieving an item: the database's when it was asked, the primary's otherwise. */
  function RetrieveStatus(src: Sources, id: string): (r: int)
    ensures FallsBack(src, id) ==> r == src.fromDb(id).status
    ensures !FallsBack(src, id) ==> r == Primary(src, id).status
  {
    if FallsBack(src, id) then DbFetch(src, id).status else Primary(src, id).status
  }

  /** The model once the source chain has run: the primary source's statements, then the
    * database's when it was asked. */
  function Retrieved(m: seq<Quad>, src: Sources, id: string): seq<Quad>
  {
    var after := AddAll(m, Primary(src, id).added);
    if FallsBack(src, id) then AddAll(after, DbFetch(src, id).added) else after
  }

  /** The source chain of `patchwork_item`: the primary source, then the database when the
    * primary did not produce the item and a database is configured. */
  method Retrieve(req: Request, src: Sources, id: string) returns (r: int)
    modifies req`model
    ensures r == RetrieveStatus(src, id)
    ensures req.model == Retrieved(old(req.model), src, id)
  {
    var f := Primary(src, id);
    req.model := AddAll(req.model, f.added);
    r := f.status;
    if r != 200 && src.db {
      var g := DbFetch(src, id);
      req.model := AddAll(req.model, g.added);
      r := g.status;
    }
  }

  /** The statements of context `c`, restated in context `g`. */
  function Relabel(m: seq<Quad>, c: string, g: string): (r: seq<Quad>)
    ensures forall q :: q in m && q.ctx == Some(c) ==> q.(ctx := Some(g)) in r
    ensures forall q :: q in r ==> q.ctx == Some(g) && q.(ctx := Some(c)) in m
    decreases |m|
  {
    if m == [] then []
    else
      assert forall q :: q in m[1..] ==> q in m;
      (if m[0].ctx == Some(c) then [m[0].(ctx := Some(g))] else []) + Relabel(m[1..], c, g)
  }

  /** The migration step: when the abstract document's context is not the graph's, its statements
    * are copied to the graph's context and removed from their own. */
  function Migrated(m: seq<Quad>, abstr: string, graph: string): seq<Quad>
  {
    if abstr == graph then m else RemoveContext(AddAll(m, Relabel(m, abstr, graph)), abstr)
  }

  /** After migration the abstract context is empty, every statement it held is in the graph's
    * context, and the statements of every other context are exactly those it had. */
  lemma {:induction false} MigratedSpec(m: seq<Quad>, abstr: string, graph: string)
    requires abstr != graph
    ensures forall q :: q in Migrated(m, abstr, graph) ==> q.ctx != Some(abstr)
    ensures forall q :: q in m && q.ctx == Some(abstr) ==> q.(ctx := Some(graph)) in Migrated(m, abstr, graph)
    ensures forall q: Quad :: q.ctx != Some(abstr) && q.ctx != Some(graph) ==>
              (q in Migrated(m, abstr, graph) <==> q in m)
    ensures forall q :: q in Migrated(m, abstr, graph) && q.ctx == Some(graph) ==>
              q in m || q.(ctx := Some(abstr)) in m
  {
    var moved := Relabel(m, abstr, graph);
    var added := AddAll(m, moved);
    InAddAll(m, moved);
    InRemoveContext(added, abstr);
  }

  lemma {:induction false} InAddAll(m: seq<Quad>, qs: seq<Quad>)
    ensures forall q :: q in AddAll(m, qs) <==> q in m || q in qs
  {
    forall q
      ensures q in AddAll(m, qs) <==> q in m || q in qs
    {
      assert q in Members(AddAll(m, qs)) <==> q in Members(m) + Members(qs);
    }
  }

  lemma {:induction false} InRemoveContext(m: seq<Quad>, c: string)
    ensures forall q :: q in RemoveContext(m, c) <==> q in m && q.ctx != Some(c)
  {
    forall q
      ensures q in RemoveContext(m, c) <==> q in m && q.ctx != Some(c)
    {
      assert q in Members(RemoveContext(m, c)) <==> q in Members(m) && q.ctx != Some(c);
    }
  }

  method Migrate(req: Request)
    modifies req`model
    ensures req.model == Migrated(old(req.model), req.render(req.canonical, AbstractForm), req.graph)
  {
    var abstr := req.render(req.canonical, AbstractForm);
    if abstr != req.graph {
      req.model := AddAll(req.model, Relabel(req.model, abstr, req.graph));
      req.model := RemoveContext(req.model, abstr);
    }
  }

  /** Some entry of `allow` is a prefix of `c`. */
  predicate Allowed(allow: seq<string>, c: string)
  {
    exists p :: p in allow && HasPrefix(c, p)
  }

  /** `str_has_prefix_from_list_` */
  method HasPrefixFromList(list: seq<string>, str: string) returns (r: bool)
    ensures r <==> Allowed(list, str)
  {
    var i := 0;
    while i < |list|
      invariant 0 <= i <= |list|
      invariant forall j :: 0 <= j < i ==> !HasPrefix(str, list[j])
    {
      if HasPrefix(str, list[i]) {
        return true;
      }
      i := i + 1;
    }
    return false;
  }

  /** A statement the whitelist keeps: one in the default graph or in an allowed context. */
  predicate KeptBy(q: Quad, allow: seq<string>)
  {
    q.ctx.None? || Allowed(allow, q.ctx.value)
  }

  /** The statements left once every context that no `allow` entry prefixes is stripped; without
    * an `allow` parameter, all of them. */
  function Whitelisted(m: seq<Quad>, allow: Option<seq<string>>): (r: seq<Quad>)
    ensures forall q :: q in r <==> q in m && (allow.None? || KeptBy(q, allow.value))
    decreases |m|
  {
    if allow.None? || m == [] then m
    else
      assert forall q :: q in m[1..] ==> q in m;
      (if KeptBy(m[0], allow.value) then [m[0]] else []) + Whitelisted(m[1..], allow)
  }

  /** An empty `allow` entry is a prefix of every context, so it keeps everything. */
  lemma {:induction false} EmptyEntryKeepsAll(m: seq<Quad>, allow: seq<string>)
    requires "" in allow
    ensures Members(Whitelisted(m, Some(allow))) == Members(m)
  {
    forall q | q in m
      ensures q in Whitelisted(m, Some(allow))
    {
      if q.ctx.Some? {
        assert HasPrefix(q.ctx.value, "");
      }
    }
  }

  /** The whitelist step: with a non-empty `allow` parameter, every named context of the model
    * that no entry prefixes is stripped. */
  method Whitelist(req: Request)
    modifies req`model
    ensures Members(req.model) == Members(Whitelisted(old(req.model), GetParamMulti(req.params, "allow")))
  {
    var allow := GetParamMulti(req.params, "allow");
    if allow.None? {
      return;
    }
    var m0 := req.model;
    var m := m0;
    var cs := Contexts(m0);
    var i := 0;
    while i < |cs|
      invariant 0 <= i <= |cs|
      invariant forall q :: q in m <==> q in m0 && Survives(q, cs[..i], allow.value)
    {
      var ok := HasPrefixFromList(allow.value, cs[i]);
      ghost var before := m;
      if !ok {
        m := RemoveContext(m, cs[i]);
      }
      StripStep(before, m, m0, cs, i, allow.value, ok);
      i := i + 1;
    }
    assert cs[..i] == cs;
    req.model := m;
  }

  /** Not yet stripped: in the default graph, in a context not yet visited, or allowed. */
  predicate Survives(q: Quad, visited: seq<string>, allow: seq<string>)
  {
    q.ctx.None? || q.ctx.value !in visited || Allowed(allow, q.ctx.value)
  }

  lemma {:induction false} StripStep(before: seq<Quad>, after: seq<Quad>, m0: seq<Quad>, cs: seq<string>, i: nat,
                                     allow: seq<string>, ok: bool)
    requires i < |cs| && (ok <==> Allowed(allow, cs[i]))
    requires forall q :: q in before <==> q in m0 && Survives(q, cs[..i], allow)
    requires after == if ok then before else RemoveContext(before, cs[i])
    ensures forall q :: q in after <==> q in m0 && Survives(q, cs[..i + 1], allow)
  {
    assert cs[..i + 1] == cs[..i] + [cs[i]];
    InRemoveContext(before, cs[i]);
  }

  /** `q` says that a resource is the same as `subj`. */
  predicate PointsAt(q: Quad, subj: string)
  {
    q.p == OwlSameAs && q.o == Uri(subj) && q.s.Uri?
  }

  /** `q` turned around, in `q`'s own context. */
  function Flipped(q: Quad, subj: string): Quad
  {
    Quad(q.ctx, Uri(subj), OwlSameAs, q.s)
  }

  /** The statements the flip step adds: `<subj> owl:sameAs ?s` for every resource `?s` said to be
    * the same as `subj`, each in the context of the statement it turns around. */
  function Flips(m: seq<Quad>, subj: string): seq<Quad>
    decreases |m|
  {
    if m == [] then []
    else
      var q := m[|m| - 1];
      Flips(m[..|m| - 1], subj) + (if PointsAt(q, subj) then [Flipped(q, subj)] else [])
  }

  /** Exactly the converse of each statement pointing at `subj` is added, in its context. */
  lemma {:induction false} FlipsSpec(m: seq<Quad>, subj: string)
    ensures forall q :: q in m && PointsAt(q, subj) ==> Flipped(q, subj) in Flips(m, subj)
    ensures forall q :: q in Flips(m, subj) ==>
              q.s == Uri(subj) && q.p == OwlSameAs && q.o.Uri? && Quad(q.ctx, q.o, OwlSameAs, Uri(subj)) in m
    decreases |m|
  {
    if m != [] {
      var init := m[..|m| - 1];
      FlipsSpec(init, subj);
      assert m == init + [m[|m| - 1]];
    }
  }

  /** One more statement flips at most itself. */
  lemma {:induction false} FlipsStep(m: seq<Quad>, i: nat, subj: string)
    requires i < |m|
    ensures Flips(m[..i + 1], subj) == Flips(m[..i], subj) + (if PointsAt(m[i], subj) then [Flipped(m[i], subj)] else [])
  {
    assert m[..i + 1][..i] == m[..i];
    assert m[..i + 1][i] == m[i];
  }

  /** Adding statements one after the other, the last one last. */
  lemma {:induction false} AddAllSnoc(m: seq<Quad>, a: seq<Quad>, q: Quad)
    ensures AddAll(m, a + [q]) == Add(AddAll(m, a), q)
    decreases |a|
  {
    if a == [] {
      assert [] + [q] == [q];
    } else {
      assert (a + [q])[1..] == a[1..] + [q];
      AddAllSnoc(Add(m, a[0]), a[1..], q);
    }
  }

  /** Models with the same statements have the same flips. */
  lemma {:induction false} FlipsMembers(m1: seq<Quad>, m2: seq<Quad>, subj: string)
    requires Members(m1) == Members(m2)
    ensures Members(Flips(m1, subj)) == Members(Flips(m2, subj))
  {
    FlipsSpec(m1, subj);
    FlipsSpec(m2, subj);
    forall q | q in Flips(m1, subj)
      ensures q in Flips(m2, subj)
    {
      var p := Quad(q.ctx, q.o, OwlSameAs, Uri(subj));
      assert p in Members(m1);
      assert Flipped(p, subj) == q;
    }
    forall q | q in Flips(m2, subj)
      ensures q in Flips(m1, subj)
    {
      var p := Quad(q.ctx, q.o, OwlSameAs, Uri(subj));
      assert p in Members(m2);
      assert Flipped(p, subj) == q;
    }
  }

  /** Flipping a model that has already been flipped adds nothing. */
  lemma {:induction false} FlipTwice(m: seq<Quad>, m': seq<Quad>, subj: string)
    requires Members(m') == Members(m) + Members(Flips(m, subj))
    ensures Members(Flips(m', subj)) <= Members(m')
  {
    FlipsSpec(m, subj);
    FlipsSpec(m', subj);
    forall q | q in Flips(m', subj)
      ensures q in m'
    {
      var p := Quad(q.ctx, q.o, OwlSameAs, Uri(subj));
      assert p in Members(m');
      assert p in Members(m) || p in Members(Flips(m, subj));
      assert p in m;
      assert Flipped(p, subj) == q;
      assert q in Members(Flips(m, subj));
    }
  }

  /** The flip step: every statement `?s owl:sameAs <subject>` with `?s` a resource gains its
    * converse in the same context; nothing is removed. */
  method Flip(req: Request)
    modifies req`model
    ensures req.model == AddAll(old(req.model), Flips(old(req.model), req.render(req.canonical, SubjectForm)))
  {
    var subj := req.render(req.canonical, SubjectForm);
    var m0 := req.model;
    var m := m0;
    var i := 0;
    while i < |m0|
      invariant 0 <= i <= |m0|
      invariant m == AddAll(m0, Flips(m0[..i], subj))
    {
      FlipStep(m, m0, i, subj);
      if PointsAt(m0[i], subj) {
        m := Add(m, Flipped(m0[i], subj));
      }
      i := i + 1;
    }
    assert m0[..i] == m0;
    req.model := m;
  }

  lemma {:induction false} FlipStep(m: seq<Quad>, m0: seq<Quad>, i: nat, subj: string)
    requires i < |m0| && m == AddAll(m0, Flips(m0[..i], subj))
    ensures AddAll(m0, Flips(m0[..i + 1], subj)) == if PointsAt(m0[i], subj) then Add(m, Flipped(m0[i], subj)) else m
  {
    FlipsStep(m0, i, subj);
    if PointsAt(m0[i], subj) {
      AddAllSnoc(m0, Flips(m0[..i], subj), Flipped(m0[i], subj));
    } else {
      assert Flips(m0[..i], subj) + [] == Flips(m0[..i], subj);
    }
  }

  /** The graph post-processing leaves for the canonical URI `c`, up to order: the abstract
    * document migrated into the graph's context, the whitelist applied, and the flips of what
    * is left added. */
  function Processed(req: Request, c: Canon, m: seq<Quad>): seq<Quad>
  {
    var kept := Whitelisted(Migrated(m, req.render(c, AbstractForm), req.graph), GetParamMulti(req.params, "allow"));
    kept + Flips(kept, req.render(c, SubjectForm))
  }

  /** `patchwork_item_postprocess_` without its rule-base block: migration, whitelist, then flip;
    * always 200. */
  method Postprocess(req: Request) returns (r: int)
    modifies req`model
    ensures r == 200
    ensures Members(req.model) == Members(Processed(req, req.canonical, old(req.model)))
  {
    Migrate(req);
    ghost var m := req.model;
    Whitelist(req);
    ghost var w := req.model;
    Flip(req);
    ghost var kept := Whitelisted(m, GetParamMulti(req.params, "allow"));
    FlipsMembers(w, kept, req.render(req.canonical, SubjectForm));
    MembersAppend(kept, Flips(kept, req.render(req.canonical, SubjectForm)));
    r := 200;
  }

  /** `patchwork_item_is_collection_`: the model states, in any context, that `subj` is a
    * `dcmitype:Collection`. */
  function IsCollection(m: seq<Quad>, subj: string): (r: bool)
    ensures r <==> exists q :: q in m && q.s == Uri(subj) && q.p == RdfType && q.o == Uri(DcmiCollection)
    decreases |m|
  {
    if m == [] then false
    else
      assert forall q :: q in m[1..] ==> q in m;
      assert m == [m[0]] + m[1..];
      (m[0].s == Uri(subj) && m[0].p == RdfType && m[0].o == Uri(DcmiCollection)) || IsCollection(m[1..], subj)
  }

  /** Whether an item is a collection depends only on the statements of the model. */
  lemma IsCollectionMembers(m1: seq<Quad>, m2: seq<Quad>, subj: string)
    requires Members(m1) == Members(m2)
    ensures IsCollection(m1, subj) == IsCollection(m2, subj)
  {
    if IsCollection(m1, subj) {
      var q :| q in m1 && q.s == Uri(subj) && q.p == RdfType && q.o == Uri(DcmiCollection);
      assert q in Members(m2);
    }
    if IsCollection(m2, subj) {
      var q :| q in m2 && q.s == Uri(subj) && q.p == RdfType && q.o == Uri(DcmiCollection);
      assert q in Members(m1);
    }
  }

  /** The query `patchwork_item_related` starts from: about the identifier alone. */
  function TopicQuery(id: string): Query.Descriptor
  {
    Query.QueryInit().(about := Some([id]))
  }

  /** The query of a collection: the topic query limited to the collection `subj` and completed
    * from the request parameters, with no partition class. */
  function CollectionRequest(req: Request, id: string, subj: string, threshold: int): Query.Descriptor
  {
    Query.Requested(TopicQuery(id).(collection := Some(subj)), Query.ReadParams(req.params), None, threshold, req.offset, req.limit)
  }

  /** The query `patchwork_item_related` runs, before `patchwork_query` completes it. */
  function RelatedRequest(req: Request, id: string, subj: string, threshold: int, collection: bool): Query.Descriptor
  {
    if collection then CollectionRequest(req, id, subj, threshold) else TopicQuery(id)
  }

  /** The status of `patchwork_item_related`: the status of the query it runs, since every step
    * after the query returns 200. */
  function RelatedStatus(req: Request, c: Canon, e: Query.Engine, id: string, subj: string, collection: bool): int
  {
    Query.Execute(e.db, e.execDb, e.execSparql, Query.FillRefs(req, c, RelatedRequest(req, id, subj, e.threshold, collection)), c).status
  }

  /** The statements the query of `patchwork_item_related` adds to the model. */
  function RelatedAdded(req: Request, c: Canon, e: Query.Engine, id: string, subj: string, collection: bool): seq<Quad>
  {
    Query.Execute(e.db, e.execDb, e.execSparql, Query.FillRefs(req, c, RelatedRequest(req, id, subj, e.threshold, collection)), c).added
  }

  /** The request subject after `patchwork_item_related`: the query's resource when the query is
    * explicit or the request is an index, `subj` otherwise. */
  function RelatedSubject(req: Request, c: Canon, index: bool, e: Query.Engine, id: string, subj: string, collection: bool): string
  {
    var d := RelatedRequest(req, id, subj, e.threshold, collection);
    if d.explicit || index then Query.FillRefs(req, c, d).resource.value else subj
  }

  /** The collection branch of `patchwork_item_related`: the query the request parameters describe,
    * limited to the collection, then its navigation links, dataset typing and OpenSearch
    * description, stopping at the first step that does not return 200. */
  method CollectionQuery(req: Request, id: string, e: Query.Engine) returns (r: int)
    modifies req`canonical, req`subject, req`model
    ensures req.canonical == old(req.canonical).(params := Query.Echo(old(req.canonical).params, Query.ReadParams(req.params), req.offset, req.limit, req.deflimit))
    ensures req.subject == RelatedSubject(req, req.canonical, req.index, e, id, old(req.subject), true)
    ensures var d := Query.FillRefs(req, req.canonical, CollectionRequest(req, id, old(req.subject), e.threshold));
            var out := Query.Execute(e.db, e.execDb, e.execSparql, d, req.canonical);
            && r == out.status
            && (r != 200 ==> req.model == AddAll(old(req.model), out.added))
            && Members(old(req.model)) + Members(out.added) <= Members(req.model)
            && (r == 200 ==> Members(Query.MetaLinks(req, d.(more := out.more))) <= Members(req.model))
    ensures r == 200 ==> Members(Query.OsdStatements(req)) <= Members(req.model)
  {
    var d := TopicQuery(id).(collection := Some(req.subject));
    d, r := Query.QueryRequest(d, req, None, e.threshold);
    if r != 200 {
      return r;
    }
    r := Query.Answer(req, d, e);
  }

  /** `patchwork_item_related`: a plain item gets the query about it alone; a collection gets the
    * collection query. Either way the query's status is the result, the subject follows the
    * query, and statements are only ever added. */
  method Related(req: Request, id: string, e: Query.Engine) returns (r: int)
    modifies req`canonical, req`subject, req`model
    ensures r == RelatedStatus(req, req.canonical, e, id, old(req.subject), IsCollection(old(req.model), req.render(old(req.canonical), SubjectForm)))
    ensures req.subject == RelatedSubject(req, req.canonical, req.index, e, id, old(req.subject), IsCollection(old(req.model), req.render(old(req.canonical), SubjectForm)))
    ensures Members(old(req.model)) + Members(RelatedAdded(req, req.canonical, e, id, old(req.subject), IsCollection(old(req.model), req.render(old(req.canonical), SubjectForm))))
            <= Members(req.model)
    ensures req.canonical.path == old(req.canonical.path) && req.canonical.fragment == old(req.canonical.fragment)
    ensures !IsCollection(old(req.model), req.render(old(req.canonical), SubjectForm)) ==>
              var out := Query.Execute(e.db, e.execDb, e.execSparql, Query.FillRefs(req, req.canonical, TopicQuery(id)), req.canonical);
              && req.canonical == old(req.canonical)
              && req.model == AddAll(old(req.model), out.added)
    ensures IsCollection(old(req.model), req.render(old(req.canonical), SubjectForm)) ==>
              var d := Query.FillRefs(req, req.canonical, CollectionRequest(req, id, old(req.subject), e.threshold));
              var out := Query.Execute(e.db, e.execDb, e.execSparql, d, req.canonical);
              && req.canonical.params == Query.Echo(old(req.canonical).params, Query.ReadParams(req.params), req.offset, req.limit, req.deflimit)
              && Members(old(req.model)) + Members(out.added) <= Members(req.model)
              && (r == 200 ==> Members(Query.MetaLinks(req, d.(more := out.more))) + Members(Query.OsdStatements(req)) <= Members(req.model))
  {
    if IsCollection(req.model, req.render(req.canonical, SubjectForm)) {
      r := CollectionQuery(req, id, e);
      return r;
    }
    var d;
    d, r := Query.Run(req, TopicQuery(id), e.db, e.execDb, e.execSparql);
  }

  /** `patchwork_membership` as the item handler uses it: the database's verdict on the item. */
  function MembershipOf(e: Query.Engine, membershipDb: string -> int, id: string): int
  {
    Query.Membership(e.db, membershipDb(id))
  }

  /** The canonical URI of an item: the path extended by the identifier, fragment `#id`. */
  function ItemCanon(c: Canon, id: string): Canon
  {
    c.(path := c.path + [id], fragment := Some("#id"))
  }

  /** `patchwork_item`: the item named by the path, wherever it is stored, post-processed, checked
    * for membership, with its related items and its concrete document; the first step that does
    * not return 200 decides the status. */
  method Item(req: Request, src: Sources, e: Query.Engine, membershipDb: string -> int) returns (r: int)
    modifies req`canonical, req`subject, req`model
    ensures !ValidId(req.segment) ==> r == 404 && req.model == old(req.model) && req.canonical == old(req.canonical)
    ensures ValidId(req.segment) ==>
              req.canonical.path == old(req.canonical.path) + [IdChars(req.segment.value).value]
              && req.canonical.fragment == Some("#id")
    ensures ValidId(req.segment) && RetrieveStatus(src, IdChars(req.segment.value).value) != 200 ==>
              var id := IdChars(req.segment.value).value;
              && r == RetrieveStatus(src, id)
              && req.canonical == ItemCanon(old(req.canonical), id)
              && req.subject == req.render(req.canonical, SubjectForm)
              && req.model == Retrieved(old(req.model), src, id)
    ensures ValidId(req.segment) && RetrieveStatus(src, IdChars(req.segment.value).value) == 200 ==>
              var id := IdChars(req.segment.value).value;
              var c := ItemCanon(old(req.canonical), id);
              var subj := req.render(c, SubjectForm);
              var m := Processed(req, c, Retrieved(old(req.model), src, id));
              && Members(m) <= Members(req.model)
              && (MembershipOf(e, membershipDb, id) != 200 ==>
                    r == MembershipOf(e, membershipDb, id) && req.canonical == c && req.subject == subj
                    && Members(req.model) == Members(m))
              && (MembershipOf(e, membershipDb, id) == 200 ==>
                    r == RelatedStatus(req, req.canonical, e, id, subj, IsCollection(m, subj))
                    && req.subject == RelatedSubject(req, req.canonical, req.index, e, id, subj, IsCollection(m, subj))
                    && Members(m) + Members(RelatedAdded(req, req.canonical, e, id, subj, IsCollection(m, subj))) <= Members(req.model))
    ensures r == 200 ==> ValidId(req.segment) && RetrieveStatus(src, IdChars(req.segment.value).value) == 200
    ensures r == 200 ==> MembershipOf(e, membershipDb, IdChars(req.segment.value).value) == 200
    ensures r == 200 ==> Members(Dispatch.ConcreteStatements(req)) <= Members(req.model)
  {
    var id;
    r, id := ItemId(req.segment);
    if r != 0 {
      return r;
    }
    req.canonical := ItemCanon(req.canonical, id);
    req.subject := req.render(req.canonical, SubjectForm);
    r := Retrieve(req, src, id);
    if r != 200 {
      return r;
    }
    r := Serve(req, id, e, membershipDb);
  }

  /** The steps of `patchwork_item` once the item is retrieved: post-processing, membership, the
    * related items and the concrete document, each only while the previous one returned 200. */
  method Serve(req: Request, id: string, e: Query.Engine, membershipDb: string -> int) returns (r: int)
    modifies req`canonical, req`subject, req`model
    ensures var subj := req.render(old(req.canonical), SubjectForm);
            var m := Processed(req, old(req.canonical), old(req.model));
            && Members(m) <= Members(req.model)
            && (MembershipOf(e, membershipDb, id) != 200 ==>
                  r == MembershipOf(e, membershipDb, id) && req.canonical == old(req.canonical)
                  && req.subject == old(req.subject) && Members(req.model) == Members(m))
            && (MembershipOf(e, membershipDb, id) == 200 ==>
                  r == RelatedStatus(req, req.canonical, e, id, old(req.subject), IsCollection(m, subj))
                  && req.subject == RelatedSubject(req, req.canonical, req.index, e, id, old(req.subject), IsCollection(m, subj))
                  && Members(m) + Members(RelatedAdded(req, req.canonical, e, id, old(req.subject), IsCollection(m, subj))) <= Members(req.model))
    ensures req.canonical.path == old(req.canonical.path) && req.canonical.fragment == old(req.canonical.fragment)
    ensures r == 200 ==> MembershipOf(e, membershipDb, id) == 200
    ensures r == 200 ==> Members(Dispatch.ConcreteStatements(req)) <= Members(req.model)
  {
    r := Postprocess(req);
    if r != 200 {
      return r;
    }
    r := MembershipOf(e, membershipDb, id);
    if r != 200 {
      return r;
    }
    IsCollectionMembers(req.model, Processed(req, req.canonical, old(req.model)), req.render(req.canonical, SubjectForm));
    r := Complete(req, id, e, IsCollection(req.model, req.render(req.canonical, SubjectForm)));
  }

  /** The last steps of `patchwork_item`: the related items and, if that returned 200, the
    * concrete document. */
  method Complete(req: Request, id: string, e: Query.Engine, ghost coll: bool) returns (r: int)
    requires coll == IsCollection(req.model, req.render(req.canonical, SubjectForm))
    modifies req`canonical, req`subject, req`model
    ensures r == RelatedStatus(req, req.canonical, e, id, old(req.subject), coll)
    ensures req.subject == RelatedSubject(req, req.canonical, req.index, e, id, old(req.subject), coll)
    ensures Members(old(req.model)) + Members(RelatedAdded(req, req.canonical, e, id, old(req.subject), coll)) <= Members(req.model)
    ensures req.canonical.path == old(req.canonical.path) && req.canonical.fragment == old(req.canonical.fragment)
    ensures r == 200 ==> Members(Dispatch.ConcreteStatements(req)) <= Members(req.model)
  {
    r := Related(req, id, e);
    if r != 200 {
      return r;
    }
    r := Dispatch.AddConcrete(req);
    if r != 200 {
      return r;
    }
    return 200;
  }

  /** The redirect target oracle a lookup ends in, by database or by SPARQL. */
  function LookupStatus(db: bool, lookupDb: string -> int, lookupSparql: string -> int, target: string): int
  {
    if db then lookupDb(target) else lookupSparql(target)
  }

  /** `patchwork_lookup`: records the target as the `uri` parameter of the canonical URI, then asks
    * the database when there is one, SPARQL otherwise. */
  method Lookup(req: Request, target: string, db: bool, lookupDb: string -> int, lookupSparql: string -> int)
    returns (r: int)
    modifies req`canonical
    ensures req.canonical == old(req.canonical).(params := SetParam(old(req.canonical).params, "uri", Some(Str(target))))
    ensures db ==> r == lookupDb(target)
    ensures !db ==> r == lookupSparql(target)
  {
    req.canonical := req.canonical.(params := SetParam(req.canonical.params, "uri", Some(Str(target))));
    r := LookupStatus(db, lookupDb, lookupSparql, target);
  }
}
