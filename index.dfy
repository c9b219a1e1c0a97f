/** Index requests: the query a partition or the root describes, with its navigation links,
  * dataset typing, OpenSearch description and concrete document. */
module Index {
  import opened Strings
  import opened Quilt
  import Query
  import Dispatch

  /** The query an index request runs: the parameters' descriptor for the partition's class,
    * completed with the defaults of `patchwork_query`. */
  function IndexQuery(req: Request, c: Canon, qclass: Option<string>, threshold: int): (d: Query.Descriptor)
    ensures d.base.Some? && d.resource.Some?
  {
    Query.FillRefs(req, c, Query.Requested(Query.QueryInit(), Query.ReadParams(req.params), qclass, threshold, req.offset, req.limit))
  }

  /** `patchwork_index`: clears the fragment of the canonical URI, builds the query from the
    * request and the partition's class, titles it "Everything" unless the partition has a title,
    * then runs the query, its metadata, its OpenSearch description and the concrete document,
    * each only while the previous one returned 200. Only the query can fail, so its status is
    * the index's. Statements are only ever added. */
  method Index(req: Request, qclass: Option<string>, e: Query.Engine) returns (r: int)
    modifies req`canonical, req`indextitle, req`subject, req`model
    ensures req.canonical == old(req.canonical).(fragment := None,
              params := Query.Echo(old(req.canonical).params, Query.ReadParams(req.params), req.offset, req.limit, req.deflimit))
    ensures req.indextitle == if old(req.indextitle).None? then Some("Everything") else old(req.indextitle)
    ensures var d := IndexQuery(req, req.canonical, qclass, e.threshold);
            req.subject == if Query.SetsExplicit(Query.ReadParams(req.params)) || req.index then d.resource.value else old(req.subject)
    ensures var d := IndexQuery(req, req.canonical, qclass, e.threshold);
            var out := Query.Execute(e.db, e.execDb, e.execSparql, d, req.canonical);
            && r == out.status
            && (r != 200 ==> req.model == AddAll(old(req.model), out.added))
            && Members(old(req.model)) + Members(out.added) <= Members(req.model)
            && (r == 200 ==> Members(Query.MetaLinks(req, d.(more := out.more))) <= Members(req.model))
    ensures r == 200 ==> Members(Query.OsdStatements(req)) <= Members(req.model)
    ensures r == 200 ==> Members(Dispatch.ConcreteStatements(req)) <= Members(req.model)
  {
    req.canonical := req.canonical.(fragment := None);
    var d := Query.QueryInit();
    d, r := Query.QueryRequest(d, req, qclass, e.threshold);
    if r != 200 {
      return r;
    }
    r := Titled(req, d, e);
  }

  /** The rest of `patchwork_index` once the query is built: the default title, then the query
    * and its description. */
  method Titled(req: Request, d: Query.Descriptor, e: Query.Engine) returns (r: int)
    modifies req`indextitle, req`subject, req`model
    ensures req.indextitle == if old(req.indextitle).None? then Some("Everything") else old(req.indextitle)
    ensures req.subject == if d.resource.None? && (d.explicit || req.index) then Query.FillRefs(req, req.canonical, d).resource.value else old(req.subject)
    ensures var d' := Query.FillRefs(req, req.canonical, d);
            var out := Query.Execute(e.db, e.execDb, e.execSparql, d', req.canonical);
            && r == out.status
            && (r != 200 ==> req.model == AddAll(old(req.model), out.added))
            && Members(old(req.model)) + Members(out.added) <= Members(req.model)
            && (r == 200 ==> Members(Query.MetaLinks(req, d'.(more := out.more))) <= Members(req.model))
    ensures r == 200 ==> Members(Query.OsdStatements(req)) + Members(Dispatch.ConcreteStatements(req)) <= Members(req.model)
  {
    if req.indextitle.None? {
      req.indextitle := Some("Everything");
    }
    r := Respond(req, d, e);
  }

  /** The query of `patchwork_index` and, when it succeeds, the steps that describe its result. */
  method Respond(req: Request, d: Query.Descriptor, e: Query.Engine) returns (r: int)
    modifies req`subject, req`model
    ensures req.subject == if d.resource.None? && (d.explicit || req.index) then Query.FillRefs(req, req.canonical, d).resource.value else old(req.subject)
    ensures var d' := Query.FillRefs(req, req.canonical, d);
            var out := Query.Execute(e.db, e.execDb, e.execSparql, d', req.canonical);
            && r == out.status
            && (r != 200 ==> req.model == AddAll(old(req.model), out.added))
            && Members(old(req.model)) + Members(out.added) <= Members(req.model)
            && (r == 200 ==> Members(Query.MetaLinks(req, d'.(more := out.more))) <= Members(req.model))
    ensures r == 200 ==> Members(Query.OsdStatements(req)) + Members(Dispatch.ConcreteStatements(req)) <= Members(req.model)
  {
    var d';
    d', r := Query.Run(req, d, e.db, e.execDb, e.execSparql);
    if r == 200 {
      r := Describe(req, d', e);
    }
  }

  /** The steps of `patchwork_index` after the query itself: its metadata, then the rest; all of
    * them return 200. */
  method Describe(req: Request, d: Query.Descriptor, e: Query.Engine) returns (r: int)
    requires d.resource.Some? && d.base.Some?
    modifies req`model
    ensures r == 200
    ensures Members(old(req.model)) + Members(Query.MetaLinks(req, d)) <= Members(req.model)
    ensures Members(Query.OsdStatements(req)) + Members(Dispatch.ConcreteStatements(req)) <= Members(req.model)
  {
    r := Query.Meta(req, d, e.table);
    if r == 200 {
      r := Publish(req);
    }
  }

  /** The last steps of `patchwork_index`: the OpenSearch description, then, if that returned
    * 200, the concrete document; both return 200. */
  method Publish(req: Request) returns (r: int)
    modifies req`model
    ensures r == 200
    ensures req.model == AddAll(AddAll(old(req.model), Query.OsdStatements(req)), Dispatch.ConcreteStatements(req))
  {
    r := Query.Osd(req);
    if r == 200 {
      r := Dispatch.AddConcrete(req);
    }
  }
}
