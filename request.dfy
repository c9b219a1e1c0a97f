/** The request dispatcher: which handler a request goes to, and the statements relating the
  * concrete document to the abstract one. */
module Dispatch {
  import opened Strings
  import opened Patchwork
  import opened Quilt
  import Plugin

  /** Where the dispatcher sends a request. */
  datatype Route =
    | IndexRoute(qclass: Option<string>)
    | ItemRoute
    | LookupRoute(uri: string)
    | HomeRoute
    | NotFound

  /** The path with its leading slashes skipped. */
  function DropSlashes(s: string): (r: string)
    ensures |r| <= |s| && r == s[|s| - |r|..]
    ensures forall i :: 0 <= i < |s| - |r| ==> s[i] == '/'
    ensures r == [] || r[0] != '/'
  {
    if s != [] && s[0] == '/' then DropSlashes(s[1..]) else s
  }

  /** The number of alphanumeric characters at the start of `s`. */
  function AlnumRun(s: string): (n: nat)
    ensures n <= |s|
    ensures forall i :: 0 <= i < n ==> IsAlnum(s[i])
    ensures n < |s| ==> !IsAlnum(s[n])
  {
    if s != [] && IsAlnum(s[0]) then 1 + AlnumRun(s[1..]) else 0
  }

  /** `spindle_request_is_item_`: counts the alphanumerics after the leading slashes. */
  function IsItemPath(path: string): bool
  {
    var t := DropSlashes(path);
    if t == [] then false
    else
      var l := AlnumRun(t);
      (l == |t| || t[l] == '/') && l == 32
  }

  /** The shape of an item path: after its leading slashes, exactly 32 alphanumerics followed by
    * the end of the path or a '/'. */
  predicate ItemShape(path: string)
  {
    var t := DropSlashes(path);
    |t| >= 32 && (forall i :: 0 <= i < 32 ==> IsAlnum(t[i])) && (|t| == 32 || t[32] == '/')
  }

  /** 32 alphanumerics followed by the end or a '/' are counted as exactly 32. */
  lemma {:induction false} AlnumRunOfItem(t: string)
    requires |t| >= 32 && (forall i :: 0 <= i < 32 ==> IsAlnum(t[i])) && (|t| == 32 || t[32] == '/')
    ensures AlnumRun(t) == 32
  {
    var n := AlnumRun(t);
    assert |t| > 32 ==> !IsAlnum(t[32]);
    assert n < |t| ==> !IsAlnum(t[n]);
  }

  lemma {:induction false} ItemShapeCounted(path: string)
    requires ItemShape(path)
    ensures IsItemPath(path)
  {
    AlnumRunOfItem(DropSlashes(path));
  }

  /** `spindle_request_is_item_` accepts exactly the item-shaped paths. */
  lemma {:induction false} IsItemPathSpec(path: string)
    ensures IsItemPath(path) <==> ItemShape(path)
  {
    if ItemShape(path) { ItemShapeCounted(path); }
  }

  /** The class filter handed to the index: the class URI itself for the database back-end, a
    * SPARQL filter expression otherwise. */
  function ClassFilter(db: bool, c: string): (r: string)
    ensures db ==> r == c
    ensures !db ==> r == "FILTER ( ?class = <" + c + "> )"
  {
    if db then c else "FILTER ( ?class = <" + c + "> )"
  }

  /** The query parameters that make a request at the root a query. */
  predicate HasQueryParam(p: Params)
  {
    GetParam(p, "q").Some? || GetParam(p, "media").Some? || GetParam(p, "for").Some? || GetParam(p, "type").Some?
  }

  /** The handler `spindle_process` chooses, in its order of preference: a registered partition, a
    * class query at the root, an item, a URI lookup at the root, a query at the root, the home
    * page, and otherwise nothing. */
  function Classify(path: string, params: Params, home: bool, indices: seq<IndexEntry>, db: bool): Route
  {
    var i := Plugin.Find(indices, path);
    if i.Some? then IndexRoute(if indices[i.value].qclass.Some? then Some(ClassFilter(db, indices[i.value].qclass.value)) else None)
    else if home && GetParam(params, "class").Some? then IndexRoute(Some(ClassFilter(db, GetParam(params, "class").value)))
    else if IsItemPath(path) then ItemRoute
    else if home && GetParam(params, "uri").Some? then LookupRoute(GetParam(params, "uri").value)
    else if home && HasQueryParam(params) then IndexRoute(None)
    else if home then HomeRoute
    else NotFound
  }

  /** `spindle_request_is_partition_`: a registered path makes the request an index of that
    * partition; otherwise a `class` parameter at the root makes it an index of that class. */
  method IsPartition(req: Request, indices: seq<IndexEntry>, db: bool) returns (found: bool, qclass: Option<string>)
    modifies req`indextitle, req`index, req`home, req`canonical
    ensures var i := Plugin.Find(indices, req.path);
      found <==> i.Some? || (old(req.home) && GetParam(req.params, "class").Some?)
    ensures var i := Plugin.Find(indices, req.path);
      i.Some? ==>
        && qclass == (if indices[i.value].qclass.Some? then Some(ClassFilter(db, indices[i.value].qclass.value)) else None)
        && req.indextitle == indices[i.value].title && req.index && !req.home
        && req.canonical == old(req.canonical).(path := old(req.canonical).path + [indices[i.value].uri])
    ensures var t := GetParam(req.params, "class");
      Plugin.Find(indices, req.path).None? && old(req.home) && t.Some? ==>
        && qclass == Some(ClassFilter(db, t.value))
        && req.indextitle == (if old(req.indextitle).Some? then old(req.indextitle) else t)
        && req.index && !req.home
        && req.canonical == old(req.canonical).(params := SetParam(old(req.canonical).params, "class", Some(Str(t.value))))
    ensures !found ==> qclass.None? && req.indextitle == old(req.indextitle) && req.index == old(req.index)
                       && req.home == old(req.home) && req.canonical == old(req.canonical)
  {
    qclass := None;
    var c := 0;
    while c < |indices|
      invariant 0 <= c <= |indices|
      invariant forall j :: 0 <= j < c ==> indices[j].uri != req.path
      invariant unchanged(req)
    {
      if req.path == indices[c].uri {
        Plugin.FindFirst(indices, req.path, c);
        if indices[c].qclass.Some? {
          qclass := Some(ClassFilter(db, indices[c].qclass.value));
        }
        req.indextitle := indices[c].title;
        req.index := true;
        req.home := false;
        req.canonical := req.canonical.(path := req.canonical.path + [indices[c].uri]);
        return true, qclass;
      }
      c := c + 1;
    }
    var t := GetParam(req.params, "class");
    if t.Some? && req.home {
      req.canonical := req.canonical.(params := SetParam(req.canonical.params, "class", Some(Str(t.value))));
      qclass := Some(ClassFilter(db, t.value));
      if req.indextitle.None? {
        req.indextitle := t;
      }
      req.index := true;
      req.home := false;
      return true, qclass;
    }
    found := false;
  }

  /** `spindle_request_is_query_`: at the root, any of `q`, `media`, `for` or `type` turns the
    * request into an index query. */
  method IsQuery(req: Request) returns (r: bool)
    modifies req`index, req`home
    ensures r <==> old(req.home) && HasQueryParam(req.params)
    ensures r ==> req.index && !req.home
    ensures !r ==> req.index == old(req.index) && req.home == old(req.home)
  {
    if !req.home {
      return false;
    }
    if GetParam(req.params, "q").Some? || GetParam(req.params, "media").Some?
       || GetParam(req.params, "for").Some? || GetParam(req.params, "type").Some? {
      req.index := true;
      req.home := false;
      return true;
    }
    r := false;
  }

  /** `spindle_request_is_lookup_`: the `uri` parameter, at the root only. */
  function IsLookup(home: bool, params: Params): (r: Option<string>)
    ensures r.Some? <==> home && GetParam(params, "uri").Some?
    ensures r.Some? ==> r == GetParam(params, "uri")
  {
    if !home then None else GetParam(params, "uri")
  }

  /** `spindle_process`: classifies the request; the first test that matches wins. */
  method Process(req: Request, indices: seq<IndexEntry>, db: bool) returns (route: Route)
    modifies req`indextitle, req`index, req`home, req`canonical
    ensures route == Classify(req.path, req.params, old(req.home), indices, db)
    ensures route.ItemRoute? || route.LookupRoute? || route.HomeRoute? || route.NotFound? ==>
              req.index == old(req.index) && req.home == old(req.home)
    ensures route.IndexRoute? ==> req.index && !req.home
    ensures var i := Plugin.Find(indices, req.path);
      i.Some? ==> req.indextitle == indices[i.value].title
                  && req.canonical == old(req.canonical).(path := old(req.canonical).path + [indices[i.value].uri])
    ensures var t := GetParam(req.params, "class");
      Plugin.Find(indices, req.path).None? && old(req.home) && t.Some? ==>
        && req.indextitle == (if old(req.indextitle).Some? then old(req.indextitle) else t)
        && req.canonical == old(req.canonical).(params := SetParam(old(req.canonical).params, "class", Some(Str(t.value))))
    ensures Plugin.Find(indices, req.path).None? && !(old(req.home) && GetParam(req.params, "class").Some?) ==>
              req.canonical == old(req.canonical) && req.indextitle == old(req.indextitle)
  {
    var found, qclass := IsPartition(req, indices, db);
    if found {
      return IndexRoute(qclass);
    }
    if IsItemPath(req.path) {
      return ItemRoute;
    }
    var uri := IsLookup(req.home, req.params);
    if uri.Some? {
      return LookupRoute(uri.value);
    }
    var q := IsQuery(req);
    if q {
      return IndexRoute(None);
    }
    if req.home {
      return HomeRoute;
    }
    route := NotFound;
  }

  const FoafPrimaryTopic := NsFoaf + "primaryTopic"
  const DctHasFormat := NsDcterms + "hasFormat"
  const DctFormat := NsDcterms + "format"
  const DcmiText := NsDcmitype + "Text"

  /** The format class of the three RDF serialisations; none for any other media type. */
  function FormatType(t: string): (r: Option<string>)
    ensures r.Some? <==> t == "text/turtle" || t == "application/rdf+xml" || t == "text/rdf+n3"
    ensures t == "text/turtle" ==> r == Some(NsFormats + "Turtle")
    ensures t == "application/rdf+xml" ==> r == Some(NsFormats + "RDF_XML")
    ensures t == "text/rdf+n3" ==> r == Some(NsFormats + "N3")
  {
    if t == "text/turtle" then Some(NsFormats + "Turtle")
    else if t == "application/rdf+xml" then Some(NsFormats + "RDF_XML")
    else if t == "text/rdf+n3" then Some(NsFormats + "N3")
    else None
  }

  /** The abstract document: the abstract form when an extension was given, the request form otherwise. */
  function AbstractDoc(req: Request): string
    reads req`canonical
  {
    req.render(req.canonical, if req.ext.Some? then AbstractForm else RequestForm)
  }

  /** The concrete document: the request form when an extension was given, the concrete form otherwise. */
  function ConcreteDoc(req: Request): string
    reads req`canonical
  {
    req.render(req.canonical, if req.ext.Some? then RequestForm else ConcreteForm)
  }

  /** The statements of `spindle_add_concrete`, in its order, in the default graph. */
  function ConcreteStatements(req: Request): seq<Quad>
    reads req`canonical
  {
    var a, c := AbstractDoc(req), ConcreteDoc(req);
    [Quad(None, Uri(a), FoafPrimaryTopic, Uri(req.render(req.canonical, NoExtFragmentForm))),
     Quad(None, Uri(a), DctHasFormat, Uri(c)),
     Quad(None, Uri(c), RdfType, Uri(DcmiText))]
    + (if FormatType(req.responseType).Some? then [Quad(None, Uri(c), RdfType, Uri(FormatType(req.responseType).value))] else [])
    + [Quad(None, Uri(c), DctFormat, Uri(NsMime + req.responseType))]
  }

  /** The abstract document's topic and formats are always stated, and the concrete document is
    * typed as text, as its media type, and as an RDF serialisation exactly when it is one. */
  lemma {:induction false} ConcreteStatementsSpec(req: Request)
    ensures var a, c := AbstractDoc(req), ConcreteDoc(req);
      && Quad(None, Uri(a), FoafPrimaryTopic, Uri(req.render(req.canonical, NoExtFragmentForm))) in ConcreteStatements(req)
      && Quad(None, Uri(a), DctHasFormat, Uri(c)) in ConcreteStatements(req)
      && Quad(None, Uri(c), RdfType, Uri(DcmiText)) in ConcreteStatements(req)
      && Quad(None, Uri(c), DctFormat, Uri(NsMime + req.responseType)) in ConcreteStatements(req)
    ensures forall o :: Quad(None, Uri(ConcreteDoc(req)), RdfType, Uri(o)) in ConcreteStatements(req) <==>
                          o == DcmiText || FormatType(req.responseType) == Some(o)
  {
    var s := ConcreteStatements(req);
    var f := if FormatType(req.responseType).Some? then 1 else 0;
    assert |FoafPrimaryTopic| == 38 && |DctHasFormat| == 34 && |DctFormat| == 31 && |RdfType| == 47;
    assert s[3 + f] in s;
    if f == 1 { assert s[3] in s; }
  }

  /** `spindle_add_concrete`: adds the statements above to the request's model, one after the
    * other; returns 200. */
  method AddConcrete(req: Request) returns (r: int)
    modifies req`model
    ensures r == 200
    ensures req.model == AddAll(old(req.model), ConcreteStatements(req))
  {
    req.model := AddAll(req.model, ConcreteStatements(req));
    r := 200;
  }
}
