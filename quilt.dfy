/** The host framework as the engine sees it: statements, the canonical-URI builder and the request. */
module Quilt {
  import opened Strings

  /** An RDF term: a resource, a blank node or a literal with an optional language tag. */
  datatype Node = Uri(uri: string) | Bnode(id: string) | Literal(value: string, lang: Option<string>)

  /** A statement with the graph context it was added to (`None` for the default graph). */
  datatype Quad = Quad(ctx: Option<string>, s: Node, p: string, o: Node)

  /** The statements of a model, whatever their order. */
  function Members(m: seq<Quad>): set<Quad>
  {
    set q | q in m
  }

  lemma MembersAppend(a: seq<Quad>, b: seq<Quad>)
    ensures Members(a + b) == Members(a) + Members(b)
  {
  }

  /** Adding a statement that is already present changes nothing. */
  function Add(m: seq<Quad>, q: Quad): (r: seq<Quad>)
    ensures Members(r) == Members(m) + {q}
  {
    if q in m then m else m + [q]
  }

  function AddAll(m: seq<Quad>, qs: seq<Quad>): (r: seq<Quad>)
    ensures Members(r) == Members(m) + Members(qs)
    decreases |qs|
  {
    if qs == [] then m
    else
      assert Members(qs) == {qs[0]} + Members(qs[1..]) by {
        assert qs == [qs[0]] + qs[1..];
      }
      AddAll(Add(m, qs[0]), qs[1..])
  }

  /** Removes every statement of context `c`. */
  function RemoveContext(m: seq<Quad>, c: string): (r: seq<Quad>)
    ensures Members(r) == set q | q in Members(m) && q.ctx != Some(c)
  {
    if m == [] then []
    else
      assert Members(m) == {m[0]} + Members(m[1..]) by {
        assert m == [m[0]] + m[1..];
      }
      MembersAppend(if m[0].ctx == Some(c) then [] else [m[0]], RemoveContext(m[1..], c));
      (if m[0].ctx == Some(c) then [] else [m[0]]) + RemoveContext(m[1..], c)
  }

  /** The named contexts used by a model. */
  function Contexts(m: seq<Quad>): (r: seq<string>)
    ensures forall q :: q in m && q.ctx.Some? ==> q.ctx.value in r
    ensures forall c :: c in r ==> exists q :: q in m && q.ctx == Some(c)
  {
    if m == [] then []
    else (if m[0].ctx.Some? then [m[0].ctx.value] else []) + Contexts(m[1..])
  }

  /** A value of a parameter of the canonical-URI builder. */
  datatype PVal = Str(s: string) | Num(n: int)

  /** The parameters of a canonical URI: the values given to each name, in order. */
  type CanonParams = map<string, seq<PVal>>

  /** The values given to parameter `k`, in order; none when it is not set. */
  function ValuesOf(ps: CanonParams, k: string): seq<PVal>
  {
    if k in ps then ps[k] else []
  }

  /** `quilt_canon_set_param`: replaces every value of `k`; `None` removes the parameter. */
  function SetParam(ps: CanonParams, k: string, v: Option<PVal>): (r: CanonParams)
    ensures ValuesOf(r, k) == if v.Some? then [v.value] else []
    ensures forall j :: j != k ==> ValuesOf(r, j) == ValuesOf(ps, j)
  {
    if v.Some? then ps[k := [v.value]] else ps - {k}
  }

  /** Parameter values as the builder stores strings. */
  function Strs(vs: seq<string>): seq<PVal>
  {
    seq(|vs|, i requires 0 <= i < |vs| => Str(vs[i]))
  }

  /** `quilt_canon_set_param_multi`: `k` takes exactly the values `vs`. */
  function SetParamMulti(ps: CanonParams, k: string, vs: seq<string>): (r: CanonParams)
    ensures ValuesOf(r, k) == Strs(vs)
    ensures forall j :: j != k ==> ValuesOf(r, j) == ValuesOf(ps, j)
  {
    ps[k := Strs(vs)]
  }

  /** `quilt_canon_add_param`: one more value for `k`, after those it already has. */
  function AddParam(ps: CanonParams, k: string, v: string): (r: CanonParams)
    ensures ValuesOf(r, k) == ValuesOf(ps, k) + [Str(v)]
    ensures forall j :: j != k ==> ValuesOf(r, j) == ValuesOf(ps, j)
  {
    ps[k := ValuesOf(ps, k) + [Str(v)]]
  }

  /** The canonical-URI builder of a request: base, path segments, parameters, fragment, extension. */
  datatype Canon = Canon(
    base: string,
    path: seq<string>,
    params: CanonParams,
    fragment: Option<string>,
    ext: Option<string>,
    explicitExt: Option<string>)

  /** The renderings of a canonical URI that the engine asks for. */
  datatype Form =
    | AbstractForm        // QCO_ABSTRACT
    | DefaultForm         // QCO_DEFAULT
    | UserSuppliedForm    // QCO_DEFAULT|QCO_USERSUPPLIED
    | ConcreteForm        // QCO_CONCRETE
    | RequestForm         // QCO_REQUEST
    | SubjectForm         // QCO_SUBJECT
    | NoExtFragmentForm   // QCO_NOEXT|QCO_FRAGMENT

  /** Request parameters: every value given to each name, in order. */
  type Params = map<string, seq<string>>

  /** `quilt_request_getparam`: the first value of `k`. */
  function GetParam(p: Params, k: string): Option<string>
  {
    if k in p && |p[k]| > 0 then Some(p[k][0]) else None
  }

  /** `quilt_request_getparam_multi`: every value of `k`, or `None` when it is absent. */
  function GetParamMulti(p: Params, k: string): (r: Option<seq<string>>)
    ensures r.Some? <==> GetParam(p, k).Some?
    ensures r.Some? ==> |r.value| > 0 && r.value[0] == GetParam(p, k).value
  {
    if k in p && |p[k]| > 0 then Some(p[k]) else None
  }

  /** `quilt_request_getparam_int`: the first value of `k` read as a decimal number, 0 when absent. */
  function GetParamInt(p: Params, k: string): int
  {
    match GetParam(p, k)
    case None => 0
    case Some(v) => Atoi(v)
  }

  /** The request: what the framework parsed (constants) and what request handling updates (fields). */
  class Request {
    const params: Params
    const path: string
    /** The path segment `quilt_request_consume` yields. */
    const segment: Option<string>
    const offset: int
    const limit: int
    const deflimit: int
    /** The negotiated media type of the response. */
    const responseType: string
    const ext: Option<string>
    const base: string
    /** The URI of the concrete document's graph context. */
    const graph: string
    /** `quilt_canon_str`: how the framework renders a canonical URI. */
    const render: (Canon, Form) -> string

    var canonical: Canon
    var model: seq<Quad>
    var index: bool
    var home: bool
    var indextitle: Option<string>
    var subject: string

    constructor (params: Params, path: string, segment: Option<string>, offset: int, limit: int,
                 deflimit: int, responseType: string, ext: Option<string>, base: string,
                 graph: string, render: (Canon, Form) -> string, canonical: Canon, home: bool,
                 subject: string)
      ensures this.params == params && this.path == path && this.segment == segment
      ensures this.offset == offset && this.limit == limit && this.deflimit == deflimit
      ensures this.responseType == responseType && this.ext == ext && this.base == base
      ensures this.graph == graph && this.render == render
      ensures this.canonical == canonical && this.model == [] && !this.index && this.home == home
      ensures this.indextitle == None && this.subject == subject
    {
      this.params, this.path, this.segment := params, path, segment;
      this.offset, this.limit, this.deflimit := offset, limit, deflimit;
      this.responseType, this.ext, this.base := responseType, ext, base;
      this.graph, this.render := graph, render;
      this.canonical, this.model, this.index, this.home := canonical, [], false, home;
      this.indextitle, this.subject := None, subject;
    }
  }
}
