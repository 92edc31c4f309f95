/*
 * PipelineManager: assembles the pipeline descriptor of a polygon from the
 * translation rules and the shader manager's modules, builds it, and stores
 * the result in its `pipelines` map under the key `hash(listType,
 * sortTriangles, pp)`.
 *
 * The collaborators `CreatePipeline` only calls (the key hash, the shader
 * manager, the device's pipeline build) are the function-valued fields of
 * `Services`; nothing is assumed about them beyond being functions.
 */
module PipelineCache {
  import opened PvrHardware
  import opened VkState
  import opened PipelineRules

  type Key = nat
  type ShaderModule = nat
  type PipelineHandle = nat

  /** The state handed to the device to build one graphics pipeline. */
  datatype PipelineDescriptor = PipelineDescriptor(
    rasterization: Rasterization,
    depthStencil: DepthStencilState,
    colorBlend: ColorBlendAttachment,
    vertexModule: ShaderModule,
    fragmentModule: ShaderModule)

  datatype Services = Services(
    hash: (ListType, bool, PolyParam) -> Key,
    vertexShader: VertexShaderParams -> ShaderModule,
    fragmentShader: FragmentShaderParams -> ShaderModule,
    build: PipelineDescriptor -> PipelineHandle)

  /** The arguments of one CreatePipeline call, with the renderer state it reads. */
  datatype Request = Request(listType: ListType, sortTriangles: bool, pp: PolyParam, globals: Globals)

  /** The descriptor CreatePipeline assembles. */
  function Describe(listType: ListType, sortTriangles: bool, pp: PolyParam, globals: Globals, services: Services)
    : PipelineDescriptor
  {
    PipelineDescriptor(
      Rasterization(CullModeFor(pp.isp.cullMode), CounterClockwise),
      DepthStencilFor(listType, sortTriangles, globals.perStripSorting, pp.isp, pp.pcw.shadow),
      ColorBlendFor(listType, pp.tsp),
      services.vertexShader(VertexShaderParams(pp.pcw.gouraud, false)),
      services.fragmentShader(FragmentParamsFor(listType, pp, globals)))
  }

  function KeyOf(services: Services, req: Request): Key
  {
    services.hash(req.listType, req.sortTriangles, req.pp)
  }

  function BuildOf(services: Services, req: Request): PipelineHandle
  {
    services.build(Describe(req.listType, req.sortTriangles, req.pp, req.globals, services))
  }

  /** The map after one CreatePipeline call. */
  function Insert(services: Services, pipelines: map<Key, PipelineHandle>, req: Request): map<Key, PipelineHandle>
  {
    pipelines[KeyOf(services, req) := BuildOf(services, req)]
  }

  /** The map after a sequence of CreatePipeline calls, in order. */
  function CacheAfter(services: Services, pipelines: map<Key, PipelineHandle>, reqs: seq<Request>)
    : map<Key, PipelineHandle>
    decreases |reqs|
  {
    if reqs == [] then pipelines
    else Insert(services, CacheAfter(services, pipelines, reqs[..|reqs| - 1]), reqs[|reqs| - 1])
  }

  class PipelineManager {
    const services: Services
    var pipelines: map<Key, PipelineHandle>

    constructor (services: Services)
      ensures this.services == services
      ensures pipelines == map[]
    {
      this.services := services;
      pipelines := map[];
    }

    /** Builds the pipeline of a polygon and stores it under its key,
        replacing any pipeline already there. */
    method CreatePipeline(listType: ListType, sortTriangles: bool, pp: PolyParam, globals: Globals)
      modifies this
      ensures pipelines == Insert(services, old(pipelines), Request(listType, sortTriangles, pp, globals))
      ensures var key := services.hash(listType, sortTriangles, pp);
        && key in pipelines
        && pipelines[key] == services.build(Describe(listType, sortTriangles, pp, globals, services))
        && pipelines.Keys == old(pipelines).Keys + {key}
        && forall k :: k in old(pipelines) && k != key ==> pipelines[k] == old(pipelines)[k]
    {
      var descriptor := Describe(listType, sortTriangles, pp, globals, services);
      pipelines := pipelines[services.hash(listType, sortTriangles, pp) := services.build(descriptor)];
    }
  }

  // -----------------------------------------------------------------------
  // What a sequence of CreatePipeline calls leaves in the map

  /** An insert leaves every other key as it was. */
  lemma InsertOther(services: Services, pipelines: map<Key, PipelineHandle>, req: Request, k: Key)
    requires KeyOf(services, req) != k
    ensures k in Insert(services, pipelines, req) <==> k in pipelines
    ensures k in pipelines ==> Insert(services, pipelines, req)[k] == pipelines[k]
  {
  }

  /** One more call extends the sequence by one Insert. */
  lemma CacheAfterStep(services: Services, pipelines: map<Key, PipelineHandle>, reqs: seq<Request>, req: Request)
    ensures CacheAfter(services, pipelines, reqs + [req]) == Insert(services, CacheAfter(services, pipelines, reqs), req)
  {
  }

  /** The map only grows: a key is present exactly when it was before or
      some call used it. */
  lemma {:induction false} CacheAfterKeys(services: Services, pipelines: map<Key, PipelineHandle>, reqs: seq<Request>, k: Key)
    ensures k in CacheAfter(services, pipelines, reqs) <==>
      k in pipelines || exists i :: 0 <= i < |reqs| && KeyOf(services, reqs[i]) == k
    decreases |reqs|
  {
    if reqs != [] {
      var init := reqs[..|reqs| - 1];
      CacheAfterKeys(services, pipelines, init, k);
      if exists i :: 0 <= i < |init| && KeyOf(services, init[i]) == k {
        var i :| 0 <= i < |init| && KeyOf(services, init[i]) == k;
        assert reqs[i] == init[i];
      }
      if exists i :: 0 <= i < |reqs| && KeyOf(services, reqs[i]) == k {
        var i :| 0 <= i < |reqs| && KeyOf(services, reqs[i]) == k;
        if i < |init| {
          assert init[i] == reqs[i];
        }
      }
    }
  }

  /** The last call that used a key decides the pipeline stored under it. */
  lemma {:induction false} CacheAfterLatest(services: Services, pipelines: map<Key, PipelineHandle>, reqs: seq<Request>, i: nat)
    requires i < |reqs|
    requires forall j :: i < j < |reqs| ==> KeyOf(services, reqs[j]) != KeyOf(services, reqs[i])
    ensures KeyOf(services, reqs[i]) in CacheAfter(services, pipelines, reqs)
    ensures CacheAfter(services, pipelines, reqs)[KeyOf(services, reqs[i])] == BuildOf(services, reqs[i])
    decreases |reqs|
  {
    var n := |reqs| - 1;
    var init := reqs[..n];
    if i < n {
      assert init[i] == reqs[i];
      forall j | i < j < |init|
        ensures KeyOf(services, init[j]) != KeyOf(services, init[i])
      {
        assert init[j] == reqs[j];
      }
      CacheAfterLatest(services, pipelines, init, i);
      InsertOther(services, CacheAfter(services, pipelines, init), reqs[n], KeyOf(services, reqs[i]));
    }
  }

  /** A key that no call used keeps its old entry, or stays absent. */
  lemma {:induction false} CacheAfterUntouched(services: Services, pipelines: map<Key, PipelineHandle>, reqs: seq<Request>, k: Key)
    requires forall i :: 0 <= i < |reqs| ==> KeyOf(services, reqs[i]) != k
    ensures k in CacheAfter(services, pipelines, reqs) <==> k in pipelines
    ensures k in pipelines ==> CacheAfter(services, pipelines, reqs)[k] == pipelines[k]
    decreases |reqs|
  {
    if reqs != [] {
      var init := reqs[..|reqs| - 1];
      forall i | 0 <= i < |init|
        ensures KeyOf(services, init[i]) != k
      {
        assert init[i] == reqs[i];
      }
      CacheAfterUntouched(services, pipelines, init, k);
    }
  }

  // -----------------------------------------------------------------------
  // Which polygon fields the pipeline depends on

  /** The polygon with the fields the translation never reads cleared: the
      TSP fog control and the low 28 bits of `tileclip`. */
  function Canonical(pp: PolyParam): (c: PolyParam)
    ensures c.isp == pp.isp && c.pcw == pp.pcw && c.tcw == pp.tcw
    ensures c.tsp == pp.tsp.(fogCtrl := 0)
    ensures TileClipMode(c.tileclip) == TileClipMode(pp.tileclip) && c.tileclip % 0x1000_0000 == 0
  {
    pp.(tsp := pp.tsp.(fogCtrl := 0), tileclip := TileClipMode(pp.tileclip) * 0x1000_0000)
  }

  /** The descriptor is a function of the canonical polygon: the fields a
      cache key has to cover are exactly those Canonical keeps, together
      with the list type, the sort flag and the renderer state. */
  lemma DescribeReadsCanonicalFields(listType: ListType, sortTriangles: bool, pp: PolyParam, globals: Globals, services: Services)
    ensures Describe(listType, sortTriangles, Canonical(pp), globals, services)
         == Describe(listType, sortTriangles, pp, globals, services)
  {
  }

  /** Two calls whose arguments agree on every field the translation reads,
      under the same renderer state, store the same pipeline. */
  lemma SameFieldsSamePipeline(services: Services, r1: Request, r2: Request)
    requires r1.listType == r2.listType && r1.sortTriangles == r2.sortTriangles
    requires Canonical(r1.pp) == Canonical(r2.pp) && r1.globals == r2.globals
    ensures BuildOf(services, r1) == BuildOf(services, r2)
  {
    DescribeReadsCanonicalFields(r1.listType, r1.sortTriangles, r1.pp, r1.globals, services);
    DescribeReadsCanonicalFields(r2.listType, r2.sortTriangles, r2.pp, r2.globals, services);
  }

  // -----------------------------------------------------------------------
  // The policies per list type, as the assembled descriptor carries them

  lemma OpaquePolicy(sortTriangles: bool, pp: PolyParam, globals: Globals, services: Services)
    ensures var d := Describe(Opaque, sortTriangles, pp, globals, services);
      && d.depthStencil.depthCompareOp == DepthOps[pp.isp.depthMode]
      && (d.depthStencil.depthWriteEnable <==> !(sortTriangles && !globals.perStripSorting) && !pp.isp.zWriteDis)
      && d.depthStencil.stencilTestEnable
      && !d.colorBlend.blendEnable
      && !FragmentParamsFor(Opaque, pp, globals).alphaTest
  {
  }

  lemma TranslucentPolicy(sortTriangles: bool, pp: PolyParam, globals: Globals, services: Services)
    ensures var d := Describe(Translucent, sortTriangles, pp, globals, services);
      && (sortTriangles ==> d.depthStencil.depthCompareOp == GreaterOrEqual)
      && (!sortTriangles ==> d.depthStencil.depthCompareOp == DepthOps[pp.isp.depthMode])
      && (sortTriangles && !globals.perStripSorting ==> !d.depthStencil.depthWriteEnable)
      && !d.depthStencil.stencilTestEnable
      && d.colorBlend.blendEnable
      && !FragmentParamsFor(Translucent, pp, globals).alphaTest
  {
  }

  /** Punch-through: GreaterOrEqual, depth written unless triangles are
      sorted per list, stencil on, blending on, alpha test on, and never
      trilinear filtering. */
  lemma PunchThroughPolicy(sortTriangles: bool, pp: PolyParam, globals: Globals, services: Services)
    ensures var d := Describe(PunchThrough, sortTriangles, pp, globals, services);
      && d.depthStencil.depthCompareOp == GreaterOrEqual
      && (d.depthStencil.depthWriteEnable <==> !sortTriangles || globals.perStripSorting)
      && d.depthStencil.stencilTestEnable
      && d.colorBlend.blendEnable
      && FragmentParamsFor(PunchThrough, pp, globals).alphaTest
      && !FragmentParamsFor(PunchThrough, pp, globals).trilinear
  {
  }
}
