/** Tensor and network bookkeeping of bmutility_nn.h: shape equality and
    reshaping, the per-tensor cache of shape, element count and byte size
    (BMNNTensor), the network's per-stage table of input and output tensors
    with its name-to-index maps (BMNNNetwork), and the list of network names
    (BMNNContext). Calls into the device runtime are inputs of the model. */
module BmNN {

  /** BM_MAX_DIMS_NUM: every bm_shape_t holds a fixed array of this many
      dims, of which the first num_dims are in use. */
  const MaxDims: nat := 8

  datatype RawShape = RawShape(numDims: int, dims: seq<int>)

  /** bm_shape_t: a rank within the fixed dims array. */
  type Shape = s: RawShape | 0 <= s.numDims <= MaxDims && |s.dims| == MaxDims
    witness RawShape(0, [0, 0, 0, 0, 0, 0, 0, 0])

  /** The dims in use. */
  function Dims(s: Shape): (d: seq<int>)
    ensures |d| == s.numDims
    ensures forall i :: 0 <= i < |d| ==> d[i] == s.dims[i]
  {
    s.dims[..s.numDims]
  }

  /** Shape equality: the ranks agree and so do the dims in use. */
  predicate SameShape(a: Shape, b: Shape) {
    a.numDims == b.numDims && Dims(a) == Dims(b)
  }

  /** `operator ==` on bm_shape_t. */
  method ShapesEqual(a: Shape, b: Shape) returns (eq: bool)
    ensures eq <==> a.numDims == b.numDims && forall i :: 0 <= i < a.numDims ==> a.dims[i] == b.dims[i]
    ensures eq == SameShape(a, b)
  {
    if a.numDims != b.numDims {
      return false;
    }
    var i := 0;
    while i < a.numDims
      invariant 0 <= i <= a.numDims
      invariant forall k :: 0 <= k < i ==> a.dims[k] == b.dims[k]
    {
      if a.dims[i] != b.dims[i] {
        assert Dims(a)[i] != Dims(b)[i];
        return false;
      }
      i := i + 1;
    }
    assert Dims(a) == Dims(b);
    return true;
  }

  /** The dim layout bm_tensor_reshape_NCHW(n, c, h, w) and
      bm_tensor_reshape_NHWC(n, h, w, c) both write: rank 4 and the four
      extents in argument order; the entries past the fourth are left as
      they were. */
  function Reshape4(s: Shape, d0: int, d1: int, d2: int, d3: int): (r: Shape)
    ensures Dims(r) == [d0, d1, d2, d3]
    ensures r.dims[4..] == s.dims[4..]
  {
    RawShape(4, [d0, d1, d2, d3] + s.dims[4..])
  }

  /** `std::accumulate` of the dims with multiplication, starting from 1. */
  function Product(xs: seq<int>): int {
    if xs == [] then 1 else Product(xs[..|xs| - 1]) * xs[|xs| - 1]
  }

  /** Splitting the dims splits the element count: the fold over a
      concatenation is the product of the two folds. */
  lemma {:induction false} ProductConcat(xs: seq<int>, ys: seq<int>)
    ensures Product(xs + ys) == Product(xs) * Product(ys)
    decreases |ys|
  {
    if ys == [] {
      assert xs + ys == xs;
    } else {
      var init, y := ys[..|ys| - 1], ys[|ys| - 1];
      assert (xs + ys)[..|xs + ys| - 1] == xs + init;
      ProductConcat(xs, init);
      calc {
        Product(xs + ys);
        Product(xs + init) * y;
        (Product(xs) * Product(init)) * y;
        Product(xs) * (Product(init) * y);
        Product(xs) * Product(ys);
      }
    }
  }

  /** A shape holds no elements exactly when one of its dims is 0. */
  lemma {:induction false} ProductZeroIffZeroDim(xs: seq<int>)
    ensures Product(xs) == 0 <==> 0 in xs
    decreases |xs|
  {
    if xs != [] {
      var init := xs[..|xs| - 1];
      ProductZeroIffZeroDim(init);
      assert xs == init + [xs[|xs| - 1]];
    }
  }

  /** bm_data_type_t codes, in the runtime's order. */
  const Float32: nat := 0
  const Float16: nat := 1
  const Int8: nat := 2
  const Uint8: nat := 3
  const Int16: nat := 4
  const Uint16: nat := 5
  const Int32: nat := 6
  const Uint32: nat := 7

  /** Bytes per element of a data type, as BMNNTensor sizes its buffer. */
  function ElemBytes(dtype: nat): (b: nat)
    ensures b == 4 <==> dtype == Float32 || dtype == Uint32 || dtype == Int32
    ensures b == 2 <==> dtype == Int16 || dtype == Uint16 || dtype == Float16
    ensures b == 1 || b == 2 || b == 4
  {
    if dtype == Float32 || dtype == Uint32 || dtype == Int32 then 4
    else if dtype == Int16 || dtype == Uint16 || dtype == Float16 then 2
    else 1
  }

  /** bm_store_mode_t. */
  datatype StoreMode = Store1N | Store2N | Store4N

  /** bm_device_mem_t, reduced to an address and a size. */
  datatype DeviceMem = DeviceMem(addr: int, size: int)

  /** bm_mem_null(): no device memory. */
  const NullMem := DeviceMem(0, 0)

  /** bm_tensor_t. */
  datatype Tensor = Tensor(dtype: nat, shape: Shape, stMode: StoreMode, deviceMem: DeviceMem)

  /** The test update_shape makes: the cached shape has another rank, or a
      dim in use differs. */
  predicate ShapeDiffers(cached: seq<int>, s: Shape) {
    |cached| != s.numDims || exists i :: 0 <= i < s.numDims && cached[i] != s.dims[i]
  }

  /** The rank-and-dims test is exactly "the cache no longer holds the dims in use". */
  lemma ShapeDiffersIffStale(cached: seq<int>, s: Shape)
    ensures ShapeDiffers(cached, s) <==> cached != Dims(s)
  {
    if cached != Dims(s) && |cached| == s.numDims {
      var i :| 0 <= i < |cached| && cached[i] != Dims(s)[i];
      assert cached[i] != s.dims[i];
    }
  }

  /** update_shape is idempotent: once the cache holds the dims in use, the
      next refresh of an unchanged tensor finds nothing to do. */
  lemma RefreshedCacheIsCurrent(s: Shape)
    ensures !ShapeDiffers(Dims(s), s)
  {
    ShapeDiffersIffStale(Dims(s), s);
  }

  /** BMNNTensor: a view of one bm_tensor_t of a network (`slots[index]`
      stands for m_tensor) with a cache of its shape, element
      count and byte size. */
  class NNTensor {
    const name: string
    const slots: array<Tensor>
    const index: nat
    var cachedShape: seq<int>
    var elemCount: int
    var byteSize: int
    /** m_dtype: starts at -1 and is never assigned. */
    var cachedDtype: int

    /** The element count is the product of the cached dims, except before the
        first refresh of a rank-0 tensor, where the initial 0 survives. */
    ghost predicate Valid()
      reads this
    {
      index < slots.Length && cachedDtype == -1 &&
      (elemCount == Product(cachedShape) || (cachedShape == [] && elemCount == 0))
    }

    function Raw(): Tensor
      reads this, slots
      requires Valid()
    {
      slots[index]
    }

    constructor (name: string, slots: array<Tensor>, index: nat)
      requires index < slots.Length
      ensures Valid()
      ensures this.name == name && this.slots == slots && this.index == index
      ensures cachedShape == [] && elemCount == 0 && byteSize == 0
    {
      this.name := name;
      this.slots := slots;
      this.index := index;
      cachedShape := [];
      elemCount := 0;
      byteSize := 0;
      cachedDtype := -1;
    }

    /** update_shape: refresh the cache when the tensor's shape moved. */
    method UpdateShape() returns (changed: bool)
      requires Valid()
      modifies this`cachedShape, this`elemCount
      ensures Valid()
      ensures changed == ShapeDiffers(old(cachedShape), Raw().shape)
      ensures changed == (old(cachedShape) != Dims(Raw().shape))
      ensures cachedShape == Dims(Raw().shape)
      ensures elemCount == if changed then Product(cachedShape) else old(elemCount)
      ensures !changed ==> cachedShape == old(cachedShape) && elemCount == old(elemCount)
    {
      var s := slots[index].shape;
      changed := false;
      if s.numDims == |cachedShape| {
        var i := 0;
        while i < s.numDims
          invariant 0 <= i <= s.numDims
          invariant forall k :: 0 <= k < i ==> cachedShape[k] == s.dims[k]
        {
          if cachedShape[i] != s.dims[i] {
            changed := true;
            break;
          }
          i := i + 1;
        }
      } else {
        changed := true;
      }
      ShapeDiffersIffStale(cachedShape, s);
      if changed {
        cachedShape := s.dims[..s.numDims];
        elemCount := Product(cachedShape);
      }
    }

    /** update_dtype: since m_dtype stays -1, the byte size is recomputed from
        the current dtype and element count on every call. */
    method UpdateDtype()
      requires Valid()
      modifies this`byteSize
      ensures Valid()
      ensures byteSize == ElemBytes(Raw().dtype) * elemCount
    {
      var d := slots[index].dtype;
      if cachedDtype != d {
        if d == Float32 || d == Uint32 || d == Int32 {
          byteSize := elemCount * 4;
        } else if d == Int16 || d == Uint16 || d == Float16 {
          byteSize := elemCount * 2;
        } else {
          byteSize := elemCount;
        }
      }
    }

    /** get_count: the number of elements of the current shape; only a
        rank-0 tensor never refreshed before reports the initial 0. */
    method GetCount() returns (count: int)
      requires Valid()
      modifies this`cachedShape, this`elemCount
      ensures Valid() && cachedShape == Dims(Raw().shape) && count == elemCount
      ensures count == Product(Dims(Raw().shape)) || (Raw().shape.numDims == 0 && old(cachedShape) == [] && count == 0)
      ensures count == if old(cachedShape) != Dims(Raw().shape) then Product(Dims(Raw().shape)) else old(elemCount)
    {
      var _ := UpdateShape();
      count := elemCount;
    }

    /** get_size: element count scaled by the width of the current dtype. */
    method GetSize() returns (size: int)
      requires Valid()
      modifies this`cachedShape, this`elemCount, this`byteSize
      ensures Valid() && cachedShape == Dims(Raw().shape) && size == byteSize
      ensures size == ElemBytes(Raw().dtype) * elemCount
      ensures elemCount == Product(Dims(Raw().shape)) || (Raw().shape.numDims == 0 && old(cachedShape) == [] && elemCount == 0)
      ensures elemCount == if old(cachedShape) != Dims(Raw().shape) then Product(Dims(Raw().shape)) else old(elemCount)
    {
      var _ := UpdateShape();
      UpdateDtype();
      size := byteSize;
    }

    /** set_device_mem: writes through to the network's tensor. */
    method SetDeviceMem(mem: DeviceMem) returns (r: int)
      requires Valid()
      modifies slots
      ensures Valid() && r == 0
      ensures slots[index] == old(slots[index]).(deviceMem := mem)
      ensures forall k :: 0 <= k < slots.Length && k != index ==> slots[k] == old(slots[k])
    {
      slots[index] := slots[index].(deviceMem := mem);
      r := 0;
    }
  }

  /** Names with no repeats. */
  predicate Distinct(names: seq<string>) {
    forall i, j :: 0 <= i < j < |names| ==> names[i] != names[j]
  }

  /** The map `m[names[i]] = i` builds when filled for i = 0, 1, ...: a name
      that occurs more than once ends up at its last position. */
  function IndexMap(names: seq<string>): (m: map<string, int>)
    ensures m.Keys == set n | n in names
    ensures forall n :: n in m ==> 0 <= m[n] < |names| && names[m[n]] == n
  {
    if names == [] then map[]
    else IndexMap(names[..|names| - 1])[names[|names| - 1] := |names| - 1]
  }

  /** Filling one more position updates the map at that name. */
  lemma IndexMapStep(names: seq<string>, i: int, m0: map<string, int>)
    requires 0 <= i < |names|
    ensures m0 + IndexMap(names[..i + 1]) == (m0 + IndexMap(names[..i]))[names[i] := i]
  {
    assert names[..i + 1][..i] == names[..i];
  }

  /** Entries for names of the list are all overwritten by a refill. */
  lemma IndexMapOverwrites(m0: map<string, int>, names: seq<string>)
    requires m0.Keys <= (set n | n in names)
    ensures m0 + IndexMap(names) == IndexMap(names)
  {
  }

  /** The index stored for a name is its last occurrence. */
  lemma {:induction false} IndexMapIsLastOccurrence(names: seq<string>, n: string, j: int)
    requires n in names && IndexMap(names)[n] < j < |names|
    ensures names[j] != n
  {
    var k := |names| - 1;
    if names[k] != n {
      var init := names[..k];
      assert IndexMap(names) == IndexMap(init)[names[k] := k];
      var p := IndexMap(names)[n];
      assert p < k && init[p] == n;
      assert IndexMap(init)[n] == p;
      if j < k {
        assert init[j] == names[j];
        IndexMapIsLastOccurrence(init, n, j);
      }
    }
  }

  /** With distinct names, the map sends each name back to its position. */
  lemma IndexMapOfDistinct(names: seq<string>, i: int)
    requires Distinct(names) && 0 <= i < |names|
    ensures names[i] in IndexMap(names) && IndexMap(names)[names[i]] == i
  {
    var m := IndexMap(names);
    assert names[i] in m;
    var p := m[names[i]];
    if p < i {
      IndexMapIsLastOccurrence(names, names[i], i);
    }
  }

  /** bmrt_launch_tensor_ex followed by bm_thread_sync: -1 when the launch
      fails or the sync does not report BM_SUCCESS, 0 otherwise. */
  const BmSuccess: int := 0

  function LaunchStatus(launchOk: bool, syncStatus: int): (r: int)
    ensures r == 0 || r == -1
    ensures r == 0 <==> launchOk && syncStatus == BmSuccess
  {
    if !launchOk then -1 else if syncStatus != BmSuccess then -1 else 0
  }

  /** One stage of a network: the shapes of its inputs and outputs. */
  datatype StageInfo = StageInfo(inputShapes: seq<Shape>, outputShapes: seq<Shape>)

  /** bm_net_info_t, reduced to what the tensor table uses. */
  datatype NetInfo = NetInfo(
    name: string,
    inputNames: seq<string>, outputNames: seq<string>,
    inputDtypes: seq<nat>, outputDtypes: seq<nat>,
    stages: seq<StageInfo>)

  predicate WellFormedInfo(info: NetInfo) {
    && |info.inputDtypes| == |info.inputNames|
    && |info.outputDtypes| == |info.outputNames|
    && |info.stages| >= 1
    && forall s :: 0 <= s < |info.stages| ==>
         |info.stages[s].inputShapes| == |info.inputNames| &&
         |info.stages[s].outputShapes| == |info.outputNames|
  }

  /** What a stage search looks for in one input of each stage. */
  datatype StageKey = ByInputShape(shape: Shape) | ByBatchSize(batch: int)

  predicate Matches(st: StageInfo, index: nat, key: StageKey)
    requires index < |st.inputShapes|
  {
    match key
    case ByInputShape(shape) => SameShape(st.inputShapes[index], shape)
    case ByBatchSize(b) => st.inputShapes[index].dims[0] == b
  }

  /** The first stage, from `from` on, whose input `index` matches the key;
      -1 when there is none. */
  function FirstMatchingStage(stages: seq<StageInfo>, index: nat, key: StageKey, from: nat): (r: int)
    requires from <= |stages|
    requires forall s :: 0 <= s < |stages| ==> index < |stages[s].inputShapes|
    ensures r == -1 || from <= r < |stages|
    ensures r == -1 <==> forall s :: from <= s < |stages| ==> !Matches(stages[s], index, key)
    ensures r != -1 ==> Matches(stages[r], index, key)
    ensures r != -1 ==> forall s :: from <= s < r ==> !Matches(stages[s], index, key)
    decreases |stages| - from
  {
    if from == |stages| then -1
    else if Matches(stages[from], index, key) then from
    else FirstMatchingStage(stages, index, key, from + 1)
  }

  /** The device memory release_io_tensors frees: that of every output
      tensor whose size is not 0, in order. */
  function InUse(ts: seq<Tensor>): (mems: seq<DeviceMem>)
    ensures |mems| <= |ts|
    ensures forall m :: m in mems ==> m.size != 0
    ensures forall i :: 0 <= i < |ts| && ts[i].deviceMem.size != 0 ==> ts[i].deviceMem in mems
    ensures |mems| == |ts| <==> forall i :: 0 <= i < |ts| ==> ts[i].deviceMem.size != 0
  {
    if ts == [] then []
    else
      var init, last := ts[..|ts| - 1], ts[|ts| - 1];
      InUse(init) + (if last.deviceMem.size != 0 then [last.deviceMem] else [])
  }

  /** Nothing but output memory is freed: each freed block, at position k,
      belongs to an output at some position i >= k. */
  lemma {:induction false} InUseOnlyOutputs(ts: seq<Tensor>)
    ensures forall k :: 0 <= k < |InUse(ts)| ==> exists i :: k <= i < |ts| && ts[i].deviceMem == InUse(ts)[k]
    decreases |ts|
  {
    if ts != [] {
      var init, last := ts[..|ts| - 1], ts[|ts| - 1];
      InUseOnlyOutputs(init);
      var rest := InUse(init);
      assert InUse(ts) == rest + (if last.deviceMem.size != 0 then [last.deviceMem] else []);
      forall k | 0 <= k < |InUse(ts)|
        ensures exists i :: k <= i < |ts| && ts[i].deviceMem == InUse(ts)[k]
      {
        if k < |rest| {
          var i :| k <= i < |init| && init[i].deviceMem == rest[k];
          assert ts[i] == init[i] && InUse(ts)[k] == rest[k];
        } else {
          assert k <= |ts| - 1 && ts[|ts| - 1].deviceMem == InUse(ts)[k];
        }
      }
    } else {
      assert InUse(ts) == [];
    }
  }

  /** Releasing one more output frees its memory after the earlier ones'. */
  lemma InUseSnoc(ts: seq<Tensor>, i: nat)
    requires i < |ts|
    ensures InUse(ts[..i + 1]) == InUse(ts[..i]) + (if ts[i].deviceMem.size != 0 then [ts[i].deviceMem] else [])
  {
    assert ts[..i + 1][..i] == ts[..i];
  }

  /** Releasing two runs of outputs frees the first run's memory, then the
      second's: the frees follow the table order. */
  lemma {:induction false} InUseConcat(a: seq<Tensor>, b: seq<Tensor>)
    ensures InUse(a + b) == InUse(a) + InUse(b)
    decreases |b|
  {
    if b == [] {
      assert a + b == a;
    } else {
      var init, last := b[..|b| - 1], b[|b| - 1];
      var tail := if last.deviceMem.size != 0 then [last.deviceMem] else [];
      assert (a + b)[..|a + b| - 1] == a + init;
      assert (a + b)[|a + b| - 1] == last;
      InUseConcat(a, init);
      calc {
        InUse(a + b);
        InUse(a + init) + tail;
        (InUse(a) + InUse(init)) + tail;
        InUse(a) + (InUse(init) + tail);
        InUse(a) + InUse(b);
      }
    }
  }

  /** Two outputs that share one piece of device memory get it freed twice:
      the release loop does not look for repeats. */
  lemma InUseFreesSharedMemoryTwice(t: Tensor, u: Tensor)
    requires t.deviceMem == u.deviceMem && t.deviceMem.size != 0
    ensures InUse([t, u]) == [t.deviceMem, t.deviceMem]
  {
    assert [t, u][..1] == [t];
    assert [t][..0] == [];
  }

  /** BMNNNetwork: the input and output tensor tables of one network. */
  class Network {
    const info: NetInfo
    var inputTensors: array<Tensor>
    var outputTensors: array<Tensor>
    var inputIndex: map<string, int>
    var outputIndex: map<string, int>
    /** m_stage_idx: starts at 0 and is never assigned. */
    var stageIdx: int
    /** Device memory handed to bm_free_device, in order. */
    var freed: seq<DeviceMem>

    ghost predicate Valid()
      reads this
    {
      && WellFormedInfo(info)
      && inputTensors.Length == |info.inputNames|
      && outputTensors.Length == |info.outputNames|
      && inputTensors != outputTensors
      && inputIndex == IndexMap(info.inputNames)
      && outputIndex == IndexMap(info.outputNames)
      && stageIdx == 0
    }

    /** The tables as init_io_tensors_by_stage(s) leaves them: inputs from
        stage s, outputs always from stage 0, no device memory, 1N storage. */
    ghost predicate LoadedFromStage(s: nat)
      reads this, inputTensors, outputTensors
      requires Valid() && s < |info.stages|
    {
      && (forall i :: 0 <= i < inputTensors.Length ==>
            inputTensors[i] == Tensor(info.inputDtypes[i], info.stages[s].inputShapes[i], Store1N, NullMem))
      && (forall i :: 0 <= i < outputTensors.Length ==>
            outputTensors[i] == Tensor(info.outputDtypes[i], info.stages[0].outputShapes[i], Store1N, NullMem))
    }

    constructor (info: NetInfo)
      requires WellFormedInfo(info)
      ensures Valid() && LoadedFromStage(0)
      ensures fresh(inputTensors) && fresh(outputTensors)
      ensures freed == []
    {
      this.info := info;
      inputTensors := new Tensor[0];
      outputTensors := new Tensor[0];
      inputIndex := map[];
      outputIndex := map[];
      stageIdx := 0;
      freed := [];
      new;
      InitIoTensorsByStage(0);
    }

    /** release_io_tensors: frees the device memory still held by outputs. */
    method ReleaseIoTensors()
      modifies this`freed
      ensures freed == old(freed) + InUse(outputTensors[..])
    {
      var i := 0;
      while i < outputTensors.Length
        invariant 0 <= i <= outputTensors.Length
        invariant freed == old(freed) + InUse(outputTensors[..i])
      {
        InUseSnoc(outputTensors[..], i);
        if outputTensors[i].deviceMem.size != 0 {
          freed := freed + [outputTensors[i].deviceMem];
        }
        i := i + 1;
      }
      assert outputTensors[..i] == outputTensors[..];
    }

    /** init_io_tensors_by_stage: releases the old tables, then builds fresh
        ones from stage s (outputs from stage 0) and records every name. The
        maps are not cleared first, so each ends as the old map overwritten
        by the names of the network. */
    method InitIoTensorsByStage(s: nat)
      requires WellFormedInfo(info) && s < |info.stages| && stageIdx == 0
      requires inputIndex.Keys <= (set n | n in info.inputNames)
      requires outputIndex.Keys <= (set n | n in info.outputNames)
      modifies this
      ensures fresh(inputTensors) && fresh(outputTensors)
      ensures Valid() && LoadedFromStage(s)
      ensures inputIndex == old(inputIndex) + IndexMap(info.inputNames)
      ensures outputIndex == old(outputIndex) + IndexMap(info.outputNames)
      ensures freed == old(freed) + InUse(old(outputTensors[..]))
    {
      ReleaseIoTensors();
      var ins := new Tensor[|info.inputNames|];
      var outs := new Tensor[|info.outputNames|];
      inputTensors, outputTensors := ins, outs;
      ghost var index0, outIndex0 := inputIndex, outputIndex;
      FillInputs(ins, s);
      FillOutputs(outs);
      IndexMapOverwrites(index0, info.inputNames);
      IndexMapOverwrites(outIndex0, info.outputNames);
    }

    /** The first loop of init_io_tensors_by_stage. */
    method FillInputs(ins: array<Tensor>, s: nat)
      requires WellFormedInfo(info) && s < |info.stages| && ins.Length == |info.inputNames|
      modifies ins, this`inputIndex
      ensures forall k :: 0 <= k < ins.Length ==>
        ins[k] == Tensor(info.inputDtypes[k], info.stages[s].inputShapes[k], Store1N, NullMem)
      ensures inputIndex == old(inputIndex) + IndexMap(info.inputNames)
    {
      var i := 0;
      while i < |info.inputNames|
        invariant 0 <= i <= |info.inputNames|
        invariant forall k :: 0 <= k < i ==>
          ins[k] == Tensor(info.inputDtypes[k], info.stages[s].inputShapes[k], Store1N, NullMem)
        invariant inputIndex == old(inputIndex) + IndexMap(info.inputNames[..i])
      {
        ins[i] := Tensor(info.inputDtypes[i], info.stages[s].inputShapes[i], Store1N, NullMem);
        IndexMapStep(info.inputNames, i, old(inputIndex));
        inputIndex := inputIndex[info.inputNames[i] := i];
        i := i + 1;
      }
      assert info.inputNames[..i] == info.inputNames;
    }

    /** The second loop of init_io_tensors_by_stage: outputs always take the
        shapes of stage 0. */
    method FillOutputs(outs: array<Tensor>)
      requires WellFormedInfo(info) && outs.Length == |info.outputNames|
      modifies outs, this`outputIndex
      ensures forall k :: 0 <= k < outs.Length ==>
        outs[k] == Tensor(info.outputDtypes[k], info.stages[0].outputShapes[k], Store1N, NullMem)
      ensures outputIndex == old(outputIndex) + IndexMap(info.outputNames)
    {
      var i := 0;
      while i < |info.outputNames|
        invariant 0 <= i <= |info.outputNames|
        invariant forall k :: 0 <= k < i ==>
          outs[k] == Tensor(info.outputDtypes[k], info.stages[0].outputShapes[k], Store1N, NullMem)
        invariant outputIndex == old(outputIndex) + IndexMap(info.outputNames[..i])
      {
        outs[i] := Tensor(info.outputDtypes[i], info.stages[0].outputShapes[i], Store1N, NullMem);
        IndexMapStep(info.outputNames, i, old(outputIndex));
        outputIndex := outputIndex[info.outputNames[i] := i];
        i := i + 1;
      }
      assert info.outputNames[..i] == info.outputNames;
    }

    /** inputName2Index: the position of a name among the inputs, or -1. */
    function InputNameToIndex(name: string): (r: int)
      reads this
      requires Valid()
      ensures r == -1 <==> name !in info.inputNames
      ensures r != -1 ==> 0 <= r < |info.inputNames| && info.inputNames[r] == name
    {
      if name in inputIndex then inputIndex[name] else -1
    }

    /** outputName2Index: the position of a name among the outputs, or -1. */
    function OutputNameToIndex(name: string): (r: int)
      reads this
      requires Valid()
      ensures r == -1 <==> name !in info.outputNames
      ensures r != -1 ==> 0 <= r < |info.outputNames| && info.outputNames[r] == name
    {
      if name in outputIndex then outputIndex[name] else -1
    }

    /** get_stage_index: m_stage_idx is never updated. */
    function StageIndex(): (r: int)
      reads this
      requires Valid()
      ensures r == 0
    {
      stageIdx
    }

    /** inputTensor(int): a view of input `index`. */
    method InputTensorAt(index: nat) returns (t: NNTensor)
      requires Valid() && index < inputTensors.Length
      ensures fresh(t) && t.Valid()
      ensures t.slots == inputTensors && t.index == index && t.name == info.inputNames[index]
    {
      t := new NNTensor(info.inputNames[index], inputTensors, index);
    }

    /** outputTensor(int): a view of output `index`. */
    method OutputTensorAt(index: nat) returns (t: NNTensor)
      requires Valid() && index < outputTensors.Length
      ensures fresh(t) && t.Valid()
      ensures t.slots == outputTensors && t.index == index && t.name == info.outputNames[index]
    {
      t := new NNTensor(info.outputNames[index], outputTensors, index);
    }

    /** inputTensor(name) as the source writes it: the index is resolved
        through the OUTPUT name map and then used on the input tables. */
    method InputTensorByName(name: string) returns (t: NNTensor?)
      requires Valid()
      ensures t == null <==> OutputNameToIndex(name) == -1 || OutputNameToIndex(name) >= inputTensors.Length
      ensures t != null ==> fresh(t) && t.Valid() && t.slots == inputTensors
      ensures t != null ==> t.index == OutputNameToIndex(name) && t.name == info.inputNames[t.index]
    {
      var index := OutputNameToIndex(name);
      if index == -1 {
        return null;
      }
      if index >= inputTensors.Length {
        return null;
      }
      t := new NNTensor(info.inputNames[index], inputTensors, index);
    }

    /** inputTensor(name) resolved through the input name map. */
    method InputTensorByNameFixed(name: string) returns (t: NNTensor?)
      requires Valid()
      ensures t == null <==> name !in info.inputNames
      ensures t != null ==> fresh(t) && t.Valid() && t.slots == inputTensors
      ensures t != null ==> t.index == InputNameToIndex(name) && t.name == name
    {
      var index := InputNameToIndex(name);
      if index == -1 {
        return null;
      }
      t := new NNTensor(info.inputNames[index], inputTensors, index);
    }

    /** set_stage_by_input_shape: the search tests the same input tensor on
        every turn, so it matches at stage 0 or not at all. */
    method SetStageByInputShape(index: nat, shape: Shape) returns (r: int)
      requires Valid() && index < inputTensors.Length
      modifies this
      ensures Valid()
      ensures r == -1 <==> !SameShape(old(inputTensors[index].shape), shape)
      ensures r == -1 ==> inputTensors == old(inputTensors) && outputTensors == old(outputTensors) && freed == old(freed)
      ensures r != -1 ==> r == 0 && fresh(inputTensors) && fresh(outputTensors) && LoadedFromStage(0)
      ensures r != -1 ==> freed == old(freed) + InUse(old(outputTensors[..]))
    {
      var stage := -1;
      var i := 0;
      while i < |info.stages|
        invariant 0 <= i <= |info.stages|
        invariant stage == -1 && unchanged(this)
        invariant i > 0 ==> !SameShape(inputTensors[index].shape, shape)
      {
        var eq := ShapesEqual(inputTensors[index].shape, shape);
        if eq {
          stage := i;
          break;
        }
        i := i + 1;
      }
      if stage == -1 {
        return -1;
      }
      InitIoTensorsByStage(stage);
      r := 0;
    }

    /** set_stage_by_batch_size: as above, testing dims[0] of the input. On
        success the source falls off the end of the function, so the value
        returned is left open. */
    method SetStageByBatchSize(index: nat, batchSize: int) returns (r: int)
      requires Valid() && index < inputTensors.Length
      modifies this
      ensures Valid()
      ensures old(inputTensors[index].shape.dims[0]) != batchSize ==>
        r == -1 && inputTensors == old(inputTensors) && outputTensors == old(outputTensors) && freed == old(freed)
      ensures old(inputTensors[index].shape.dims[0]) == batchSize ==>
        fresh(inputTensors) && fresh(outputTensors) && LoadedFromStage(0)
      ensures old(inputTensors[index].shape.dims[0]) == batchSize ==>
        freed == old(freed) + InUse(old(outputTensors[..]))
    {
      var stage := -1;
      var i := 0;
      while i < |info.stages|
        invariant 0 <= i <= |info.stages|
        invariant stage == -1 && unchanged(this)
        invariant i > 0 ==> inputTensors[index].shape.dims[0] != batchSize
      {
        if inputTensors[index].shape.dims[0] == batchSize {
          stage := i;
          break;
        }
        i := i + 1;
      }
      if stage == -1 {
        return -1;
      }
      InitIoTensorsByStage(stage);
      r := *;
    }

    /** The stage search as intended: stage i is chosen by its own input
        shape (or batch size), the first match wins, and success reports 0. */
    method SelectStage(index: nat, key: StageKey) returns (r: int)
      requires Valid() && index < inputTensors.Length
      modifies this
      ensures Valid()
      ensures r == 0 || r == -1
      ensures r == -1 <==> FirstMatchingStage(info.stages, index, key, 0) == -1
      ensures r == -1 ==> inputTensors == old(inputTensors) && outputTensors == old(outputTensors) && freed == old(freed)
      ensures r == 0 ==> fresh(inputTensors) && fresh(outputTensors)
      ensures r == 0 ==> LoadedFromStage(FirstMatchingStage(info.stages, index, key, 0))
      ensures r == 0 ==> freed == old(freed) + InUse(old(outputTensors[..]))
    {
      var stage := -1;
      var i := 0;
      while i < |info.stages|
        invariant 0 <= i <= |info.stages|
        invariant stage == -1 && unchanged(this)
        invariant FirstMatchingStage(info.stages, index, key, i) == FirstMatchingStage(info.stages, index, key, 0)
      {
        var hit;
        match key {
          case ByInputShape(shape) =>
            hit := ShapesEqual(info.stages[i].inputShapes[index], shape);
          case ByBatchSize(b) =>
            hit := info.stages[i].inputShapes[index].dims[0] == b;
        }
        if hit {
          stage := i;
          break;
        }
        i := i + 1;
      }
      if stage == -1 {
        return -1;
      }
      InitIoTensorsByStage(stage);
      r := 0;
    }

    /** forward(): user memory is announced when the first output already
        holds device memory; the status is that of launch and sync. */
    method Forward(launchOk: bool, syncStatus: int) returns (r: int, userMem: bool)
      requires Valid() && outputTensors.Length > 0
      ensures userMem <==> outputTensors[0].deviceMem.size != 0
      ensures r == LaunchStatus(launchOk, syncStatus)
      ensures r == 0 <==> launchOk && syncStatus == BmSuccess
    {
      userMem := false;
      if outputTensors[0].deviceMem.size != 0 {
        userMem := true;
      }
      if !launchOk {
        return -1, userMem;
      }
      if syncStatus != BmSuccess {
        return -1, userMem;
      }
      r := 0;
    }
  }

  /** After building the tables, distinct names look up to their own
      positions. */
  lemma LookupAfterInit(net: Network, i: int)
    requires net.Valid()
    requires Distinct(net.info.inputNames) && 0 <= i < |net.info.inputNames|
    ensures net.InputNameToIndex(net.info.inputNames[i]) == i
  {
    IndexMapOfDistinct(net.info.inputNames, i);
  }

  lemma OutputLookupAfterInit(net: Network, i: int)
    requires net.Valid()
    requires Distinct(net.info.outputNames) && 0 <= i < |net.info.outputNames|
    ensures net.OutputNameToIndex(net.info.outputNames[i]) == i
  {
    IndexMapOfDistinct(net.info.outputNames, i);
  }

  /** inputTensor(name) misses every input whose name is not also an output
      name: the output map answers -1 for it, so the source returns null,
      while the input map knows it. */
  lemma InputTensorByNameMissesInputs(net: Network, name: string)
    requires net.Valid() && name in net.info.inputNames && name !in net.info.outputNames
    ensures net.OutputNameToIndex(name) == -1
    ensures net.InputNameToIndex(name) >= 0
  {
  }

  /** The stage search as written only ever loads stage 0: on a network
      loaded from stage 0, asking for the input shape of a later stage
      whose shape no earlier stage has makes it report -1 (the current input
      does not match), while that stage exists and the intended search
      finds it. */
  lemma StageSearchMissesLaterStages(net: Network, index: nat, s: nat)
    requires net.Valid() && index < net.inputTensors.Length && 0 < s < |net.info.stages|
    requires net.LoadedFromStage(0)
    requires forall k :: 0 <= k < s ==> !SameShape(net.info.stages[k].inputShapes[index], net.info.stages[s].inputShapes[index])
    ensures !SameShape(net.inputTensors[index].shape, net.info.stages[s].inputShapes[index])
    ensures FirstMatchingStage(net.info.stages, index, ByInputShape(net.info.stages[s].inputShapes[index]), 0) == s
  {
    var key := ByInputShape(net.info.stages[s].inputShapes[index]);
    var r := FirstMatchingStage(net.info.stages, index, key, 0);
    assert Matches(net.info.stages[s], index, key);
    assert r != -1;
  }

  /** BMNNContext: the names of the networks of a loaded model. */
  class Context {
    const networkNames: seq<string>

    /** load_network_names copies the runtime's list of names. */
    constructor (names: seq<string>)
      ensures networkNames == names
    {
      networkNames := names;
    }

    /** network_name: the name at `index`, or "Invalid index" past the end. */
    function NetworkName(index: nat): (r: string)
      ensures index < |networkNames| ==> r == networkNames[index]
      ensures index >= |networkNames| ==> r == "Invalid index"
    {
      if index >= |networkNames| then "Invalid index" else networkNames[index]
    }
  }
}
