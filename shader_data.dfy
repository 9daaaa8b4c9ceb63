/** The shared GPU buffer cache: one lazily created object holding seven compute
    buffers, each of which grows on demand and is never shrunk. */
module ShaderDataCache {
  import opened Gpu

  /** `Marshal.SizeOf<LightData>()`: position, colour, attenuation and squared range,
      nine floats. */
  const LIGHT_DATA_BYTES: nat := 36
  /** `Marshal.SizeOf<PixelData>()`: twenty floats. */
  const PIXEL_DATA_BYTES: nat := 80
  /** `sizeof(uint)` and `sizeof(int)`. */
  const WORD_BYTES: nat := 4
  /** `sizeof(float) * 4 * 4`. */
  const FRUSTUM_DATA_BYTES: nat := 64

  /** The seven buffer fields, named by what they hold. */
  datatype Slot = LightsData | PixelData | LightIndex | LightIndexCounter | FrustumData | CullLightsOutput | LightCountRead

  /** What a field holds, as far as the allocation policy is concerned: nothing, or a
      buffer of some element count. */
  datatype Held = Empty | Holds(count: nat)

  function HeldBy(b: ComputeBuffer?): Held
  {
    if b == null then Empty else Holds(b.count)
  }

  /** The allocation policy of one request for `size` elements: 0 asks for whatever is
      there, and otherwise the field ends up holding at least `size` elements, keeping
      what it has when that is already enough and replacing it by exactly `size`
      elements when it is not. */
  function Grow(h: Held, size: nat): (r: Held)
    ensures size == 0 ==> r == h
    ensures size > 0 ==> r.Holds? && r.count >= size
    ensures h.Holds? ==> r.Holds? && r.count >= h.count
    ensures r != h ==> r == Holds(size)
  {
    if size == 0 then h
    else if h.Empty? || h.count < size then Holds(size)
    else h
  }

  /** The field after a series of requests. */
  function GrowAll(h: Held, sizes: seq<nat>): Held
    decreases |sizes|
  {
    if sizes == [] then h else GrowAll(Grow(h, sizes[0]), sizes[1..])
  }

  function Largest(sizes: seq<nat>): (m: nat)
    ensures forall i :: 0 <= i < |sizes| ==> sizes[i] <= m
    ensures sizes == [] ==> m == 0
    ensures sizes != [] ==> exists i :: 0 <= i < |sizes| && sizes[i] == m
  {
    if sizes == [] then 0
    else if sizes[0] >= Largest(sizes[1..]) then sizes[0]
    else assert sizes[1..][0] == sizes[1]; Largest(sizes[1..])
  }

  /** Whatever the order of the requests, the field ends up holding exactly the
      largest count asked for or held before, and is empty only when it was empty and
      nothing was asked for. */
  lemma {:induction false} GrowAllKeepsLargest(h: Held, sizes: seq<nat>)
    ensures var largest := if h.Holds? && h.count >= Largest(sizes) then h.count else Largest(sizes);
            GrowAll(h, sizes) == if h.Empty? && Largest(sizes) == 0 then Empty else Holds(largest)
    decreases |sizes|
  {
    if sizes != [] {
      GrowAllKeepsLargest(Grow(h, sizes[0]), sizes[1..]);
    }
  }

  /** Disposing a buffer changes nothing but its disposed flag. */
  predicate Untouched(b: ComputeBuffer, name: string, counterValue: nat, lights: seq<LightData>)
    reads b
  {
    b.name == name && b.counterValue == counterValue && b.lights == lights
  }

  class ShaderData {
    var lightsDataBuffer: ComputeBuffer?
    var pixelDataBuffer: ComputeBuffer?
    var lightIndexBuffer: ComputeBuffer?
    var lightIndexCounterBuffer: ComputeBuffer?
    var frustumDataBuffer: ComputeBuffer?
    var cullLightsOutputBuffer: ComputeBuffer?
    var lightCountReadBuffer: ComputeBuffer?

    constructor ()
      ensures forall s :: Buffer(s) == null
    {
      lightsDataBuffer := null;
      pixelDataBuffer := null;
      lightIndexBuffer := null;
      lightIndexCounterBuffer := null;
      frustumDataBuffer := null;
      cullLightsOutputBuffer := null;
      lightCountReadBuffer := null;
    }

    /** The field a slot names. */
    function Buffer(s: Slot): ComputeBuffer?
      reads this
    {
      match s
      case LightsData => lightsDataBuffer
      case PixelData => pixelDataBuffer
      case LightIndex => lightIndexBuffer
      case LightIndexCounter => lightIndexCounterBuffer
      case FrustumData => frustumDataBuffer
      case CullLightsOutput => cullLightsOutputBuffer
      case LightCountRead => lightCountReadBuffer
    }

    method SetBuffer(s: Slot, b: ComputeBuffer?)
      modifies this
      ensures Buffer(s) == b
      ensures forall t :: t != s ==> Buffer(t) == old(Buffer(t))
    {
      match s
      case LightsData => lightsDataBuffer := b;
      case PixelData => pixelDataBuffer := b;
      case LightIndex => lightIndexBuffer := b;
      case LightIndexCounter => lightIndexCounterBuffer := b;
      case FrustumData => frustumDataBuffer := b;
      case CullLightsOutput => cullLightsOutputBuffer := b;
      case LightCountRead => lightCountReadBuffer := b;
    }

    /** `GetOrUpdateBuffer`: the `ref` field becomes the slot `s`. The field changes as
        `Grow` says; a replaced buffer is disposed; a new buffer is fresh, live and
        named, and has the requested stride and type; a positive request returns the
        field; nothing else changes. */
    method GetOrUpdateBuffer(s: Slot, size: nat, bytes: nat, name: string, bufferType: BufferType) returns (b: ComputeBuffer?)
      modifies this, Buffer(s)
      ensures HeldBy(Buffer(s)) == Grow(HeldBy(old(Buffer(s))), size)
      ensures Buffer(s) != old(Buffer(s)) <==> size > 0 && (old(Buffer(s)) == null || old(Buffer(s)).count < size)
      ensures b == Buffer(s) && (size > 0 ==> b != null && b.count >= size)
      ensures Buffer(s) == old(Buffer(s)) && b != null ==> unchanged(b)
      ensures Buffer(s) != old(Buffer(s)) ==>
                && fresh(b) && b.count == size && b.stride == bytes && b.bufferType == bufferType
                && b.name == name && !b.disposed
                && (old(Buffer(s)) != null ==> old(Buffer(s)).disposed)
      ensures old(Buffer(s)) != null ==> Untouched(old(Buffer(s)), old(Buffer(s).name), old(Buffer(s).counterValue), old(Buffer(s).lights))
      ensures forall t :: t != s ==> Buffer(t) == old(Buffer(t))
    {
      var buffer := Buffer(s);
      if size == 0 {
        return buffer;
      }
      if buffer == null {
        buffer := new ComputeBuffer(size, bytes, bufferType);
        buffer.name := name;
        SetBuffer(s, buffer);
      } else if buffer.count < size {
        buffer.Dispose();
        buffer := new ComputeBuffer(size, bytes, bufferType);
        buffer.name := name;
        SetBuffer(s, buffer);
      }
      b := buffer;
    }

    method GetLightsDataBuffer(size: nat) returns (b: ComputeBuffer?)
      modifies this, Buffer(LightsData)
      ensures HeldBy(Buffer(LightsData)) == Grow(HeldBy(old(Buffer(LightsData))), size)
      ensures Buffer(LightsData) != old(Buffer(LightsData)) <==> size > 0 && (old(Buffer(LightsData)) == null || old(Buffer(LightsData)).count < size)
      ensures b == Buffer(LightsData) && (size > 0 ==> b != null && b.count >= size)
      ensures Buffer(LightsData) == old(Buffer(LightsData)) && b != null ==> unchanged(b)
      ensures Buffer(LightsData) != old(Buffer(LightsData)) ==>
                && fresh(b) && b.count == size && b.stride == LIGHT_DATA_BYTES && b.bufferType == Structured
                && b.name == "LightsDataBuffer" && !b.disposed
                && (old(Buffer(LightsData)) != null ==> old(Buffer(LightsData)).disposed)
      ensures old(Buffer(LightsData)) != null ==> var o := old(Buffer(LightsData)); Untouched(o, old(o.name), old(o.counterValue), old(o.lights))
      ensures forall t :: t != LightsData ==> Buffer(t) == old(Buffer(t))
    {
      b := GetOrUpdateBuffer(LightsData, size, LIGHT_DATA_BYTES, "LightsDataBuffer", Structured);
    }

    method GetPixelDataBuffer(size: nat) returns (b: ComputeBuffer?)
      modifies this, Buffer(PixelData)
      ensures HeldBy(Buffer(PixelData)) == Grow(HeldBy(old(Buffer(PixelData))), size)
      ensures Buffer(PixelData) != old(Buffer(PixelData)) <==> size > 0 && (old(Buffer(PixelData)) == null || old(Buffer(PixelData)).count < size)
      ensures b == Buffer(PixelData) && (size > 0 ==> b != null && b.count >= size)
      ensures Buffer(PixelData) == old(Buffer(PixelData)) && b != null ==> unchanged(b)
      ensures Buffer(PixelData) != old(Buffer(PixelData)) ==>
                && fresh(b) && b.count == size && b.stride == PIXEL_DATA_BYTES && b.bufferType == Structured
                && b.name == "PixelDataBuffer" && !b.disposed
                && (old(Buffer(PixelData)) != null ==> old(Buffer(PixelData)).disposed)
      ensures old(Buffer(PixelData)) != null ==> var o := old(Buffer(PixelData)); Untouched(o, old(o.name), old(o.counterValue), old(o.lights))
      ensures forall t :: t != PixelData ==> Buffer(t) == old(Buffer(t))
    {
      b := GetOrUpdateBuffer(PixelData, size, PIXEL_DATA_BYTES, "PixelDataBuffer", Structured);
    }

    method GetLightIndexBuffer(size: nat) returns (b: ComputeBuffer?)
      modifies this, Buffer(LightIndex)
      ensures HeldBy(Buffer(LightIndex)) == Grow(HeldBy(old(Buffer(LightIndex))), size)
      ensures Buffer(LightIndex) != old(Buffer(LightIndex)) <==> size > 0 && (old(Buffer(LightIndex)) == null || old(Buffer(LightIndex)).count < size)
      ensures b == Buffer(LightIndex) && (size > 0 ==> b != null && b.count >= size)
      ensures Buffer(LightIndex) == old(Buffer(LightIndex)) && b != null ==> unchanged(b)
      ensures Buffer(LightIndex) != old(Buffer(LightIndex)) ==>
                && fresh(b) && b.count == size && b.stride == WORD_BYTES && b.bufferType == Structured
                && b.name == "LightIndexBuffer" && !b.disposed
                && (old(Buffer(LightIndex)) != null ==> old(Buffer(LightIndex)).disposed)
      ensures old(Buffer(LightIndex)) != null ==> var o := old(Buffer(LightIndex)); Untouched(o, old(o.name), old(o.counterValue), old(o.lights))
      ensures forall t :: t != LightIndex ==> Buffer(t) == old(Buffer(t))
    {
      b := GetOrUpdateBuffer(LightIndex, size, WORD_BYTES, "LightIndexBuffer", Structured);
    }

    method GetLightIndexCounterBuffer(size: nat) returns (b: ComputeBuffer?)
      modifies this, Buffer(LightIndexCounter)
      ensures HeldBy(Buffer(LightIndexCounter)) == Grow(HeldBy(old(Buffer(LightIndexCounter))), size)
      ensures Buffer(LightIndexCounter) != old(Buffer(LightIndexCounter)) <==> size > 0 && (old(Buffer(LightIndexCounter)) == null || old(Buffer(LightIndexCounter)).count < size)
      ensures b == Buffer(LightIndexCounter) && (size > 0 ==> b != null && b.count >= size)
      ensures Buffer(LightIndexCounter) == old(Buffer(LightIndexCounter)) && b != null ==> unchanged(b)
      ensures Buffer(LightIndexCounter) != old(Buffer(LightIndexCounter)) ==>
                && fresh(b) && b.count == size && b.stride == WORD_BYTES && b.bufferType == Structured
                && b.name == "LightIndexCounterBuffer" && !b.disposed
                && (old(Buffer(LightIndexCounter)) != null ==> old(Buffer(LightIndexCounter)).disposed)
      ensures old(Buffer(LightIndexCounter)) != null ==> var o := old(Buffer(LightIndexCounter)); Untouched(o, old(o.name), old(o.counterValue), old(o.lights))
      ensures forall t :: t != LightIndexCounter ==> Buffer(t) == old(Buffer(t))
    {
      b := GetOrUpdateBuffer(LightIndexCounter, size, WORD_BYTES, "LightIndexCounterBuffer", Structured);
    }

    /** The buffer's name keeps the source's spelling. */
    method GetFrustumDataBuffer(size: nat) returns (b: ComputeBuffer?)
      modifies this, Buffer(FrustumData)
      ensures HeldBy(Buffer(FrustumData)) == Grow(HeldBy(old(Buffer(FrustumData))), size)
      ensures Buffer(FrustumData) != old(Buffer(FrustumData)) <==> size > 0 && (old(Buffer(FrustumData)) == null || old(Buffer(FrustumData)).count < size)
      ensures b == Buffer(FrustumData) && (size > 0 ==> b != null && b.count >= size)
      ensures Buffer(FrustumData) == old(Buffer(FrustumData)) && b != null ==> unchanged(b)
      ensures Buffer(FrustumData) != old(Buffer(FrustumData)) ==>
                && fresh(b) && b.count == size && b.stride == FRUSTUM_DATA_BYTES && b.bufferType == Structured
                && b.name == "FurstumDataBuffer" && !b.disposed
                && (old(Buffer(FrustumData)) != null ==> old(Buffer(FrustumData)).disposed)
      ensures old(Buffer(FrustumData)) != null ==> var o := old(Buffer(FrustumData)); Untouched(o, old(o.name), old(o.counterValue), old(o.lights))
      ensures forall t :: t != FrustumData ==> Buffer(t) == old(Buffer(t))
    {
      b := GetOrUpdateBuffer(FrustumData, size, FRUSTUM_DATA_BYTES, "FurstumDataBuffer", Structured);
    }

    method GetCullLightsOutputBuffer(size: nat) returns (b: ComputeBuffer?)
      modifies this, Buffer(CullLightsOutput)
      ensures HeldBy(Buffer(CullLightsOutput)) == Grow(HeldBy(old(Buffer(CullLightsOutput))), size)
      ensures Buffer(CullLightsOutput) != old(Buffer(CullLightsOutput)) <==> size > 0 && (old(Buffer(CullLightsOutput)) == null || old(Buffer(CullLightsOutput)).count < size)
      ensures b == Buffer(CullLightsOutput) && (size > 0 ==> b != null && b.count >= size)
      ensures Buffer(CullLightsOutput) == old(Buffer(CullLightsOutput)) && b != null ==> unchanged(b)
      ensures Buffer(CullLightsOutput) != old(Buffer(CullLightsOutput)) ==>
                && fresh(b) && b.count == size && b.stride == LIGHT_DATA_BYTES && b.bufferType == Append
                && b.name == "CullLightsOutputBuffer" && !b.disposed
                && (old(Buffer(CullLightsOutput)) != null ==> old(Buffer(CullLightsOutput)).disposed)
      ensures old(Buffer(CullLightsOutput)) != null ==> var o := old(Buffer(CullLightsOutput)); Untouched(o, old(o.name), old(o.counterValue), old(o.lights))
      ensures forall t :: t != CullLightsOutput ==> Buffer(t) == old(Buffer(t))
    {
      b := GetOrUpdateBuffer(CullLightsOutput, size, LIGHT_DATA_BYTES, "CullLightsOutputBuffer", Append);
    }

    /** Always asks for one element, so it never returns null, and once it holds a
        buffer every later call returns that same buffer. */
    method GetLightCountReadBuffer() returns (b: ComputeBuffer)
      modifies this, Buffer(LightCountRead)
      ensures HeldBy(Buffer(LightCountRead)) == Grow(HeldBy(old(Buffer(LightCountRead))), 1)
      ensures Buffer(LightCountRead) != old(Buffer(LightCountRead)) <==> 1 > 0 && (old(Buffer(LightCountRead)) == null || old(Buffer(LightCountRead)).count < 1)
      ensures b == Buffer(LightCountRead) && b.count >= 1
      ensures Buffer(LightCountRead) == old(Buffer(LightCountRead)) ==> unchanged(b)
      ensures Buffer(LightCountRead) != old(Buffer(LightCountRead)) ==>
                && fresh(b) && b.count == 1 && b.stride == WORD_BYTES && b.bufferType == IndirectArguments
                && b.name == "LightCountReadBuffer" && !b.disposed
                && (old(Buffer(LightCountRead)) != null ==> old(Buffer(LightCountRead)).disposed)
      ensures old(Buffer(LightCountRead)) != null ==> var o := old(Buffer(LightCountRead)); Untouched(o, old(o.name), old(o.counterValue), old(o.lights))
      ensures forall t :: t != LightCountRead ==> Buffer(t) == old(Buffer(t))
    {
      var r := GetOrUpdateBuffer(LightCountRead, 1, WORD_BYTES, "LightCountReadBuffer", IndirectArguments);
      b := r;
    }

    /** `DisposeBuffer`: a held buffer is disposed and the field cleared; an empty field
        is left alone, so a second call does nothing. */
    method DisposeBuffer(s: Slot)
      modifies this, Buffer(s)
      ensures Buffer(s) == null
      ensures old(Buffer(s)) != null ==> old(Buffer(s)).disposed
      ensures old(Buffer(s)) == null ==> unchanged(this)
      ensures forall t :: t != s ==> Buffer(t) == old(Buffer(t))
    {
      var buffer := Buffer(s);
      if buffer != null {
        buffer.Dispose();
        SetBuffer(s, null);
      }
    }

    /** The buffers held by the seven fields. */
    function Held(): set<ComputeBuffer>
      reads this
    {
      set s: Slot | Buffer(s) != null :: Buffer(s)
    }

    /** `Dispose`: every held buffer is disposed and every field cleared. */
    method Dispose()
      modifies this, Held()
      ensures forall s :: Buffer(s) == null
      ensures forall s :: old(Buffer(s)) != null ==> old(Buffer(s)).disposed
    {
      DisposeBuffer(LightsData);
      DisposeBuffer(PixelData);
      DisposeBuffer(LightIndex);
      DisposeBuffer(LightIndexCounter);
      DisposeBuffer(FrustumData);
      DisposeBuffer(CullLightsOutput);
      DisposeBuffer(LightCountRead);
    }
  }

  /** Two requests for the read-back buffer in a row return the same buffer: the
      first leaves a buffer of at least one element, which the second keeps. */
  method LightCountReadBufferKept(sd: ShaderData) returns (first: ComputeBuffer, second: ComputeBuffer)
    modifies sd, sd.Buffer(LightCountRead)
    ensures first == second == sd.Buffer(LightCountRead)
  {
    first := sd.GetLightCountReadBuffer();
    second := sd.GetLightCountReadBuffer();
  }

  /** The static `_instance` field behind the `instance` property. */
  class ShaderDataStatics {
    var instance: ShaderData?

    constructor ()
      ensures instance == null
    {
      instance := null;
    }

    /** `instance`: the first access creates an empty cache; every later access
        returns that same object. */
    method Instance() returns (sd: ShaderData)
      modifies this
      ensures instance == sd
      ensures old(instance) != null ==> sd == old(instance)
      ensures old(instance) == null ==> fresh(sd) && forall s :: sd.Buffer(s) == null
    {
      if instance == null {
        instance := new ShaderData();
      }
      sd := instance;
    }
  }
}
