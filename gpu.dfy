/** Engine-side values shared by the host-side passes: GPU buffers as records with a
    fixed element count and a disposed flag, the light record uploaded to the GPU,
    and the vector types the passes hand to compute kernels. */
module Gpu {

  datatype Vec2 = Vec2(x: real, y: real)
  datatype Vec3 = Vec3(x: real, y: real, z: real)
  datatype Vec4 = Vec4(x: real, y: real, z: real, w: real)

  /** A camera or tile plane: `normal . p + distance >= 0` is the inside. */
  datatype Plane = Plane(normal: Vec3, distance: real)

  /** The per-light record the culling kernel reads (position, intensity-scaled
      colour, attenuation terms, squared range and range). */
  datatype LightData = LightData(position: Vec3, color: Vec3, attenuation: Vec2, rangeSqr: real, range: real)

  /** `ComputeBufferType`; `Default` is what the two-argument constructor gives. */
  datatype BufferType = Default | Structured | Append | IndirectArguments

  /** A GPU compute buffer. Its element count, stride and type are fixed when it is
      created; disposing it only marks it released. `counterValue` is the hidden
      counter of an append buffer and `lights` the last light array uploaded into it. */
  class ComputeBuffer {
    const count: nat
    const stride: nat
    const bufferType: BufferType
    var name: string
    var disposed: bool
    var counterValue: nat
    var lights: seq<LightData>

    constructor (count: nat, stride: nat, bufferType: BufferType)
      ensures this.count == count && this.stride == stride && this.bufferType == bufferType
      ensures name == "" && !disposed && counterValue == 0 && lights == []
    {
      this.count := count;
      this.stride := stride;
      this.bufferType := bufferType;
      name := "";
      disposed := false;
      counterValue := 0;
      lights := [];
    }

    /** `Dispose` / `Release`: releasing an already released buffer is harmless. */
    method Dispose()
      modifies this
      ensures disposed
      ensures name == old(name) && counterValue == old(counterValue) && lights == old(lights)
    {
      disposed := true;
    }

    method SetName(n: string)
      modifies this
      ensures name == n
      ensures disposed == old(disposed) && counterValue == old(counterValue) && lights == old(lights)
    {
      name := n;
    }

    method SetCounterValue(v: nat)
      modifies this
      ensures counterValue == v
      ensures name == old(name) && disposed == old(disposed) && lights == old(lights)
    {
      counterValue := v;
    }

    /** A kernel appending n elements advances the hidden counter by n. */
    method Appended(n: nat)
      modifies this
      ensures counterValue == old(counterValue) + n
      ensures name == old(name) && disposed == old(disposed) && lights == old(lights)
    {
      counterValue := counterValue + n;
    }

    /** `SetData`: an array longer than the buffer is refused by the engine. */
    method SetData(data: seq<LightData>)
      requires |data| <= count
      modifies this
      ensures lights == data
      ensures name == old(name) && disposed == old(disposed) && counterValue == old(counterValue)
    {
      lights := data;
    }
  }
}

/** Rounding of exact reals to integers, as `Math.Floor`, `Math.Ceiling` and
    `Mathf.CeilToInt` do for values they represent exactly. */
module Rounding {

  function Floor(x: real): (r: int)
    ensures r as real <= x < r as real + 1.0
  {
    x.Floor
  }

  function Ceiling(x: real): (r: int)
    ensures x <= r as real < x + 1.0
  {
    -((-x).Floor)
  }
}

/** A command buffer is modelled by the list of commands appended to it. */
module Commands {

  datatype RenderTarget = CameraColorAttachment | ColorTarget | Temporary(id: string)

  datatype Command =
    | GetTemporaryRT(id: string, width: int, height: int)
    | ReleaseTemporaryRT(id: string)
    | Blit(source: RenderTarget, dest: RenderTarget, withMaterial: bool)
    | SetGlobalInt(name: string, value: int)
    | SetVector(name: string, x: int, y: int)
    | DispatchCompute(kernel: string, x: int, y: int, z: int)

  /** Reference for "a temporary target is used only while it is held": reading
      `log` from the front with `held` telling whether `id` is currently acquired,
      every acquire finds it free, every release finds it held, every blit that
      reads or writes it finds it held, and it is free again at the end. */
  predicate ScopedTemp(log: seq<Command>, id: string, held: bool)
    decreases |log|
  {
    if log == [] then !held
    else
      var c := log[0];
      var rest := log[1..];
      if c.GetTemporaryRT? && c.id == id then !held && ScopedTemp(rest, id, true)
      else if c.ReleaseTemporaryRT? && c.id == id then held && ScopedTemp(rest, id, false)
      else if c.Blit? && (c.source == Temporary(id) || c.dest == Temporary(id)) then held && ScopedTemp(rest, id, held)
      else ScopedTemp(rest, id, held)
  }

  /** Appending one well-scoped frame to a well-scoped history keeps it well scoped. */
  lemma {:induction false} ScopedTempConcat(a: seq<Command>, b: seq<Command>, id: string, held: bool)
    requires ScopedTemp(a, id, held)
    requires ScopedTemp(b, id, false)
    ensures ScopedTemp(a + b, id, held)
    decreases |a|
  {
    if a == [] {
      assert a + b == b;
    } else {
      assert (a + b)[0] == a[0];
      assert (a + b)[1..] == a[1..] + b;
      var c := a[0];
      if c.GetTemporaryRT? && c.id == id {
        ScopedTempConcat(a[1..], b, id, true);
      } else if c.ReleaseTemporaryRT? && c.id == id {
        ScopedTempConcat(a[1..], b, id, false);
      } else {
        ScopedTempConcat(a[1..], b, id, held);
      }
    }
  }

  /** No blit in `log` reads and writes the same target. */
  predicate NoSelfBlit(log: seq<Command>)
  {
    forall i :: 0 <= i < |log| && log[i].Blit? ==> log[i].source != log[i].dest
  }

  lemma NoSelfBlitConcat(a: seq<Command>, b: seq<Command>)
    requires NoSelfBlit(a) && NoSelfBlit(b)
    ensures NoSelfBlit(a + b)
  {
    forall i | 0 <= i < |a + b| && (a + b)[i].Blit?
      ensures (a + b)[i].source != (a + b)[i].dest
    {
      if i >= |a| {
        assert (a + b)[i] == b[i - |a|];
      }
    }
  }

  /** The ping-pong composite every pass uses: `source` through the material into the
      temporary target `temp`, then `temp` copied onto `dest`. */
  function PingPong(source: RenderTarget, temp: string, dest: RenderTarget): seq<Command>
  {
    [Blit(source, Temporary(temp), true), Blit(Temporary(temp), dest, false)]
  }

  /** A temporary target acquired before a frame's composite (none, or one ping-pong
      through it) and released after it is held exactly while it is used. */
  lemma ScopedFrame(id: string, width: int, height: int, body: seq<Command>, source: RenderTarget, dest: RenderTarget)
    requires body == [] || body == PingPong(source, id, dest)
    requires source != Temporary(id) && dest != Temporary(id)
    ensures ScopedTemp([GetTemporaryRT(id, width, height)] + body + [ReleaseTemporaryRT(id)], id, false)
  {
    var log := [GetTemporaryRT(id, width, height)] + body + [ReleaseTemporaryRT(id)];
    var release := [ReleaseTemporaryRT(id)];
    assert ScopedTemp(release[1..], id, false);
    if body == [] {
      assert log[1..] == release;
    } else {
      var tail := [body[1]] + release;
      assert tail[1..] == release;
      assert ScopedTemp(release, id, true);
      assert ScopedTemp(tail, id, true);
      assert (body + release)[1..] == tail;
      assert ScopedTemp(body + release, id, true);
      assert log[1..] == body + release;
    }
  }

  /** A command that names no render target does not affect scoping. */
  lemma ScopedSkip(c: Command, log: seq<Command>, id: string, held: bool)
    requires c.SetGlobalInt? || c.SetVector? || c.DispatchCompute?
    ensures ScopedTemp([c] + log, id, held) <==> ScopedTemp(log, id, held)
  {
    assert ([c] + log)[1..] == log;
  }

  /** Which camera is rendering: the editor's scene view, the game view's default
      viewport, a stereo (XR) camera. */
  datatype Camera = Camera(isSceneView: bool, isDefaultViewport: bool, isStereoEnabled: bool)

  /** A command buffer: the commands recorded into it, in order. */
  class CommandBuffer {
    var commands: seq<Command>

    constructor ()
      ensures commands == []
    {
      commands := [];
    }

    method Add(c: Command)
      modifies this
      ensures commands == old(commands) + [c]
    {
      commands := commands + [c];
    }
  }
}
