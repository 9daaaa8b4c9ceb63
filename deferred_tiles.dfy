/** Tile binning set-up: the tile grid derived from the camera target, the dispatch
    group counts remembered across frames with their "changed" flag, the three tile
    buffers, and the commands the pass records. */
module DeferredTiles {
  import opened Gpu
  import opened Commands
  import opened Rounding

  /** Pixels per tile side. */
  const TILE_SIZE: nat := 16
  /** One tile per 16x16 block of a 2560x1440 target. */
  const MAX_TILES: nat := (2560 * 1440) / (TILE_SIZE * TILE_SIZE)
  /** Up to 256 light indices per tile. */
  const MAX_LIGHTS_PER_TILE: nat := MAX_TILES * 256

  const TILE_DATA_ID := "_TileData"
  const TILE_FRUSTUM_KERNEL := "ComputeTileFrustum"
  const LIGHT_TILES_KERNEL := "ComputeLightTiles"

  lemma CapacityConstants()
    ensures MAX_TILES == 14400 == 160 * 90
    ensures MAX_LIGHTS_PER_TILE == 3686400
  {
  }

  /** Tiles along one side of a target of `scaled` pixels: the smallest count whose
      tiles cover it. */
  function TileCount(scaled: real): (n: int)
    ensures (n - 1) as real * 16.0 < scaled <= n as real * 16.0
  {
    Ceiling(scaled / 16.0)
  }

  /** Thread groups along one side for `tiles` tiles, 16 per group. */
  function GroupCount(tiles: int): (g: int)
    ensures (g - 1) * 16 < tiles <= g * 16
  {
    Ceiling(tiles as real / 16.0)
  }

  /** The scaled render size, before rounding. */
  function Scaled(pixels: int, multiplier: real): real
  {
    pixels as real * multiplier
  }

  lemma ProductBound(a: int, b: int, ma: int, mb: int)
    requires 0 <= a <= ma && 0 <= b <= mb
    ensures a * b <= ma * mb
  {
    assert a * b <= ma * b;
    assert ma * b <= ma * mb;
  }

  /** A scaled target of at most 2560x1440 pixels has at most `MAX_TILES` tiles, and
      exactly 2560x1440 fills them all. */
  lemma GridFitsMaxTiles(scaledW: real, scaledH: real)
    requires 0.0 <= scaledW <= 2560.0 && 0.0 <= scaledH <= 1440.0
    ensures 0 <= TileCount(scaledW) <= 160 && 0 <= TileCount(scaledH) <= 90
    ensures TileCount(scaledW) * TileCount(scaledH) <= MAX_TILES
    ensures scaledW == 2560.0 && scaledH == 1440.0 ==> TileCount(scaledW) * TileCount(scaledH) == MAX_TILES
  {
    ProductBound(TileCount(scaledW), TileCount(scaledH), 160, 90);
  }

  /** A non-empty target needs at least one group on each side. */
  lemma NonEmptyNeedsGroups(scaled: real)
    requires scaled > 0.0
    ensures TileCount(scaled) >= 1 && GroupCount(TileCount(scaled)) >= 1
  {
  }

  /** `DeferredTilesBuffers`: the three tile buffers, created together. */
  class DeferredTilesBuffers {
    const LightIndexBuffer: ComputeBuffer
    const LightIndexCounterBuffer: ComputeBuffer
    const FrustumDataBuffer: ComputeBuffer

    /** Each buffer is created exactly once, live and named, with its capacity. */
    constructor ()
      ensures fresh(LightIndexBuffer) && fresh(LightIndexCounterBuffer) && fresh(FrustumDataBuffer)
      ensures FrustumDataBuffer.count == MAX_TILES && FrustumDataBuffer.stride == 64
      ensures LightIndexBuffer.count == MAX_LIGHTS_PER_TILE && LightIndexBuffer.stride == 4
      ensures LightIndexCounterBuffer.count == 1 && LightIndexCounterBuffer.stride == 4
      ensures FrustumDataBuffer.name == "FrustumDataBuffer" && LightIndexBuffer.name == "LightIndexBuffer"
      ensures LightIndexCounterBuffer.name == "LightIndexCounterBuffer"
      ensures !FrustumDataBuffer.disposed && !LightIndexBuffer.disposed && !LightIndexCounterBuffer.disposed
      ensures FrustumDataBuffer.bufferType == LightIndexBuffer.bufferType == LightIndexCounterBuffer.bufferType == Default
    {
      var frustum := new ComputeBuffer(MAX_TILES, 4 * 4 * 4, Default);
      frustum.name := "FrustumDataBuffer";
      var index := new ComputeBuffer(MAX_LIGHTS_PER_TILE, 4, Default);
      index.name := "LightIndexBuffer";
      var counter := new ComputeBuffer(1, 4, Default);
      counter.name := "LightIndexCounterBuffer";
      FrustumDataBuffer := frustum;
      LightIndexBuffer := index;
      LightIndexCounterBuffer := counter;
    }

    /** `Dispose`: all three buffers are released. */
    method Dispose()
      modifies LightIndexBuffer, LightIndexCounterBuffer, FrustumDataBuffer
      ensures LightIndexBuffer.disposed && LightIndexCounterBuffer.disposed && FrustumDataBuffer.disposed
      ensures forall b :: b in {LightIndexBuffer, LightIndexCounterBuffer, FrustumDataBuffer} ==>
                b.name == old(b.name) && b.counterValue == old(b.counterValue) && b.lights == old(b.lights)
    {
      LightIndexBuffer.Dispose();
      LightIndexCounterBuffer.Dispose();
      FrustumDataBuffer.Dispose();
    }
  }

  class DeferredTilesPass {
    /** `Settings.ResolutionMultiplier`. */
    const resolutionMultiplier: real
    var computeBuffers: DeferredTilesBuffers?
    var lightDataBuffer: ComputeBuffer?
    var tileDispatchX: int
    var tileDispatchY: int
    var width: int
    var height: int
    var refreshTiles: bool

    constructor (resolutionMultiplier: real)
      ensures this.resolutionMultiplier == resolutionMultiplier
      ensures tileDispatchX == 0 && tileDispatchY == 0 && width == 0 && height == 0 && !refreshTiles
      ensures computeBuffers == null && lightDataBuffer == null
    {
      this.resolutionMultiplier := resolutionMultiplier;
      computeBuffers := null;
      lightDataBuffer := null;
      tileDispatchX, tileDispatchY := 0, 0;
      width, height := 0, 0;
      refreshTiles := false;
    }

    /** `SetBuffers`. */
    method SetBuffers(lightDataBuffer: ComputeBuffer?, buffers: DeferredTilesBuffers?)
      modifies this
      ensures this.lightDataBuffer == lightDataBuffer && computeBuffers == buffers
      ensures tileDispatchX == old(tileDispatchX) && tileDispatchY == old(tileDispatchY)
      ensures width == old(width) && height == old(height) && refreshTiles == old(refreshTiles)
    {
      this.lightDataBuffer := lightDataBuffer;
      computeBuffers := buffers;
    }

    /** `Configure`: the grid covers the scaled target, the group counts cover the
        grid, `refreshTiles` says whether either group count differs from the one
        remembered from the previous frame, and the tile-data target is acquired at
        the grid's size. The kernel parameters that follow read the tile buffers:
        without them (`computeBuffers` null) that read throws, after all of the
        above has happened, and `ok` is false. */
    method Configure(cmd: CommandBuffer, targetWidth: int, targetHeight: int) returns (ok: bool)
      modifies this, cmd
      ensures ok <==> computeBuffers != null
      ensures width == TileCount(Scaled(targetWidth, resolutionMultiplier))
      ensures height == TileCount(Scaled(targetHeight, resolutionMultiplier))
      ensures tileDispatchX == GroupCount(width) && tileDispatchY == GroupCount(height)
      ensures refreshTiles <==> tileDispatchX != old(tileDispatchX) || tileDispatchY != old(tileDispatchY)
      ensures cmd.commands == old(cmd.commands) + [GetTemporaryRT(TILE_DATA_ID, width, height)]
      ensures computeBuffers == old(computeBuffers) && lightDataBuffer == old(lightDataBuffer)
    {
      width := TileCount(Scaled(targetWidth, resolutionMultiplier));
      height := TileCount(Scaled(targetHeight, resolutionMultiplier));
      var newTileDispatchX := GroupCount(width);
      var newTileDispatchY := GroupCount(height);
      refreshTiles := newTileDispatchX != tileDispatchX || newTileDispatchY != tileDispatchY;
      tileDispatchX := newTileDispatchX;
      tileDispatchY := newTileDispatchY;
      cmd.Add(GetTemporaryRT(TILE_DATA_ID, width, height));
      ok := computeBuffers != null;
    }

    /** `Execute`: the submitted commands. The tile-frustum kernel is dispatched on
        every frame, whatever `refreshTiles` says, and both kernels run one group per
        tile; the group counts are only handed on as parameters. */
    method Execute() returns (submitted: seq<Command>)
      ensures |submitted| == 4
      ensures submitted[2] == DispatchCompute(TILE_FRUSTUM_KERNEL, width, height, 1)
      ensures submitted[3] == DispatchCompute(LIGHT_TILES_KERNEL, width, height, 1)
      ensures submitted[..2] == [SetVector("_NumThreads", width, height), SetVector("_NumThreadGroups", tileDispatchX, tileDispatchY)]
    {
      var cmd := new CommandBuffer();
      cmd.Add(SetVector("_NumThreads", width, height));
      cmd.Add(SetVector("_NumThreadGroups", tileDispatchX, tileDispatchY));
      cmd.Add(DispatchCompute(TILE_FRUSTUM_KERNEL, width, height, 1));
      cmd.Add(DispatchCompute(LIGHT_TILES_KERNEL, width, height, 1));
      submitted := cmd.commands;
    }

    /** `FrameCleanup`: drop both buffer references and release the tile-data target. */
    method FrameCleanup(cmd: CommandBuffer)
      modifies this, cmd
      ensures lightDataBuffer == null && computeBuffers == null
      ensures cmd.commands == old(cmd.commands) + [ReleaseTemporaryRT(TILE_DATA_ID)]
      ensures tileDispatchX == old(tileDispatchX) && tileDispatchY == old(tileDispatchY)
      ensures width == old(width) && height == old(height) && refreshTiles == old(refreshTiles)
    {
      lightDataBuffer := null;
      computeBuffers := null;
      cmd.Add(ReleaseTemporaryRT(TILE_DATA_ID));
    }
  }

  /** The first frame on a non-empty target refreshes; a second `Configure` at the
      same size does not. */
  method ConfigureTwice(pass: DeferredTilesPass, cmd: CommandBuffer, targetWidth: int, targetHeight: int)
    returns (first: bool, second: bool)
    requires pass.tileDispatchX == 0 && pass.tileDispatchY == 0
    requires Scaled(targetWidth, pass.resolutionMultiplier) > 0.0
    modifies pass, cmd
    ensures first && !second
  {
    var _ := pass.Configure(cmd, targetWidth, targetHeight);
    NonEmptyNeedsGroups(Scaled(targetWidth, pass.resolutionMultiplier));
    first := pass.refreshTiles;
    var _ := pass.Configure(cmd, targetWidth, targetHeight);
    second := pass.refreshTiles;
  }

  /** One frame of the pass as the renderer runs it (hand over the buffers,
      configure, execute, clean up) holds the tile-data target exactly while it is
      used, and ends with both references dropped. */
  method Frame(pass: DeferredTilesPass, lightData: ComputeBuffer?, buffers: DeferredTilesBuffers, targetWidth: int, targetHeight: int)
    returns (recorded: seq<Command>, submitted: seq<Command>)
    modifies pass
    ensures ScopedTemp(recorded, TILE_DATA_ID, false)
    ensures pass.lightDataBuffer == null && pass.computeBuffers == null
  {
    pass.SetBuffers(lightData, buffers);
    var cmd := new CommandBuffer();
    var ok := pass.Configure(cmd, targetWidth, targetHeight);
    assert ok;
    submitted := pass.Execute();
    pass.FrameCleanup(cmd);
    recorded := cmd.commands;
    assert recorded[1..][1..] == [];
  }

  /** Without a `SetBuffers` since the last clean-up (or since construction),
      `Configure` throws after acquiring the tile-data target, so the frame stops
      with the target acquired and never released. */
  method FrameWithoutBuffers(pass: DeferredTilesPass, targetWidth: int, targetHeight: int) returns (ok: bool, recorded: seq<Command>)
    requires pass.computeBuffers == null
    modifies pass
    ensures !ok
    ensures |recorded| == 1 && recorded[0].GetTemporaryRT? && recorded[0].id == TILE_DATA_ID
    ensures !ScopedTemp(recorded, TILE_DATA_ID, false)
  {
    var cmd := new CommandBuffer();
    ok := pass.Configure(cmd, targetWidth, targetHeight);
    recorded := cmd.commands;
    assert recorded[1..] == [];
  }
}
