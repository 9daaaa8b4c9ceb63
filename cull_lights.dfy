/** Host-side light culling: gather the active lights into a fixed-capacity array,
    upload it, pack the camera frustum, size the culling dispatch and read back how
    many lights the kernel kept. */
module CullLights {
  import opened Gpu
  import opened ShaderDataCache

  /** `DeferredLightsFeature.MAX_LIGHTS`, `1 << 12`. */
  const MAX_LIGHTS: nat := 4096
  /** Lights per thread group of the culling kernel. */
  const GROUP_SIZE: nat := 64

  /** The default value of an unwritten `LightData` slot. */
  const NO_LIGHT := LightData(Vec3(0.0, 0.0, 0.0), Vec3(0.0, 0.0, 0.0), Vec2(0.0, 0.0), 0.0, 0.0)

  /** A light found in the scene: whether its game object is active, and the record
      built from its transform and settings. */
  datatype SceneLight = SceneLight(active: bool, data: LightData)

  /** The records of the active lights, in scene order. */
  function ActiveData(scene: seq<SceneLight>): (r: seq<LightData>)
    ensures |r| <= |scene|
    decreases |scene|
  {
    if scene == [] then []
    else
      var last := scene[|scene| - 1];
      ActiveData(scene[..|scene| - 1]) + if last.active then [last.data] else []
  }

  /** The positions of the active lights. */
  function ActiveIndices(scene: seq<SceneLight>): set<nat>
  {
    set i: nat | i < |scene| && scene[i].active
  }

  /** One slot per active light: the gathered count is the number of active lights. */
  lemma {:induction false} ActiveDataCount(scene: seq<SceneLight>)
    ensures |ActiveData(scene)| == |ActiveIndices(scene)|
    decreases |scene|
  {
    if scene != [] {
      var n := |scene| - 1;
      var front := scene[..n];
      ActiveDataCount(front);
      assert forall i: nat :: i < n ==> front[i] == scene[i];
      if scene[n].active {
        assert ActiveIndices(scene) == ActiveIndices(front) + {n};
      } else {
        assert ActiveIndices(scene) == ActiveIndices(front);
      }
    }
  }

  /** Inactive lights take no slot, and when every light is active each one gets the
      slot of its own position. */
  lemma {:induction false} ActiveDataAllActive(scene: seq<SceneLight>)
    requires forall i :: 0 <= i < |scene| ==> scene[i].active
    ensures |ActiveData(scene)| == |scene|
    ensures forall i :: 0 <= i < |scene| ==> ActiveData(scene)[i] == scene[i].data
    decreases |scene|
  {
    if scene != [] {
      ActiveDataAllActive(scene[..|scene| - 1]);
    }
  }

  /** A plane as the four floats the culling kernel reads. */
  function Pack(p: Plane): (v: Vec4)
    ensures Unpack(v) == p
  {
    Vec4(p.normal.x, p.normal.y, p.normal.z, p.distance)
  }

  function Unpack(v: Vec4): Plane
  {
    Plane(Vec3(v.x, v.y, v.z), v.w)
  }

  /** The culling dispatch size: one group per 64 lights, and at least one group. */
  function BatchSize(lightCount: nat): (b: nat)
    ensures b >= 1
    ensures b * GROUP_SIZE >= lightCount
    ensures b == 1 || (b - 1) * GROUP_SIZE < lightCount
  {
    var groups := (lightCount + GROUP_SIZE - 1) / GROUP_SIZE;
    if groups > 1 then groups else 1
  }

  /** The static `CullLightsHandler.LightCount`. */
  class CullLightsStatics {
    var LightCount: int

    constructor ()
      ensures LightCount == 0
    {
      LightCount := 0;
    }
  }

  class CullLightsHandler {
    const lightDatas: array<LightData>
    var lightCount: nat
    const lastFrustumPlanes: array<Vec4>
    const lightCounter: array<int>

    predicate Valid()
      reads this
    {
      && lightDatas.Length == MAX_LIGHTS
      && lastFrustumPlanes.Length == 6
      && lightCounter.Length == 1
      && lightCount <= MAX_LIGHTS
      && lightDatas != lastFrustumPlanes as object && lightDatas != lightCounter as object
    }

    constructor ()
      ensures Valid() && fresh(lightDatas) && fresh(lastFrustumPlanes) && fresh(lightCounter)
      ensures lightCount == 0 && lightCounter[0] == 0
      ensures forall i :: 0 <= i < MAX_LIGHTS ==> lightDatas[i] == NO_LIGHT
    {
      lightDatas := new LightData[MAX_LIGHTS](_ => NO_LIGHT);
      lightCount := 0;
      lastFrustumPlanes := new Vec4[6](_ => Vec4(0.0, 0.0, 0.0, 0.0));
      lightCounter := new int[1](_ => 0);
    }

    /** `PrepareLightDataBuffer`: the active lights go, in order, into the first
        slots; the other slots keep what they held; the whole array is uploaded into a
        light buffer of at least `MAX_LIGHTS` elements. With more than `MAX_LIGHTS`
        active lights the write after the last slot throws: `ok` is false, the slots
        hold the first `MAX_LIGHTS` active lights and nothing is uploaded. */
    method PrepareLightDataBuffer(scene: seq<SceneLight>, sd: ShaderData) returns (ok: bool)
      requires Valid()
      modifies this, lightDatas, sd, sd.Buffer(LightsData)
      ensures Valid()
      ensures ok <==> |ActiveData(scene)| <= MAX_LIGHTS
      ensures ok ==> lightCount == |ActiveData(scene)| && lightDatas[..lightCount] == ActiveData(scene)
      ensures ok ==> forall i :: lightCount <= i < MAX_LIGHTS ==> lightDatas[i] == old(lightDatas[i])
      ensures ok ==> var b := sd.Buffer(LightsData); b != null && b.count >= MAX_LIGHTS && b.lights == lightDatas[..]
      ensures ok ==> forall t :: t != LightsData ==> sd.Buffer(t) == old(sd.Buffer(t))
      ensures !ok ==> lightCount == MAX_LIGHTS && lightDatas[..] == ActiveData(scene)[..MAX_LIGHTS]
      ensures ok ==> sd.Buffer(LightsData) == old(sd.Buffer(LightsData)) || fresh(sd.Buffer(LightsData))
      ensures !ok ==> unchanged(sd) && (sd.Buffer(LightsData) != null ==> unchanged(sd.Buffer(LightsData)))
    {
      ok := GatherActive(scene);
      if ok {
        var lightDataBuffer := sd.GetLightsDataBuffer(MAX_LIGHTS);
        lightDataBuffer.SetData(lightDatas[..]);
      }
    }

    /** The loop of `PrepareLightDataBuffer`: each active light is written into the
        next free slot; the write after the last slot throws (`ok` false). */
    method GatherActive(scene: seq<SceneLight>) returns (ok: bool)
      requires Valid()
      modifies this, lightDatas
      ensures Valid()
      ensures ok <==> |ActiveData(scene)| <= MAX_LIGHTS
      ensures ok ==> lightCount == |ActiveData(scene)| && lightDatas[..lightCount] == ActiveData(scene)
      ensures ok ==> forall i :: lightCount <= i < MAX_LIGHTS ==> lightDatas[i] == old(lightDatas[i])
      ensures !ok ==> lightCount == MAX_LIGHTS && lightDatas[..] == ActiveData(scene)[..MAX_LIGHTS]
    {
      lightCount := 0;
      var n := 0;
      ghost var acc: seq<LightData> := [];
      while n < |scene|
        invariant 0 <= n <= |scene|
        invariant acc == ActiveData(scene[..n])
        invariant lightCount == |acc| <= MAX_LIGHTS
        invariant forall i :: 0 <= i < lightCount ==> lightDatas[i] == acc[i]
        invariant forall i :: lightCount <= i < MAX_LIGHTS ==> lightDatas[i] == old(lightDatas[i])
        invariant Valid()
      {
        var ld := scene[n];
        ActiveDataStep(scene, n);
        if ld.active {
          if lightCount == MAX_LIGHTS {
            ActiveDataOverflow(scene, n);
            assert lightDatas[..] == acc;
            return false;
          }
          lightDatas[lightCount] := ld.data;
          lightCount := lightCount + 1;
          acc := acc + [ld.data];
        }
        n := n + 1;
      }
      assert scene[..n] == scene;
      assert lightDatas[..lightCount] == acc;
      ok := true;
    }

    /** `CreateCameraFrustum`: slot i gets plane i packed, for the six planes the
        engine computes for the camera. */
    method CreateCameraFrustum(planes: seq<Plane>)
      requires Valid()
      requires |planes| == 6
      modifies lastFrustumPlanes
      ensures forall i :: 0 <= i < 6 ==> lastFrustumPlanes[i] == Pack(planes[i])
    {
      lastFrustumPlanes[0] := Pack(planes[0]);
      lastFrustumPlanes[1] := Pack(planes[1]);
      lastFrustumPlanes[2] := Pack(planes[2]);
      lastFrustumPlanes[3] := Pack(planes[3]);
      lastFrustumPlanes[4] := Pack(planes[4]);
      lastFrustumPlanes[5] := Pack(planes[5]);
    }

    /** `CullLights`. The culling kernel's work is the input `visible`: the number of
        lights it appends, which is at most the number it was given. The append
        counter is reset first, so the count read back and published is exactly
        `visible`; the dispatch has `BatchSize(lightCount)` groups. */
    method CullLights(scene: seq<SceneLight>, planes: seq<Plane>, visible: nat, sd: ShaderData, statics: CullLightsStatics)
      returns (ok: bool, batch: nat)
      requires Valid()
      requires |planes| == 6
      requires visible <= |ActiveData(scene)|
      modifies this, lightDatas, lastFrustumPlanes, lightCounter, statics
      modifies sd, sd.Buffer(LightsData), sd.Buffer(CullLightsOutput), sd.Buffer(LightCountRead)
      ensures Valid()
      ensures ok <==> |ActiveData(scene)| <= MAX_LIGHTS
      ensures ok ==> lightCount == |ActiveData(scene)| && lightDatas[..lightCount] == ActiveData(scene)
      ensures ok ==> forall i :: 0 <= i < 6 ==> lastFrustumPlanes[i] == Pack(planes[i])
      ensures ok ==> batch == BatchSize(lightCount)
      ensures ok ==> var out := sd.Buffer(CullLightsOutput);
                     out != null && out.count >= MAX_LIGHTS && out.counterValue == visible
      ensures ok ==> forall i :: lightCount <= i < MAX_LIGHTS ==> lightDatas[i] == old(lightDatas[i])
      ensures ok ==> var b := sd.Buffer(LightsData); b != null && b.count >= MAX_LIGHTS && b.lights == lightDatas[..]
      ensures ok ==> lightCounter[0] == visible && statics.LightCount == visible
      ensures ok ==> forall t :: t != LightsData && t != CullLightsOutput && t != LightCountRead ==>
                       sd.Buffer(t) == old(sd.Buffer(t))
      ensures !ok ==> lightCount == MAX_LIGHTS && lightDatas[..] == ActiveData(scene)[..MAX_LIGHTS]
      ensures !ok ==> unchanged(lastFrustumPlanes, lightCounter, statics, sd)
      ensures !ok ==> forall t :: sd.Buffer(t) != null ==> unchanged(sd.Buffer(t))
    {
      ok := PrepareLightDataBuffer(scene, sd);
      if !ok {
        return false, 0;
      }
      CreateCameraFrustum(planes);
      var lightDataBuffer := sd.GetLightsDataBuffer(0);
      batch := BatchSize(lightCount);
      CountVisible(visible, sd, statics);
    }

    /** The counter part of `CullLights`: the output buffer's append counter is reset,
        the kernel appends `visible` lights, and the counter is read back into
        `lightCounter[0]` and published as the static `LightCount`. */
    method CountVisible(visible: nat, sd: ShaderData, statics: CullLightsStatics)
      requires lightCounter.Length == 1
      modifies lightCounter, statics, sd, sd.Buffer(CullLightsOutput), sd.Buffer(LightCountRead)
      ensures var out := sd.Buffer(CullLightsOutput);
              out != null && out.count >= MAX_LIGHTS && out.counterValue == visible
      ensures lightCounter[0] == visible && statics.LightCount == visible
      ensures forall t :: t != CullLightsOutput && t != LightCountRead ==> sd.Buffer(t) == old(sd.Buffer(t))
      ensures var lights := old(sd.Buffer(LightsData)); lights != null ==> lights.lights == old(lights.lights)
    {
      var outputDataBuffer := sd.GetCullLightsOutputBuffer(MAX_LIGHTS);
      outputDataBuffer.SetCounterValue(0);
      outputDataBuffer.Appended(visible);
      var lightCountBuffer := sd.GetLightCountReadBuffer();
      lightCounter[0] := outputDataBuffer.counterValue;
      statics.LightCount := lightCounter[0];
    }
  }

  /** One more light of the scene adds its record when it is active. */
  lemma ActiveDataStep(scene: seq<SceneLight>, n: nat)
    requires n < |scene|
    ensures ActiveData(scene[..n + 1]) == ActiveData(scene[..n]) + if scene[n].active then [scene[n].data] else []
  {
    ActiveDataGrows(scene, n + 1);
    assert scene[..n + 1][..n] == scene[..n];
  }

  /** An active light found once `MAX_LIGHTS` are gathered means there are more active
      lights than slots, and the slots hold the first `MAX_LIGHTS` of them. */
  lemma ActiveDataOverflow(scene: seq<SceneLight>, n: nat)
    requires n < |scene| && scene[n].active
    requires |ActiveData(scene[..n])| == MAX_LIGHTS
    ensures |ActiveData(scene)| > MAX_LIGHTS
    ensures ActiveData(scene)[..MAX_LIGHTS] == ActiveData(scene[..n])
  {
    ActiveDataStep(scene, n);
    ActiveDataPrefix(scene, n, MAX_LIGHTS);
    ActiveDataPrefix(scene, n + 1, MAX_LIGHTS + 1);
  }

  lemma {:induction false} ActiveDataGrows(scene: seq<SceneLight>, n: nat)
    requires 0 < n <= |scene|
    ensures ActiveData(scene[..n]) == ActiveData(scene[..n - 1]) + if scene[n - 1].active then [scene[n - 1].data] else []
  {
    assert scene[..n][..n - 1] == scene[..n - 1];
  }

  /** The active records of a prefix are a prefix of the active records. */
  lemma {:induction false} ActiveDataPrefix(scene: seq<SceneLight>, n: nat, k: nat)
    requires n <= |scene|
    requires k == |ActiveData(scene[..n])|
    ensures k <= |ActiveData(scene)| && ActiveData(scene)[..k] == ActiveData(scene[..n])
    decreases |scene| - n
  {
    if n == |scene| {
      assert scene[..n] == scene;
    } else {
      ActiveDataGrows(scene, n + 1);
      ActiveDataPrefix(scene, n + 1, |ActiveData(scene[..n + 1])|);
    }
  }
}
