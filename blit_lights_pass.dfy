/** The pass that composites the (low-resolution) lighting result onto the camera's
    colour target. */
module BlitLights {
  import opened Commands

  const BLIT_TEMP := "_BlitLightTemp"

  /** The commands `Execute` submits for one camera: nothing when the deferred pass is
      off; for the scene view a composite exactly when it is enabled there; for any
      other camera a composite exactly when it renders the default viewport or in
      stereo. A composite is the attachment through the lighting material into the
      temporary target, then the temporary target onto the colour target. */
  function ExecuteLog(deferredPassOn: bool, showInSceneView: bool, camera: Camera): (log: seq<Command>)
    ensures !deferredPassOn ==> log == []
    ensures camera.isSceneView ==> (log != [] <==> deferredPassOn && showInSceneView)
    ensures !camera.isSceneView ==> (log != [] <==> deferredPassOn && (camera.isDefaultViewport || camera.isStereoEnabled))
    ensures log == [] || log == PingPong(CameraColorAttachment, BLIT_TEMP, ColorTarget)
    ensures NoSelfBlit(log)
  {
    if !deferredPassOn then []
    else if camera.isSceneView then
      (if showInSceneView then PingPong(CameraColorAttachment, BLIT_TEMP, ColorTarget) else [])
    else if camera.isDefaultViewport || camera.isStereoEnabled then
      PingPong(CameraColorAttachment, BLIT_TEMP, ColorTarget)
    else []
  }

  class BlitLightsPass {
    /** `Settings.DeferredPassOn` and `Settings.ShowInSceneView`. */
    const deferredPassOn: bool
    const showInSceneView: bool

    constructor (deferredPassOn: bool, showInSceneView: bool)
      ensures this.deferredPassOn == deferredPassOn && this.showInSceneView == showInSceneView
    {
      this.deferredPassOn := deferredPassOn;
      this.showInSceneView := showInSceneView;
    }

    /** `Configure`: acquire the temporary target at the camera target's size. */
    method Configure(cmd: CommandBuffer, width: int, height: int)
      modifies cmd
      ensures cmd.commands == old(cmd.commands) + [GetTemporaryRT(BLIT_TEMP, width, height)]
    {
      cmd.Add(GetTemporaryRT(BLIT_TEMP, width, height));
    }

    /** `Execute`: the blits recorded into a fresh command buffer and submitted. */
    method Execute(camera: Camera) returns (submitted: seq<Command>)
      ensures submitted == ExecuteLog(deferredPassOn, showInSceneView, camera)
    {
      var cmd := new CommandBuffer();
      if deferredPassOn {
        if camera.isSceneView {
          if showInSceneView {
            cmd.Add(Blit(CameraColorAttachment, Temporary(BLIT_TEMP), true));
            cmd.Add(Blit(Temporary(BLIT_TEMP), ColorTarget, false));
          }
        } else if camera.isDefaultViewport || camera.isStereoEnabled {
          cmd.Add(Blit(CameraColorAttachment, Temporary(BLIT_TEMP), true));
          cmd.Add(Blit(Temporary(BLIT_TEMP), ColorTarget, false));
        }
      }
      submitted := cmd.commands;
    }

    /** `FrameCleanup`: release the temporary target. */
    method FrameCleanup(cmd: CommandBuffer)
      modifies cmd
      ensures cmd.commands == old(cmd.commands) + [ReleaseTemporaryRT(BLIT_TEMP)]
    {
      cmd.Add(ReleaseTemporaryRT(BLIT_TEMP));
    }
  }

  /** One frame of the pass, in the order the renderer runs it: the temporary target
      is held exactly while the composite uses it, and no blit reads its own
      destination. */
  method Frame(pass: BlitLightsPass, camera: Camera, width: int, height: int) returns (timeline: seq<Command>)
    ensures ScopedTemp(timeline, BLIT_TEMP, false)
    ensures NoSelfBlit(timeline)
    ensures timeline == [GetTemporaryRT(BLIT_TEMP, width, height)] + ExecuteLog(pass.deferredPassOn, pass.showInSceneView, camera) + [ReleaseTemporaryRT(BLIT_TEMP)]
  {
    var setup := new CommandBuffer();
    pass.Configure(setup, width, height);
    var submitted := pass.Execute(camera);
    var cleanup := new CommandBuffer();
    pass.FrameCleanup(cleanup);
    assert setup.commands == [GetTemporaryRT(BLIT_TEMP, width, height)];
    assert cleanup.commands == [ReleaseTemporaryRT(BLIT_TEMP)];
    timeline := setup.commands + submitted + cleanup.commands;
    ScopedFrame(BLIT_TEMP, width, height, submitted, CameraColorAttachment, ColorTarget);
  }
}
