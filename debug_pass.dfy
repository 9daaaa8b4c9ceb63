/** The debug view pass: when a debug mode is active, the colour target is run
    through the debug material. The mode is read from the shader global
    `_DebugMode`, which editor builds set from the settings on every frame. */
module DebugView {
  import opened Commands

  const DEBUG_TEMP := "_DebugPassTemp"
  const DEBUG_MODE_ID := "_DebugMode"

  /** `DeferredLightsFeature.DebugMode`. */
  datatype DebugMode = None | Normals | Depth | Positions | Albedo
  {
    /** The enum's integer value: `None` is the only mode stored as 0. */
    function Value(): (v: int)
      ensures 0 <= v <= 4
      ensures v == 0 <==> this == None
    {
      match this
      case None => 0
      case Normals => 1
      case Depth => 2
      case Positions => 3
      case Albedo => 4
    }
  }

  /** `Shader.GetGlobalInt`: an integer global never set reads as 0. */
  function GlobalInt(ints: map<string, int>, name: string): (value: int)
  {
    if name in ints then ints[name] else 0
  }

  /** The integer globals after the GPU runs `cmds` in order: each `SetGlobalInt` takes
      effect, nothing else touches them. */
  function ApplyAll(ints: map<string, int>, cmds: seq<Command>): (after: map<string, int>)
    decreases |cmds|
  {
    if cmds == [] then ints
    else
      var before := ApplyAll(ints, cmds[..|cmds| - 1]);
      var c := cmds[|cmds| - 1];
      if c.SetGlobalInt? then before[c.name := c.value] else before
  }

  predicate SetsNoGlobal(cmds: seq<Command>)
  {
    forall i :: 0 <= i < |cmds| ==> !cmds[i].SetGlobalInt?
  }

  /** Commands that set no global leave the globals as they were. */
  lemma {:induction false} ApplyAllUnset(ints: map<string, int>, a: seq<Command>, b: seq<Command>)
    requires SetsNoGlobal(b)
    ensures ApplyAll(ints, a + b) == ApplyAll(ints, a)
    decreases |b|
  {
    if b != [] {
      var front := b[..|b| - 1];
      assert (a + b)[..|a + b| - 1] == a + front;
      ApplyAllUnset(ints, a, front);
    } else {
      assert a + b == a;
    }
  }

  /** The last write of a global is the one that sticks. */
  lemma LastSetWins(ints: map<string, int>, name: string, value: int, rest: seq<Command>)
    requires SetsNoGlobal(rest)
    ensures GlobalInt(ApplyAll(ints, [SetGlobalInt(name, value)] + rest), name) == value
  {
    ApplyAllUnset(ints, [SetGlobalInt(name, value)], rest);
    assert [SetGlobalInt(name, value)][..0] == [];
  }

  /** The shader globals of the engine. */
  class ShaderGlobals {
    var ints: map<string, int>

    constructor ()
      ensures ints == map[]
    {
      ints := map[];
    }

    /** `Shader.SetGlobalInt`: takes effect at once. */
    method SetInt(name: string, value: int)
      modifies this
      ensures ints == old(ints)[name := value]
    {
      ints := ints[name := value];
    }

    /** `ScriptableRenderContext.ExecuteCommandBuffer`: the commands reach the GPU, in
        order, after the pass that recorded them has returned. */
    method ExecuteCommandBuffer(cmds: seq<Command>)
      modifies this
      ensures ints == ApplyAll(old(ints), cmds)
    {
      var i := 0;
      while i < |cmds|
        invariant 0 <= i <= |cmds|
        invariant ints == ApplyAll(old(ints), cmds[..i])
      {
        assert cmds[..i + 1][..i] == cmds[..i];
        if cmds[i].SetGlobalInt? {
          ints := ints[cmds[i].name := cmds[i].value];
        }
        i := i + 1;
      }
      assert cmds[..i] == cmds;
    }
  }

  /** The composite for one camera once the mode has been read as `modeValue`: nothing
      when it is `None` (0); for the scene view a composite exactly when debugging is
      enabled there; for any other camera a composite exactly when it renders the
      default viewport. A composite is the colour target through the debug material
      into the temporary target, then back onto the colour target. */
  function Composite(modeValue: int, debugModeInSceneView: bool, camera: Camera): (log: seq<Command>)
    ensures modeValue == 0 ==> log == []
    ensures camera.isSceneView ==> (log != [] <==> modeValue != 0 && debugModeInSceneView)
    ensures !camera.isSceneView ==> (log != [] <==> modeValue != 0 && camera.isDefaultViewport)
    ensures log == [] || log == PingPong(ColorTarget, DEBUG_TEMP, ColorTarget)
    ensures NoSelfBlit(log) && SetsNoGlobal(log)
  {
    if modeValue == 0 then []
    else if camera.isSceneView && debugModeInSceneView then PingPong(ColorTarget, DEBUG_TEMP, ColorTarget)
    else if camera.isDefaultViewport && !camera.isSceneView then PingPong(ColorTarget, DEBUG_TEMP, ColorTarget)
    else []
  }

  /** The mode the pass is meant to show: in an editor build the settings' mode,
      which it publishes as the global; otherwise whatever the global holds. */
  function IntendedMode(editor: bool, setting: DebugMode, ints: map<string, int>): (v: int)
    ensures editor ==> (v == 0 <==> setting == None)
  {
    if editor then setting.Value() else GlobalInt(ints, DEBUG_MODE_ID)
  }

  class DebugPass {
    /** `Settings.DebugMode` and `Settings.DebugModeInSceneView`. */
    const debugMode: DebugMode
    const debugModeInSceneView: bool
    /** Whether this is an editor build (`UNITY_EDITOR`). */
    const editor: bool

    constructor (debugMode: DebugMode, debugModeInSceneView: bool, editor: bool)
      ensures this.debugMode == debugMode && this.debugModeInSceneView == debugModeInSceneView
      ensures this.editor == editor
    {
      this.debugMode := debugMode;
      this.debugModeInSceneView := debugModeInSceneView;
      this.editor := editor;
    }

    /** The global write an editor build records in front of the composite. */
    function Publish(): seq<Command>
    {
      if editor then [SetGlobalInt(DEBUG_MODE_ID, debugMode.Value())] else []
    }

    /** `Configure`: acquire the temporary target at the camera target's size. */
    method Configure(cmd: CommandBuffer, width: int, height: int)
      modifies cmd
      ensures cmd.commands == old(cmd.commands) + [GetTemporaryRT(DEBUG_TEMP, width, height)]
    {
      cmd.Add(GetTemporaryRT(DEBUG_TEMP, width, height));
    }

    /** `Execute` as written: the global write is only recorded, so the mode it then
        reads is whatever the global held before this frame. After submission the
        global holds the settings' mode in an editor build. */
    method Execute(globals: ShaderGlobals, camera: Camera) returns (submitted: seq<Command>)
      modifies globals
      ensures submitted == Publish() + Composite(GlobalInt(old(globals.ints), DEBUG_MODE_ID), debugModeInSceneView, camera)
      ensures globals.ints == ApplyAll(old(globals.ints), submitted)
      ensures editor ==> GlobalInt(globals.ints, DEBUG_MODE_ID) == debugMode.Value()
    {
      var cmd := new CommandBuffer();
      if editor {
        cmd.Add(SetGlobalInt(DEBUG_MODE_ID, debugMode.Value()));
      }
      var mode := GlobalInt(globals.ints, DEBUG_MODE_ID);
      RecordComposite(cmd, mode, camera);
      submitted := cmd.commands;
      globals.ExecuteCommandBuffer(submitted);
      if editor {
        LastSetWins(old(globals.ints), DEBUG_MODE_ID, debugMode.Value(), Composite(mode, debugModeInSceneView, camera));
      }
    }

    /** `Execute` as intended: the composite follows the settings' mode on the very
        frame it is published. */
    method ExecuteIntended(globals: ShaderGlobals, camera: Camera) returns (submitted: seq<Command>)
      modifies globals
      ensures submitted == Publish() + Composite(IntendedMode(editor, debugMode, old(globals.ints)), debugModeInSceneView, camera)
      ensures globals.ints == ApplyAll(old(globals.ints), submitted)
      ensures editor ==> GlobalInt(globals.ints, DEBUG_MODE_ID) == debugMode.Value()
    {
      var cmd := new CommandBuffer();
      if editor {
        cmd.Add(SetGlobalInt(DEBUG_MODE_ID, debugMode.Value()));
      }
      var mode := IntendedMode(editor, debugMode, globals.ints);
      RecordComposite(cmd, mode, camera);
      submitted := cmd.commands;
      globals.ExecuteCommandBuffer(submitted);
      if editor {
        LastSetWins(old(globals.ints), DEBUG_MODE_ID, debugMode.Value(), Composite(mode, debugModeInSceneView, camera));
      }
    }

    /** The blits `Execute` records once the mode has been read as `mode`. */
    method RecordComposite(cmd: CommandBuffer, mode: int, camera: Camera)
      modifies cmd
      ensures cmd.commands == old(cmd.commands) + Composite(mode, debugModeInSceneView, camera)
    {
      if mode != 0 {
        if camera.isSceneView && debugModeInSceneView {
          cmd.Add(Blit(ColorTarget, Temporary(DEBUG_TEMP), true));
          cmd.Add(Blit(Temporary(DEBUG_TEMP), ColorTarget, false));
        } else if camera.isDefaultViewport && !camera.isSceneView {
          cmd.Add(Blit(ColorTarget, Temporary(DEBUG_TEMP), true));
          cmd.Add(Blit(Temporary(DEBUG_TEMP), ColorTarget, false));
        }
      }
    }

    /** `FrameCleanup`: release the temporary target. */
    method FrameCleanup(cmd: CommandBuffer)
      modifies cmd
      ensures cmd.commands == old(cmd.commands) + [ReleaseTemporaryRT(DEBUG_TEMP)]
    {
      cmd.Add(ReleaseTemporaryRT(DEBUG_TEMP));
    }
  }

  /** In an editor build the intended pass composites exactly when the settings'
      mode is not `None` and the camera qualifies, whatever the global held. */
  lemma IntendedFollowsSetting(debugMode: DebugMode, debugModeInSceneView: bool, ints: map<string, int>, camera: Camera)
    ensures Composite(IntendedMode(true, debugMode, ints), debugModeInSceneView, camera) != []
        <==> debugMode != None && (if camera.isSceneView then debugModeInSceneView else camera.isDefaultViewport)
  {
  }

  /** The one-frame lag of `Execute` as written: in an editor build with the settings
      on `Normals` and the game view's camera, the first frame (the global never set)
      shows no debug view; only the second frame does. */
  method FirstFrameLags() returns (first: seq<Command>, second: seq<Command>)
    ensures first == [SetGlobalInt(DEBUG_MODE_ID, 1)]
    ensures second == [SetGlobalInt(DEBUG_MODE_ID, 1)] + PingPong(ColorTarget, DEBUG_TEMP, ColorTarget)
  {
    var pass := new DebugPass(Normals, false, true);
    var globals := new ShaderGlobals();
    var game := Camera(false, true, false);
    first := pass.Execute(globals, game);
    second := pass.Execute(globals, game);
  }

  /** The intended pass shows the debug view on that first frame already. */
  method FirstFrameIntended() returns (first: seq<Command>)
    ensures first == [SetGlobalInt(DEBUG_MODE_ID, 1)] + PingPong(ColorTarget, DEBUG_TEMP, ColorTarget)
  {
    var pass := new DebugPass(Normals, false, true);
    var globals := new ShaderGlobals();
    first := pass.ExecuteIntended(globals, Camera(false, true, false));
  }

  lemma FrameWellScoped(width: int, height: int, publish: seq<Command>, body: seq<Command>)
    requires publish == [] || (|publish| == 1 && publish[0].SetGlobalInt?)
    requires body == [] || body == PingPong(ColorTarget, DEBUG_TEMP, ColorTarget)
    ensures ScopedTemp([GetTemporaryRT(DEBUG_TEMP, width, height)] + (publish + body) + [ReleaseTemporaryRT(DEBUG_TEMP)], DEBUG_TEMP, false)
    ensures NoSelfBlit([GetTemporaryRT(DEBUG_TEMP, width, height)] + (publish + body) + [ReleaseTemporaryRT(DEBUG_TEMP)])
  {
    var get := [GetTemporaryRT(DEBUG_TEMP, width, height)];
    var release := [ReleaseTemporaryRT(DEBUG_TEMP)];
    ScopedFrame(DEBUG_TEMP, width, height, body, ColorTarget, ColorTarget);
    var frame := get + body + release;
    NoSelfBlitConcat(get + publish, body);
    NoSelfBlitConcat(get + publish + body, release);
    assert get + (publish + body) + release == get + publish + body + release;
    if publish != [] {
      var timeline := get + publish + body + release;
      assert timeline == [frame[0]] + ([publish[0]] + frame[1..]);
      assert ScopedTemp(frame[1..], DEBUG_TEMP, true);
      ScopedSkip(publish[0], frame[1..], DEBUG_TEMP, true);
      assert ([frame[0]] + ([publish[0]] + frame[1..]))[1..] == [publish[0]] + frame[1..];
    } else {
      assert get + publish + body + release == frame;
    }
  }

  /** One frame of the intended pass, in the order the renderer runs it: the
      temporary target is held exactly while the composite uses it, and no blit
      reads its own destination. */
  method Frame(pass: DebugPass, globals: ShaderGlobals, camera: Camera, width: int, height: int) returns (timeline: seq<Command>)
    modifies globals
    ensures ScopedTemp(timeline, DEBUG_TEMP, false)
    ensures NoSelfBlit(timeline)
    ensures timeline == [GetTemporaryRT(DEBUG_TEMP, width, height)]
      + (pass.Publish() + Composite(IntendedMode(pass.editor, pass.debugMode, old(globals.ints)), pass.debugModeInSceneView, camera))
      + [ReleaseTemporaryRT(DEBUG_TEMP)]
  {
    ghost var body := Composite(IntendedMode(pass.editor, pass.debugMode, globals.ints), pass.debugModeInSceneView, camera);
    ghost var get := [GetTemporaryRT(DEBUG_TEMP, width, height)];
    ghost var release := [ReleaseTemporaryRT(DEBUG_TEMP)];
    var setup := new CommandBuffer();
    pass.Configure(setup, width, height);
    var submitted := pass.ExecuteIntended(globals, camera);
    var cleanup := new CommandBuffer();
    pass.FrameCleanup(cleanup);
    assert setup.commands == get && cleanup.commands == release;
    timeline := setup.commands + submitted + cleanup.commands;
    FrameWellScoped(width, height, pass.Publish(), body);
  }

  /** One frame of the pass as written: its composite follows the stale global, but
      the temporary target is still held exactly while it is used, and no blit reads
      its own destination. */
  method FrameAsWritten(pass: DebugPass, globals: ShaderGlobals, camera: Camera, width: int, height: int) returns (timeline: seq<Command>)
    modifies globals
    ensures ScopedTemp(timeline, DEBUG_TEMP, false)
    ensures NoSelfBlit(timeline)
    ensures timeline == [GetTemporaryRT(DEBUG_TEMP, width, height)]
      + (pass.Publish() + Composite(GlobalInt(old(globals.ints), DEBUG_MODE_ID), pass.debugModeInSceneView, camera))
      + [ReleaseTemporaryRT(DEBUG_TEMP)]
  {
    ghost var body := Composite(GlobalInt(globals.ints, DEBUG_MODE_ID), pass.debugModeInSceneView, camera);
    ghost var get := [GetTemporaryRT(DEBUG_TEMP, width, height)];
    ghost var release := [ReleaseTemporaryRT(DEBUG_TEMP)];
    var setup := new CommandBuffer();
    pass.Configure(setup, width, height);
    var submitted := pass.Execute(globals, camera);
    var cleanup := new CommandBuffer();
    pass.FrameCleanup(cleanup);
    assert setup.commands == get && cleanup.commands == release;
    timeline := setup.commands + submitted + cleanup.commands;
    FrameWellScoped(width, height, pass.Publish(), body);
  }
}
