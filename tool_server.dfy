/**
 * The request handlers of src/index.ts: `tools/list` announces the one
 * tool, and `tools/call` checks the request, in a fixed order, before it
 * hands the arguments to `reactToVideoTool`.
 */
module ToolServer {
  import opened Outcomes
  import opened JsValues
  import opened Files
  import opened ReactToVideo

  /** The handler of `tools/list`: it announces exactly one tool, `react_code_to_video`. */
  function ListTools(): (tools: seq<Tool>)
    ensures |tools| == 1
    ensures forall t :: t in tools ==> t.name == ToolName
  {
    [ToolDescriptor]
  }

  /** `request.params` of a `tools/call` request; an absent `arguments` is `Undefined`. */
  datatype CallToolRequest = CallToolRequest(name: string, arguments: JsValue)

  /** What the handler does with a request: throw, or render these arguments. */
  datatype Decision = Reject(error: Error) | Render(args: VideoArgs)

  const NoArguments: Error := Error("No arguments provided")
  const InvalidArguments: Error := Error("Invalid arguments for react_code_to_video")

  function UnknownTool(name: string): Error {
    Error("Unknown tool: " + name)
  }

  /**
   * The decision of the `tools/call` handler. Missing arguments are reported
   * before the name is looked at, and the name before the arguments are
   * validated; only a request that passes all three reaches the renderer.
   */
  function Dispatch(req: CallToolRequest): (d: Decision)
    ensures d.Render? <==> Truthy(req.arguments) && req.name == ToolName && IsReactToVideoToolArgs(req.arguments)
    ensures !Truthy(req.arguments) ==> d == Reject(NoArguments)
    ensures Truthy(req.arguments) && req.name != ToolName ==> d == Reject(UnknownTool(req.name))
    ensures Truthy(req.arguments) && req.name == ToolName && d.Reject? ==> d == Reject(InvalidArguments)
    ensures d.Render? ==>
      && Get(req.arguments, "code") == Str(d.args.code)
      && Get(req.arguments, "width") == Number(d.args.width)
      && Get(req.arguments, "height") == Number(d.args.height)
      && Get(req.arguments, "duration") == Number(d.args.duration)
      && Get(req.arguments, "fps") == d.args.fps
  {
    if !Truthy(req.arguments) then Reject(NoArguments)
    else if req.name != ToolName then Reject(UnknownTool(req.name))
    else if !IsReactToVideoToolArgs(req.arguments) then Reject(InvalidArguments)
    else Render(AsVideoArgs(req.arguments))
  }

  /** The response of a `tools/call` that resolved. */
  datatype CallToolResult = CallToolResult(result: Path)

  /**
   * The `tools/call` handler: the checks, then `reactToVideoTool`, whose
   * error, if any, is rethrown unchanged. A rejected request touches no file
   * and calls no engine.
   */
  method HandleCallTool(req: CallToolRequest, tmpDir: Path, files: FileMap, env: Engines)
    returns (response: Result<CallToolResult>, files': FileMap, trace: seq<Effect>)
    ensures Dispatch(req).Reject? ==> response == Err(Dispatch(req).error) && files' == files && trace == []
    ensures Dispatch(req).Render? ==>
      var run := Pipeline(WithDefaultFps(Dispatch(req).args), tmpDir, files, env);
      && files' == run.files
      && trace == run.trace
      && (response.Ok? <==> run.result.Ok?)
      && (response.Err? ==> response.error == run.result.error)
    ensures response.Ok? ==> response.value.result == Join(tmpDir, "output.mp4")
  {
    files', trace := files, [];
    if !Truthy(req.arguments) {
      return Err(NoArguments), files', trace;
    }
    if req.name == ToolName {
      if !IsReactToVideoToolArgs(req.arguments) {
        return Err(InvalidArguments), files', trace;
      }
      var args := AsVideoArgs(req.arguments);
      var run := ReactToVideoTool(args, tmpDir, files, env);
      PipelineSucceeds(WithDefaultFps(args), tmpDir, files, env);
      files', trace := run.files, run.trace;
      match run.result
      case Ok(videoPath) => response := Ok(CallToolResult(videoPath));
      case Err(e) => response := Err(e);
    } else {
      response := Err(UnknownTool(req.name));
    }
  }

  // ----- Properties ------------------------------------------------------

  /** A name is reported unknown exactly when no listed tool carries it. */
  lemma UnknownIffNotListed(req: CallToolRequest)
    requires Truthy(req.arguments)
    ensures Dispatch(req) == Reject(UnknownTool(req.name)) <==> forall t :: t in ListTools() ==> t.name != req.name
  {
  }

  /**
   * A call is rendered exactly when it names a listed tool and its arguments
   * hold every property that tool's schema requires, with the declared type.
   */
  lemma DispatchFollowsListedSchema(req: CallToolRequest)
    ensures Dispatch(req).Render? <==>
      exists t :: t in ListTools() && t.name == req.name && Conforms(req.arguments, t.inputSchema)
  {
    ValidatorFollowsSchema(req.arguments);
    assert ListTools()[0] == ToolDescriptor;
  }

  /**
   * The schema announces `fps` as a number, but nothing checks it: a call
   * that is rendered is still rendered with any other `fps`, which reaches
   * the renderer as given, a string included.
   */
  lemma AnyFpsIsRendered(properties: map<string, JsValue>, fps: JsValue)
    requires Dispatch(CallToolRequest(ToolName, Object(properties))).Render?
    ensures var d := Dispatch(CallToolRequest(ToolName, Object(properties["fps" := fps])));
      d.Render? && d.args.fps == fps
    ensures var d := Dispatch(CallToolRequest(ToolName, Object(properties["fps" := fps])));
      var fpsSchema := ToolDescriptor.inputSchema.properties[4];
      fpsSchema.name == "fps" && (!fps.Number? && !fps.Undefined? ==> TypeOf(d.args.fps) != fpsSchema.jsonType)
  {
    ValidatorIgnoresFps(properties, fps);
  }
}
