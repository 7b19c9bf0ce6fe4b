/**
 * The render pipeline of src/react2video.ts: the tool descriptor, the
 * argument validator, the `fps` default, the duration-to-frame conversion,
 * and `renderVideo`, which writes a throwaway Remotion project, bundles it
 * and renders its one composition to `<tmpDir>/output.mp4`.
 */
module ReactToVideo {
  import opened Outcomes
  import opened JsValues
  import opened Files

  // ----- The tool descriptor -------------------------------------------

  /** One entry of the `properties` of a JSON Schema. */
  datatype PropertySchema = PropertySchema(name: string, jsonType: string, description: string, default: Option<int>)

  datatype InputSchema = InputSchema(schemaType: string, properties: seq<PropertySchema>, required: seq<string>)

  /** A tool as announced to clients: a name, a description and the schema of its arguments. */
  datatype Tool = Tool(name: string, description: string, inputSchema: InputSchema)

  const ToolName: string := "react_code_to_video"

  /** `REACT_TO_VIDEO_TOOL`. */
  const ToolDescriptor: Tool :=
    Tool(ToolName, "convert react code to video",
      InputSchema("object",
        [ PropertySchema("code", "string", "react code using remotion library", None),
          PropertySchema("width", "number", "width of the video", None),
          PropertySchema("height", "number", "height of the video", None),
          PropertySchema("duration", "number", "duration of the video", None),
          PropertySchema("fps", "number", "fps of the video", Some(30)) ],
        ["code", "width", "height", "duration"]))

  // ----- Validation and defaulting -------------------------------------

  /** `isReactToVideoToolArgs`: the type guard applied to an untyped payload. */
  predicate IsReactToVideoToolArgs(args: JsValue) {
    && TypeOf(args) == "object"
    && args != Null
    && HasProperty(args, "code")
    && HasProperty(args, "width")
    && HasProperty(args, "height")
    && HasProperty(args, "duration")
    && TypeOf(Get(args, "code")) == "string"
    && TypeOf(Get(args, "width")) == "number"
    && TypeOf(Get(args, "height")) == "number"
    && TypeOf(Get(args, "duration")) == "number"
  }

  /**
   * The request as the code sees it once the guard has narrowed its type.
   * `fps` is whatever the payload holds, `Undefined` when it is absent.
   */
  datatype VideoArgs = VideoArgs(code: string, width: int, height: int, duration: int, fps: JsValue)

  /** Reading the fields of a payload the guard accepted. */
  function AsVideoArgs(args: JsValue): (a: VideoArgs)
    requires IsReactToVideoToolArgs(args)
    ensures Get(args, "code") == Str(a.code)
    ensures Get(args, "width") == Number(a.width)
    ensures Get(args, "height") == Number(a.height)
    ensures Get(args, "duration") == Number(a.duration)
    ensures a.fps == Get(args, "fps")
  {
    VideoArgs(Get(args, "code").s, Get(args, "width").n, Get(args, "height").n,
              Get(args, "duration").n, Get(args, "fps"))
  }

  /** `const { code, width, height, duration, fps = 30 } = args` in `reactToVideoTool`. */
  function WithDefaultFps(args: VideoArgs): (r: VideoArgs)
    ensures r.fps != Undefined
    ensures r.(fps := args.fps) == args
    ensures args.fps != Undefined ==> r == args
    ensures args.fps == Undefined ==> r.fps == Number(30)
  {
    if args.fps == Undefined then args.(fps := Number(30)) else args
  }

  // ----- Duration to frames ---------------------------------------------

  /**
   * `Math.ceil((duration / 1000) * fps)` computed exactly: the number of
   * frames is the least integer whose 1000-fold is at least `duration * fps`.
   */
  function CeilFrames(duration: int, fps: int): (frames: int)
    ensures frames * 1000 >= duration * fps
    ensures (frames - 1) * 1000 < duration * fps
  {
    (duration * fps + 999) / 1000
  }

  /** `durationInFrames`, where `*` first converts `fps` to a number. */
  function DurationInFrames(duration: int, fps: JsValue): (frames: Num)
    ensures frames.NaN? <==> ToNumber(fps).NaN?
    ensures frames.Finite? ==>
      var f := ToNumber(fps).value;
      frames.value * 1000 >= duration * f && (frames.value - 1) * 1000 < duration * f
  {
    match ToNumber(fps)
    case NaN => NaN
    case Finite(f) => Finite(CeilFrames(duration, f))
  }

  // ----- The synthesized project ----------------------------------------

  /** One entry of the `dependencies` object of `package.json`, in order. */
  datatype Dependency = Dependency(name: string, range: string)

  datatype PackageJson = PackageJson(
    name: string, version: string, isPrivate: bool, moduleType: string,
    dependencies: seq<Dependency>)

  const Manifest: PackageJson :=
    PackageJson("remotion-video", "1.0.0", true, "module",
      [ Dependency("remotion", "^3.0.0"),
        Dependency("react", "^18.0.0"),
        Dependency("react-dom", "^18.0.0") ])

  /** What a reader of `package.json` takes the dependencies to be (a repeated name keeps its last range). */
  function DependencyMap(deps: seq<Dependency>): map<string, string> {
    if deps == [] then map[]
    else DependencyMap(deps[..|deps| - 1])[deps[|deps| - 1].name := deps[|deps| - 1].range]
  }

  datatype CompilerOptions = CompilerOptions(
    target: string, moduleKind: string, jsx: string, strict: bool,
    moduleResolution: string, esModuleInterop: bool, skipLibCheck: bool,
    forceConsistentCasingInFileNames: bool)

  datatype TsConfig = TsConfig(compilerOptions: CompilerOptions, includes: seq<string>)

  const CompilerConfig: TsConfig :=
    TsConfig(CompilerOptions("ESNext", "ESNext", "react-jsx", true, "node", true, true, true), ["src"])

  /** `src/index.ts`: imports `rootExport` from `rootModule` and passes it to `registerRoot`. */
  datatype EntryModule = EntryModule(rootModule: string, rootExport: string)

  const Entry: EntryModule := EntryModule("./Root", "Root")

  /**
   * One `<Composition .../>` element of `src/Root.tsx`. The numeric
   * attributes hold the source text the template put between their braces.
   */
  datatype CompositionDecl = CompositionDecl(
    id: string, component: string, durationInFrames: string,
    width: string, height: string, fps: string, defaultProps: map<string, JsValue>)

  /** `src/Root.tsx`: imports `component` from `componentModule` and exports `Root`, rendering `compositions`. */
  datatype RootModule = RootModule(componentModule: string, component: string, rootExport: string,
                                   compositions: seq<CompositionDecl>)

  const CompositionId: string := "MyComp"

  function RootModuleFor(args: VideoArgs, durationInFrames: Num): RootModule {
    RootModule("./MyComponent", "MyComponent", "Root",
      [CompositionDecl(CompositionId, "MyComponent", NumText(durationInFrames),
                       IntText(args.width), IntText(args.height), TemplateText(args.fps), map[])])
  }

  /** The content of a file, structured rather than serialised. */
  datatype FileContent =
    | ManifestFile(manifest: PackageJson)
    | CompilerConfigFile(config: TsConfig)
    | EntryFile(entry: EntryModule)
    | RootFile(root: RootModule)
    | SourceText(text: string)
    | VideoFile(data: string)

  type FileMap = map<Path, FileContent>

  /** The paths, relative to the temporary root, that `renderVideo` writes, in order. */
  const ProjectLayout: seq<Path> :=
    ["package.json", "tsconfig.json", "src/index.ts", "src/Root.tsx", "src/MyComponent.tsx"]

  function EntryPoint(tmpDir: Path): Path { Join(Join(tmpDir, "src"), "index.ts") }
  function RootPath(tmpDir: Path): Path { Join(Join(tmpDir, "src"), "Root.tsx") }
  function ComponentPath(tmpDir: Path): Path { Join(Join(tmpDir, "src"), "MyComponent.tsx") }
  function OutputPath(tmpDir: Path): Path { Join(tmpDir, "output.mp4") }

  /** The write of `package.json`. */
  function ManifestWrite(tmpDir: Path): Write<FileContent> {
    Write(Join(tmpDir, "package.json"), ManifestFile(Manifest))
  }
  /** The write of `tsconfig.json`. */
  function CompilerConfigWrite(tmpDir: Path): Write<FileContent> {
    Write(Join(tmpDir, "tsconfig.json"), CompilerConfigFile(CompilerConfig))
  }
  /** The write of `src/index.ts`. */
  function EntryWrite(tmpDir: Path): Write<FileContent> {
    Write(EntryPoint(tmpDir), EntryFile(Entry))
  }
  /** The write of `src/Root.tsx`. */
  function RootWrite(tmpDir: Path, args: VideoArgs, durationInFrames: Num): Write<FileContent> {
    Write(RootPath(tmpDir), RootFile(RootModuleFor(args, durationInFrames)))
  }
  /** The write of `src/MyComponent.tsx`: the caller's code, as given. */
  function ComponentWrite(tmpDir: Path, code: string): Write<FileContent> {
    Write(ComponentPath(tmpDir), SourceText(code))
  }

  /** The five writes of `renderVideo`, in the order it performs them. */
  function ProjectWrites(tmpDir: Path, args: VideoArgs): seq<Write<FileContent>> {
    [ ManifestWrite(tmpDir), CompilerConfigWrite(tmpDir), EntryWrite(tmpDir),
      RootWrite(tmpDir, args, DurationInFrames(args.duration, args.fps)), ComponentWrite(tmpDir, args.code) ]
  }

  // ----- The engines and the pipeline -----------------------------------

  /** The `composition` handed to `renderMedia`. */
  datatype VideoConfig = VideoConfig(
    id: string, width: int, height: int, fps: JsValue, durationInFrames: Num,
    defaultProps: map<string, JsValue>, props: map<string, JsValue>,
    defaultCodec: string, defaultOutName: string)

  function VideoConfigFor(args: VideoArgs, durationInFrames: Num): VideoConfig {
    VideoConfig(CompositionId, args.width, args.height, args.fps, durationInFrames,
                map[], map[], "h264", "output")
  }

  /** The argument of `renderMedia`. */
  datatype RenderJob = RenderJob(composition: VideoConfig, serveUrl: string, codec: string, outputLocation: Path)

  /** The calls `renderVideo` makes to the file system and the engines, in order. */
  datatype Effect =
    | WriteCall(write: Write<FileContent>)
    | BundleCall(entryPoint: Path, project: FileMap)
    | RenderCall(job: RenderJob)

  /**
   * What the environment answers: which writes fail, what `bundle` returns
   * for a project and an entry point, and what `renderMedia` produces (the
   * content of the video file) for a job.
   */
  datatype Engines = Engines(
    writeFault: Path -> Option<Error>,
    bundle: (FileMap, Path) -> Result<string>,
    renderMedia: RenderJob -> Result<string>)

  /** The outcome of one `renderVideo` call: its settled promise, the file map afterwards, the calls made. */
  datatype Run = Run(result: Result<Path>, files: FileMap, trace: seq<Effect>)

  function WriteCalls(ws: seq<Write<FileContent>>): (calls: seq<Effect>)
    ensures |calls| == |ws|
    ensures forall i :: 0 <= i < |ws| ==> calls[i] == WriteCall(ws[i])
  {
    seq(|ws|, i requires 0 <= i < |ws| => WriteCall(ws[i]))
  }

  /**
   * `renderVideo` as a function of its arguments, the temporary root, the
   * file map it starts from and the environment's answers. The first write
   * that fails rejects the call; otherwise the project is bundled, and only
   * a bundle that succeeds is rendered.
   */
  function Pipeline(args: VideoArgs, tmpDir: Path, files: FileMap, env: Engines): Run {
    var (failure, project, written) := WriteOutcome(files, ProjectWrites(tmpDir, args), env.writeFault);
    if failure.Some? then Run(Err(failure.value), project, written)
    else BundleAndRender(args, tmpDir, project, written, env)
  }

  /** The part of `renderVideo` after the project is written: `bundle`, then `renderMedia`. */
  function BundleAndRender(args: VideoArgs, tmpDir: Path, project: FileMap, written: seq<Effect>, env: Engines): Run {
    var entryPoint := EntryPoint(tmpDir);
    var bundled := written + [BundleCall(entryPoint, project)];
    match env.bundle(project, entryPoint)
    case Err(e) => Run(Err(e), project, bundled)
    case Ok(serveUrl) =>
      var job := JobFor(args, tmpDir, serveUrl);
      match env.renderMedia(job)
      case Err(e) => Run(Err(e), project, bundled + [RenderCall(job)])
      case Ok(video) => Run(Ok(job.outputLocation), project[job.outputLocation := VideoFile(video)],
                            bundled + [RenderCall(job)])
  }

  /** The `renderMedia` job for the bundle served at `serveUrl`. */
  function JobFor(args: VideoArgs, tmpDir: Path, serveUrl: string): RenderJob {
    RenderJob(VideoConfigFor(args, DurationInFrames(args.duration, args.fps)), serveUrl, "h264", OutputPath(tmpDir))
  }

  /** The file map `bundle` sees once all five writes have succeeded. */
  function Project(args: VideoArgs, tmpDir: Path, files: FileMap): FileMap {
    ApplyWrites(files, ProjectWrites(tmpDir, args))
  }

  /** No write of the project fails. */
  predicate WritesSucceed(tmpDir: Path, env: Engines) {
    forall i :: 0 <= i < |ProjectLayout| ==> env.writeFault(Join(tmpDir, ProjectLayout[i])).None?
  }

  /** `fs.writeFile(w.path, w.content)`. */
  method WriteFile(files: FileMap, trace: seq<Effect>, w: Write<FileContent>, env: Engines)
    returns (failure: Option<Error>, files': FileMap, trace': seq<Effect>)
    ensures failure == env.writeFault(w.path)
    ensures trace' == trace + [WriteCall(w)]
    ensures files' == if failure.None? then files[w.path := w.content] else files
  {
    trace' := trace + [WriteCall(w)];
    failure := env.writeFault(w.path);
    files' := if failure.None? then files[w.path := w.content] else files;
  }

  /** The first `n` writes of `ws` have been made, and all of them succeeded. */
  ghost predicate WroteFirst(files: FileMap, ws: seq<Write<FileContent>>, fault: Path -> Option<Error>,
                             n: nat, disk: FileMap, trace: seq<Effect>)
  {
    && n <= |ws|
    && (forall i :: 0 <= i < n ==> fault(ws[i].path).None?)
    && disk == ApplyWrites(files, ws[..n])
    && trace == WriteCalls(ws[..n])
  }

  /** The file map and calls after the writes of `ws`, stopping at the first that fails. */
  function WriteOutcome(files: FileMap, ws: seq<Write<FileContent>>, fault: Path -> Option<Error>)
    : (Option<Error>, FileMap, seq<Effect>)
  {
    var k := FirstFault(ws, fault);
    if k < |ws| then (fault(ws[k].path), ApplyWrites(files, ws[..k]), WriteCalls(ws[..k + 1]))
    else (None, ApplyWrites(files, ws), WriteCalls(ws))
  }

  /** One more write `w`, the next of `ws`, from a state where the writes before it succeeded. */
  lemma WriteNext(files: FileMap, ws: seq<Write<FileContent>>, fault: Path -> Option<Error>,
                  n: nat, disk: FileMap, trace: seq<Effect>, w: Write<FileContent>)
    requires n < |ws| && ws[n] == w && WroteFirst(files, ws, fault, n, disk, trace)
    ensures var failure := fault(w.path);
      var disk' := if failure.None? then disk[w.path := w.content] else disk;
      && (failure.None? ==> WroteFirst(files, ws, fault, n + 1, disk', trace + [WriteCall(w)]))
      && (failure.Some? ==> WriteOutcome(files, ws, fault) == (failure, disk', trace + [WriteCall(w)]))
  {
    assert ws[..n + 1][..n] == ws[..n];
    assert WriteCalls(ws[..n + 1]) == WriteCalls(ws[..n]) + [WriteCall(ws[n])];
    if fault(ws[n].path).Some? {
      assert FirstFault(ws, fault) == n;
    }
  }

  /** The project is written in full once all five writes succeeded. */
  lemma WroteAll(files: FileMap, ws: seq<Write<FileContent>>, fault: Path -> Option<Error>,
                 disk: FileMap, trace: seq<Effect>)
    requires WroteFirst(files, ws, fault, |ws|, disk, trace)
    ensures WriteOutcome(files, ws, fault) == (None, disk, trace)
  {
    assert ws[..|ws|] == ws;
    assert FirstFault(ws, fault) == |ws|;
  }

  /**
   * The five writes of `renderVideo`, in order; the first that fails ends
   * the sequence.
   */
  method WriteProject(args: VideoArgs, tmpDir: Path, files: FileMap, env: Engines)
    returns (failure: Option<Error>, disk: FileMap, trace: seq<Effect>)
    ensures (failure, disk, trace) == WriteOutcome(files, ProjectWrites(tmpDir, args), env.writeFault)
  {
    ghost var ws := ProjectWrites(tmpDir, args);
    ghost var fault := env.writeFault;
    disk, trace := files, [];
    assert WroteFirst(files, ws, fault, 0, disk, trace);

    var write := ManifestWrite(tmpDir);
    WriteNext(files, ws, fault, 0, disk, trace, write);
    failure, disk, trace := WriteFile(disk, trace, write, env);
    if failure.Some? { return; }

    write := CompilerConfigWrite(tmpDir);
    WriteNext(files, ws, fault, 1, disk, trace, write);
    failure, disk, trace := WriteFile(disk, trace, write, env);
    if failure.Some? { return; }

    write := EntryWrite(tmpDir);
    WriteNext(files, ws, fault, 2, disk, trace, write);
    failure, disk, trace := WriteFile(disk, trace, write, env);
    if failure.Some? { return; }

    var durationInFrames := DurationInFrames(args.duration, args.fps);
    write := RootWrite(tmpDir, args, durationInFrames);
    WriteNext(files, ws, fault, 3, disk, trace, write);
    failure, disk, trace := WriteFile(disk, trace, write, env);
    if failure.Some? { return; }

    write := ComponentWrite(tmpDir, args.code);
    WriteNext(files, ws, fault, 4, disk, trace, write);
    failure, disk, trace := WriteFile(disk, trace, write, env);
    if failure.Some? { return; }
    WroteAll(files, ws, fault, disk, trace);
  }

  /** `renderVideo`. */
  method RenderVideo(args: VideoArgs, tmpDir: Path, files: FileMap, env: Engines) returns (run: Run)
    ensures run == Pipeline(args, tmpDir, files, env)
  {
    var failure, disk, trace := WriteProject(args, tmpDir, files, env);
    if failure.Some? {
      return Run(Err(failure.value), disk, trace);
    }

    var srcDir := Join(tmpDir, "src");
    var entryPoint := Join(srcDir, "index.ts");
    trace := trace + [BundleCall(entryPoint, disk)];
    var bundleLocation := env.bundle(disk, entryPoint);
    if bundleLocation.Err? {
      return Run(Err(bundleLocation.error), disk, trace);
    }

    var outputPath := Join(tmpDir, "output.mp4");
    var durationInFrames := DurationInFrames(args.duration, args.fps);
    var job := RenderJob(VideoConfigFor(args, durationInFrames), bundleLocation.value, "h264", outputPath);
    trace := trace + [RenderCall(job)];
    var rendered := env.renderMedia(job);
    if rendered.Err? {
      return Run(Err(rendered.error), disk, trace);
    }
    disk := disk[outputPath := VideoFile(rendered.value)];
    return Run(Ok(outputPath), disk, trace);
  }

  /** `reactToVideoTool`: fills in the `fps` default, then runs `renderVideo`. */
  method ReactToVideoTool(args: VideoArgs, tmpDir: Path, files: FileMap, env: Engines) returns (run: Run)
    ensures run == Pipeline(WithDefaultFps(args), tmpDir, files, env)
  {
    run := RenderVideo(WithDefaultFps(args), tmpDir, files, env);
  }

  // ----- Properties ------------------------------------------------------

  /** `name` is an own property of `properties` whose value has `typeof` equal to `jsonType`. */
  predicate HasTyped(properties: map<string, JsValue>, name: string, jsonType: string) {
    name in properties && TypeOf(properties[name]) == jsonType
  }

  /** `args` is an object holding every required property of `schema`, with the type `schema` declares for it. */
  predicate Conforms(args: JsValue, schema: InputSchema) {
    && args.Object?
    && forall i :: 0 <= i < |schema.properties| && schema.properties[i].name in schema.required ==>
         HasTyped(args.properties, schema.properties[i].name, schema.properties[i].jsonType)
  }

  /** The required properties of the schema are its first four, in the order the guard checks them. */
  lemma RequiredAreFirstFour()
    ensures var schema := ToolDescriptor.inputSchema;
      forall i :: 0 <= i < |schema.properties| ==> (schema.properties[i].name in schema.required <==> i < 4)
  {
  }

  /** The guard accepts exactly the objects that hold every required property of the schema, with its declared type. */
  lemma ValidatorFollowsSchema(args: JsValue)
    ensures IsReactToVideoToolArgs(args) <==> Conforms(args, ToolDescriptor.inputSchema)
  {
    var ps := ToolDescriptor.inputSchema.properties;
    RequiredAreFirstFour();
    if args.Object? {
      var m := args.properties;
      assert IsReactToVideoToolArgs(args) <==>
        HasTyped(m, "code", "string") && HasTyped(m, "width", "number") &&
        HasTyped(m, "height", "number") && HasTyped(m, "duration", "number");
      assert ps[0].name == "code" && ps[0].jsonType == "string";
      assert ps[1].name == "width" && ps[1].jsonType == "number";
      assert ps[2].name == "height" && ps[2].jsonType == "number";
      assert ps[3].name == "duration" && ps[3].jsonType == "number";
      if !IsReactToVideoToolArgs(args) {
        var i :| 0 <= i < 4 && !HasTyped(m, ps[i].name, ps[i].jsonType);
        assert ps[i].name in ToolDescriptor.inputSchema.required;
      }
    }
  }

  /** `fps` is never inspected: adding, changing or removing it does not change the verdict. */
  lemma ValidatorIgnoresFps(properties: map<string, JsValue>, fps: JsValue)
    ensures IsReactToVideoToolArgs(Object(properties["fps" := fps])) == IsReactToVideoToolArgs(Object(properties))
    ensures IsReactToVideoToolArgs(Object(properties - {"fps"})) == IsReactToVideoToolArgs(Object(properties))
  {
  }

  /** The `fps` default of `reactToVideoTool` is the one the schema announces. */
  lemma DefaultFpsIsSchemaDefault(args: VideoArgs)
    requires args.fps == Undefined
    ensures ToolDescriptor.inputSchema.properties[4].name == "fps"
    ensures ToolDescriptor.inputSchema.properties[4].default == Some(WithDefaultFps(args).fps.n)
  {
  }

  /** No integer smaller than `CeilFrames` covers the duration: it is the ceiling, never rounded down or to nearest. */
  lemma CeilFramesIsLeast(duration: int, fps: int, k: int)
    requires k * 1000 >= duration * fps
    ensures CeilFrames(duration, fps) <= k
  {
  }

  lemma CeilFramesExamples()
    ensures CeilFrames(1000, 30) == 30
    ensures CeilFrames(1001, 30) == 31
    ensures CeilFrames(0, 30) == 0
  {
  }

  /** Reading the dependencies back from the manifest yields exactly the three declared, none repeated. */
  lemma ManifestDependencies()
    ensures DependencyMap(Manifest.dependencies) ==
      map["remotion" := "^3.0.0", "react" := "^18.0.0", "react-dom" := "^18.0.0"]
    ensures |DependencyMap(Manifest.dependencies)| == |Manifest.dependencies|
  {
    var deps := Manifest.dependencies;
    assert deps[..2][..1] == deps[..1] && deps[..1][..0] == [];
    assert DependencyMap(deps[..1]) == map["remotion" := "^3.0.0"];
    assert DependencyMap(deps[..2]) == map["remotion" := "^3.0.0", "react" := "^18.0.0"];
  }

  /** No file name occurs twice in the layout. */
  lemma LayoutDistinct()
    ensures Distinct(ProjectLayout)
  {
  }

  /** The three sources sit in `src` under the root. */
  lemma SourcePaths(tmpDir: Path)
    ensures EntryPoint(tmpDir) == Join(tmpDir, "src/index.ts")
    ensures RootPath(tmpDir) == Join(tmpDir, "src/Root.tsx")
    ensures ComponentPath(tmpDir) == Join(tmpDir, "src/MyComponent.tsx")
  {
  }

  /** The five writes go to the five paths of the layout under the root, whose names are distinct. */
  lemma ProjectPaths(tmpDir: Path, args: VideoArgs)
    ensures WritesUnder(tmpDir, ProjectWrites(tmpDir, args), ProjectLayout)
    ensures Distinct(ProjectLayout)
  {
    LayoutDistinct();
    SourcePaths(tmpDir);
    var ws := ProjectWrites(tmpDir, args);
    assert ws[0].path == Join(tmpDir, ProjectLayout[0]);
    assert ws[1].path == Join(tmpDir, ProjectLayout[1]);
    assert ws[2].path == Join(tmpDir, ProjectLayout[2]);
    assert ws[3].path == Join(tmpDir, ProjectLayout[3]);
    assert ws[4].path == Join(tmpDir, ProjectLayout[4]);
  }

  /** The absolute paths of the five project files. */
  function ProjectPathSet(tmpDir: Path): set<Path> {
    {Join(tmpDir, "package.json"), Join(tmpDir, "tsconfig.json"), EntryPoint(tmpDir), RootPath(tmpDir), ComponentPath(tmpDir)}
  }

  /** The project as written: each of the five files holds what `renderVideo` meant it to, and nothing else changed. */
  lemma ProjectContents(tmpDir: Path, args: VideoArgs, files: FileMap)
    ensures var project := ApplyWrites(files, ProjectWrites(tmpDir, args));
      && Join(tmpDir, "package.json") in project
      && project[Join(tmpDir, "package.json")] == ManifestFile(Manifest)
      && Join(tmpDir, "tsconfig.json") in project
      && project[Join(tmpDir, "tsconfig.json")] == CompilerConfigFile(CompilerConfig)
      && EntryPoint(tmpDir) in project
      && project[EntryPoint(tmpDir)] == EntryFile(Entry)
      && RootPath(tmpDir) in project
      && project[RootPath(tmpDir)] == RootFile(RootModuleFor(args, DurationInFrames(args.duration, args.fps)))
      && ComponentPath(tmpDir) in project
      && project[ComponentPath(tmpDir)] == SourceText(args.code)
      && forall p :: p !in ProjectPathSet(tmpDir) ==>
           (p in project <==> p in files) && (p in files ==> project[p] == files[p])
  {
    var ws := ProjectWrites(tmpDir, args);
    var project := ApplyWrites(files, ws);
    ProjectPaths(tmpDir, args);
    forall i | 0 <= i < |ws| ensures ws[i].path in project && project[ws[i].path] == ws[i].content {
      WritesUnderDistinct(tmpDir, ws, ProjectLayout, i);
      ApplyWritesAt(files, ws, i);
    }
    assert ws[0] == ManifestWrite(tmpDir) && ws[1] == CompilerConfigWrite(tmpDir) && ws[2] == EntryWrite(tmpDir);
    assert ws[3] == RootWrite(tmpDir, args, DurationInFrames(args.duration, args.fps));
    assert ws[4] == ComponentWrite(tmpDir, args.code);
    forall p | p !in ProjectPathSet(tmpDir)
      ensures (p in project <==> p in files) && (p in files ==> project[p] == files[p])
    {
      ApplyWritesElsewhere(files, ws, p);
    }
  }

  /** Nothing exists under `tmpDir` yet: what `fs.mkdtemp` guarantees of the directory it creates. */
  predicate FreshRoot(files: FileMap, tmpDir: Path) {
    forall p :: p in files ==> !IsUnder(tmpDir, p)
  }

  /** Under a fresh root, the written project consists of exactly the five files of the layout. */
  lemma ProjectLayoutUnderRoot(tmpDir: Path, args: VideoArgs, files: FileMap)
    requires FreshRoot(files, tmpDir)
    ensures FilesUnder(ApplyWrites(files, ProjectWrites(tmpDir, args)), tmpDir) == set n | n in ProjectLayout
  {
    ProjectPaths(tmpDir, args);
    FilesUnderAfterWrites(files, tmpDir, ProjectWrites(tmpDir, args), ProjectLayout);
  }

  // ----- Properties of the pipeline -------------------------------------

  /** When every write succeeds, the write phase leaves the whole project and one call per write. */
  lemma AllWritesSucceed(args: VideoArgs, tmpDir: Path, files: FileMap, env: Engines)
    requires WritesSucceed(tmpDir, env)
    ensures WriteOutcome(files, ProjectWrites(tmpDir, args), env.writeFault) ==
      (None, Project(args, tmpDir, files), WriteCalls(ProjectWrites(tmpDir, args)))
  {
    var ws := ProjectWrites(tmpDir, args);
    ProjectPaths(tmpDir, args);
    assert forall i :: 0 <= i < |ws| ==> env.writeFault(ws[i].path).None?;
  }

  /**
   * A failing write rejects the call with its error before `bundle` or
   * `renderMedia` is reached; the files written before it stay in place and
   * no later file is written.
   */
  lemma WriteFailureRejects(args: VideoArgs, tmpDir: Path, files: FileMap, env: Engines, k: nat)
    requires k < |ProjectLayout|
    requires env.writeFault(Join(tmpDir, ProjectLayout[k])).Some?
    requires forall i :: 0 <= i < k ==> env.writeFault(Join(tmpDir, ProjectLayout[i])).None?
    ensures var run := Pipeline(args, tmpDir, files, env);
      && run.result == Err(env.writeFault(Join(tmpDir, ProjectLayout[k])).value)
      && run.files == ApplyWrites(files, ProjectWrites(tmpDir, args)[..k])
      && run.trace == WriteCalls(ProjectWrites(tmpDir, args)[..k + 1])
  {
    var ws := ProjectWrites(tmpDir, args);
    ProjectPaths(tmpDir, args);
    assert FirstFault(ws, env.writeFault) == k;
  }

  /** A `bundle` that fails rejects the call with its error, and nothing is rendered. */
  lemma BundleFailureRejects(args: VideoArgs, tmpDir: Path, files: FileMap, env: Engines)
    requires WritesSucceed(tmpDir, env)
    requires env.bundle(Project(args, tmpDir, files), EntryPoint(tmpDir)).Err?
    ensures var run := Pipeline(args, tmpDir, files, env);
      && run.result == Err(env.bundle(Project(args, tmpDir, files), EntryPoint(tmpDir)).error)
      && run.files == Project(args, tmpDir, files)
      && run.trace == WriteCalls(ProjectWrites(tmpDir, args)) + [BundleCall(EntryPoint(tmpDir), Project(args, tmpDir, files))]
  {
    AllWritesSucceed(args, tmpDir, files, env);
  }

  /** A `renderMedia` that fails rejects the call with its error, and no output file appears. */
  lemma RenderFailureRejects(args: VideoArgs, tmpDir: Path, files: FileMap, env: Engines)
    requires WritesSucceed(tmpDir, env)
    requires env.bundle(Project(args, tmpDir, files), EntryPoint(tmpDir)).Ok?
    requires env.renderMedia(JobFor(args, tmpDir, env.bundle(Project(args, tmpDir, files), EntryPoint(tmpDir)).value)).Err?
    ensures var run := Pipeline(args, tmpDir, files, env);
      var job := JobFor(args, tmpDir, env.bundle(Project(args, tmpDir, files), EntryPoint(tmpDir)).value);
      && run.result == Err(env.renderMedia(job).error)
      && run.files == Project(args, tmpDir, files)
      && run.trace == WriteCalls(ProjectWrites(tmpDir, args)) +
           [BundleCall(EntryPoint(tmpDir), Project(args, tmpDir, files)), RenderCall(job)]
  {
    AllWritesSucceed(args, tmpDir, files, env);
  }

  /**
   * The call resolves exactly when every write, the bundle and the render
   * succeed, and then with `<tmpDir>/output.mp4`, which holds the rendered video.
   */
  lemma PipelineSucceeds(args: VideoArgs, tmpDir: Path, files: FileMap, env: Engines)
    ensures var run := Pipeline(args, tmpDir, files, env);
      var bundled := env.bundle(Project(args, tmpDir, files), EntryPoint(tmpDir));
      run.result.Ok? <==>
        && WritesSucceed(tmpDir, env)
        && bundled.Ok?
        && env.renderMedia(JobFor(args, tmpDir, bundled.value)).Ok?
    ensures var run := Pipeline(args, tmpDir, files, env);
      run.result.Ok? ==>
        && run.result.value == Join(tmpDir, "output.mp4")
        && run.files == Project(args, tmpDir, files)[Join(tmpDir, "output.mp4") :=
             VideoFile(env.renderMedia(JobFor(args, tmpDir, env.bundle(Project(args, tmpDir, files), EntryPoint(tmpDir)).value)).value)]
  {
    if WritesSucceed(tmpDir, env) {
      AllWritesSucceed(args, tmpDir, files, env);
    } else {
      var ws := ProjectWrites(tmpDir, args);
      ProjectPaths(tmpDir, args);
      var k :| 0 <= k < |ProjectLayout| && env.writeFault(Join(tmpDir, ProjectLayout[k])).Some?;
      assert FirstFault(ws, env.writeFault) < |ws| by {
        assert env.writeFault(ws[k].path).Some?;
      }
    }
  }

  /**
   * The order of the calls: every write comes before the engines; `bundle`
   * is called once, right after all five writes succeeded, on the complete
   * project with `src/index.ts` as entry point; `renderMedia` is called only
   * right after a `bundle` that succeeded, on the URL it returned.
   */
  predicate OrderedTrace(args: VideoArgs, tmpDir: Path, files: FileMap, env: Engines, trace: seq<Effect>) {
    && (forall i, j :: 0 <= i < j < |trace| && trace[j].WriteCall? ==> trace[i].WriteCall?)
    && (forall j :: 0 <= j < |trace| && trace[j].BundleCall? ==>
          && j == |ProjectLayout|
          && WritesSucceed(tmpDir, env)
          && trace[..j] == WriteCalls(ProjectWrites(tmpDir, args))
          && trace[j] == BundleCall(EntryPoint(tmpDir), Project(args, tmpDir, files)))
    && (forall j :: 0 <= j < |trace| && trace[j].RenderCall? ==>
          && j == |ProjectLayout| + 1
          && trace[j - 1].BundleCall?
          && env.bundle(Project(args, tmpDir, files), EntryPoint(tmpDir)) == Ok(trace[j].job.serveUrl)
          && trace[j].job == JobFor(args, tmpDir, trace[j].job.serveUrl))
  }

  /** A run whose writes fail made nothing but write calls. */
  lemma OrderWhenWritesFail(args: VideoArgs, tmpDir: Path, files: FileMap, env: Engines)
    requires !WritesSucceed(tmpDir, env)
    ensures forall c :: c in Pipeline(args, tmpDir, files, env).trace ==> c.WriteCall?
  {
    var ws := ProjectWrites(tmpDir, args);
    ProjectPaths(tmpDir, args);
    var k :| 0 <= k < |ProjectLayout| && env.writeFault(Join(tmpDir, ProjectLayout[k])).Some?;
    assert env.writeFault(ws[k].path).Some?;
  }

  /** The calls after the writes, when all of them succeeded: `bundle`, then `renderMedia` if it succeeded. */
  lemma EngineCalls(args: VideoArgs, tmpDir: Path, files: FileMap, env: Engines)
    requires WritesSucceed(tmpDir, env)
    ensures var trace := Pipeline(args, tmpDir, files, env).trace;
      var bundled := env.bundle(Project(args, tmpDir, files), EntryPoint(tmpDir));
      var tail := [BundleCall(EntryPoint(tmpDir), Project(args, tmpDir, files))];
      trace == WriteCalls(ProjectWrites(tmpDir, args)) +
        if bundled.Err? then tail else tail + [RenderCall(JobFor(args, tmpDir, bundled.value))]
  {
    AllWritesSucceed(args, tmpDir, files, env);
  }

  lemma PipelineOrder(args: VideoArgs, tmpDir: Path, files: FileMap, env: Engines)
    ensures OrderedTrace(args, tmpDir, files, env, Pipeline(args, tmpDir, files, env).trace)
  {
    var trace := Pipeline(args, tmpDir, files, env).trace;
    if WritesSucceed(tmpDir, env) {
      EngineCalls(args, tmpDir, files, env);
      var ws := ProjectWrites(tmpDir, args);
      assert trace[..|ws|] == WriteCalls(ws);
    } else {
      OrderWhenWritesFail(args, tmpDir, files, env);
      assert forall j :: 0 <= j < |trace| ==> trace[j] in trace;
    }
  }

  /**
   * A `<Composition>` of `Root.tsx` and the `composition` given to
   * `renderMedia` describe the same video: each attribute of the element
   * reads back as the value in the job.
   */
  predicate Agrees(decl: CompositionDecl, config: VideoConfig) {
    && decl.id == config.id
    && NumLiteral(decl.durationInFrames) == Some(config.durationInFrames)
    && LiteralValue(decl.width) == Some(Number(config.width))
    && LiteralValue(decl.height) == Some(Number(config.height))
    && LiteralValue(decl.fps) == Some(config.fps)
    && decl.defaultProps == config.defaultProps
  }

  /**
   * What is rendered is what was bundled: the project `bundle` saw declares
   * one composition, which agrees with the one `renderMedia` is asked for, and
   * its component is the caller's code, verbatim. This needs an `fps` whose
   * text is a literal: a string is pasted into `Root.tsx` as source.
   */
  lemma RenderMatchesRoot(args: VideoArgs, tmpDir: Path, files: FileMap, env: Engines)
    requires HasLiteralText(args.fps)
    ensures var trace := Pipeline(args, tmpDir, files, env).trace;
      forall j :: 0 <= j < |trace| && trace[j].RenderCall? ==>
        && 0 < j
        && trace[j - 1].BundleCall?
        && var project := trace[j - 1].project;
        && RootPath(tmpDir) in project
        && project[RootPath(tmpDir)].RootFile?
        && |project[RootPath(tmpDir)].root.compositions| == 1
        && Agrees(project[RootPath(tmpDir)].root.compositions[0], trace[j].job.composition)
        && ComponentPath(tmpDir) in project
        && project[ComponentPath(tmpDir)] == SourceText(args.code)
  {
    PipelineOrder(args, tmpDir, files, env);
    ProjectContents(tmpDir, args, files);
    TemplateTextRoundTrip(args.fps);
    TemplateTextRoundTrip(Number(args.width));
    TemplateTextRoundTrip(Number(args.height));
    NumTextRoundTrip(DurationInFrames(args.duration, args.fps));
  }

  /**
   * An `fps` of `"60"` passes the guard, but `Root.tsx` then declares the
   * number 60 while `renderMedia` is given the string: the two disagree.
   */
  lemma StringFpsDisagrees(args: VideoArgs, tmpDir: Path, files: FileMap, env: Engines)
    requires args.fps == Str("60")
    ensures var trace := Pipeline(args, tmpDir, files, env).trace;
      forall j :: 0 <= j < |trace| && trace[j].RenderCall? ==>
        && 0 < j
        && trace[j - 1].BundleCall?
        && var project := trace[j - 1].project;
        && RootPath(tmpDir) in project
        && project[RootPath(tmpDir)].RootFile?
        && |project[RootPath(tmpDir)].root.compositions| == 1
        && LiteralValue(project[RootPath(tmpDir)].root.compositions[0].fps) == Some(Number(60))
        && trace[j].job.composition.fps == Str("60")
        && !Agrees(project[RootPath(tmpDir)].root.compositions[0], trace[j].job.composition)
  {
    PipelineOrder(args, tmpDir, files, env);
    ProjectContents(tmpDir, args, files);
    StringTextReadsAsNumber();
  }

  /** Every render follows the bundling of a project whose `Root.tsx` is the one built from the arguments. */
  lemma BundledRoot(args: VideoArgs, tmpDir: Path, files: FileMap, env: Engines)
    ensures var trace := Pipeline(args, tmpDir, files, env).trace;
      forall j :: 0 <= j < |trace| && trace[j].RenderCall? ==>
        && 0 < j
        && trace[j - 1].BundleCall?
        && RootPath(tmpDir) in trace[j - 1].project
        && trace[j - 1].project[RootPath(tmpDir)] == RootFile(RootModuleFor(args, DurationInFrames(args.duration, args.fps)))
        && trace[j].job == JobFor(args, tmpDir, trace[j].job.serveUrl)
  {
    PipelineOrder(args, tmpDir, files, env);
    ProjectContents(tmpDir, args, files);
  }

  /**
   * Without an `fps` in the request, `Root.tsx` declares, and `renderMedia`
   * is asked for, 30 frames per second and `ceil(duration * 30 / 1000)` frames.
   */
  lemma DefaultFpsRendered(args: VideoArgs, tmpDir: Path, files: FileMap, env: Engines)
    requires args.fps == Undefined
    ensures var trace := Pipeline(WithDefaultFps(args), tmpDir, files, env).trace;
      forall j :: 0 <= j < |trace| && trace[j].RenderCall? ==>
        && trace[j].job.composition.fps == Number(30)
        && trace[j].job.composition.durationInFrames == Finite(CeilFrames(args.duration, 30))
        && 0 < j
        && trace[j - 1].BundleCall?
        && RootPath(tmpDir) in trace[j - 1].project
        && trace[j - 1].project[RootPath(tmpDir)].RootFile?
        && |trace[j - 1].project[RootPath(tmpDir)].root.compositions| == 1
        && trace[j - 1].project[RootPath(tmpDir)].root.compositions[0].fps == "30"
        && trace[j - 1].project[RootPath(tmpDir)].root.compositions[0].durationInFrames ==
             IntText(CeilFrames(args.duration, 30))
  {
    BundledRoot(WithDefaultFps(args), tmpDir, files, env);
    assert NatText(30) == "30";
  }
}
