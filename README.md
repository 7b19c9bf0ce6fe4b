# react-video-mcp-server, modelled in Dafny

The server is a Model Context Protocol server with one tool,
`react_code_to_video`. A client sends React source code that uses Remotion,
together with a width, a height, a duration in milliseconds and an optional
frame rate. The server writes a throwaway Remotion project to a fresh
temporary directory:

- `package.json`
- `tsconfig.json`
- `src/index.ts`
- `src/Root.tsx`, which declares one composition, `MyComp`
- `src/MyComponent.tsx`, holding the caller's code

It then bundles the project and renders `MyComp` with H.264 to
`<tmpDir>/output.mp4`, and answers with that path.

The model has four modules:

- `JsValues` (`js_values.dfy`) models the untyped JavaScript payload: `typeof`, truthiness, the `in` operator, property access and the `ToNumber` conversion that `*` applies. It also models the text `${v}` substitutes into a template literal, and the reading of a literal back from that text.
- `Files` (`files.dfy`) models paths (`path.join`), the file map a sequence of `fs.writeFile` calls produces, and the index of the first write that fails.
- `ReactToVideo` (`react_to_video.dfy`) models `src/react2video.ts`. This covers the tool descriptor, the type guard `isReactToVideoToolArgs` and the `fps = 30` default of `reactToVideoTool`. It also covers the conversion from milliseconds to frames and `renderVideo`. `renderVideo` is an imperative method. It threads a file map and a trace of the calls it makes through the five writes, `bundle` and `renderMedia`, and it is proved equal to the specification function `Pipeline`. Which writes fail, and what `bundle` and `renderMedia` answer, are function-valued fields of `Engines`.
- `ToolServer` (`tool_server.dfy`) models the `tools/list` and `tools/call` handlers of `src/index.ts`:
  - `Dispatch` is the pure decision. It checks for missing arguments, then for an unknown name, then for invalid arguments, and otherwise renders.
  - `HandleCallTool` is the handler, proved against `Dispatch` and `Pipeline`.

`Outcomes` (`outcomes.dfy`) holds `Option`, `Result` and the thrown `Error`.

What the types announce and what the code checks differ, and the model follows what the code checks:

- The schema (src/react2video.ts:20-33) and the TypeScript parameter types (src/react2video.ts:41-47) declare `width`, `height`, `duration` and `fps` as `number`. The guard checks only `typeof` of the four required properties (src/react2video.ts:76-79) and never looks at `fps`, and so does the model. Any number passes, and `fps` may hold any value.
- The schema announces `default: 30` for `fps` (src/react2video.ts:34). The code supplies it with a destructuring default (src/react2video.ts:48), so it applies only when `fps` is `undefined`. An `fps` of `null`, `"60"` or `true` reaches `renderVideo` unchanged, and `WithDefaultFps` keeps it too. In `Math.ceil((duration / 1000) * fps)` such a value is converted by `ToNumber`: `null` becomes 0 and a boolean becomes 0 or 1.

## Model

| member | source | states |
|---|---|---|
| `ReactToVideo.RequiredAreFirstFour` | src/react2video.ts:14-37 | the four required properties of the announced schema are exactly its first four, `code`, `width`, `height`, `duration`; `fps` is the optional one |
| `ReactToVideo.ValidatorFollowsSchema` | src/react2video.ts:62-81 | the guard accepts a payload if and only if it is an object holding every required property of the announced schema with the declared `typeof`; `null`, arrays and primitives are refused |
| `ReactToVideo.ValidatorIgnoresFps` | src/react2video.ts:69-80 | adding, changing or removing `fps` never changes the guard's verdict |
| `ReactToVideo.AsVideoArgs` | src/react2video.ts:62-68 | the fields the narrowed arguments expose are the payload's own `code`, `width`, `height`, `duration`, and `fps` as found (`undefined` when absent) |
| `ReactToVideo.WithDefaultFps` | src/react2video.ts:48 | an absent (`undefined`) `fps` becomes 30; a present `fps` is kept as it is, whatever its type; nothing else changes |
| `ReactToVideo.DefaultFpsIsSchemaDefault` | src/react2video.ts:31-48 | the default `reactToVideoTool` fills in is the `default` the schema announces for `fps` |
| `ReactToVideo.CeilFrames` | src/react2video.ts:143 | the frame count covers the duration, `frames * 1000 >= duration * fps`, and one frame fewer would not |
| `ReactToVideo.CeilFramesIsLeast` | src/react2video.ts:143 | every integer frame count that covers the duration is at least `CeilFrames`: it rounds up, never down or to nearest |
| `ReactToVideo.DurationInFrames` | src/react2video.ts:143 | the frame count is `NaN` exactly when `fps` converts to `NaN`; otherwise it is the least integer whose 1000-fold covers `duration` times the converted `fps` |
| `ReactToVideo.CeilFramesExamples` | src/react2video.ts:143 | 1000 ms at 30 fps give 30 frames, 1001 ms give 31, 0 ms give 0 |
| `ReactToVideo.ManifestDependencies` | src/react2video.ts:97-107 | the manifest's dependencies read back as exactly `remotion ^3.0.0`, `react ^18.0.0`, `react-dom ^18.0.0`, no name repeated |
| `ReactToVideo.ProjectPaths` | src/react2video.ts:93-170 | the five writes go, in order, to `package.json`, `tsconfig.json`, `src/index.ts`, `src/Root.tsx`, `src/MyComponent.tsx` under the root, five distinct paths |
| `ReactToVideo.ProjectContents` | src/react2video.ts:96-170 | after the writes each file holds its intended content: the manifest, the compiler config, the entry that registers `Root` from `./Root`, the root module with its composition, and the caller's code verbatim. Every other path is as before |
| `ReactToVideo.ProjectLayoutUnderRoot` | src/react2video.ts:92-170 | under a root that held nothing, the written project consists of exactly the five layout files |
| `ReactToVideo.WriteFile` | src/react2video.ts:108-112 | one `fs.writeFile`: the call is recorded; on success the path holds the new content, on failure the error is returned and the map is unchanged |
| `ReactToVideo.WriteProject` | src/react2video.ts:96-170 | the imperative write phase stops at the first failing write, and its error, files and calls equal the specification `WriteOutcome` |
| `ReactToVideo.RenderVideo` | src/react2video.ts:83-201 | the imperative `renderVideo` produces exactly the result, file map and calls of the specification `Pipeline` |
| `ReactToVideo.ReactToVideoTool` | src/react2video.ts:41-60 | `reactToVideoTool` is `renderVideo` applied to the arguments after the `fps` default |
| `ReactToVideo.AllWritesSucceed` | src/react2video.ts:108-170 | when no write fails, the write phase yields the complete project and one write call per file |
| `ReactToVideo.WriteFailureRejects` | src/react2video.ts:108-170 | the first failing write rejects the call with its own error; the files written before it stay, none after it is written, and neither engine is called |
| `ReactToVideo.BundleFailureRejects` | src/react2video.ts:172-176 | a failing `bundle` rejects the call with its error; nothing is rendered and no output file appears |
| `ReactToVideo.RenderFailureRejects` | src/react2video.ts:181-197 | a failing `renderMedia` rejects the call with its error, after exactly the five writes, the bundle and the render call |
| `ReactToVideo.PipelineSucceeds` | src/react2video.ts:172-200 | the call resolves if and only if every write, the bundle and the render succeed, and then with `<tmpDir>/output.mp4`, which holds the rendered video |
| `ReactToVideo.OrderWhenWritesFail` | src/react2video.ts:108-176 | when some write fails, only write calls are made |
| `ReactToVideo.EngineCalls` | src/react2video.ts:172-197 | after five successful writes, the calls are `bundle` on the complete project with `src/index.ts` as entry point, then `renderMedia` only if the bundle succeeded |
| `ReactToVideo.PipelineOrder` | src/react2video.ts:83-201 | all writes precede the engines. `bundle` is called once, right after all five writes, on the complete project. `renderMedia` is called only right after a `bundle` that succeeded, on the URL it returned, with output `<tmpDir>/output.mp4` and codec H.264 |
| `ReactToVideo.RenderMatchesRoot` | src/react2video.ts:146-197 | for an `fps` that is a number, `null`, a boolean or absent, the project that was bundled declares one composition. Each of its attributes, read back from the text the template wrote, equals the value `renderMedia` is asked for: id `MyComp`, frame count, width, height, fps and default props. Its component is the caller's code, verbatim |
| `ReactToVideo.StringFpsDisagrees` | src/react2video.ts:146-197 | with `fps` the string `"60"`, which the guard lets through, `Root.tsx` declares the number 60 while `renderMedia` is given the string, so the two compositions disagree |
| `ReactToVideo.BundledRoot` | src/react2video.ts:146-197 | every `renderMedia` call comes right after the `bundle` of a project whose `Root.tsx` is the one built from the arguments and the computed frame count, and asks for the job built from those same arguments |
| `ReactToVideo.DefaultFpsRendered` | src/react2video.ts:41-197 | without an `fps` in the request, `renderMedia` is asked for 30 fps and `ceil(duration * 30 / 1000)` frames, and the bundled `Root.tsx` declares one composition with fps `30` and that frame count as its numeral |
| `Files.FirstFault` | src/react2video.ts:108-170 | the writes before the returned index succeed, and the one at it, if any, fails |
| `Files.ApplyWritesAt` | src/react2video.ts:108-170 | a file that no later write replaces holds the content written to it |
| `Files.ApplyWritesElsewhere` | src/react2video.ts:108-170 | a path no write touches keeps its content, or stays absent |
| `Files.FilesUnderAfterWrites` | src/react2video.ts:92-170 | writing names under a fresh directory leaves exactly those names under it |
| `JsValues.Get` | src/react2video.ts:76-79 | reading an own property of an object gives its value; reading one that is not an own property gives `undefined` |
| `JsValues.NatTextRoundTrip` | src/react2video.ts:157-160 | the decimal numeral of a natural number reads back as that number |
| `JsValues.TemplateTextRoundTrip` | src/react2video.ts:157-160 | a number, `null`, a boolean or `undefined` pasted into a `{...}` attribute reads back as the same value |
| `JsValues.NumTextRoundTrip` | src/react2video.ts:157 | a frame count pasted into the attribute, `NaN` included, reads back as the same count |
| `JsValues.StringTextReadsAsNumber` | src/react2video.ts:160 | the string `"60"` is pasted as the same text as the number 60, and reads back as the number |
| `ToolServer.ListTools` | src/index.ts:23-25 | `tools/list` announces exactly one tool, `react_code_to_video` |
| `ToolServer.Dispatch` | src/index.ts:27-45 | the handler renders exactly the truthy arguments that name `react_code_to_video` and pass the guard. Missing arguments are reported before an unknown name, and an unknown name before invalid arguments, each with the source's message. The rendered arguments are read from the payload |
| `ToolServer.HandleCallTool` | src/index.ts:27-50 | a rejected call throws the dispatch error, touches no file and calls no engine. An accepted one runs `reactToVideoTool` and passes its error through unchanged, or answers with `<tmpDir>/output.mp4` |
| `ToolServer.UnknownIffNotListed` | src/index.ts:23-44 | `Unknown tool` is reported exactly for the names no tool in the `tools/list` answer carries |
| `ToolServer.DispatchFollowsListedSchema` | src/index.ts:23-41 | a call is rendered exactly when it names a listed tool and its arguments form an object holding every property that tool's schema requires, with its declared type; the optional `fps` is not checked |
| `ToolServer.AnyFpsIsRendered` | src/index.ts:35-41 | a call that is rendered is still rendered, with that `fps` passed on as given, whatever `fps` it carries. For an `fps` that is neither a number nor absent, the rendered `fps` has a `typeof` other than the `number` the schema declares for it |

## Left out

- JavaScript numbers are modelled as unbounded integers. Fractional widths, heights, durations and frame rates, `NaN` and the infinities are not modelled.
- `CeilFrames`: this is the exact ceiling of `duration * fps / 1000`. The source evaluates `(duration / 1000) * fps` in binary floating point. When `duration / 1000` is not exactly representable, the product can land just above an integer, and `Math.ceil` then gives one frame more than the exact ceiling. For example, `0.28 * 25` evaluates to `7.000000000000001`. The model does not capture this.
- `DurationInFrames`: `ToNumber` maps strings and arrays to `NaN`. JavaScript would parse numeric strings, for example `"60"` to 60, and `[]` to 0.
- `fs.mkdtemp` and `fs.mkdir` are not modelled. The temporary root is a parameter, and its freshness is the precondition `FreshRoot`. Failures of these two calls are not modelled.
- The serialised text of the five files is not modelled: `JSON.stringify` output, the template literals and their whitespace. Each file's content is a structured value. The exception is the attributes of the `<Composition>` element in `Root.tsx`: each holds the text `${...}` wrote between its braces, so a string `fps` appears there as source, as in the code.
- `RenderMatchesRoot`: proved only for an `fps` that is a number, `null`, a boolean or absent. A string `fps` passes the guard and is pasted into `Root.tsx` as source text. `"60"` there declares the number 60 while `renderMedia` receives the string (`StringFpsDisagrees`). A string such as `30} /><Composition id="X" ... fps={1` makes the file declare a second composition. The model keeps `Root.tsx` as one structured element whose `fps` attribute is that raw text, and does not parse TSX beyond single literals. An array or object `fps` is not covered either.
- `WriteFile`: a failing write leaves the file map unchanged. `fs.writeFile` opens its file with flag `w`, which creates or truncates it first, so a write that fails later, for example on a full disk, can leave an empty or partial file at its path.
- `WriteFailureRejects`: its file map after a failing write is the map before that write, for the reason given under `WriteFile`; the failing path is not modelled as truncated.
- `bundle` and `renderMedia` are opaque. The model captures their arguments and results, not what they do. The bundle options argument (`undefined`, `{}`) is not modelled. A partial output file left by a failing render is not modelled.
- Nothing is cleaned up afterwards, in the source or in the model. The temporary directory is left in place.
- The stdio transport, `console.error` logging, `process.exit`, the server's name and capabilities, and the MCP SDK's request schemas are not modelled. The SDK's guarantee that `name` is a string is assumed.
- Concurrent requests, and the interleaving of `await`s between them, are not modelled.
- Property lookup covers own properties only. Prototype properties and array index keys under `in` are not modelled; for arrays, only `length` is.
