# Transform plugin for PowerToys Run, modelled in Dafny

The plugin lists the JSON transform documents found under a configured directory. When the user
picks one, it applies that document to the JSON file the document names. The document names its
target under the reserved top-level key `"__target"`. The plugin reads and parses the document,
takes out that key, hands the rest (the body) to the JDT transformation engine, truncates the
target and copies the engine's output into it, then shows a notification. Any failure on the way is
caught, logged with the transform file's path and shown to the user, and the pipeline answers
`false`.

The model has six modules:

- `Wrappers`: `Option`, `Result` and `Outcome`. These stand for null references, return-or-throw
  and void-or-throw.
- `Text`: `char.IsWhiteSpace`, `string.IsNullOrWhiteSpace`, `Path.GetFileName`, and a substring
  predicate.
- `Json`: the parsed document as Newtonsoft's JToken tree, whose objects are ordered lists of properties.
  It has first-match lookup (`JObject.GetValue`) and removal by name, and a `JObject` class whose
  `Remove` deletes the property in place.
- `TargetExtraction`: the marker check and stripping as a pure function, with lemmas on the body it yields.
- `Pipeline`: `ApplyTransformation`. The outcome of each external step is a parameter (an
  `Environment`). A `Host` object records what the pipeline does as a trace of effects. The pure
  function `Apply` specifies the pipeline. The imperative `TryApply`/`ApplyTransformation`
  perform the steps one by one on the host and are proved to produce exactly `Apply`'s answer and
  trace. The ordering and failure properties are lemmas about `Apply`.
- `Plugin`: class `Main`, with its fields `IconPath`, `Disposed` and `TransformsDirectoryPath`,
  the theme subscription count, and the methods that assign them. It also holds `Query`, the
  theme-to-icon choice and the settings lookup.

Where the documented design and the code differ, the model follows the code:

- A configured directory that cannot be enumerated is not turned into a result entry. The
  exception from `Directory.GetFiles` leaves `Query`, and `Main.Query` returns it as a `Failure`.
- The marker is read with `GetValue`, which takes the first (in a parsed JObject, the only)
  property of that name. It must be a JSON string. A date-shaped string, which Newtonsoft's default
  date handling parses as a date token, fails the check like any other non-string (`Json.Date`).
- A document that parses to a null reference (empty text, or the literal `null`) fails with
  the runtime's NullReferenceException message, not with a parse error.

## Model

| member | source | states |
|---|---|---|
| Text.FileName | Community.PowerToys.Run.Plugin.Transform/Main.cs:70 | the title is the suffix of the path after its last `\` or `/` (the whole path when there is none); it holds no separator, and the character before it is one |
| Json.Lookup | Community.PowerToys.Run.Plugin.Transform/Main.cs:89 | `GetValue` is null exactly when no property has the name; otherwise it is the value of the first property with that name |
| Json.Without | Community.PowerToys.Run.Plugin.Transform/Main.cs:95 | the remaining properties are exactly the original ones whose name differs from the removed one |
| Json.WithoutAbsent | Community.PowerToys.Run.Plugin.Transform/Main.cs:95 | removing a name that is not present leaves the object as it was |
| Json.WithoutAt | Community.PowerToys.Run.Plugin.Transform/Main.cs:95 | in an object with unique names, removal deletes exactly the entry holding that name and keeps every other entry in its place and order |
| Json.LookupWithout | Community.PowerToys.Run.Plugin.Transform/Main.cs:95 | after removal the name looks up as absent, and every other name looks up as before |
| Json.WithoutUnique | Community.PowerToys.Run.Plugin.Transform/Main.cs:95 | removal keeps property names unique |
| Json.JObject.GetValue | Community.PowerToys.Run.Plugin.Transform/Main.cs:89 | null exactly when no property has the name; otherwise the value of the first property with that name |
| Json.JObject.Remove | Community.PowerToys.Run.Plugin.Transform/Main.cs:95 | in place: the object's properties become those without the name; the answer says whether the name was there |
| TargetExtraction.Extract | Community.PowerToys.Run.Plugin.Transform/Main.cs:89-95 | succeeds exactly when the first `__target` property holds a JSON string; the target path is that string, the body has no `__target` key; otherwise the error is the message naming the file |
| TargetExtraction.MissingTargetMessage | Community.PowerToys.Run.Plugin.Transform/Main.cs:92 | the missing-marker message contains the transform file's path and the key `__target` |
| TargetExtraction.ExtractedBody | Community.PowerToys.Run.Plugin.Transform/Main.cs:94-96 | the body is the document with one entry (the marker's) deleted: it has one entry fewer, keeps unique names and the order of the rest, and every other name keeps its value |
| TargetExtraction.BodyHasNoTarget | Community.PowerToys.Run.Plugin.Transform/Main.cs:89-95 | extracting again from the stripped body fails: the body no longer names a target |
| TargetExtraction.ExtractFailsWithoutStringTarget | Community.PowerToys.Run.Plugin.Transform/Main.cs:90-93 | the contrapositive of `Extract`'s first ensures, used by `Pipeline.MissingTargetFailsEarly`: a marker that is absent, null, a number, a date, an array or an object makes extraction fail with the message naming the file |
| Pipeline.SuccessText | Community.PowerToys.Run.Plugin.Transform/Main.cs:109 | the success notification text contains both the transform file's path and the target's path |
| Pipeline.LogText | Community.PowerToys.Run.Plugin.Transform/Main.cs:113 | the failure log text contains the transform file's path |
| Pipeline.TryBlock | Community.PowerToys.Run.Plugin.Transform/Main.cs:86-110 | the try block always starts with the read; a file is touched only at step three or later, after the engine call; it runs to its end exactly when it has all five effects, the last being the notification naming both files; a block that threw gives no notification |
| Pipeline.Apply | Community.PowerToys.Run.Plugin.Transform/Main.cs:84-119 | the answer is true exactly when the try block ran to its end; the try block's effects come first, and the catch block only appends its two reports |
| Pipeline.UntouchedUnlessEngineReturned | Community.PowerToys.Run.Plugin.Transform/Main.cs:88-108 | if reading, parsing, extraction or the engine fails, the pipeline fails and no file is truncated or written |
| Pipeline.WritesFollowEngine | Community.PowerToys.Run.Plugin.Transform/Main.cs:104-108 | every truncation or write of a target comes after an engine call on that same target that returned, and the bytes written are that call's output |
| Pipeline.EngineSeesStrippedBody | Community.PowerToys.Run.Plugin.Transform/Main.cs:95-105 | every engine call receives the parsed document minus its `__target` entry (so no `__target` key) and the path held by that entry |
| Pipeline.EngineSeesDocumentMinusMarker | Community.PowerToys.Run.Plugin.Transform/Main.cs:95-105 | for a parsed object with unique names, every engine call's body is the document with exactly the `__target` entry (holding the call's target path) deleted and every other entry kept in place and order |
| Pipeline.SuccessIsNotified | Community.PowerToys.Run.Plugin.Transform/Main.cs:109-118 | the pipeline answers true exactly when a notification was given; then the trace ends with the target write and a notification naming both files |
| Pipeline.SuccessSteps | Community.PowerToys.Run.Plugin.Transform/Main.cs:88-109 | a successful run does, in this order: read, engine call, truncate that target, write it, notify |
| Pipeline.FailureIsReported | Community.PowerToys.Run.Plugin.Transform/Main.cs:111-116 | a failed run ends with a log entry naming the transform file and a message box, both carrying the message of the exception the try block stopped at, and gives no success notification |
| Pipeline.FailureCarriesStepMessage | Community.PowerToys.Run.Plugin.Transform/Main.cs:88-108 | the exception the try block stops at is the first failing step's: the read's, the parser's, the null reference's, the missing marker's, the engine's, the open's or the copy's error |
| Pipeline.MissingTargetFailsEarly | Community.PowerToys.Run.Plugin.Transform/Main.cs:88-93 | with no string marker the trace is just the read, the log and the message; the engine is never called, and the message names the file and the key |
| Pipeline.ParseFailureFailsEarly | Community.PowerToys.Run.Plugin.Transform/Main.cs:88-89 | malformed JSON, or a document that parses to null, fails right after the read with the parser's (or the null reference's) message |
| Pipeline.MarkerNeverReachesEngine | Community.PowerToys.Run.Plugin.Transform/Main.cs:88-109 | `{"__target": "/tmp/t.json", "x": 1}` with every step succeeding: the engine sees only `{"x": 1}`, the target gets the engine's output, and the notification names both files |
| Pipeline.Host.ReadAllText | Community.PowerToys.Run.Plugin.Transform/Main.cs:88 | `File.ReadAllText` gives the environment's answer and records the read |
| Pipeline.Host.Transform | Community.PowerToys.Run.Plugin.Transform/Main.cs:104-105 | the engine's answer is the environment's for that body and target, and the call is recorded |
| Pipeline.Host.OpenTruncate | Community.PowerToys.Run.Plugin.Transform/Main.cs:107 | opening for truncation records a truncation only when it succeeds |
| Pipeline.Host.CopyTo | Community.PowerToys.Run.Plugin.Transform/Main.cs:108 | copying records the written bytes only when it succeeds |
| Pipeline.Host.ShowNotification | Community.PowerToys.Run.Plugin.Transform/Main.cs:109 | records the notification with its title and text |
| Pipeline.Host.LogException | Community.PowerToys.Run.Plugin.Transform/Main.cs:113 | records the log entry with its text and the exception's message |
| Pipeline.Host.ShowMsg | Community.PowerToys.Run.Plugin.Transform/Main.cs:114 | records the message box with its title and text |
| Pipeline.TryApply | Community.PowerToys.Run.Plugin.Transform/Main.cs:86-110 | performs the try block step by step, mutating the parsed JObject in place; its effects and the exception it stops at are exactly those of the specification `TryBlock` |
| Pipeline.ApplyTransformation | Community.PowerToys.Run.Plugin.Transform/Main.cs:84-119 | never throws; its answer and the effects it appends to the host's trace are exactly those of the specification `Apply` |
| Plugin.IconFor | Community.PowerToys.Run.Plugin.Transform/Main.cs:165-167 | the light icon exactly for `Light` and `HighContrastWhite`, the dark icon exactly for every other theme |
| Plugin.SingleOrDefault | Community.PowerToys.Run.Plugin.Transform/Main.cs:175 | no option with the key gives null; exactly one gives an option with that key; two or more throw "Sequence contains more than one matching element" |
| Plugin.SingleOrDefaultPicksTheMatch | Community.PowerToys.Run.Plugin.Transform/Main.cs:175 | when one option carries the key, that option is the one picked |
| Plugin.Main.constructor | Community.PowerToys.Run.Plugin.Transform/Main.cs:38-42 | a new plugin has no icon, no directory, no context, no subscription, and is not disposed |
| Plugin.Main.Init | Community.PowerToys.Run.Plugin.Transform/Main.cs:125-130 | a null context throws and changes nothing; otherwise the context is stored, the theme handler attached once more, and the icon set from the current theme |
| Plugin.Main.UpdateIconPath | Community.PowerToys.Run.Plugin.Transform/Main.cs:165-167 | sets the icon path from the theme and changes no other field |
| Plugin.Main.OnThemeChanged | Community.PowerToys.Run.Plugin.Transform/Main.cs:169 | sets the icon path from the new theme only |
| Plugin.Main.UpdateSettings | Community.PowerToys.Run.Plugin.Transform/Main.cs:173-176 | the directory becomes the text value of the single `TransformsDirectoryPath` option, or null when there is none; with two such options the call throws "Sequence contains more than one matching element" and the directory keeps its value |
| Plugin.Main.DisposeCore | Community.PowerToys.Run.Plugin.Transform/Main.cs:150-163 | `Dispose(false)` and any call once disposed change nothing; the first `Dispose(true)` detaches one theme handler and sets `Disposed`, leaving the other fields as they were |
| Plugin.Main.Dispose | Community.PowerToys.Run.Plugin.Transform/Main.cs:140-144 | after the call the plugin is disposed; the first call detaches one theme handler and keeps the icon, directory and context; a second call changes nothing |
| Plugin.Main.Query | Community.PowerToys.Run.Plugin.Transform/Main.cs:49-82 | a null, empty or blank directory gives exactly one placeholder entry; otherwise one entry per listed file, in listing order, titled by its file name, subtitled "Transform file", with the search as query text and context data, and an action applying that file; an enumeration failure is passed on |
| Plugin.Main.QueryDoesNotScanWhenUnset | Community.PowerToys.Run.Plugin.Transform/Main.cs:51-61 | with no directory configured the answer does not depend on the file system at all |
| Plugin.Main.QueryTitlesAreFileNames | Community.PowerToys.Run.Plugin.Transform/Main.cs:66-77 | every file entry's title is the end of the path its action applies and holds no directory separator |

## Left out

- File system enumeration: `Directory.GetFiles(..., "*.json", AllDirectories)` is a parameter of
  `Query`. It gives the listing of `.json` files (all subdirectories included) or the exception's
  message. The wildcard match itself is not modelled.
- File I/O: reading, opening the target for truncation and copying bytes are `Environment`
  functions. Their effects are recorded abstractly in the trace, with no file contents. A copy
  that fails partway records the truncation but not the written part.
- Serialisation: `JObject.ToString()` and the `MemoryStream`/`StreamWriter` that carry the body
  to the engine are not modelled. The engine is given the body object itself, so the text layout is left out.
- Newtonsoft.Json parsing is the `Environment.deserialize` function. Numbers are kept as integers
  or as the float literal's text.
- The JDT engine (`JsonTransformation` and its `Apply`) is an opaque `Environment.transform`
  function that can fail. Its directive semantics are not modelled.
- Text.FileName: models `Path.GetFileName` for paths whose last separator comes after the root. For a
  drive-relative path such as `C:name` the runtime also drops the `C:`; the model does not.
- Host and UI plumbing: how `Result`, `ContextMenuResult`, notifications and message boxes are
  rendered, `LoadContextMenus`, `CreateSettingPanel` (it only throws NotImplementedException),
  the `AdditionalOptions` metadata, and the `Name`, `Description` and `PluginID` constants.
- The host calls `ShowNotification`, `ShowMsg` and `Log.Exception` are assumed not to throw.
  The host context is assumed to be present. If `Init` never ran, or threw, `Context` is null:
  `context.API` then throws inside the try block, and again inside the catch block, so in the source
  that exception escapes `ApplyTransformation`. The model's `Host` always exists, so that path is left out.
- Pipeline.SuccessIsNotified: holds only because the model assumes that disposing the streams never fails.
  In the source the `using var` target stream is flushed and closed when the try block ends,
  which is after `ShowNotification`. A flush that fails there would show the success notification,
  then the failure message, and return `false`. The model leaves that path out.
- Plugin.Main.Init: the host context is reduced to the theme its API reports. The event
  subscription is a count of attached handlers, and `Dispose` assumes the handler was attached
  through that same API.
- `GC.SuppressFinalize` in `Dispose()` has no modelled effect.
- Concurrency: there is none in the code. Races between repeated triggers on the same target are
  not modelled.
