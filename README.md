# App-host confirmation in `azd init`, modelled in Dafny

This project models `detectConfirmAppHost` from
`cli/azd/internal/repository/detect_confirm_apphost.go`. It is the small interactive
step of `azd init` that asks the user where the detected app should be hosted, shows
a summary, and asks for confirmation.

- `Init(appHost, root)` prints a three-line prompt and reads one integer from standard
  input. If the read fails, it prints the error and returns with nothing changed.
  A 1 (App Service) or a 2 (Container Apps) is kept. Any other number falls back to 1
  and prints a warning. After a successful read it stores the app host and records an
  `AppInitDetectedServices` usage event carrying the app host's language.
- `render` writes four console messages: a heading, the project name, where the project
  was detected, and a blank line. A fifth message naming "Azure App Service" or
  "Azure Container Apps" follows only when the selection is 1 or 2.
- `Confirm` loops. Each round renders and then asks a two-option `Select`. Index 0
  records an `AppInitConfirmedServices` usage event and returns nil. Index 1 returns the
  error "cancelled due to user input". An error from `Select` is returned unchanged.
  Any other index goes round again.

Files:

- `detect_confirm_apphost.dfy`, module `Repository`. It holds the values and the
  specification functions `InitStep`, `RenderLines` and `RunConfirm`. It also holds the
  class `DetectConfirmAppHost`, whose fields `appHost`, `root` and `userSelection` are
  the struct's fields, and whose methods `Init`, `CaptureUsage`, `Confirm` and `Render`
  are proved against those functions.
- `detect_confirm_apphost_properties.dfy`, module `RepositoryProperties`. It holds the
  lemmas that relate several calls.

How the effects are represented:

- The integer read from standard input is a `ReadResult` argument: `ReadErr(cause)` or
  `ReadOk(value)`.
- The answers `console.Select` gives are a finite `seq<SelectResult>`: `SelectErr(cause)`
  or `SelectOk(index)`. If they run out while the loop still wants an answer, `Confirm`
  reports `AwaitingAnswer`. That stands for the Go code blocking in `Select`.
- `fmt.Println` lines go to the ghost log `stdout`. Console calls go to the ghost log
  `console`, as `Say(message)` and `Ask(prompt, options)`. Telemetry calls go to the
  ghost log `usage`.
- The selection is an `int`, as in the code. `0` is the Go zero value before `Init`
  stores anything.

Where the code's behaviour looks unintended, the model follows the code:

- A failed read does not fall back to App Service and records no usage event.
  `userSelection` and `appHost` keep whatever they held; for a new struct that is 0 and
  the zero project (`RepositoryProperties.ReadErrorLeavesSelectionUnset`).
- There is no typed hosting-target enumeration. `Confirm` returns only an error and no
  target.
- `Init` writes its prompt and warnings straight to standard output, not through the
  console.
- `Init` ignores its `root` argument. The struct's `root` is only what the struct literal
  set, and `render`'s "Detected in" line is computed from that value.
- Cancellation is returned as a plain formatted error with no sentinel value. By its text,
  a caller cannot tell it apart from a `Select` error with the same message
  (`RepositoryProperties.CancellationTextIsAmbiguous`).

## Model

| member | source | states |
|---|---|---|
| `Repository.InitStep` | cli/azd/internal/repository/detect_confirm_apphost.go:30-57 | The three prompt lines are always printed. A read error prints the error, leaves the session unchanged and records no usage. After a successful read: the app host is the argument; the selection is 1 or 2; exactly one `AppInitDetectedServices` event with `[language]` is recorded. A read of 1 or 2 keeps the value and prints nothing more. Any other value selects 1 and prints exactly the fallback warning. The `root` argument is ignored: the session's `root` never changes. |
| `Repository.DetectConfirmAppHost.Init` | cli/azd/internal/repository/detect_confirm_apphost.go:30-57 | The object's fields, its stdout log and its usage log change as `InitStep` says. Only `appHost`, `userSelection`, `stdout` and `usage` may change. The field `root` keeps its value whatever the `root` argument is, and the console log stays unchanged. |
| `Repository.DetectConfirmAppHost.CaptureUsage` | cli/azd/internal/repository/detect_confirm_apphost.go:59-65 | Appends one event with the given key and the singleton list of the app host's language. Nothing else changes. |
| `Repository.RenderLines` | cli/azd/internal/repository/detect_confirm_apphost.go:97-119 | There are 5 messages when the selection is 1 or 2 and 4 otherwise. The first four are the heading, the project, its location relative to `root`, and a blank. The fifth names Azure App Service for 1 and Azure Container Apps for 2. |
| `Repository.DetectConfirmAppHost.Render` | cli/azd/internal/repository/detect_confirm_apphost.go:97-119 | Always returns no error. Appends exactly `RenderLines` of the current state to the console log and changes no field. |
| `RepositoryProperties.RenderTwice` | cli/azd/internal/repository/detect_confirm_apphost.go:97-119 | Two calls of `render` leave the state unchanged and append the same messages twice, so rendering is idempotent. |
| `Repository.Decision` | cli/azd/internal/repository/detect_confirm_apphost.go:82-93 | For an answer that ends the loop: continuing happens if and only if the index is 0. Cancellation happens if and only if the index is 1, and its error text is "cancelled due to user input". A `Select` error is passed on unchanged, with its own text. |
| `Repository.RunConfirm` | cli/azd/internal/repository/detect_confirm_apphost.go:69-95 | The loop stops at the first answer that is an error, 0 or 1, with that answer's decision. Every answer before it asked again. If there is no such answer, it waits having used every answer. It uses no more answers than given. A usage event (`AppInitConfirmedServices`, `[language]`) is recorded if and only if it confirmed. The console log is one render plus one prompt per round. |
| `Repository.RunConfirmSkips` | cli/azd/internal/repository/detect_confirm_apphost.go:70-94 | After `i` answers that each ask again, the run equals `i` rounds of render and prompt followed by the run on the rest. |
| `Repository.RunConfirmDecided` | cli/azd/internal/repository/detect_confirm_apphost.go:75-93 | If answer `i` is the first one that ends the loop, the run uses `i + 1` answers and shows `i + 1` rounds. It returns that answer's decision. It records the confirmed event only for index 0. |
| `Repository.RunConfirmAwaits` | cli/azd/internal/repository/detect_confirm_apphost.go:70-84 | If every answer asks again, the loop uses them all and renders and prompts once more. It then waits in `Select`, having recorded nothing. |
| `Repository.DetectConfirmAppHost.Confirm` | cli/azd/internal/repository/detect_confirm_apphost.go:69-95 | The loop returns `RunConfirm`'s outcome and answer count for the current state. It appends exactly that run's console calls and usage events. `appHost`, `root` and `userSelection` are never modified. |
| `Repository.DetectConfirmAppHost.constructor` | cli/azd/internal/repository/detect_confirm_apphost.go:17-27 | A struct literal that sets `root` and the `console` collaborator, leaving `AppHost` and `UserSelection` at zero: the given root, the zero project, selection 0, and empty stdout, console and usage logs (the console has not been called yet). The Go code has no constructor. |
| `RepositoryProperties.InitWarnsOnlyOnFallback` | cli/azd/internal/repository/detect_confirm_apphost.go:36-53 | The fallback warning is printed exactly once when the number read is neither 1 nor 2. It is never printed otherwise, including after a read error. |
| `RepositoryProperties.RenderNamesProduct` | cli/azd/internal/repository/detect_confirm_apphost.go:103-117 | The render names a product if and only if the selection is 1 and the product is Azure App Service, or the selection is 2 and the product is Azure Container Apps. |
| `RepositoryProperties.ConfirmRepromptsOnOtherIndex` | cli/azd/internal/repository/detect_confirm_apphost.go:86-94 | An index other than 0 and 1 costs one more render and prompt and one more answer. The outcome and usage are those of the remaining answers. |
| `RepositoryProperties.ConfirmedIffIndexZero` | cli/azd/internal/repository/detect_confirm_apphost.go:86-90 | `Confirm` returns nil if and only if the last answer it used was index 0. It records a usage event exactly then. |
| `RepositoryProperties.InitThenConfirmRecordsTwoEvents` | cli/azd/internal/repository/detect_confirm_apphost.go:55-90 | A successful read followed by a confirmation records exactly two events, detected then confirmed, both with the app host's language. |
| `RepositoryProperties.RoundsAfterInitExplainHosting` | cli/azd/internal/repository/detect_confirm_apphost.go:42-117 | After a successful read, every round shows five messages and the prompt. The fifth message names Container Apps for a read of 2 and App Service otherwise. |
| `RepositoryProperties.ReadErrorLeavesSelectionUnset` | cli/azd/internal/repository/detect_confirm_apphost.go:36-40 | After a failed read on a new struct, whatever the host and root arguments, the selection stays 0 and a round shows only four messages. Index 0 still returns nil and records the empty language of the unset app host. |
| `RepositoryProperties.CancellationTextIsAmbiguous` | cli/azd/internal/repository/detect_confirm_apphost.go:82-92 | The cancellation error and a `Select` error reading "cancelled due to user input" are different errors with the same text. |
| `RepositoryProperties.InvalidSelectionThenCancel` | cli/azd/internal/repository/detect_confirm_apphost.go:49-92 | Reading 9 selects 1 and prints one warning. Cancelling then returns "cancelled due to user input", and only the detection event is recorded. |

## Left out

- `SendRawARMRequest` (cli/azd/pkg/tools/http/requesthelper.go) is not part of this model. It only passes through to the Azure identity library and the HTTP client.
- Real input and output: `fmt.Scan`, `fmt.Println` and `input.Console` are replaced by the `ReadResult` argument, the `SelectResult` sequence and ghost logs.
- Text styling and display helpers (`output.WithBold`, `output.WithHighLightFormat`, `color.BlueString`, `color.MagentaString`, `relSafe`, `projectDisplayName`) are not modelled. Each console message records the values it is built from.
- `tracing.SetUsageAttributes` writes to a process-wide attribute set. The model records each call in order and does not model later calls overwriting earlier ones with the same key.
- `context.Context` cancellation is part of the `SelectErr` answer; the context itself is not modelled.
- `Repository.DetectConfirmAppHost.Confirm`: the loop's early return on a `render` error is not reproduced, because `render` always returns nil.
- `Repository.DetectConfirmAppHost.Confirm`: the Go loop can block forever in `Select`. The model runs over a finite sequence of answers and reports `AwaitingAnswer` when they run out.
- A struct whose `console` is nil is not modelled: the model's console always exists, so the nil-pointer panic at the first `console.Message` in `render` does not arise.
- Integer width: `fmt.Scan` fails on a number that does not fit in a Go `int`, which is a `ReadErr` here. Values are otherwise only compared with 1 and 2, so width does not matter.
- Which `appdetect.Project` fields `projectDisplayName` reads is not known here. The project is modelled by its language and path, and the name message carries the whole project.
