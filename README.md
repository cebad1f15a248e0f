# R session commands and session registry

This project models two parts of an IDE extension that drives an
out-of-process R interpreter.

1. **The command builders** (`RSessionEvaluationCommands`). Each extension
   method turns its arguments into exactly one R command and hands it to the
   session. A command goes either to the evaluation channel (`EvaluateAsync`,
   with a result kind) or to the interaction channel (`RespondAsync`). Here
   each builder is a pure function that returns a `Request`:
   `Evaluate(text, kind)` or `Respond(text)`.
   - File paths have every `\` rewritten to `/` (`PathText.Normalize`).
   - Integers are written as invariant-culture decimals (`IntegerText.Decimal`).
   - The proofs cover which channel and which result kind each command uses,
     and which commands end in a line break.
   - They also show that the host can read the arguments back from the text.
     The width, the plot size and the bitmap-export arguments are recovered
     exactly. A path is recovered up to the kind of slash.
   - The path is quoted into R without escaping. So an output path that holds
     a `'` can make two different bitmap exports send the same command
     (`ExportToBitmapQuoteAmbiguity`). `ExportToBitmapInjective` therefore
     assumes paths without quotes.
2. **The session registry** (`RSessionProvider`). It maps integer ids to
   session handles.
   - `Create` inserts only when the id is absent. On a duplicate it returns
     the session already stored.
   - `Create` raises the current-changed notification exactly when the
     current session read before the insert differs from the one read after.
   - `GetSessions` returns a copy of the map.
   - `Dispose` disposes every stored session once and empties the map.

   The class holds the map, a ghost count of notifications and a ghost log of
   disposed sessions. Its invariant says: every session is stored under its
   own id, no session is disposed twice, and no stored session has been
   disposed. `Current` is an unspecified choice. It yields null when the map
   is empty and otherwise one of the stored sessions. This is the only thing
   the dictionary's `FirstOrDefault` guarantees.

Files: `integer_text.dfy` (the C# `int` range, decimal rendering and its
parser), `path_text.dfy` (the path rewriting), `split.dfy` (facts about
separators used by the read-back proofs), `evaluation_commands.dfy` (the
builders), `session_provider.dfy` (the registry).

The five multi-line R scripts are kept as constant strings. Their text is
copied exactly. What the scripts do in R is not modelled.

## Model

| member | source | states |
|---|---|---|
| `IntegerText.Decimal` | src/Host/Client/Impl/Session/RSessionEvaluationCommands.cs:7 | invariant rendering of an integer: non-empty, starts with '-' exactly when negative, then only digits, no leading zero |
| `IntegerText.DecimalRoundTrip` | src/Host/Client/Impl/Session/RSessionEvaluationCommands.cs:140-142 | parsing the rendered text gives back the integer |
| `IntegerText.DecimalInjective` | src/Host/Client/Impl/Session/RSessionEvaluationCommands.cs:140-142 | two integers render alike if and only if they are equal |
| `IntegerText.DecimalCharacters` | src/Host/Client/Impl/Session/RSessionEvaluationCommands.cs:61 | a rendered integer holds only digits and '-', so no comma, space, quote, backslash, parenthesis or line break |
| `PathText.Normalize` | src/Host/Client/Impl/Session/RSessionEvaluationCommands.cs:11 | `Replace('\\', '/')`: same length, each backslash becomes '/', every other character stays in place, no backslash is left |
| `PathText.NormalizeIdempotent` | src/Host/Client/Impl/Session/RSessionEvaluationCommands.cs:11 | rewriting an already rewritten path changes nothing |
| `PathText.NormalizeFixesSlashPaths` | src/Host/Client/Impl/Session/RSessionEvaluationCommands.cs:10-24 | a path without backslashes is sent unchanged (by every path command: the three here and the exports of lines 81, 86 and 91) |
| `PathText.NormalizeKeepsOtherChars` | src/Host/Client/Impl/Session/RSessionEvaluationCommands.cs:81 | any character other than the two slashes occurs in the rewritten path if and only if it occurs in the original |
| `EvaluationCommands.OptionsSetWidth` | src/Host/Client/Impl/Session/RSessionEvaluationCommands.cs:6-8 | goes to evaluation with the default kind and ends in a line break |
| `EvaluationCommands.OptionsSetWidthInjective` | src/Host/Client/Impl/Session/RSessionEvaluationCommands.cs:6-8 | two widths give the same command if and only if they are equal |
| `EvaluationCommands.SetWorkingDirectory` | src/Host/Client/Impl/Session/RSessionEvaluationCommands.cs:10-12 | goes to evaluation with the default kind, ends in a line break, contains no backslash |
| `EvaluationCommands.SetWorkingDirectoryInjective` | src/Host/Client/Impl/Session/RSessionEvaluationCommands.cs:10-12 | two paths give the same command if and only if their rewritten forms are equal |
| `EvaluationCommands.SetDefaultWorkingDirectory` | src/Host/Client/Impl/Session/RSessionEvaluationCommands.cs:14-16 | goes to evaluation with the default kind and ends in a line break |
| `EvaluationCommands.LoadWorkspace` | src/Host/Client/Impl/Session/RSessionEvaluationCommands.cs:18-20 | goes to evaluation with the default kind, ends in a line break, contains no backslash |
| `EvaluationCommands.LoadWorkspaceInjective` | src/Host/Client/Impl/Session/RSessionEvaluationCommands.cs:18-20 | two paths give the same command if and only if their rewritten forms are equal |
| `EvaluationCommands.SaveWorkspace` | src/Host/Client/Impl/Session/RSessionEvaluationCommands.cs:22-24 | goes to evaluation with the default kind, ends in a line break, contains no backslash |
| `EvaluationCommands.SaveWorkspaceInjective` | src/Host/Client/Impl/Session/RSessionEvaluationCommands.cs:22-24 | two paths give the same command if and only if their rewritten forms are equal |
| `EvaluationCommands.SetVsGraphicsDevice` | src/Host/Client/Impl/Session/RSessionEvaluationCommands.cs:26-58 | the device script goes to evaluation with the default kind and ends in a line break |
| `EvaluationCommands.ResizePlot` | src/Host/Client/Impl/Session/RSessionEvaluationCommands.cs:60-63 | goes to the respond channel, not to evaluation, and ends in a line break |
| `EvaluationCommands.ResizePlotInjective` | src/Host/Client/Impl/Session/RSessionEvaluationCommands.cs:60-63 | two sizes give the same command if and only if both width and height are equal |
| `EvaluationCommands.NextPlot` | src/Host/Client/Impl/Session/RSessionEvaluationCommands.cs:65-68 | goes to the respond channel and ends in a line break |
| `EvaluationCommands.PreviousPlot` | src/Host/Client/Impl/Session/RSessionEvaluationCommands.cs:70-73 | goes to the respond channel and ends in a line break |
| `EvaluationCommands.PlotHistoryInfo` | src/Host/Client/Impl/Session/RSessionEvaluationCommands.cs:75-78 | the only command evaluated with the JSON result kind; it ends in ')', not in a line break |
| `EvaluationCommands.ExportToBitmap` | src/Host/Client/Impl/Session/RSessionEvaluationCommands.cs:80-83 | goes to evaluation with the default kind and ends in ')', not in a line break |
| `EvaluationCommands.ExportToBitmapInjective` | src/Host/Client/Impl/Session/RSessionEvaluationCommands.cs:80-83 | for output paths without a quote, two exports give the same command if and only if device, rewritten path, width and height are all equal |
| `EvaluationCommands.ExportToBitmapQuoteAmbiguity` | src/Host/Client/Impl/Session/RSessionEvaluationCommands.cs:81 | with a quote in the path, the arguments ("png", "a', b", 1, 2) and ("b', png", "a", 1, 2) give the same command, because the device name is unquoted |
| `EvaluationCommands.ExportToMetafile` | src/Host/Client/Impl/Session/RSessionEvaluationCommands.cs:85-88 | goes to evaluation with the default kind and ends in ')' |
| `EvaluationCommands.ExportToPdf` | src/Host/Client/Impl/Session/RSessionEvaluationCommands.cs:90-93 | goes to evaluation with the default kind and ends in ')' |
| `EvaluationCommands.SetVsCranSelection` | src/Host/Client/Impl/Session/RSessionEvaluationCommands.cs:95-103 | goes to evaluation with the default kind and ends in ')' |
| `EvaluationCommands.SetVsHelpRedirection` | src/Host/Client/Impl/Session/RSessionEvaluationCommands.cs:105-111 | goes to evaluation with the default kind and ends in ')' |
| `EvaluationCommands.SetRdHelpExtraction` | src/Host/Client/Impl/Session/RSessionEvaluationCommands.cs:113-127 | goes to evaluation with the default kind |
| `EvaluationCommands.SetChangeDirectoryRedirection` | src/Host/Client/Impl/Session/RSessionEvaluationCommands.cs:129-138 | goes to evaluation with the default kind |
| `SessionProvider.RSession.constructor` | src/Package/Impl/Repl/Session/RSessionProvider.cs:17 | a new session carries the id it was created for |
| `SessionProvider.RSessionProvider.constructor` | src/Package/Impl/Repl/Session/RSessionProvider.cs:14 | a new registry is empty, has raised no notification and has disposed nothing |
| `SessionProvider.RSessionProvider.Current` | src/Package/Impl/Repl/Session/RSessionProvider.cs:38 | null if and only if the map is empty; otherwise one of the stored sessions |
| `SessionProvider.RSessionProvider.Create` | src/Package/Impl/Repl/Session/RSessionProvider.cs:16-32 | absent id: adds exactly that key with a fresh session carrying the id, returns it, leaves other entries alone, and notifies exactly when Current before and after differ. Present id: map unchanged, no notification, returns the stored session. The first Create on an empty registry always notifies |
| `SessionProvider.RSessionProvider.GetSessions` | src/Package/Impl/Repl/Session/RSessionProvider.cs:34-36 | the copy equals the map at the time of the call |
| `SessionProvider.RSessionProvider.Dispose` | src/Package/Impl/Repl/Session/RSessionProvider.cs:42-48 | each stored session is disposed exactly once more (the disposal log grows by the stored sessions as a multiset), nothing else is disposed, and the map is empty |
| `SessionProvider.SnapshotSurvivesChanges` | src/Package/Impl/Repl/Session/RSessionProvider.cs:34-36 | a copy taken by GetSessions still equals the map of that moment after a later Create and Dispose |
| `SessionProvider.NoCurrentAfterDispose` | src/Package/Impl/Repl/Session/RSessionProvider.cs:42-48 | after Dispose, Current is null |

## Left out

- `EvaluateAsync`, `RespondAsync` and the host RPC behind them are foreign asynchronous calls. The model records only the request they would receive, and no results.
- `ResizePlot` and `ExportToBitmap` format their integers with `string.Format` under the current culture. The model uses invariant rendering. The two differ only for negative numbers in a culture whose negative sign is not '-'.
- `ExportToMetafile` and `ExportToPdf` take `double` sizes formatted under the current culture. Floating-point formatting is not modelled: the sizes are parameters that hold their already formatted text. Only the path rewriting and the layout of these two commands are modelled.
- What the five R scripts do in R is not modelled. Their text is kept as constants.
- `Create`: `Debug.Fail` on a duplicate id (an assertion dialog in debug builds) is not modelled. The model follows the release behaviour, which returns the stored session.
- The thread safety of `ConcurrentDictionary` is not modelled. The registry is modelled sequentially.
- The enumeration order behind `FirstOrDefault` is not specified by the library. `Current` may yield any stored session, and two reads of an unchanged map may differ. Everything proved holds for every such choice.
- `Equals(currentSession, currentSessionAfterAdd)` is modelled as reference identity. `RSession` is not part of this model.
- Session internals and `RSession.Dispose` are not modelled. A disposal is an entry in a ghost log. Raising `CurrentSessionChanged` is a ghost counter. Event handlers are not invoked.
- SetWorkingDirectory, LoadWorkspace, SaveWorkspace, ExportToBitmap, ExportToMetafile, ExportToPdf: a null path is not modelled, because a Dafny string cannot be null. In the source `Replace` then throws a `NullReferenceException` and nothing is sent.
- ExportToBitmap, ExportToPdf, SetVsCranSelection: a null device name, paper or mirror URL is not modelled separately. In the source it is formatted or concatenated as the empty string, which is the model's `""` case.
- PathText.Normalize: a Dafny `char` is a Unicode scalar value, not a UTF-16 code unit, so lone surrogates cannot be written and "same length" counts scalar values. What `Replace('\\', '/')` does to the path is the same.
- `src/Package/Impl/Plots/PlotContentProvider.cs` is left out. It is WPF UI construction, clipboard and message-box calls, temporary-file I/O and main-thread switching around the commands above. Its `PixelsToInches` is floating point.
- `src/Mocks/VisualStudio/VsInteractiveWindowMock.cs` is left out. It is a test mock with empty bodies.
