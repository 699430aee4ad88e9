# Color Context: a Dafny model of the screen logic

Color Context lets a user photograph food and see "visual signals" drawn as
markers on the photo. Each signal carries an observation, an interpretation
and a risk level (`none`, `alert`, `critical`). Clicking a marker opens a
detail panel. This project models the deterministic decisions in that flow
and proves properties about them:

- `Types` (`types.ts`): the value types `AppMode`, `RiskLevel`, `Signal` and
  the analysis response. `x` and `y` are numbers that are passed through.
  The percentage range written next to them in the source is only a comment,
  so it is not asserted.
- `Labels`: the anchored, case-insensitive, non-global `String.replace` that
  the detail panel uses to drop a leading field label. It is modelled
  character by character, with JavaScript's `\s` and ASCII case folding.
  Next to it is a declarative description (`RemovesLabel`) of what such a
  replacement leaves behind. The model proves that this description fixes
  the result uniquely and that the function meets it.
- `Drawer` (`components/Drawer.tsx`): the header text, the "Critical" badge,
  and the displayed observation and interpretation.
- `SignalPoint` (`components/SignalPoint.tsx`): how a marker is drawn,
  reduced to a record. The record holds the shape, the enlarged look, the
  pulsing ring, the tooltip, the position, and the signal a click hands on.
- `App` (`App.tsx`): the screen's view state and its handlers, as a class
  `AppState`. Each method is proved to follow a pure transition function on
  the `View` datatype. Every analysis is split into a start, which returns
  the request sent to the service, and a separate completion step that takes
  the outcome (the response, or the thrown error's message).

The code has no layer that normalises the analysis response:
`services/geminiService.ts:92-93` parses the text and casts it unchanged, so
the model has none.

Characters are Unicode scalar values, while JavaScript strings are UTF-16
code units. For these regular expressions that makes no difference. Every
label and every whitespace character lies in the Basic Multilingual Plane,
so a match never ends inside a surrogate pair.

## Model

| member | source | states |
|---|---|---|
| `Labels.SpaceRun` | components/Drawer.tsx:57 | `\s*` at the start of a text: the run it consumes is all JavaScript whitespace (including U+00A0 and U+FEFF), and the character after it, if any, is not whitespace, so the run is the longest one |
| `Labels.SeparatorEnd` | components/Drawer.tsx:57 | greedy `:?\s*` after a label: what it consumes is an optional colon followed by whitespace, and it stops only where the next character is neither whitespace nor a colon it could still have taken |
| `Labels.MatchEnd` | components/Drawer.tsx:57 | the anchored alternation tried in order: it matches exactly when some label begins the text (ignoring case), and the match then ends inside the text |
| `Labels.MatchEndAtFirstMatch` | components/Drawer.tsx:57 | when a label matches, the alternation's match ends right after the greedy separator that follows the first matching label |
| `Labels.StripLabel` | components/Drawer.tsx:57 | the text left after the replacement is a suffix of the original and never longer |
| `Labels.RemovesLabelUnique` | components/Drawer.tsx:57 | for a given label and text, at most one remainder satisfies the declarative description (label ignoring case, then the longest optional-colon-and-whitespace separator) |
| `Labels.StripLabelRemovesFirstMatch` | components/Drawer.tsx:57 | when some label matches at the start (ignoring case), the first such label is removed with its separator, exactly as the declarative description says |
| `Labels.StripLabelNoMatch` | components/Drawer.tsx:69 | text that matches none of the labels is displayed unchanged |
| `Drawer.HeaderText` | components/Drawer.tsx:12 | the header is "Shopping Insight" exactly in shopping mode and "Cooking Insight" exactly otherwise |
| `Drawer.DisplayedObservation` | components/Drawer.tsx:57 | the displayed observation is a suffix of the stored one and never longer |
| `Drawer.DisplayedInterpretation` | components/Drawer.tsx:69 | the displayed interpretation is a suffix of the stored one and never longer |
| `Drawer.DisplayedObservationSpec` | components/Drawer.tsx:57 | a leading "The Visual Sign" or "Observation" (any case) is removed with an optional colon and all whitespace after it; the text is shown unchanged exactly when neither label begins it |
| `Drawer.DisplayedInterpretationSpec` | components/Drawer.tsx:69 | the same for "What It Means", "Interpretation" and "The Meaning": one of them is removed when it begins the text, and the text is unchanged exactly when none does |
| `Drawer.DisplayedAfterObservationLabel` | components/Drawer.tsx:57 | "Observation: " in front of text that is empty or does not start with whitespace is removed, and nothing more |
| `Drawer.StripsOnlyOnce` | components/Drawer.tsx:57 | only one label is removed: "Observation: Observation: x" displays as "Observation: x", so displaying twice differs from displaying once |
| `Drawer.NoWordBoundary` | components/Drawer.tsx:57 | no word boundary is needed after a label: "Observational" displays as "al" |
| `Drawer.CaseAndNoBreakSpace` | components/Drawer.tsx:69 | matching ignores case, and a no-break space after the colon is removed as whitespace: "WHAT IT MEANS:" + U+00A0 + " Fresh" displays as "Fresh" |
| `Drawer.Render` | components/Drawer.tsx:11-71 | the header follows the mode; the body exists exactly when a signal is selected; the "Critical" badge shows exactly when the risk is not `none` (so also for `alert`); the body holds the cleaned observation and interpretation |
| `SignalPoint.Render` | components/SignalPoint.tsx:11-63 | the triangle icon exactly for risk other than `none`, the circle otherwise; the pulsing ring exactly with the triangle; the tooltip exactly when the marker is not active, reading "Critical Warning" or "View Signal"; placed at left = x and top = y unchanged; a click hands on the same signal |
| `SignalPoint.LookDependsOnlyOnRiskAndPosition` | components/SignalPoint.tsx:12-59 | two signals with the same position that agree only on whether the risk is `none` are drawn identically, so `alert` and `critical` look alike |
| `App.UploadErrorText` | App.tsx:79 | an upload failure's message is never empty: the error's own message when it is present and not empty, otherwise exactly "Something went wrong reading the image." |
| `App.MarkersOf` | App.tsx:232-239 | one marker per signal, in list order, each active exactly when its id equals the selected signal's id |
| `App.Markers` | App.tsx:210-239 | no marker without a photo or while analysing; otherwise marker i is signal i drawn as `SignalPoint.Render` draws it, enlarged exactly when its id is the selected id |
| `App.ErrorBanner` | App.tsx:252-257 | with a photo on screen, a banner is shown exactly when the error is present and not empty, and it shows that error; without a photo there is no banner |
| `App.ToggleWithoutReanalysis` | App.tsx:100-104 | choosing the current mode changes nothing; with no photo a new mode changes only the mode |
| `App.StartingHidesResults` | App.tsx:66-108 | once an upload or a mode switch starts an analysis, no marker is drawn and the detail panel is closed |
| `App.UploadSuccessShowsResponse` | App.tsx:66-82 | after a successful upload, analysis has stopped, the signals are the response's list in response order, no marker is selected and no error is shown |
| `App.UploadFailureIsReported` | App.tsx:66-82 | after a failed upload, analysis has stopped, no signals remain, and the banner shows the message, or the fallback text when the message is missing or empty |
| `App.ToggleSuccessKeepsError` | App.tsx:100-121 | a successful re-analysis after a mode switch sets the new mode and the response's signals but leaves the earlier error, and its banner, in place |
| `App.ToggleFailureMayShowNothing` | App.tsx:105-118 | a failed re-analysis whose error has no message (or an empty one) shows no banner, even if an earlier error was shown |
| `App.SelectThenClose` | App.tsx:129-131 | selecting a listed signal enlarges exactly the markers sharing its id and opens the panel on its cleaned observation; closing (App.tsx:295) closes the panel and unselects every marker |
| `App.DistinctIdsOneActive` | App.tsx:232-236 | when the ids are distinct, at most one marker is drawn as selected |
| `App.BadgeMatchesMarker` | components/Drawer.tsx:48-52 | for the selected signal, the panel's "Critical" badge shows exactly when its marker is the warning triangle (components/SignalPoint.tsx:12 applies the same test) |
| `App.AppState.constructor` | App.tsx:10-19 | the initial state: no photo, no signals, nothing selected, not analysing, shopping mode, no error, safety notice closed |
| `App.AppState.HandleFileUpload` | App.tsx:60-86 | with no file nothing changes; with one, the photo is replaced, signals, selection and error are cleared, analysis starts, and the request carries the photo and the current mode |
| `App.AppState.FinishUploadAnalysis` | App.tsx:74-82 | success replaces the signals with the response's list; failure sets the error with the fallback; analysis stops either way |
| `App.AppState.ToggleMode` | App.tsx:100-121 | the same mode changes nothing; a new mode is set, and with a photo the signals and selection are cleared and analysis starts, the request carrying the photo and the new mode; the error is untouched |
| `App.AppState.FinishToggleAnalysis` | App.tsx:109-117 | success replaces the signals; failure sets the error to the message as it is, with no fallback; analysis stops either way |
| `App.AppState.SelectSignal` | App.tsx:129-132 | the clicked signal becomes the selected one and nothing else changes |
| `App.AppState.CloseDrawer` | App.tsx:295 | the selection is cleared and nothing else changes |
| `App.AppState.HandleAgree` | App.tsx:33-36 | the safety notice is closed and nothing else changes |

## Left out

- `services/geminiService.ts` is not modelled. It is a network call through the Gemini client library plus prompt text. Its only logic is `JSON.parse` with an unchecked cast, and a parse error rethrown as "Decoding failure…". The model takes the outcome of an analysis as a parameter instead: a response, or an error's message.
- The unchecked cast is taken at face value: every signal has a string id and the declared fields, and the response holds a `signals` list. The source behaves differently on a malformed response. Signals without an id would all compare equal to the absent selection. A missing list would break rendering. None of that is modelled.
- `services/audioService.ts` (sound effects through the Web Audio API, floating-point tones and random noise) is not modelled. Neither are the calls the handlers make to it.
- `components/SafetyModal.tsx` is not modelled. Its props do not include the agreement callback that `App.tsx:301` passes to it, so `HandleAgree` is never reached from the modal. The notice is opened by the load-time storage check (App.tsx:25-30) and the "Safety Standards" button, and closed by the modal's own close callback. None of these is modelled, so in the model the notice stays closed. The storage write in `handleAgree` is left out as I/O.
- Theme selection, the theme menu, the audio toggle, the click-outside listener and all styling are not modelled. Neither is the hint line under the photo.
- `FileReader` is not modelled: the picked file arrives as its data-URL text. Clearing the file input after a pick is not modelled either.
- Overlapping analyses are not modelled. In the source a stale result can overwrite a newer one. Each analysis is a start step and a completion step, and nothing is proved about how they interleave.
