# Educational video generator: a verified model

This project models the core of a React application. The application collects
the requirements for an educational video and generates a Manim (Python
animation library) script from them. It then lets the user edit that script and
simulates the video render. It also browses a small catalog of finished videos.

The user goes through three steps:

1. **Requirements.** A form collects the topic, level, duration, style,
   concepts, description and customisations.
2. **Script preview.** The script generated from those requirements appears in
   an editable buffer. The user can copy it, download it, go back, or go on.
3. **Video generation.** A simulated render writes eleven log lines on a timer
   and raises the progress. At the end it publishes a video URL and offers a
   download.

Separately, the video library filters the catalog by a case-insensitive search
and a level. It sorts the result by one of five keys.

The Dafny modules follow the components:

| module | models |
|---|---|
| `Text` | whitespace, `trim`, ASCII lower-casing, the `replace(/\s+/g, …)` slug, `join`, `includes`, number formatting |
| `Requirements` | the requirements record and its enumerations |
| `RequirementsForm` | the form: concept-list editing (pure functions), and class `Form` for the component state |
| `TemplateLiteral` | a template literal as numbered parts, and where each part lands in the rendered text |
| `ScriptTemplate` | `generateManimScript`, and where topic, class name, calls, method blocks and concept lists sit in the script |
| `Wizard` | the step indicator, the panel choice, and class `VideoGenerator` with the step handlers |
| `Preview` | class `ScriptPreview` (edit buffer, copied flag, download), and the two file names |
| `Renderer` | class `VideoRenderer`: start, one method call per timer tick, download, settings; the URL and file name |
| `Library` | filter, sort, the filter-then-sort pipeline, the download link and the concept chips |
| `CatalogExamples` | the pipeline evaluated on the six-entry catalog |

Modelling choices:

- Whitespace means the six ASCII space characters. Lower-casing is ASCII only.
- Ratings are integer tenths, so 4.8 is `48`.
- Catalog dates are `YYYYMMDD` integers.
- Render progress is an exact rational (`real`).
- `Array.prototype.sort` is stable. It is modelled as a stable insertion sort by
  an integer key, and the comparator is proved to be the key difference.
- A UI handler whose button the interface only shows in one state carries that
  state as a precondition. These are: `Start` (idle), `DownloadVideo`
  (completed), the render settings (idle), and approve and back in the wizard
  (the step whose panel shows the button).

## Model

| member | source | states |
|---|---|---|
| Text.Trim | src/components/RequirementsForm.tsx:35 | the trimmed string is empty or has no whitespace at either end |
| Text.TrimIsInfix | src/components/RequirementsForm.tsx:35 | `trim` removes only a whitespace prefix and a whitespace suffix; the rest is the contiguous piece of the input that starts where the leading whitespace ends |
| Text.TrimBlank | src/components/RequirementsForm.tsx:35 | the trimmed input is empty (falsy) exactly when the input is all whitespace |
| Text.TrimIdempotent | src/components/RequirementsForm.tsx:35 | trimming twice equals trimming once |
| Text.ReplaceRemovesSpace | src/components/VideoRenderer.tsx:61 | replacing whitespace runs by `_` or by nothing leaves no whitespace and never lengthens the string |
| Text.ReplaceNoSpace | src/components/VideoLibrary.tsx:134 | a string with no whitespace is left unchanged by the replacement |
| Text.ReplaceSplit | src/components/VideoRenderer.tsx:61 | no whitespace run crosses the end of a string that ends in a non-space, so the replacement of the whole is the replacements of the two parts |
| Text.ReplaceRun | src/components/VideoRenderer.tsx:61 | a maximal whitespace run of any length, between non-space neighbours, becomes exactly one copy of the replacement |
| Text.ReplaceLowerCommute | src/components/VideoGenerator.tsx:118 | lower-casing then replacing whitespace runs equals replacing then lower-casing |
| Text.StripSpacesIsFilter | src/components/VideoGenerator.tsx:112 | `replace(/\s+/g, '')` deletes exactly the whitespace characters and keeps the others in order |
| Text.Slug | src/components/VideoRenderer.tsx:61 | the slug `replace(/\s+/g,'_').toLowerCase()` has no whitespace, no capitals, and is no longer than its input |
| Text.SlugIdempotent | src/components/ScriptPreview.tsx:27 | the slug of a slug is the same slug |
| Text.SlugIsLowerIff | src/components/VideoLibrary.tsx:134 | the slug differs from plain lower-casing exactly when the input contains whitespace |
| Text.SlugFileName | src/components/VideoLibrary.tsx:134 | a file name made of a slug and a fixed suffix has no whitespace or capitals; it is the slug followed by the suffix |
| Text.ContainsIff | src/components/VideoLibrary.tsx:107 | `includes` holds exactly when the needle occurs at some position |
| Text.ContainsEmpty | src/components/VideoLibrary.tsx:107 | every string includes the empty search term |
| Text.MissingCharNotContained | src/components/VideoLibrary.tsx:107 | a needle with a character that the text lacks is not included |
| Text.JoinHasElement | src/components/VideoGenerator.tsx:106 | each element of `join(sep)` occurs in the joined text at its offset |
| Text.JoinOffsetIncreasing | src/components/VideoGenerator.tsx:106 | the elements' offsets in the join strictly increase, at least the element and one `sep` apart |
| Text.JoinHasSeparator | src/components/VideoGenerator.tsx:106 | between each element and the next, the join holds exactly one `sep`, right after the element |
| Text.JoinLength | src/components/VideoGenerator.tsx:106 | the join ends right after its last element, so elements and separators make up the whole text |
| Text.JoinCountsSeparators | src/components/VideoGenerator.tsx:118 | joining n ≥ 1 line-free elements with a one-newline separator yields exactly n-1 newlines |
| Text.NatToStringRoundTrip | src/components/VideoLibrary.tsx:247 | the decimal text of a natural number parses back to that number |
| Text.IntToString | src/components/VideoRenderer.tsx:61 | `${n}` is non-empty and parses back to `n` (after the `-` when negative) |
| Requirements.ParseLevel | src/types/video.ts:3 | a parsed level names exactly the string it was parsed from, and a string no level names is refused |
| Requirements.LevelNameRoundTrip | src/types/video.ts:3 | every level's string parses back to that level |
| Requirements.ParseStyle | src/types/video.ts:5 | a parsed style names exactly the string it was parsed from, and a string no style names is refused |
| Requirements.StyleNameRoundTrip | src/types/video.ts:5 | every style's string parses back to that style |
| Requirements.LevelNamesDistinct | src/types/video.ts:3 | different levels have different string values |
| Requirements.StyleNamesDistinct | src/types/video.ts:5 | different styles have different string values |
| RequirementsForm.LabelIsTrimmed | src/components/RequirementsForm.tsx:35-38 | a stored concept is its own trim |
| RequirementsForm.AddConceptTo | src/components/RequirementsForm.tsx:35-40 | if the trimmed input is non-blank and new, it is appended at the end and nothing else changes; otherwise the list is unchanged; in both cases the old list is a prefix, the members are old members or the trimmed input, and a well-formed list stays well formed |
| RequirementsForm.RemoveConceptFrom | src/components/RequirementsForm.tsx:44-49 | the result's members are exactly the old members other than `c`, and it is no longer |
| RequirementsForm.RemoveKeepsWellFormed | src/components/RequirementsForm.tsx:47 | removing keeps the list duplicate-free and trimmed |
| RequirementsForm.RemoveAbsent | src/components/RequirementsForm.tsx:47 | removing a concept that is not there changes nothing |
| RequirementsForm.RemoveAt | src/components/RequirementsForm.tsx:44-49 | in a duplicate-free list, removing element k yields the list without position k, the others in their original order |
| RequirementsForm.AddThenRemove | src/components/RequirementsForm.tsx:34-49 | removing a concept that was just added restores the list |
| RequirementsForm.EditsKeepWellFormed | src/components/RequirementsForm.tsx:34-49 | any sequence of adds and removes keeps a well-formed list duplicate-free and trimmed |
| RequirementsForm.SubmitDisabled | src/components/RequirementsForm.tsx:261 | the submit button is disabled exactly when the submit guard fails |
| RequirementsForm.SetFlagIn | src/components/RequirementsForm.tsx:240-247 | a check box changes its own flag and keeps the colour scheme and the other flags |
| RequirementsForm.Form.constructor | src/components/RequirementsForm.tsx:10-25 | the initial form data (empty topic, high-school, 3 minutes, 2D animated, no concepts, professional, subtitles only) and an empty concept input |
| RequirementsForm.Form.HandleSubmit | src/components/RequirementsForm.tsx:27-32 | the form data is submitted exactly when the topic is non-empty and there is a concept; otherwise nothing is submitted |
| RequirementsForm.Form.AddConcept | src/components/RequirementsForm.tsx:34-42 | only the concept list changes, as `AddConceptTo` says; the input is cleared exactly when the label was accepted; the list stays well formed |
| RequirementsForm.Form.RemoveConcept | src/components/RequirementsForm.tsx:44-49 | only the concept list changes, as `RemoveConceptFrom` says; the input is kept; the list stays well formed |
| RequirementsForm.Form.SetNewConcept | src/components/RequirementsForm.tsx:162 | the concept input takes the typed text and the form data is unchanged |
| RequirementsForm.Form.SetTopic | src/components/RequirementsForm.tsx:79 | only the topic changes |
| RequirementsForm.Form.SelectPreset | src/components/RequirementsForm.tsx:93 | the topic becomes exactly the chosen preset string and nothing else changes |
| RequirementsForm.Form.SetLevel | src/components/RequirementsForm.tsx:108 | only the level changes |
| RequirementsForm.Form.SetDuration | src/components/RequirementsForm.tsx:131 | only the duration changes |
| RequirementsForm.Form.SetStyle | src/components/RequirementsForm.tsx:143 | only the style changes |
| RequirementsForm.Form.SetDescription | src/components/RequirementsForm.tsx:202 | only the description changes |
| RequirementsForm.Form.SetColorScheme | src/components/RequirementsForm.tsx:217-220 | only the colour scheme changes |
| RequirementsForm.Form.SetFlag | src/components/RequirementsForm.tsx:241-247 | only the chosen customisation flag changes |
| TemplateLiteral.RenderRangeSplit | src/components/VideoGenerator.tsx:100-162 | rendering a run of template parts splits at any point inside it |
| TemplateLiteral.RenderHasPart | src/components/VideoGenerator.tsx:100-162 | each part's text sits in the rendered template at that part's offset |
| TemplateLiteral.PartOffsetMonotone | src/components/VideoGenerator.tsx:100-162 | later parts start no earlier than earlier ones |
| TemplateLiteral.RangeAt | src/components/VideoGenerator.tsx:100-162 | a run of parts stands together at its first part's offset, and the next part follows right after it |
| ScriptTemplate.ConceptIdentLowerThenReplace | src/components/VideoGenerator.tsx:118 | the one-pass identifier equals lower-casing the concept and then replacing every maximal whitespace run by `_` |
| ScriptTemplate.ConceptIdentIsClean | src/components/VideoGenerator.tsx:118 | a concept's identifier (`toLowerCase`, then whitespace runs to `_`) has no whitespace and no capitals |
| ScriptTemplate.ConceptIdentIsSlug | src/components/VideoGenerator.tsx:118 | that identifier is the same string as the slug of the concept |
| ScriptTemplate.ClassNameShape | src/components/VideoGenerator.tsx:112 | the class name is the topic's non-whitespace characters in order, followed by `Video`, and has no whitespace |
| ScriptTemplate.CallLines | src/components/VideoGenerator.tsx:118 | there is one call line per concept, in concept order |
| ScriptTemplate.ScriptOpensWithTopic | src/components/VideoGenerator.tsx:100-101 | the script begins with the docstring quotes and the topic |
| ScriptTemplate.DocstringListsConcepts | src/components/VideoGenerator.tsx:106 | the docstring holds the concepts joined by `", "` |
| ScriptTemplate.ConceptInDocstring | src/components/VideoGenerator.tsx:106 | every concept occurs in the docstring's list, at its place in the join |
| ScriptTemplate.SummaryListsConcepts | src/components/VideoGenerator.tsx:152 | the conclusion's summary holds the concepts joined by `", "` |
| ScriptTemplate.ConceptInSummary | src/components/VideoGenerator.tsx:152 | every concept occurs in the summary, at its place in the join |
| ScriptTemplate.ClassLineNamesClass | src/components/VideoGenerator.tsx:112 | the class line defines `ClassName(topic)` deriving from `Scene` |
| ScriptTemplate.RenderHintNamesClass | src/components/VideoGenerator.tsx:159-162 | the render hint names the same class, and only `pass` follows it to the end of the script |
| ScriptTemplate.ClassLineBeforeHint | src/components/VideoGenerator.tsx:112-160 | the class line comes before the render hint |
| ScriptTemplate.ConstructCalls | src/components/VideoGenerator.tsx:113-121 | between the intro and conclusion calls, `construct` holds the concepts' call lines joined by a newline and the body indentation |
| ScriptTemplate.CallLineAt | src/components/VideoGenerator.tsx:118 | concept i's `self.<id>_scene()` call occurs at its offset |
| ScriptTemplate.CallLinesInOrder | src/components/VideoGenerator.tsx:118 | the call lines appear in the order of the concepts and do not overlap |
| ScriptTemplate.ConstructCallOrder | src/components/VideoGenerator.tsx:113-121 | `construct` calls `intro_scene`, then each concept's scene, then `conclusion_scene` |
| ScriptTemplate.OneCallLinePerConcept | src/components/VideoGenerator.tsx:118 | the calls form exactly one line per concept (n-1 line breaks between n calls) |
| ScriptTemplate.CallNamesDefinedMethod | src/components/VideoGenerator.tsx:118-135 | a concept's call line and its `def` line name the same `<id>_scene` method |
| ScriptTemplate.BlockOpensWithDefLine | src/components/VideoGenerator.tsx:134-136 | a concept's method block opens with its `def <id>_scene(self):` line |
| ScriptTemplate.BlocksFollow | src/components/VideoGenerator.tsx:134-147 | after the intro method come the concepts' blocks, concatenated |
| ScriptTemplate.BlockAt | src/components/VideoGenerator.tsx:134-147 | concept i's block occurs at its offset: one block per concept |
| ScriptTemplate.DefLineAt | src/components/VideoGenerator.tsx:135 | concept i's `def` line occurs inside its block |
| ScriptTemplate.DefLinesInOrder | src/components/VideoGenerator.tsx:134-147 | the `def` lines appear in the order of the concepts |
| Wizard.StepNumber | src/components/VideoGenerator.tsx:38-42 | step numbers are 1 to 3 |
| Wizard.Status | src/components/VideoGenerator.tsx:44-50 | a circle is current iff its step is the current step; requirements is done whenever it is not current; preview is done iff the current step is render; render is never done |
| Wizard.StatusFollowsOrder | src/components/VideoGenerator.tsx:44-50 | a circle is done iff its number is below the current one, and upcoming iff it is above |
| Wizard.ConnectorDone | src/components/VideoGenerator.tsx:58-64 | the connector after a circle is green iff that circle's number is below the current one |
| Wizard.ConnectorMatchesCircle | src/components/VideoGenerator.tsx:44-64 | a connector is green exactly when the circle before it is done |
| Wizard.PanelFor | src/components/VideoGenerator.tsx:72-91 | the form shows iff the step is requirements; preview and render panels show only with stored requirements, and receive them with the stored script |
| Wizard.VideoGenerator.constructor | src/components/VideoGenerator.tsx:8-10 | no requirements, an empty script, the requirements step |
| Wizard.VideoGenerator.HandleRequirementsSubmit | src/components/VideoGenerator.tsx:12-19 | stores the requirements, moves to preview, stores `generateManimScript(reqs)` |
| Wizard.VideoGenerator.HandleScriptApprove | src/components/VideoGenerator.tsx:21-23 | preview moves to render; requirements and script unchanged |
| Wizard.VideoGenerator.HandleBackToRequirements | src/components/VideoGenerator.tsx:25-27 | preview moves to requirements; requirements and script unchanged |
| Wizard.VideoGenerator.HandleBackToPreview | src/components/VideoGenerator.tsx:29-31 | render moves to preview; requirements and script unchanged |
| Wizard.PanelShown | src/components/VideoGenerator.tsx:72-91 | in every reachable state a panel is shown, and its script is the one generated from its requirements |
| Preview.ScriptFileName | src/components/ScriptPreview.tsx:27 | the download name is the topic's slug followed by `_manim_script.py`, with no whitespace or capitals |
| Preview.SaveName | src/components/ScriptPreview.tsx:120 | the save-instruction name is the topic's slug followed by `.py` |
| Preview.NamesShareSlug | src/components/ScriptPreview.tsx:27-120 | both names start with the same slug, both end in `.py`, and the download name is 13 characters longer |
| Preview.ScriptPreview.constructor | src/components/ScriptPreview.tsx:13-14 | the buffer starts as the generated script, and the copied flag is off |
| Preview.ScriptPreview.Edit | src/components/ScriptPreview.tsx:109 | the buffer becomes the typed text; the copied flag is kept |
| Preview.ScriptPreview.HandleCopy | src/components/ScriptPreview.tsx:16-18 | the clipboard receives the buffer and the flag is raised; the buffer is unchanged |
| Preview.ScriptPreview.ResetCopied | src/components/ScriptPreview.tsx:19 | the timer lowers the flag; the buffer is unchanged |
| Preview.ScriptPreview.HandleDownloadScript | src/components/ScriptPreview.tsx:22-32 | the payload is the current buffer (the latest edit, or the script if there was none) under `ScriptFileName(topic)`; nothing changes |
| Preview.ScriptPreview.HandleBack | src/components/ScriptPreview.tsx:128-134 | signals back, and changes nothing |
| Preview.ScriptPreview.HandleApprove | src/components/ScriptPreview.tsx:136-142 | signals approve, and changes nothing |
| Renderer.Progress | src/components/VideoRenderer.tsx:55 | after k messages the progress is k·100/11; it lies in [0,100] and is 100 exactly after the eleventh |
| Renderer.ProgressIncreasing | src/components/VideoRenderer.tsx:55 | progress strictly increases from message to message |
| Renderer.LogAfter | src/components/VideoRenderer.tsx:28-54 | after k ticks the log is the initial line followed by the first k steps |
| Renderer.LogGrowsByOne | src/components/VideoRenderer.tsx:54 | each tick appends exactly the next step to the log |
| Renderer.FinalLog | src/components/VideoRenderer.tsx:46 | the final log has 12 entries, the last being "Video generation completed!" |
| Renderer.IntToStringPlain | src/components/VideoRenderer.tsx:61 | the timestamp's text has no whitespace and no capitals |
| Renderer.UrlPieces | src/components/VideoRenderer.tsx:61 | the URL pieces stand at their fixed positions |
| Renderer.VideoUrl | src/components/VideoRenderer.tsx:61 | the URL is `/videos/` + slug + `_` + timestamp + `.mp4`: no whitespace or capitals, and the timestamp parses back |
| Renderer.UrlAndNameShareSlug | src/components/VideoRenderer.tsx:61-70 | the URL and the download name `slug_educational_video.mp4` carry the same slug |
| Renderer.StatusTextDistinct | src/components/VideoRenderer.tsx:90-103 | the five status texts are pairwise different |
| Renderer.VideoRenderer.constructor | src/components/VideoRenderer.tsx:14-23 | idle, progress 0, an empty log, no URL, the default settings (high, mp4, 60, 1080p) |
| Renderer.VideoRenderer.Start | src/components/VideoRenderer.tsx:25-52 | progress 0, the log is the initialisation line, the status is rendering, the counter is 0 and the timer ticks |
| Renderer.VideoRenderer.Tick | src/components/VideoRenderer.tsx:52-63 | below 11 ticks: appends the next step, sets progress to (k+1)·100/11 and counts up. At 11: stops, completes and publishes the URL |
| Renderer.TickStepKeepsInvariant | src/components/VideoRenderer.tsx:53-56 | a tick that writes message k leaves a running render with k+1 messages logged, progress (k+1)·100/11, no URL and the timer on |
| Renderer.FinishKeepsInvariant | src/components/VideoRenderer.tsx:57-61 | the tick after the eleventh message leaves a completed render at 100% with the full log, the published URL and the timer stopped |
| Renderer.VideoRenderer.DownloadVideo | src/components/VideoRenderer.tsx:66-74 | the link is the published (non-empty) URL, named by the topic's slug plus `_educational_video.mp4` |
| Renderer.VideoRenderer.SetQuality | src/components/VideoRenderer.tsx:132 | only the quality setting changes |
| Renderer.VideoRenderer.SetFormat | src/components/VideoRenderer.tsx:145 | only the format setting changes |
| Renderer.VideoRenderer.SetFps | src/components/VideoRenderer.tsx:157 | only the frame-rate setting changes |
| Renderer.VideoRenderer.SetResolution | src/components/VideoRenderer.tsx:168 | only the resolution setting changes |
| Renderer.ReachableStateFacts | src/components/VideoRenderer.tsx:53-62 | in every reachable state progress lies in [0,100] and the log has one line per tick plus one. Completed means 100% and the final message. The error status never occurs |
| Library.AnyConceptMatches | src/components/VideoLibrary.tsx:109 | some concept matches iff one of them, lower-cased, includes the term |
| Library.FilterVideos | src/components/VideoLibrary.tsx:105-112 | the kept entries are exactly the catalog entries that match search and level; they form a subsequence, so there are no more of them |
| Library.FilterIdempotent | src/components/VideoLibrary.tsx:106-112 | filtering the filtered list changes nothing |
| Library.FilterNothing | src/components/VideoLibrary.tsx:107-110 | an empty search over all levels keeps every entry in order |
| Library.ChoiceOf | src/components/VideoLibrary.tsx:114-126 | a `sortBy` value falls to the `default` case exactly when it is none of the five names |
| Library.CompareIsKeyDifference | src/components/VideoLibrary.tsx:113-128 | each comparator is the difference of an ascending key: newest is date descending, oldest ascending, rating and views descending, duration ascending |
| Library.InsertAddsOne | src/components/VideoLibrary.tsx:113 | inserting adds exactly that entry to the multiset |
| Library.InsertSorted | src/components/VideoLibrary.tsx:113 | inserting into a sorted list keeps it sorted |
| Library.SortVideos | src/components/VideoLibrary.tsx:113-128 | the sort keeps the length |
| Library.SortIsSortedPermutation | src/components/VideoLibrary.tsx:113-128 | the sorted list is a permutation of its input, ordered by the chosen key |
| Library.InsertWithKey | src/components/VideoLibrary.tsx:113 | inserting keeps the order among entries with equal keys |
| Library.SortStable | src/components/VideoLibrary.tsx:113-128 | entries with equal keys keep their relative order |
| Library.SortUnknownKeepsOrder | src/components/VideoLibrary.tsx:125-126 | with an unknown key the order is unchanged |
| Library.SortOrders | src/components/VideoLibrary.tsx:115-124 | in the result, dates are descending (newest) or ascending (oldest), rating and views descending, duration ascending |
| Library.FilteredVideos | src/components/VideoLibrary.tsx:105-128 | the shown list has at most 6 entries, and has exactly the catalog entries that pass the filter |
| Library.DownloadLink | src/components/VideoLibrary.tsx:130-134 | the link is the entry's download URL, named by the title's slug followed by `.mp4` |
| Library.ShownConcepts | src/components/VideoLibrary.tsx:237 | at most three chips, a prefix of the concepts, all of them when there are three or fewer |
| Library.MoreChip | src/components/VideoLibrary.tsx:245-248 | a `+n` chip appears iff there are more than three concepts, and n plus the shown chips is the total |
| CatalogExamples.CatalogByRating | src/components/VideoLibrary.tsx:24-128 | the catalog sorted by rating is ids 3, 1, 6, 4, 2, 5 (4.9, 4.8, 4.8, 4.7, 4.6, 4.5), with id 1 before id 6 on their tie |
| CatalogExamples.CatalogMatrix | src/components/VideoLibrary.tsx:24-112 | searching "matrix" over all levels keeps entry 3 alone |
| CatalogExamples.SearchMatrix | src/components/VideoLibrary.tsx:105-128 | searching "matrix" shows exactly entry id 3, whatever the ordering |
| CatalogExamples.EmptySearchShowsAll | src/components/VideoLibrary.tsx:105-112 | an empty search over all levels shows all six entries |

## Left out

- Timers are not modelled: the 1500 ms `setInterval`, its `clearInterval`, and the 2000 ms `setTimeout` that resets the copied flag. Each tick is a `Tick` call and the reset is a `ResetCopied` call.
- The interval is never cleared when the user goes back or the component unmounts. The model has no unmount, so this leak is not modelled.
- `Date.now()` is the `now` parameter of `Tick` and `VideoUrl`.
- Browser I/O is not modelled: DOM anchors and clicks, `Blob`, `URL.createObjectURL` and `navigator.clipboard`. The clipboard text, the link target, the file names and the payload are returned as values.
- Only ASCII is modelled. JavaScript's `toLowerCase` and the `\s` class cover all of Unicode; the model uses ASCII lower-casing and the six ASCII whitespace characters.
- `parseInt` on the duration input (NaN) is not modelled, and neither are the HTML `min`/`max` bounds, which the code does not enforce. Duration is any integer.
- `parseInt` on the frame-rate select is not modelled: the select only offers 30 and 60, and `SetFps` takes the integer.
- Floating-point progress is not modelled. Progress is the exact rational k·100/11, and the `Math.round` display of the percentage is not modelled.
- JavaScript `Date` parsing (`new Date(...).getTime()`) is not modelled. Dates are `YYYYMMDD` integers, whose differences have the same sign as the timestamps' differences, which is all the comparator needs.
- `Renderer.VideoRenderer.Tick` and `Renderer.LogAfter` assume that React runs the log updater `prev => [...prev, steps[currentStep]]` (`src/components/VideoRenderer.tsx:54`) at once, before line 56 increments `currentStep`. This holds for synchronous state updates and for React 18's eager-state path. If the updater were deferred to the next render, it would read the incremented counter: the first message would be skipped and the last tick would append `undefined`. The sources do not fix the React version, so this timing is not modelled.
- The `preparing` status is set and overwritten within the same synchronous call, so it is never observable; `Start` goes straight to `rendering`.
- The edited script is not passed on to the renderer: the wizard gives the renderer the generated script. The model keeps the preview buffer local, as the code does.
- Coming back to the requirements step remounts the form, which starts again from the initial data. The wizard model keeps the stored requirements (as the code does) but does not start a second `Form`.
- Concepts whose identifiers coincide (for example "a b" and "A_B") produce two methods with the same name. The model states the identifiers but does not prevent such collisions, and neither does the code.
- The script template is modelled as 33 numbered parts with the fixed text of each chunk. Lemmas locate the topic, the class name, the calls, the method blocks and the concept lists; the full literal is given by `ScriptTemplate.ChunkText`.
- Presentational JSX, icons and CSS are not modelled. This includes the step labels, the header line of the preview and the status icons.
- `Renderer.VideoRenderer.CurrentStatusText` has no contract of its own; its property is stated through `Renderer.StatusTextDistinct` and `Renderer.ReachableStateFacts`.
- `Renderer.DownloadName` has no contract of its own; it is stated through `Renderer.UrlAndNameShareSlug` and `Renderer.VideoRenderer.DownloadVideo`.
- `Library.SortVideos`: its ensures states only the length; the ordering and permutation facts are in `Library.SortIsSortedPermutation`, `Library.SortStable` and `Library.SortOrders`.
- `src/App.tsx`, `src/components/Header.tsx` and `src/components/Footer.tsx` are not part of this model. They hold only presentation and a two-value tab toggle.
- `mathematical_spirals.py` is not part of this model. It is a Manim animation made of library calls and floating-point geometry.
- `GeneratedVideo` in `src/types/video.ts` is not part of this model; nothing in the core uses it.
