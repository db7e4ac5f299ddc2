# Tenali workspace: session controller and live-preview builder

Tenali is a web front end. A user describes a website in words; the page sends the description to two
generation flows (intent analysis, then code generation) and shows the returned HTML, CSS and
JavaScript in an editor and in a live preview. This project models the two pieces of that page with
real logic:

- **The workspace session** (`src/app/page.tsx`), in `workspace.dfy`. The session holds the prompt,
  the three generated files, the editor text, the `isGenerating` flag, the optional intent analysis,
  the prompt history and the two view selectors. It is a class, `Workspace.Session`. Each event
  handler is a method that takes one atomic step. The effect at lines 42-44 re-reads the editor text
  from the active file; it is the method `SyncEditor`, called at the end of every step that changes
  the code or the active file. The invariant `Valid()` says that the editor shows the active file and
  the history holds at most ten prompts. Every method keeps it.
- **`Generate`** is `handleGenerate` as a single step. It takes as parameters how the two awaited
  flows settled: the intent flow gives a `Result`, the code flow a `CodeOutcome` whose fields may be
  missing. It returns the list of flow requests it made. The text `trim()` inspects is modelled
  exactly in `jstext.dfy`: JavaScript's whitespace and line terminators.
- **The preview document** (`src/components/webgenius/LivePreview.tsx`), in `preview.dfy`.
  `constructClientSrcDoc` is `Preview.SrcDoc`. It fills a fixed five-part template with the theme
  class, the stylesheet, the markup and the script. The component's `srcDocContent` state is a
  datatype with mount, effect and re-render functions.
- `wrappers.dfy` holds `Option` and `Result`.

Things the model takes as parameters:
- the outcomes of the two external flows, which call a generative service;
- the host document's theme class, which `constructClientSrcDoc` reads from
  `document.documentElement.className`.

What the code does, as the model states it:
- The prompt goes to both flows and into the history untrimmed (page.tsx:66, 70, 76); `trim()` is
  only the emptiness guard.
- A failed code flow is reported by a toast and a console error (page.tsx:91-97); the page keeps no
  error state.
- Nothing in the handler stops a second submission or an edit during generation. Only the disabled
  prompt box, submit button and editor (page.tsx:142, 144; CodeEditor.tsx:51) do. The model states
  this as the precondition `!isGenerating`.

## Model

| member | source | states |
|---|---|---|
| `JsText.IsWs` | src/app/page.tsx:55 | no contract of its own: the characters `trim()` removes, the ECMAScript WhiteSpace and LineTerminator code points; `BlankIffAllWs` and `Trim` are stated in terms of it |
| `JsText.SkipWs` | src/app/page.tsx:55 | scanning forward from an index stops at the first character that is not whitespace, or at the end; everything skipped is whitespace |
| `JsText.SkipWsBack` | src/app/page.tsx:55 | scanning backward from an end index, not past a lower bound, stops right after the last character that is not whitespace; everything skipped is whitespace |
| `JsText.Trim` | src/app/page.tsx:55 | `trim()` returns a contiguous piece of the input with only whitespace removed around it and no whitespace at either end |
| `JsText.IsBlank` | src/app/page.tsx:55 | no contract of its own: the guard `!prompt.trim()`, that the trimmed prompt is empty; `BlankIffAllWs` and `NotBlankWhenVisible` characterise it |
| `JsText.BlankIffAllWs` | src/app/page.tsx:55 | the guard `!prompt.trim()` holds exactly when every character of the prompt is whitespace or a line terminator |
| `JsText.NotBlankWhenVisible` | src/app/page.tsx:55 | a prompt containing one non-whitespace character passes the guard |
| `Preview.SrcDoc` | src/components/webgenius/LivePreview.tsx:22-55 | no contract of its own: `constructClientSrcDoc` with the theme class as a parameter, the page template filled with the inputs; `SrcDocLayout`, `ScriptGuarded`, `ThemeIsHtmlClass` and `SrcDocInjectiveForEqualLengths` state what it builds |
| `Preview.Fill` | src/components/webgenius/LivePreview.tsx:25-54 | no contract of its own: a five-part template with its four holes filled; `FillLayout` and `FillInjectiveForEqualLengths` state what it builds |
| `Preview.FillLayout` | src/components/webgenius/LivePreview.tsx:25-54 | in any filled template, theme class, css, html and js each occur unchanged and unescaped at an offset that depends only on the lengths of the inputs before them, and the template's five fixed parts occur between and around them, whatever the inputs are |
| `Preview.SrcDocLayout` | src/components/webgenius/LivePreview.tsx:25-54 | the built document is the fixed head up to `class="`, the theme class, the rest of the head with the reset styles, the css, the style and head close plus the body open, the html, the script open, the js, and the script close with the document close; the inputs come in that order, each separated from the next by non-empty fixed text |
| `Preview.FillInjectiveForEqualLengths` | src/components/webgenius/LivePreview.tsx:25-54 | for any template, two equal documents filled with inputs of equal lengths were filled with the same inputs |
| `Preview.SrcDocInjectiveForEqualLengths` | src/components/webgenius/LivePreview.tsx:25-54 | two equal documents built from inputs of equal lengths were built from the same inputs |
| `Preview.ThemeIsHtmlClass` | src/components/webgenius/LivePreview.tsx:27 | the theme class is the `class` attribute value of `<html lang="en" class="…">`, between the opening quote and `">` |
| `Preview.EnclosedHole` | src/components/webgenius/LivePreview.tsx:27 | in any template whose first part ends with an opening text and whose second part starts with a closing text, the theme class lies between the two |
| `Preview.ScriptGuarded` | src/components/webgenius/LivePreview.tsx:45-51 | the script comes after `try {` and before `} catch (e) {`, separated from both by whitespace only; the handler body is the single `console.error` statement |
| `Preview.GuardedHole` | src/components/webgenius/LivePreview.tsx:45-51 | in any template whose script part ends with a guard opening plus indentation and whose closing part starts with indentation, the guard's catch clause and its body, the script is enclosed by exactly those texts |
| `Preview.InitialSrcDoc` | src/components/webgenius/LivePreview.tsx:16-18 | no contract of its own: the placeholder document `srcDocContent` starts with; `InitialIsNotBuilt` and `Mount` are stated about it |
| `Preview.InitialIsNotBuilt` | src/components/webgenius/LivePreview.tsx:16-18 | the placeholder document is different from every document the builder produces |
| `Preview.Mount` | src/components/webgenius/LivePreview.tsx:16-18 | on the first render the shown document is the fixed placeholder, with the props in place |
| `Preview.RunEffect` | src/components/webgenius/LivePreview.tsx:57-58 | after the effect, the shown document is the builder's output for the current props |
| `Preview.FirstRender` | src/components/webgenius/LivePreview.tsx:16-62 | the first commit, the mount followed by the effect React always runs after it: the preview is in sync with its props and no longer shows the placeholder |
| `Preview.Rerender` | src/components/webgenius/LivePreview.tsx:57-62 | a re-render takes the new props |
| `Preview.MountThenEffect` | src/components/webgenius/LivePreview.tsx:57-62 | right after mounting the preview is not in sync; the effect that follows the mount brings it in sync with the props |
| `Preview.RerenderKeepsSynced` | src/components/webgenius/LivePreview.tsx:57-62 | a re-render that changes html, css, js or the theme class shows the builder's output for the new props, whatever was shown before; an unchanged re-render changes nothing; a synced preview stays synced |
| `Workspace.InitialCode` | src/app/page.tsx:20-24 | no contract of its own: the placeholder html, css and js, character for character; the constructor's contract is stated about it |
| `Workspace.GeneratedCode.Get` | src/app/page.tsx:43 | no contract of its own: `generatedCode[activeCodeView]`; `With`, `SyncEditor` and `Valid` are stated in terms of it |
| `Workspace.GeneratedCode.IsEmpty` | src/app/page.tsx:104 | no contract of its own: the export guard, all three files empty; `Export` is stated in terms of it |
| `Workspace.GeneratedCode.With` | src/app/page.tsx:48-51 | the record spread `{...code, [view]: text}` sets the named field to the text and leaves the other two unchanged |
| `Workspace.RecordPrompt` | src/app/page.tsx:66 | the new history starts with the prompt, continues with the old entries in order, and has `min(old length + 1, 10)` entries |
| `Workspace.RecordAll` | src/app/page.tsx:66 | no contract of its own: the history after a run of submissions, one `RecordPrompt` per prompt; `RecordAllLatestFirst`, `HistoryHoldsLatestTen` and `FirstPromptEvicted` characterise it |
| `Workspace.RecordAllLatestFirst` | src/app/page.tsx:66 | after any run of submissions the history lists the submitted prompts most recent first, then the remaining old entries, cut at ten |
| `Workspace.HistoryHoldsLatestTen` | src/app/page.tsx:66 | after ten or more submissions the history is exactly the last ten prompts, most recent first |
| `Workspace.FirstPromptEvicted` | src/app/page.tsx:66 | after eleven or more submissions the latest prompt heads the history and the first one, unless it was submitted again, is no longer in it |
| `Workspace.Coalesced` | src/app/page.tsx:77-81 | a reply field that is present is stored as it is; a missing one becomes the empty string |
| `Workspace.ParseCodeView` | src/app/page.tsx:217 | the code-file toggle value selects the file whose item value it is |
| `Workspace.ParseRightPanelView` | src/app/page.tsx:201 | the panel toggle value selects the view whose item value it is |
| `Workspace.ViewNamesRoundTrip` | src/app/page.tsx:26-27 | each selector's item value parses back to that selector |
| `Workspace.Session.Valid` | src/app/page.tsx:42-66 | no contract of its own: the invariant every method keeps, that the editor shows the active file (the effect at lines 42-44) and the history holds at most ten prompts (line 66) |
| `Workspace.Session.constructor` | src/app/page.tsx:30-38 | the initial state: empty prompt, the placeholder code with the editor on its HTML, not generating, no intent, empty history, preview shown, HTML active; the invariant holds |
| `Workspace.Session.SyncEditor` | src/app/page.tsx:42-44 | the editor text becomes the active file's text |
| `Workspace.Session.SetPrompt` | src/app/page.tsx:140 | typing sets the prompt and changes nothing else |
| `Workspace.Session.SelectFromHistory` | src/app/page.tsx:115-117 | clicking a history entry sets the prompt to that entry and changes nothing else |
| `Workspace.Session.EditorChange` | src/app/page.tsx:46-52 | the editor text and the active file become the new text; the other two files are unchanged; nothing else changes |
| `Workspace.Session.SelectCodeView` | src/app/page.tsx:217 | an empty value changes nothing; a file name makes that file active and the editor shows its text |
| `Workspace.Session.SelectRightPanelView` | src/app/page.tsx:201 | an empty value changes nothing; a view name shows that view |
| `Workspace.Session.Generate` | src/app/page.tsx:54-101 | a blank prompt makes no flow call and changes nothing. Otherwise: both flows get the untrimmed prompt, intent first; the prompt heads the history whatever the outcomes; the intent is stored or stays cleared; a code reply replaces the code with the coalesced fields, activates HTML and shows the preview even if the intent flow failed; a code failure leaves code, editor and both views as they were. `isGenerating` is false afterwards and the invariant holds |
| `Workspace.Session.Submit` | src/app/page.tsx:64-100 | the same as Generate once the guard has passed |
| `Workspace.Session.StartGeneration` | src/app/page.tsx:64-66 | the flag is raised, the intent analysis is cleared and the prompt joins the history |
| `Workspace.Session.SettleIntent` | src/app/page.tsx:69-74 | a successful intent flow stores its result; a failed one leaves the intent as it was |
| `Workspace.Session.SettleCode` | src/app/page.tsx:76-97 | a code reply replaces the code and resets the views; a failure changes none of them |
| `Workspace.Session.Export` | src/app/page.tsx:103-113 | returns nothing exactly when html, css and js are all empty; otherwise returns the current code, unchanged, under the base name `tenali-export`; the session is not changed |

## Left out

- The two generation flows (`src/ai/flows/`) are not part of this model. They are schemas plus calls to an external generative service. They appear only as the outcome parameters of `Generate`. A null reply is either rejected by the flow's output schema or throws when page.tsx:78 reads `output.html`; both happen inside the handler's `try`, so it counts as `CodeFailure`.
- The zip exporter (`src/lib/exportUtils.ts`) is not part of this model. It packages files and triggers a browser download. The model stops at the `ExportRequest` that `Export` would hand to it.
- The header, the theme toggle and the model selector (`Header.tsx`) are not part of this model. The selected model is never used for generation.
- The unused file explorer (`FileExplorer.tsx`) and the editor's language label (`CodeEditor.tsx`) are not part of this model.
- Toasts, console logging, the JSX layout, the loading overlay and the intent display text are presentation and are not modelled. The error message a failed flow carries is therefore unused.
- The iframe's `sandbox` attribute (here allowing scripts and same-origin access) is browser behaviour and is not modelled.
- Asynchrony is not modelled. `handleGenerate` is one atomic step: between events `isGenerating` is always false, and the in-flight state exists only inside `Generate`.
- The theme class is a parameter of `Preview.SrcDoc`. Reading it from the host document is I/O.
- Workspace.Session.SelectFromHistory: takes the index of the clicked history entry rather than any string, because the only caller is the click on that entry (page.tsx:170-175).
- Workspace.Session.SelectCodeView: accepts only the toggle's item values or the empty string. A toggle group produces no other value, and the cast at page.tsx:217 does not check one.
- Workspace.Session.SelectRightPanelView: the same restriction on the toggle values at page.tsx:201.
- Strings are sequences of Unicode scalar values, not UTF-16 code units. Every character `trim()` removes lies in the Basic Multilingual Plane, so the emptiness guard is not affected.
- Preview.ScriptGuarded: states where the `try`/`catch` text sits in the document. That the catch stops an exception from leaving the script is JavaScript semantics and is not modelled. The guard is textual only: nothing is escaped, so a script containing `</script>` or an unbalanced `}` leaves the `try` block, and a syntax error in the script is never caught.
