/**
  The workspace page's session: one prompt, the three generated code fields
  and the editor bound to one of them, the generation flag, the intent
  analysis, the prompt history and the two view selectors. Each event handler
  is one atomic step on a `Session`; the effect that re-syncs the editor from
  the active code field runs at the end of every step that changes the code or
  the active field.
 */
module Workspace {
  import opened Wrappers
  import JsText

  /** Which code field the editor is bound to. */
  datatype CodeView = Html | Css | Js

  /** What the right-hand panel shows. */
  datatype RightPanelView = EditorView | PreviewView

  /** The three generated files. */
  datatype GeneratedCode = GeneratedCode(html: string, css: string, js: string)
  {
    /** `generatedCode[view]`. */
    function Get(v: CodeView): string {
      match v
      case Html => html
      case Css => css
      case Js => js
    }

    /** `{...code, [view]: text}`: the field `v` replaced, the other two kept. */
    function With(v: CodeView, text: string): (r: GeneratedCode)
      ensures r.Get(v) == text
      ensures forall w :: w != v ==> r.Get(w) == Get(w)
    {
      match v
      case Html => this.(html := text)
      case Css => this.(css := text)
      case Js => this.(js := text)
    }

    /** All three files are empty strings, the only falsy strings. */
    predicate IsEmpty() {
      html == "" && css == "" && js == ""
    }
  }

  /** The placeholder page shown before the first generation. */
  const InitialCode := GeneratedCode(
    "<h1>Welcome to Tenali!</h1>\n" + "<p>Enter a prompt in the panel on the left and click Generate.</p>",
    "body {\n  font-family: sans-serif;\n  display: flex;\n  flex-direction: column; \n" +
    "  justify-content: center;\n  align-items: center;\n  min-height: 100vh;\n  text-align: center;\n" +
    "  background-color: hsl(var(--background)); \n color: hsl(var(--foreground)); \n}\n" +
    "h1 {\n color: hsl(var(--primary)); \n}",
    "// console.log('Hello from Tenali!');")

  /** The intent analysis returned by the intent flow. */
  datatype IntentOutput = IntentOutput(intent: string, technologies: seq<string>)

  /** How the code flow settled: it threw (the service failed, the reply failed
      its schema, or the reply was null and dereferencing it threw), or it
      returned an object whose fields may be missing. */
  datatype CodeOutcome =
    | CodeFailure(message: string)
    | CodeSuccess(html: Option<string>, css: Option<string>, js: Option<string>)

  /** A request handed to one of the two external flows. */
  datatype FlowRequest = IdentifyIntentRequest(prompt: string) | GenerateCodeRequest(prompt: string)

  /** What the export handler hands to the zip exporter. */
  datatype ExportRequest = ExportRequest(code: GeneratedCode, baseName: string)

  const ExportBaseName := "tenali-export"

  /** The number of prompts the history keeps. */
  const MaxHistory := 10

  function Min(a: int, b: int): int { if a < b then a else b }

  /** `[prompt, ...history.slice(0, 9)]`: the new prompt first, then the most
      recent entries of the old history, at most `MaxHistory` in all. */
  function RecordPrompt(history: seq<string>, prompt: string): (r: seq<string>)
    ensures |r| == Min(|history| + 1, MaxHistory)
    ensures r[0] == prompt
    ensures forall i :: 1 <= i < |r| ==> r[i] == history[i - 1]
  {
    [prompt] + history[..Min(|history|, MaxHistory - 1)]
  }

  /** The history after submitting the prompts `ps`, oldest first, to a
      session whose history was `history`. */
  function RecordAll(history: seq<string>, ps: seq<string>): seq<string>
    decreases |ps|
  {
    if ps == [] then history else RecordAll(RecordPrompt(history, ps[0]), ps[1..])
  }

  /** After a run of submissions the history lists the submitted prompts
      most recent first, followed by what is left of the old history, and is
      cut at `MaxHistory` entries. */
  lemma {:induction false} RecordAllLatestFirst(history: seq<string>, ps: seq<string>)
    requires |history| <= MaxHistory
    ensures |RecordAll(history, ps)| == Min(|ps| + |history|, MaxHistory)
    ensures forall i :: 0 <= i < |RecordAll(history, ps)| ==>
      RecordAll(history, ps)[i] == if i < |ps| then ps[|ps| - 1 - i] else history[i - |ps|]
    decreases |ps|
  {
    if ps != [] {
      var h1 := RecordPrompt(history, ps[0]);
      var rest := ps[1..];
      RecordAllLatestFirst(h1, rest);
      var r := RecordAll(history, ps);
      assert r == RecordAll(h1, rest);
      forall i | 0 <= i < |r|
        ensures r[i] == if i < |ps| then ps[|ps| - 1 - i] else history[i - |ps|]
      {
        if i < |rest| {
          assert r[i] == rest[|rest| - 1 - i];
        } else {
          assert r[i] == h1[i - |rest|];
        }
      }
    }
  }

  /** Once at least `MaxHistory` prompts have been submitted, the history is
      exactly the last `MaxHistory` of them, most recent first. */
  lemma HistoryHoldsLatestTen(history: seq<string>, ps: seq<string>)
    requires |history| <= MaxHistory && |ps| >= MaxHistory
    ensures |RecordAll(history, ps)| == MaxHistory
    ensures forall i :: 0 <= i < MaxHistory ==> RecordAll(history, ps)[i] == ps[|ps| - 1 - i]
  {
    RecordAllLatestFirst(history, ps);
  }

  /** After eleven or more submissions the latest prompt heads the history and
      the first one, unless it was submitted again, is gone. */
  lemma FirstPromptEvicted(history: seq<string>, ps: seq<string>)
    requires |history| <= MaxHistory && |ps| > MaxHistory
    requires forall j :: 0 < j < |ps| ==> ps[j] != ps[0]
    ensures |RecordAll(history, ps)| == MaxHistory && RecordAll(history, ps)[0] == ps[|ps| - 1]
    ensures ps[0] !in RecordAll(history, ps)
  {
    RecordAllLatestFirst(history, ps);
    var r := RecordAll(history, ps);
    forall i | 0 <= i < |r| ensures r[i] != ps[0] {
      assert r[i] == ps[|ps| - 1 - i];
    }
  }

  /** `value || ""` for a field of the code flow's reply. */
  function OrEmpty(field: Option<string>): string {
    match field
    case Some(s) => s
    case None => ""
  }

  /** The code stored after a successful code flow: each reply field, with a
      missing one replaced by the empty string. */
  function Coalesced(html: Option<string>, css: Option<string>, js: Option<string>): (c: GeneratedCode)
    ensures html.Some? ==> c.html == html.value
    ensures css.Some? ==> c.css == css.value
    ensures js.Some? ==> c.js == js.value
    ensures html.None? ==> c.html == ""
    ensures css.None? ==> c.css == ""
    ensures js.None? ==> c.js == ""
  {
    GeneratedCode(OrEmpty(html), OrEmpty(css), OrEmpty(js))
  }

  /** The toggle item values of the code-file selector. */
  function CodeViewName(v: CodeView): string {
    match v
    case Html => "html"
    case Css => "css"
    case Js => "js"
  }

  predicate IsCodeViewName(s: string) {
    s == "html" || s == "css" || s == "js"
  }

  /** `value as ActiveCodeViewType`: the selector whose item value is `s`. */
  function ParseCodeView(s: string): (v: CodeView)
    requires IsCodeViewName(s)
    ensures CodeViewName(v) == s
  {
    if s == "html" then Html else if s == "css" then Css else Js
  }

  /** The toggle item values of the editor/preview selector. */
  function RightPanelViewName(v: RightPanelView): string {
    match v
    case EditorView => "editor"
    case PreviewView => "preview"
  }

  predicate IsRightPanelViewName(s: string) {
    s == "editor" || s == "preview"
  }

  /** `value as RightPanelViewType`: the view whose item value is `s`. */
  function ParseRightPanelView(s: string): (v: RightPanelView)
    requires IsRightPanelViewName(s)
    ensures RightPanelViewName(v) == s
  {
    if s == "editor" then EditorView else PreviewView
  }

  /** The toggle values name each selector uniquely, so parsing a name gives
      back the selector it names. */
  lemma ViewNamesRoundTrip(v: CodeView, p: RightPanelView)
    ensures IsCodeViewName(CodeViewName(v)) && ParseCodeView(CodeViewName(v)) == v
    ensures IsRightPanelViewName(RightPanelViewName(p)) && ParseRightPanelView(RightPanelViewName(p)) == p
  {
  }

  class Session {
    var prompt: string
    var generatedCode: GeneratedCode
    var editorContent: string
    var isGenerating: bool
    var intentResult: Option<IntentOutput>
    var promptHistory: seq<string>
    var currentRightPanelView: RightPanelView
    var activeCodeView: CodeView

    /** Between events the editor shows the active code field, and the
        history holds at most `MaxHistory` prompts. */
    ghost predicate Valid()
      reads this
    {
      editorContent == generatedCode.Get(activeCodeView) &&
      |promptHistory| <= MaxHistory
    }

    /** The page's initial state. */
    constructor ()
      ensures Valid()
      ensures prompt == "" && generatedCode == InitialCode && editorContent == InitialCode.html
      ensures !isGenerating && intentResult == None && promptHistory == []
      ensures currentRightPanelView == PreviewView && activeCodeView == Html
    {
      prompt := "";
      generatedCode := InitialCode;
      editorContent := InitialCode.html;
      isGenerating := false;
      intentResult := None;
      promptHistory := [];
      currentRightPanelView := PreviewView;
      activeCodeView := Html;
    }

    /** The effect on `[activeCodeView, generatedCode]`: the editor text is
        re-read from the active code field. */
    method SyncEditor()
      modifies this`editorContent
      ensures editorContent == generatedCode.Get(activeCodeView)
    {
      editorContent := generatedCode.Get(activeCodeView);
    }

    /** Typing in the prompt box, which is disabled while generating. */
    method SetPrompt(p: string)
      requires Valid() && !isGenerating
      modifies this`prompt
      ensures Valid() && prompt == p
    {
      prompt := p;
    }

    /** Clicking entry `i` of the history list refills the prompt box with it. */
    method SelectFromHistory(i: nat)
      requires Valid() && i < |promptHistory|
      modifies this`prompt
      ensures Valid() && prompt == promptHistory[i]
    {
      prompt := promptHistory[i];
    }

    /** Typing in the code editor, which is disabled while generating: the
        active field takes the new text and the other two are untouched. */
    method EditorChange(text: string)
      requires Valid() && !isGenerating
      modifies this`editorContent, this`generatedCode
      ensures Valid()
      ensures editorContent == text
      ensures generatedCode == old(generatedCode).With(activeCodeView, text)
      ensures generatedCode.Get(activeCodeView) == text
      ensures forall w :: w != activeCodeView ==> generatedCode.Get(w) == old(generatedCode).Get(w)
    {
      editorContent := text;
      generatedCode := generatedCode.With(activeCodeView, text);
      SyncEditor();
    }

    /** The code-file toggle. An empty value (the selected item clicked again)
        changes nothing; otherwise the named field becomes active and the
        editor shows it. */
    method SelectCodeView(value: string)
      requires Valid() && (value == "" || IsCodeViewName(value))
      modifies this`activeCodeView, this`editorContent
      ensures Valid()
      ensures value == "" ==> activeCodeView == old(activeCodeView) && editorContent == old(editorContent)
      ensures value != "" ==> CodeViewName(activeCodeView) == value && editorContent == generatedCode.Get(activeCodeView)
    {
      if value != "" {
        activeCodeView := ParseCodeView(value);
        SyncEditor();
      }
    }

    /** The editor/preview toggle. An empty value changes nothing; otherwise
        the named view is shown. */
    method SelectRightPanelView(value: string)
      requires Valid() && (value == "" || IsRightPanelViewName(value))
      modifies this`currentRightPanelView
      ensures Valid()
      ensures value == "" ==> currentRightPanelView == old(currentRightPanelView)
      ensures value != "" ==> RightPanelViewName(currentRightPanelView) == value
    {
      if value != "" {
        currentRightPanelView := ParseRightPanelView(value);
      }
    }

    /** Submitting the prompt, as one step that is given how the two awaited
        flows settle; `requests` lists the flow calls made, in order. The
        submit button and prompt box are disabled while generating, so a
        submission never starts while another is in flight. */
    method Generate(intentOutcome: Result<IntentOutput, string>, codeOutcome: CodeOutcome)
      returns (requests: seq<FlowRequest>)
      requires Valid() && !isGenerating
      modifies this
      ensures Valid() && !isGenerating
      // A blank prompt is rejected before any flow is called, and nothing changes.
      ensures JsText.IsBlank(old(prompt)) ==> requests == [] && unchanged(this)
      // Otherwise both flows get the prompt as typed, intent first, and the
      // prompt joins the history whatever the flows do.
      ensures !JsText.IsBlank(old(prompt)) ==>
        requests == [IdentifyIntentRequest(old(prompt)), GenerateCodeRequest(old(prompt))] &&
        prompt == old(prompt) &&
        promptHistory == RecordPrompt(old(promptHistory), old(prompt)) &&
        intentResult == (if intentOutcome.Success? then Some(intentOutcome.value) else None)
      // Generated code replaces the old code wholesale and is shown in the
      // preview with the HTML file active, whether or not the intent flow failed.
      ensures !JsText.IsBlank(old(prompt)) && codeOutcome.CodeSuccess? ==>
        generatedCode == Coalesced(codeOutcome.html, codeOutcome.css, codeOutcome.js) &&
        activeCodeView == Html && editorContent == generatedCode.html &&
        currentRightPanelView == PreviewView
      // A failed code flow leaves the code and both views as they were.
      ensures !JsText.IsBlank(old(prompt)) && codeOutcome.CodeFailure? ==>
        generatedCode == old(generatedCode) && activeCodeView == old(activeCodeView) &&
        editorContent == old(editorContent) && currentRightPanelView == old(currentRightPanelView)
    {
      if JsText.IsBlank(prompt) {
        return [];
      }
      requests := Submit(intentOutcome, codeOutcome);
    }

    /** `handleGenerate` past the emptiness guard. */
    method Submit(intentOutcome: Result<IntentOutput, string>, codeOutcome: CodeOutcome)
      returns (requests: seq<FlowRequest>)
      requires Valid() && !isGenerating
      modifies this
      ensures Valid() && !isGenerating
      ensures requests == [IdentifyIntentRequest(old(prompt)), GenerateCodeRequest(old(prompt))]
      ensures prompt == old(prompt)
      ensures promptHistory == RecordPrompt(old(promptHistory), old(prompt))
      ensures intentResult == (if intentOutcome.Success? then Some(intentOutcome.value) else None)
      ensures codeOutcome.CodeSuccess? ==>
        generatedCode == Coalesced(codeOutcome.html, codeOutcome.css, codeOutcome.js) &&
        activeCodeView == Html && editorContent == generatedCode.html &&
        currentRightPanelView == PreviewView
      ensures codeOutcome.CodeFailure? ==>
        generatedCode == old(generatedCode) && activeCodeView == old(activeCodeView) &&
        editorContent == old(editorContent) && currentRightPanelView == old(currentRightPanelView)
    {
      StartGeneration();
      requests := [IdentifyIntentRequest(prompt)];
      SettleIntent(intentOutcome);
      requests := requests + [GenerateCodeRequest(prompt)];
      SettleCode(codeOutcome);
      isGenerating := false;
    }

    /** The steps before the first await: the flag is raised, the previous
        intent analysis is cleared and the prompt joins the history. */
    method StartGeneration()
      requires Valid()
      modifies this`isGenerating, this`intentResult, this`promptHistory
      ensures Valid() && isGenerating && intentResult == None
      ensures promptHistory == RecordPrompt(old(promptHistory), prompt)
    {
      isGenerating := true;
      intentResult := None;
      promptHistory := RecordPrompt(promptHistory, prompt);
    }

    /** The inner try/catch around the intent flow: a result is stored, an
        error is swallowed. */
    method SettleIntent(outcome: Result<IntentOutput, string>)
      modifies this`intentResult
      ensures intentResult == if outcome.Success? then Some(outcome.value) else old(intentResult)
    {
      match outcome {
        case Success(output) =>
          intentResult := Some(output);
        case Failure(_) =>
      }
    }

    /** The outer try/catch around the code flow: a reply replaces the code,
        activates the HTML file and shows the preview; a failure changes
        none of them. */
    method SettleCode(outcome: CodeOutcome)
      requires Valid()
      modifies this`generatedCode, this`activeCodeView, this`editorContent, this`currentRightPanelView
      ensures Valid()
      ensures outcome.CodeSuccess? ==>
        generatedCode == Coalesced(outcome.html, outcome.css, outcome.js) &&
        activeCodeView == Html && editorContent == generatedCode.html &&
        currentRightPanelView == PreviewView
      ensures outcome.CodeFailure? ==>
        generatedCode == old(generatedCode) && activeCodeView == old(activeCodeView) &&
        editorContent == old(editorContent) && currentRightPanelView == old(currentRightPanelView)
    {
      match outcome {
        case CodeSuccess(html, css, js) =>
          var newCode := Coalesced(html, css, js);
          generatedCode := newCode;
          activeCodeView := Html;
          editorContent := newCode.html;
          currentRightPanelView := PreviewView;
          SyncEditor();
        case CodeFailure(_) =>
      }
    }

    /** The export action: nothing when all three files are empty, otherwise
        the current code, as it is, under the base name `tenali-export`. */
    method Export() returns (payload: Option<ExportRequest>)
      ensures payload.None? <==> generatedCode.IsEmpty()
      ensures payload.Some? ==> payload.value.code == generatedCode && payload.value.baseName == ExportBaseName
    {
      if generatedCode.html == "" && generatedCode.css == "" && generatedCode.js == "" {
        return None;
      }
      payload := Some(ExportRequest(generatedCode, ExportBaseName));
    }
  }
}
