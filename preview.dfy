/**
  The live preview's document builder (`constructClientSrcDoc`) and the
  `srcDocContent` state of the preview component. The builder is one template
  string: fixed text, the theme class, the stylesheet, the markup and the
  script, in that order, with the script wrapped in a `try`/`catch` that only
  logs. The template's whitespace is part of the fixed text.
 */
module Preview {
  import JsText

  /** Text before the theme class: the doctype and the opening `<html` tag
      up to its `class` attribute. */
  const Doctype := "\n        <!DOCTYPE html>\n        "
  const HtmlOpen := "<html lang=\"en\" class=\""
  const P0 := Doctype + HtmlOpen

  /** Text between the theme class and the stylesheet: the end of the `<html>`
      tag, the head's meta tags and the opening of the style block with the
      built-in reset rules. */
  const TagClose := "\">"
  const P1 := TagClose + HeadAndReset
  const HeadAndReset :=
    "\n" +
    "        <head>\n" +
    "          <meta charset=\"UTF-8\">\n" +
    "          <meta name=\"viewport\" " +
    "content=\"width=device-width, initial-scale=1.0\">\n" +
    "          <style>\n" +
    "            /* Basic reset and theming " +
    "for iframe body */\n" +
    "            body { \n" +
    "              margin: 0; \n" +
    "              font-family: sans-serif; \n" +
    "              background-color: " +
    "hsl(var(--background));\n" +
    "              color: hsl(var(--foreground));\n" +
    "              transition: " +
    "background-color 0.2s, color 0.2s;\n" +
    "            }\n" +
    "            "

  /** Text between the stylesheet and the markup: the style block and the head
      close, the body opens. */
  const P2 := "\n          </style>\n" + "        </head>\n" + "        <body>\n          "

  /** Text between the markup and the script: the script element opens and the
      guard's `try {` follows. */
  const ScriptOpen := "\n          <script>\n            "
  const TryOpen := "try {"
  const JsIndent := "\n              "
  const P3 := ScriptOpen + TryOpen + JsIndent

  /** Text after the script: the guard's handler, which only logs the error,
      then the script, body and document close. */
  const CatchOpen := "} catch (e) {"
  const CatchBody := "\n              console.error(" + "'Error in preview script:', e);" + "\n            }"
  const CatchIndent := "\n            "
  const DocClose := "\n          </script>\n" + "        </body>\n        </html>\n      "
  const P4 := CatchIndent + CatchOpen + CatchBody + DocClose

  /** The fixed text of a template with four holes: theme class, stylesheet,
      markup and script, in that order. */
  datatype Template = Template(p0: string, p1: string, p2: string, p3: string, p4: string)

  /** The template literal of `constructClientSrcDoc`. */
  const Page := Template(P0, P1, P2, P3, P4)

  /** Filling the holes of a template. */
  function Fill(t: Template, theme: string, css: string, html: string, js: string): string {
    t.p0 + theme + t.p1 + css + t.p2 + html + t.p3 + js + t.p4
  }

  /** `constructClientSrcDoc`, with the theme class (the host document's
      `documentElement.className`) as a parameter. */
  function SrcDoc(html: string, css: string, js: string, theme: string): string {
    Fill(Page, theme, css, html, js)
  }

  /** Where each input starts in a filled template. */
  function ThemeAt(t: Template): nat { |t.p0| }
  function CssAt(t: Template, theme: string): nat { |t.p0| + |theme| + |t.p1| }
  function HtmlAt(t: Template, theme: string, css: string): nat { CssAt(t, theme) + |css| + |t.p2| }
  function JsAt(t: Template, theme: string, css: string, html: string): nat { HtmlAt(t, theme, css) + |html| + |t.p3| }

  /** `piece` occurs in `s` at index `i`, character for character. */
  predicate Occurs(s: string, i: nat, piece: string) {
    i + |piece| <= |s| && s[i..i + |piece|] == piece
  }

  /** The text of `s` from `i` up to `j` is whitespace only. */
  predicate WsBetween(s: string, i: nat, j: nat) {
    i <= j <= |s| && JsText.AllWs(s[i..j])
  }

  /** An occurrence of `a + b` is an occurrence of `a` followed by one of `b`. */
  lemma OccursSplit(s: string, i: nat, a: string, b: string)
    requires Occurs(s, i, a + b)
    ensures Occurs(s, i, a) && Occurs(s, i + |a|, b)
  {
    var w := s[i..i + |a| + |b|];
    assert w == a + b;
    assert s[i..i + |a|] == w[..|a|];
    assert s[i + |a|..i + |a| + |b|] == w[|a|..];
  }

  /** Cutting a concatenation of nine pieces back into its pieces. */
  lemma CutNine(a: string, b: string, c: string, d: string, e: string,
                f: string, g: string, h: string, i: string)
    ensures var s := a + b + c + d + e + f + g + h + i;
      var ab := |a| + |b|;
      var ac := ab + |c|;
      var ad := ac + |d|;
      var ae := ad + |e|;
      var af := ae + |f|;
      var ag := af + |g|;
      var ah := ag + |h|;
      |s| == ah + |i| &&
      s[..|a|] == a && s[|a|..ab] == b && s[ab..ac] == c && s[ac..ad] == d && s[ad..ae] == e &&
      s[ae..af] == f && s[af..ag] == g && s[ag..ah] == h && s[ah..] == i
  {
  }

  /** In a filled template the four inputs occur verbatim, unescaped, at their
      places, and the template's fixed parts occur around them, the same
      whatever the inputs are; the document ends with the last fixed part. */
  lemma FillLayout(t: Template, theme: string, css: string, html: string, js: string)
    ensures var d := Fill(t, theme, css, html, js);
      |d| == JsAt(t, theme, css, html) + |js| + |t.p4| &&
      Occurs(d, ThemeAt(t), theme) &&
      Occurs(d, CssAt(t, theme), css) &&
      Occurs(d, HtmlAt(t, theme, css), html) &&
      Occurs(d, JsAt(t, theme, css, html), js)
    ensures var d := Fill(t, theme, css, html, js);
      Occurs(d, 0, t.p0) &&
      Occurs(d, ThemeAt(t) + |theme|, t.p1) &&
      Occurs(d, CssAt(t, theme) + |css|, t.p2) &&
      Occurs(d, HtmlAt(t, theme, css) + |html|, t.p3) &&
      Occurs(d, JsAt(t, theme, css, html) + |js|, t.p4)
  {
    // Naming the nine cuts keeps the solver from searching for them.
    CutNine(t.p0, theme, t.p1, css, t.p2, html, t.p3, js, t.p4);
  }

  /** The preview document: the theme class, css, html and js occur verbatim
      in that order, each separated from the next by text of the template
      alone, and the template's text closes the document. */
  lemma SrcDocLayout(html: string, css: string, js: string, theme: string)
    ensures var d := SrcDoc(html, css, js, theme);
      Occurs(d, 0, P0) &&
      Occurs(d, ThemeAt(Page), theme) &&
      Occurs(d, ThemeAt(Page) + |theme|, P1) &&
      Occurs(d, CssAt(Page, theme), css) &&
      Occurs(d, CssAt(Page, theme) + |css|, P2) &&
      Occurs(d, HtmlAt(Page, theme, css), html) &&
      Occurs(d, HtmlAt(Page, theme, css) + |html|, P3) &&
      Occurs(d, JsAt(Page, theme, css, html), js) &&
      Occurs(d, JsAt(Page, theme, css, html) + |js|, P4) &&
      |d| == JsAt(Page, theme, css, html) + |js| + |P4|
    ensures ThemeAt(Page) + |theme| < CssAt(Page, theme)
    ensures CssAt(Page, theme) + |css| < HtmlAt(Page, theme, css)
    ensures HtmlAt(Page, theme, css) + |html| < JsAt(Page, theme, css, html)
    ensures JsAt(Page, theme, css, html) + |js| < |SrcDoc(html, css, js, theme)|
  {
    FillLayout(Page, theme, css, html, js);
    SeparatorsNonEmpty();
  }

  /** The fixed text between two inputs, and after the last, is never empty in
      the preview's template. */
  lemma SeparatorsNonEmpty()
    ensures |P1| > 0 && |P2| > 0 && |P3| > 0 && |P4| > 0
  {
  }

  /** Given the lengths of its inputs, a filled template determines them: two
      equal documents built from inputs of the same lengths were built from
      the same inputs. */
  lemma FillInjectiveForEqualLengths(t: Template, theme: string, css: string, html: string, js: string,
                                     theme': string, css': string, html': string, js': string)
    requires |html| == |html'| && |css| == |css'| && |js| == |js'| && |theme| == |theme'|
    requires Fill(t, theme, css, html, js) == Fill(t, theme', css', html', js')
    ensures html == html' && css == css' && js == js' && theme == theme'
  {
    FillLayout(t, theme, css, html, js);
    FillLayout(t, theme', css', html', js');
  }

  /** The same for the preview document. */
  lemma SrcDocInjectiveForEqualLengths(html: string, css: string, js: string, theme: string,
                                       html': string, css': string, js': string, theme': string)
    requires |html| == |html'| && |css| == |css'| && |js| == |js'| && |theme| == |theme'|
    requires SrcDoc(html, css, js, theme) == SrcDoc(html', css', js', theme')
    ensures html == html' && css == css' && js == js' && theme == theme'
  {
    FillInjectiveForEqualLengths(Page, theme, css, html, js, theme', css', html', js');
  }

  /** The theme class is the value of the `class` attribute of the `<html>`
      element, right after `lang="en"`. */
  lemma ThemeIsHtmlClass(html: string, css: string, js: string, theme: string)
    ensures var d := SrcDoc(html, css, js, theme);
      var a := ThemeAt(Page);
      a >= |HtmlOpen| && Occurs(d, a - |HtmlOpen|, HtmlOpen) && Occurs(d, a + |theme|, TagClose)
  {
    EnclosedHole(Page, theme, css, html, js, Doctype, HtmlOpen, TagClose, HeadAndReset);
  }

  /** In any template whose first part ends with `open` and whose second part
      starts with `close`, the theme hole lies right between the two. */
  lemma EnclosedHole(t: Template, theme: string, css: string, html: string, js: string,
                     pre: string, open: string, close: string, post: string)
    requires t.p0 == pre + open && t.p1 == close + post
    ensures var d := Fill(t, theme, css, html, js);
      var a := ThemeAt(t);
      a >= |open| && Occurs(d, a - |open|, open) && Occurs(d, a + |theme|, close)
  {
    FillLayout(t, theme, css, html, js);
    var d := Fill(t, theme, css, html, js);
    OccursSplit(d, 0, pre, open);
    OccursSplit(d, ThemeAt(t) + |theme|, close, post);
  }

  /** The script sits inside the guard: `try {` comes before it and
      `} catch (e) {` after it, separated from it by whitespace only, and the
      handler's body is the single logging statement `CatchBody`. */
  lemma ScriptGuarded(html: string, css: string, js: string, theme: string)
    ensures var d := SrcDoc(html, css, js, theme);
      var j := JsAt(Page, theme, css, html);
      var tryEnd := j - |JsIndent|;
      var catchAt := j + |js| + |CatchIndent|;
      |TryOpen| + |JsIndent| <= j && Occurs(d, tryEnd - |TryOpen|, TryOpen) &&
      WsBetween(d, tryEnd, j) && WsBetween(d, j + |js|, catchAt) &&
      Occurs(d, catchAt, CatchOpen) && Occurs(d, catchAt + |CatchOpen|, CatchBody)
  {
    GuardedHole(Page, theme, css, html, js, ScriptOpen, TryOpen, JsIndent, CatchIndent, CatchOpen, CatchBody, DocClose);
    IndentsAreWs();
  }

  /** In any template whose third part ends with `tryOpen` and some text
      `ind1`, and whose last part starts with some text `ind2`, `catchOpen` and
      `body`, the script hole is enclosed by exactly those texts. */
  lemma GuardedHole(t: Template, theme: string, css: string, html: string, js: string,
                    pre: string, tryOpen: string, ind1: string,
                    ind2: string, catchOpen: string, body: string, post: string)
    requires t.p3 == pre + tryOpen + ind1
    requires t.p4 == ind2 + catchOpen + body + post
    ensures var d := Fill(t, theme, css, html, js);
      var j := JsAt(t, theme, css, html);
      var tryEnd := j - |ind1|;
      var catchAt := j + |js| + |ind2|;
      |tryOpen| + |ind1| <= j && Occurs(d, tryEnd - |tryOpen|, tryOpen) &&
      Occurs(d, tryEnd, ind1) && Occurs(d, j + |js|, ind2) &&
      Occurs(d, catchAt, catchOpen) && Occurs(d, catchAt + |catchOpen|, body)
  {
    FillLayout(t, theme, css, html, js);
    var d := Fill(t, theme, css, html, js);
    var j := JsAt(t, theme, css, html);
    var h := j - |t.p3|;
    var e := j + |js|;
    OccursSplit(d, h, pre + tryOpen, ind1);
    OccursSplit(d, h, pre, tryOpen);
    OccursSplit(d, e, ind2 + catchOpen + body, post);
    OccursSplit(d, e, ind2 + catchOpen, body);
    OccursSplit(d, e, ind2, catchOpen);
  }

  /** The indentation around the script is whitespace. */
  lemma IndentsAreWs()
    ensures JsText.AllWs(JsIndent) && JsText.AllWs(CatchIndent)
  {
  }

  /** The document `srcDocContent` holds before the effect first runs. */
  const InitialSrcDoc := "<!DOCTYPE html><html><head>" + "<meta charset='UTF-8'></head>" + "<body></body></html>"

  /** The placeholder is never a built document: a built one starts with the
      template's leading newline. */
  lemma InitialIsNotBuilt(html: string, css: string, js: string, theme: string)
    ensures InitialSrcDoc != SrcDoc(html, css, js, theme)
  {
  }

  /** The preview component's state: the props its effect depends on and the
      document the iframe shows. */
  datatype PreviewState = PreviewState(html: string, css: string, js: string, theme: string, srcDoc: string)
  {
    /** The shown document is the builder's output for the current props. */
    predicate Synced() {
      srcDoc == SrcDoc(html, css, js, theme)
    }
  }

  /** The first render: the props are in place, the effect has not run yet.
      React always runs the effect right after mounting, so no later render
      sees this state; `FirstRender` is the state after both. */
  function Mount(html: string, css: string, js: string, theme: string): (p: PreviewState)
    ensures p.srcDoc == InitialSrcDoc
    ensures p.html == html && p.css == css && p.js == js && p.theme == theme
  {
    PreviewState(html, css, js, theme, InitialSrcDoc)
  }

  /** The effect body: rebuild the document from the current props. */
  function RunEffect(p: PreviewState): (q: PreviewState)
    ensures q.Synced()
    ensures q.html == p.html && q.css == p.css && q.js == p.js && q.theme == p.theme
  {
    p.(srcDoc := SrcDoc(p.html, p.css, p.js, p.theme))
  }

  /** The first commit: the mount followed by its effect. The preview starts
      in sync with its props. */
  function FirstRender(html: string, css: string, js: string, theme: string): (p: PreviewState)
    ensures p.Synced() && p.srcDoc != InitialSrcDoc
    ensures p.html == html && p.css == css && p.js == js && p.theme == theme
  {
    InitialIsNotBuilt(html, css, js, theme);
    RunEffect(Mount(html, css, js, theme))
  }

  /** A re-render with new props: the effect runs exactly when one of its
      dependencies changed. */
  function Rerender(p: PreviewState, html: string, css: string, js: string, theme: string): (q: PreviewState)
    ensures q.html == html && q.css == css && q.js == js && q.theme == theme
  {
    var q := p.(html := html, css := css, js := js, theme := theme);
    if html != p.html || css != p.css || js != p.js || theme != p.theme then RunEffect(q) else q
  }

  /** Right after mounting the shown document is the placeholder, which is not
      synced; the effect that follows the mount syncs it. */
  lemma MountThenEffect(html: string, css: string, js: string, theme: string)
    ensures !Mount(html, css, js, theme).Synced()
    ensures RunEffect(Mount(html, css, js, theme)).srcDoc == SrcDoc(html, css, js, theme)
  {
    InitialIsNotBuilt(html, css, js, theme);
  }

  /** Once synced, the preview stays synced through every re-render, and a
      re-render that changes any dependency shows the builder's output for the
      new props whatever was shown before. */
  lemma RerenderKeepsSynced(p: PreviewState, html: string, css: string, js: string, theme: string)
    ensures p.Synced() ==> Rerender(p, html, css, js, theme).Synced()
    ensures (html != p.html || css != p.css || js != p.js || theme != p.theme) ==>
      Rerender(p, html, css, js, theme).srcDoc == SrcDoc(html, css, js, theme)
    ensures (html == p.html && css == p.css && js == p.js && theme == p.theme) ==>
      Rerender(p, html, css, js, theme) == p
  {
  }
}
