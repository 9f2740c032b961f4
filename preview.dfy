/** The export renderer of the preview panel: a fixed HTML template whose
    `{token}` placeholders are replaced, one token at a time and in a fixed
    order, by the project's title, image, aspect ratio and three `||`-joined
    per-slide lists; and the panel state that holds the result. */
module Preview {
  import opened Wrappers
  import opened Text
  import opened Selection
  import opened Project

  // ---------------------------------------------------------------------
  // the template

  /** The placeholders of the template. */
  datatype Token = Title | SiteTitle | ImageUrl | Aspect | GraphArea | Descriptions | Coords

  /** The name inside a placeholder's braces. */
  function Name(t: Token): string
  {
    match t
    case Title => "title"
    case SiteTitle => "sitetitle"
    case ImageUrl => "imageURL"
    case Aspect => "aspect"
    case GraphArea => "GraphArea"
    case Descriptions => "descriptions"
    case Coords => "coords"
  }

  /** The placeholder as it appears in the template, and the pattern that
      replaces it: its name in braces. */
  function TokenText(t: Token): string
  {
    "{" + Name(t) + "}"
  }

  /** A template is literal text interleaved with placeholders. */
  datatype Piece = Text(text: string) | Hole(token: Token)

  function PieceText(x: Piece): string
  {
    match x
    case Text(s) => s
    case Hole(t) => TokenText(t)
  }

  /** The string a template spells. */
  function Render(t: seq<Piece>): string
    decreases |t|
  {
    if |t| == 0 then "" else PieceText(t[0]) + Render(t[1..])
  }

  /** No literal piece contains `{`, so only placeholders can start a
      token match. */
  predicate PlainPieces(t: seq<Piece>)
  {
    forall i :: 0 <= i < |t| && t[i].Text? ==> '{' !in t[i].text
  }

  /** The fixed markup of the embed template between its placeholders. */
  datatype Markup = Markup(
    head: string, headToImage: string, imageToHeadline: string, headlineOpen: string,
    headlineToData: string, dataBreak: string, end: string)

  /** The text of `index` between its placeholders. Its only caller is the
      panel's constructor, which stores the template built from it. */
  method IndexMarkup() returns (m: Markup)
  {
    m := Markup(
      /* head */ @"
        <head>
          <meta charset=""utf-8"" />
          <meta http-equiv=""X-UA-Compatible"" content=""IE=edge"" />
          ",
      /* headToImage */ @"
          <meta name=""description"" content="""" />
          <meta name=""viewport"" content=""width=device-width, initial-scale=1"" />
          <link rel=""stylesheet"" href=""https://cdn.jsdelivr.net/gh/bsteinig/slow-analysis-cdn/style.css"" />
        </head>
        <body>
          <div class=""container"">
            <div class=""img-comp"">
              <div class=""img-comp-highlight"" id=""img-comp-highlight""></div>
              <img
                ",
      /* imageToHeadline */ @"
                alt=""graphic""
                class=""responsive""
                id=""img-comp-img""
              />
            </div>
            <div class=""info-comp"">
              ",
      /* headlineOpen */ @"<h1 class=""headline"">
                  ",
      /* headlineToData */ @"
              </h1>
              <div class=""text-container"">
                <h3 class=""comp-title"" id=""comp-title"">Click Next to begin</h3>
                <p class=""comp-info"" id=""comp-info""></p>
              </div>
              <div class=""btn-group"">
                  <button class=""btn"" onclick=""backClick()"">Back</button>
                  <button class=""btn"" onclick=""nextClick()"">Next</button>
                </div>
            </div>
          </div>
          <script src=""https://cdn.jsdelivr.net/gh/bsteinig/slow-analysis-cdn/script.js"" async defer></script>
          ",
      /* dataBreak */ @"
          ",
      /* end */ @"
        </body>
      </html>");
  }

  /** The opening tag of a hidden data element that the embed script reads. */
  function DataDiv(id: string): string
  {
    "<div id=\"" + id + "\" style=\"display: none;\">"
  }

  /** The `k`-th piece of the embed template with markup `m`. */
  function PieceAt(m: Markup, k: int): Piece
  {
    match k
    case 0 => Text("<html>")
    case 1 => Text(m.head)
    case 2 => Text("<title>")
    case 3 => Hole(SiteTitle)
    case 4 => Text("</title>")
    case 5 => Text(m.headToImage)
    case 6 => Text("src=\"")
    case 7 => Hole(ImageUrl)
    case 8 => Text("\"")
    case 9 => Text(m.imageToHeadline)
    case 10 => Text(m.headlineOpen)
    case 11 => Hole(Title)
    case 12 => Text(m.headlineToData)
    case 13 => Text(DataDiv("aspect"))
    case 14 => Hole(Aspect)
    case 15 => Text("</div>")
    case 16 => Text(m.dataBreak)
    case 17 => Text(DataDiv("titles"))
    case 18 => Hole(GraphArea)
    case 19 => Text("</div>")
    case 20 => Text(m.dataBreak)
    case 21 => Text(DataDiv("descs"))
    case 22 => Hole(Descriptions)
    case 23 => Text("</div>")
    case 24 => Text(m.dataBreak)
    case 25 => Text(DataDiv("coords"))
    case 26 => Hole(Coords)
    case 27 => Text("</div>")
    case _ => Text(m.end)
  }

  /** `index`: the embed template with markup `m`, cut at its
      placeholders. */
  function Template(m: Markup): seq<Piece>
  {
    seq(29, k => PieceAt(m, k))
  }

  /** The shape of the embed template around its placeholders: it opens
      with `<html>`; the site title sits between `<title>` and `</title>`,
      the image link inside `src="..."`, the title right after the
      headline's opening tag, and the aspect ratio and the three lists each
      inside its own hidden data element. */
  predicate IndexShaped(t: seq<Piece>, m: Markup)
  {
    && |t| == 29
    && t[0] == Text("<html>")
    && t[2] == Text("<title>") && t[3] == Hole(SiteTitle) && t[4] == Text("</title>")
    && t[6] == Text("src=\"") && t[7] == Hole(ImageUrl) && t[8] == Text("\"")
    && t[10] == Text(m.headlineOpen) && t[11] == Hole(Title)
    && t[13] == Text(DataDiv("aspect")) && t[14] == Hole(Aspect) && t[15] == Text("</div>")
    && t[17] == Text(DataDiv("titles")) && t[18] == Hole(GraphArea) && t[19] == Text("</div>")
    && t[21] == Text(DataDiv("descs")) && t[22] == Hole(Descriptions) && t[23] == Text("</div>")
    && t[25] == Text(DataDiv("coords")) && t[26] == Hole(Coords) && t[27] == Text("</div>")
  }

  lemma TemplateShaped(m: Markup)
    ensures IndexShaped(Template(m), m)
  {
    TemplateHead(m);
    TemplateData(m);
  }

  /** The template's pieces up to the headline. */
  lemma TemplateHead(m: Markup)
    ensures var t := Template(m);
      && |t| == 29
      && t[0] == Text("<html>")
      && t[2] == Text("<title>") && t[3] == Hole(SiteTitle) && t[4] == Text("</title>")
      && t[6] == Text("src=\"") && t[7] == Hole(ImageUrl) && t[8] == Text("\"")
      && t[10] == Text(m.headlineOpen) && t[11] == Hole(Title)
  {
  }

  /** The template's hidden data elements. */
  lemma TemplateData(m: Markup)
    ensures var t := Template(m);
      && |t| == 29
      && t[13] == Text(DataDiv("aspect")) && t[14] == Hole(Aspect) && t[15] == Text("</div>")
      && t[17] == Text(DataDiv("titles")) && t[18] == Hole(GraphArea) && t[19] == Text("</div>")
      && t[21] == Text(DataDiv("descs")) && t[22] == Hole(Descriptions) && t[23] == Text("</div>")
      && t[25] == Text(DataDiv("coords")) && t[26] == Hole(Coords) && t[27] == Text("</div>")
  {
  }

  // ---------------------------------------------------------------------
  // the per-slide lists

  /** A description is copied when it is truthy (present and non-empty);
      otherwise a single space stands in for it. */
  function DescriptionText(d: Option<string>): (r: string)
    ensures |r| > 0
    ensures d.Some? && d.value != "" ==> r == d.value
    ensures d.None? || d.value == "" ==> r == " "
  {
    if d.Some? && d.value != "" then d.value else " "
  }

  /** The four coordinate fields of a slide's selection in stored order;
      the box shape has none of them, and each reads as "undefined". */
  function CornerFields(sel: Selection, show: real -> string): seq<string>
  {
    match sel
    case Corners(_, sx, sy, ex, ey) => [show(sx), show(sy), show(ex), show(ey)]
    case Box(_, _, _, _, _) => ["undefined", "undefined", "undefined", "undefined"]
  }

  /** `startX + ',' + startY + ',' + endX + ',' + endY`, with `show` the
      host's number-to-string conversion. */
  function CoordEntry(sel: Selection, show: real -> string): (r: string)
    ensures r == Join(CornerFields(sel, show), ",")
  {
    var f := CornerFields(sel, show);
    assert Join(f[3..], ",") == f[3];
    assert Join(f[2..], ",") == f[2] + "," + f[3];
    assert Join(f[1..], ",") == f[1] + "," + f[2] + "," + f[3];
    f[0] + "," + f[1] + "," + f[2] + "," + f[3]
  }

  function Features(slides: seq<Slide>): (r: seq<string>)
    ensures |r| == |slides|
  {
    seq(|slides|, i requires 0 <= i < |slides| => slides[i].data.graphicalFeature)
  }

  function DescriptionTexts(slides: seq<Slide>): (r: seq<string>)
    ensures |r| == |slides|
  {
    seq(|slides|, i requires 0 <= i < |slides| => DescriptionText(slides[i].data.description))
  }

  function CoordEntries(slides: seq<Slide>, show: real -> string): (r: seq<string>)
    ensures |r| == |slides|
  {
    seq(|slides|, i requires 0 <= i < |slides| => CoordEntry(slides[i].selection, show))
  }

  const ListSeparator: string := "||"

  function FeatureList(slides: seq<Slide>): string
  {
    Join(Features(slides), ListSeparator)
  }

  function DescriptionList(slides: seq<Slide>): string
  {
    Join(DescriptionTexts(slides), ListSeparator)
  }

  function CoordList(slides: seq<Slide>, show: real -> string): string
  {
    Join(CoordEntries(slides, show), ListSeparator)
  }

  // ---------------------------------------------------------------------
  // the replacement passes

  /** What each placeholder is replaced by. */
  function TokenValue(t: Token, p: Project, show: real -> string): string
  {
    match t
    case Title => p.title
    case SiteTitle => p.title
    case ImageUrl => p.image
    case Aspect => show(p.aspect)
    case GraphArea => FeatureList(p.slides)
    case Descriptions => DescriptionList(p.slides)
    case Coords => CoordList(p.slides, show)
  }

  /** The order of the replacement passes. */
  const PassOrder: seq<Token> := [Title, SiteTitle, ImageUrl, Aspect, GraphArea, Descriptions, Coords]

  /** One pass: every occurrence of token `u` replaced by its value. */
  function Pass(s: string, u: Token, p: Project, show: real -> string): string
  {
    ReplaceAll(s, TokenText(u), TokenValue(u, p, show))
  }

  /** Replace every occurrence of each token in turn by its value. */
  function ApplyPasses(s: string, ts: seq<Token>, p: Project, show: real -> string): string
    decreases |ts|
  {
    if |ts| == 0 then s else ApplyPasses(Pass(s, ts[0], p, show), ts[1..], p, show)
  }

  /** The page exported from template `t`: every pass of `PassOrder` over
      the template's text. */
  function Export(t: seq<Piece>, p: Project, show: real -> string): string
  {
    ApplyPasses(Render(t), PassOrder, p, show)
  }

  /** The template with every placeholder replaced by its value. */
  function Fill(t: seq<Piece>, p: Project, show: real -> string): (r: seq<Piece>)
    ensures |r| == |t|
  {
    seq(|t|, i requires 0 <= i < |t| =>
      if t[i].Hole? then Text(TokenValue(t[i].token, p, show)) else t[i])
  }

  /** No value contains `{`, so no pass can create a token. */
  ghost predicate ValuesPlain(p: Project, show: real -> string)
  {
    forall t: Token :: '{' !in TokenValue(t, p, show)
  }

  // ---------------------------------------------------------------------
  // generateHTML and the panel

  /** Everything a loop that appends `x + sep` for each element, and `x`
      alone for the last one, has built after `i` elements. */
  function Accumulated(xs: seq<string>, i: nat, sep: string): string
    requires i <= |xs|
  {
    if i == |xs| && i > 0 then Join(xs, sep) else Terminated(xs[..i], sep)
  }

  lemma AccumulateStep(xs: seq<string>, i: nat, sep: string)
    requires i < |xs|
    ensures Accumulated(xs, i + 1, sep)
         == Accumulated(xs, i, sep) + xs[i] + (if i == |xs| - 1 then "" else sep)
  {
    if i == |xs| - 1 {
      JoinIsTerminatedPrefix(xs, sep);
      assert xs[..|xs| - 1] == xs[..i];
    } else {
      TerminatedSnoc(xs[..i], xs[i], sep);
      assert xs[..i + 1] == xs[..i] + [xs[i]];
    }
  }

  /** The passes of `PassOrder`, one after the other. */
  lemma PassesInOrder(s: string, p: Project, show: real -> string)
    ensures ApplyPasses(s, PassOrder, p, show) ==
      Pass(Pass(Pass(Pass(Pass(Pass(Pass(s, Title, p, show), SiteTitle, p, show), ImageUrl, p, show),
        Aspect, p, show), GraphArea, p, show), Descriptions, p, show), Coords, p, show)
  {
    var s1 := Pass(s, Title, p, show);
    var s2 := Pass(s1, SiteTitle, p, show);
    var s3 := Pass(s2, ImageUrl, p, show);
    var s4 := Pass(s3, Aspect, p, show);
    var s5 := Pass(s4, GraphArea, p, show);
    var s6 := Pass(s5, Descriptions, p, show);
    assert ApplyPasses(s, PassOrder, p, show) == ApplyPasses(s1, PassOrder[1..], p, show);
    assert ApplyPasses(s1, PassOrder[1..], p, show) == ApplyPasses(s2, PassOrder[2..], p, show);
    assert ApplyPasses(s2, PassOrder[2..], p, show) == ApplyPasses(s3, PassOrder[3..], p, show);
    assert ApplyPasses(s3, PassOrder[3..], p, show) == ApplyPasses(s4, PassOrder[4..], p, show);
    assert ApplyPasses(s4, PassOrder[4..], p, show) == ApplyPasses(s5, PassOrder[5..], p, show);
    assert ApplyPasses(s5, PassOrder[5..], p, show) == ApplyPasses(s6, PassOrder[6..], p, show);
    assert PassOrder[6..][1..] == [];
  }

  /** The `forEach` of `generateHTML`: the three lists built slide by
      slide, with `||` after every entry but the last. */
  method BuildLists(slides: seq<Slide>, show: real -> string)
    returns (graphArea: string, descriptions: string, coords: string)
    ensures graphArea == FeatureList(slides)
    ensures descriptions == DescriptionList(slides)
    ensures coords == CoordList(slides, show)
  {
    graphArea, descriptions, coords := "", "", "";
    var n := |slides|;
    var i := 0;
    while i < n
      invariant 0 <= i <= n
      invariant graphArea == Accumulated(Features(slides), i, ListSeparator)
      invariant descriptions == Accumulated(DescriptionTexts(slides), i, ListSeparator)
      invariant coords == Accumulated(CoordEntries(slides, show), i, ListSeparator)
    {
      var slide := slides[i];
      AccumulateStep(Features(slides), i, ListSeparator);
      AccumulateStep(DescriptionTexts(slides), i, ListSeparator);
      AccumulateStep(CoordEntries(slides, show), i, ListSeparator);
      var d := slide.data.description;
      if i == n - 1 {
        graphArea := graphArea + slide.data.graphicalFeature;
        descriptions := descriptions + (if d.Some? && d.value != "" then d.value else " ");
        coords := coords + CoordEntry(slide.selection, show);
      } else {
        graphArea := graphArea + slide.data.graphicalFeature + "||";
        descriptions := descriptions + (if d.Some? && d.value != "" then d.value + "||" else " ||");
        coords := coords + CoordEntry(slide.selection, show) + "||";
      }
      i := i + 1;
    }
    if n == 0 {
      assert Features(slides)[..0] == [] && DescriptionTexts(slides)[..0] == [];
      assert CoordEntries(slides, show)[..0] == [];
    }
  }

  /** The preview panel: the embed template (`index`), and the exported
      page it holds (`component`), empty until a project with slides has
      been seen. */
  class PreviewPanel {
    const index: string
    ghost const markup: Markup
    ghost const template: seq<Piece>
    var component: string

    /** `index` spells the embed template. */
    ghost predicate Valid()
      reads this
    {
      template == Template(markup) && index == Render(template)
    }

    /** Mounting with the current project: `component` starts as `''`,
        then the regeneration effect runs once with that project. */
    constructor(p: Project, show: real -> string)
      ensures Valid()
      ensures |p.slides| > 0 ==> component == Export(template, p, show) && !ShowsPlaceholder()
      ensures |p.slides| == 0 ==> component == "" && ShowsPlaceholder()
    {
      var m := IndexMarkup();
      markup := m;
      template := Template(m);
      index := Render(Template(m));
      component := "";
      new;
      ProjectChanged(p, show);
    }

    /** The placeholder is shown instead of the page while nothing is held. */
    predicate ShowsPlaceholder()
      reads this
    {
      component == ""
    }

    /** `generateHTML`: the four scalar passes, the three lists built slide
        by slide, then the three list passes; the page is stored. */
    method GenerateHtml(p: Project, show: real -> string)
      modifies this
      ensures component == ApplyPasses(index, PassOrder, p, show)
    {
      var html := ReplaceAll(index, TokenText(Title), p.title);
      assert html == Pass(index, Title, p, show);
      var h := html;
      html := ReplaceAll(html, TokenText(SiteTitle), p.title);
      assert html == Pass(h, SiteTitle, p, show);
      h := html;
      html := ReplaceAll(html, TokenText(ImageUrl), p.image);
      assert html == Pass(h, ImageUrl, p, show);
      h := html;
      html := ReplaceAll(html, TokenText(Aspect), show(p.aspect));
      assert html == Pass(h, Aspect, p, show);
      var graphArea, descriptions, coords := BuildLists(p.slides, show);
      h := html;
      html := ReplaceAll(html, TokenText(GraphArea), graphArea);
      assert html == Pass(h, GraphArea, p, show);
      h := html;
      html := ReplaceAll(html, TokenText(Descriptions), descriptions);
      assert html == Pass(h, Descriptions, p, show);
      h := html;
      html := ReplaceAll(html, TokenText(Coords), coords);
      assert html == Pass(h, Coords, p, show);
      PassesInOrder(index, p, show);
      component := html;
    }

    /** The effect that runs when the project changes: the page is
        regenerated only for a project with at least one slide. */
    method ProjectChanged(p: Project, show: real -> string)
      requires Valid()
      modifies this
      ensures Valid()
      ensures |p.slides| > 0 ==> component == Export(template, p, show) && !ShowsPlaceholder()
      ensures |p.slides| == 0 ==> component == old(component)
    {
      if |p.slides| > 0 {
        GenerateHtml(p, show);
        TemplateShaped(markup);
        ExportStartsWithTag(template, p, show);
      }
    }
  }

  // ---------------------------------------------------------------------
  // properties of the passes

  /** `{`, then a name free of braces, then `}`. */
  predicate Braced(a: string)
  {
    |a| >= 2 && a[0] == '{' && a[|a| - 1] == '}' && '{' !in a[1..] && '}' !in a[..|a| - 1]
  }

  /** A braced placeholder, whatever follows it, never starts with another
      braced placeholder. */
  lemma BracedNotPrefix(a: string, b: string, r: string)
    requires Braced(a) && Braced(b) && a != b && |a + r| >= |b|
    ensures (a + r)[..|b|] != b
  {
    var s := a + r;
    if |a| == |b| {
      assert s[..|b|] == a;
    } else if |a| < |b| {
      assert s[..|b|][|a| - 1] == '}';
      assert b[..|b| - 1][|a| - 1] == b[|a| - 1];
    } else {
      assert s[..|b|][|b| - 1] == a[..|a| - 1][|b| - 1];
    }
  }

  /** A pass for one placeholder passes over another placeholder
      unchanged. */
  lemma BracedPassesThrough(a: string, b: string, r: string, v: string)
    requires Braced(a) && Braced(b) && a != b
    ensures ReplaceAll(a + r, b, v) == a + ReplaceAll(r, b, v)
  {
    var s := a + r;
    assert b[0] == '{' && '{' !in a[1..];
    ReplaceAllAfterPlain(a[1..], r, b, v);
    var tail := ReplaceAll(a[1..] + r, b, v);
    assert tail == a[1..] + ReplaceAll(r, b, v);
    if |s| < |b| {
      assert ReplaceAll(r, b, v) == r;
    } else {
      BracedNotPrefix(a, b, r);
      assert s[1..] == a[1..] + r;
      assert ReplaceAll(s, b, v) == [s[0]] + tail;
      assert [s[0]] + a[1..] == a;
    }
  }

  lemma BracedName(n: string)
    requires '{' !in n && '}' !in n
    ensures Braced("{" + n + "}")
  {
    var a := "{" + n + "}";
    assert a[1..] == n + "}";
    assert a[..|a| - 1] == "{" + n;
  }

  /** Each token text is braced, and distinct tokens have distinct texts. */
  lemma TokenShape(t: Token)
    ensures Braced(TokenText(t))
  {
    assert '{' !in Name(t) && '}' !in Name(t);
    BracedName(Name(t));
  }

  lemma TokenTextInjective(w: Token, u: Token)
    ensures w != u ==> TokenText(w) != TokenText(u)
  {
    if w != u {
      assert Name(w) != Name(u);
      var a := TokenText(w);
      assert a[1..|a| - 1] == Name(w);
      assert TokenText(u)[1..|TokenText(u)| - 1] == Name(u);
    }
  }

  /** Replace hole `u` by the literal `v`. */
  function SubstHole(t: seq<Piece>, u: Token, v: string): (r: seq<Piece>)
    ensures |r| == |t|
  {
    seq(|t|, i requires 0 <= i < |t| => if t[i] == Hole(u) then Text(v) else t[i])
  }

  /** Replace the piece `x` by the literal `v` when it is hole `u`. */
  function SubstPiece(x: Piece, u: Token, v: string): Piece
  {
    if x == Hole(u) then Text(v) else x
  }

  /** One pass over a piece followed by more text: the piece's own text is
      replaced only when it is the token itself. */
  lemma PassOverPiece(x: Piece, r: string, u: Token, v: string)
    requires x.Text? ==> '{' !in x.text
    ensures ReplaceAll(PieceText(x) + r, TokenText(u), v)
         == PieceText(SubstPiece(x, u, v)) + ReplaceAll(r, TokenText(u), v)
  {
    var pat := TokenText(u);
    TokenShape(u);
    match x
    case Text(s) =>
      ReplaceAllAfterPlain(s, r, pat, v);
    case Hole(w) =>
      if w == u {
        assert (pat + r)[..|pat|] == pat;
        assert (pat + r)[|pat|..] == r;
      } else {
        TokenShape(w);
        TokenTextInjective(w, u);
        BracedPassesThrough(TokenText(w), pat, r, v);
      }
  }

  /** One replacement pass over a template with plain literal text fills
      exactly that token's placeholders. */
  lemma {:induction false} PassFillsHole(t: seq<Piece>, u: Token, v: string)
    requires PlainPieces(t)
    ensures ReplaceAll(Render(t), TokenText(u), v) == Render(SubstHole(t, u, v))
    decreases |t|
  {
    TokenShape(u);
    if |t| > 0 {
      var t' := SubstHole(t, u, v);
      PassFillsHole(t[1..], u, v);
      assert t'[1..] == SubstHole(t[1..], u, v);
      assert t'[0] == SubstPiece(t[0], u, v);
      PassOverPiece(t[0], Render(t[1..]), u, v);
    }
  }

  /** Every placeholder of `t` has a pass in `ts`. */
  predicate HolesCovered(t: seq<Piece>, ts: seq<Token>)
  {
    forall i :: 0 <= i < |t| && t[i].Hole? ==> t[i].token in ts
  }

  /** Replacement passes over a template with plain literal text, with
      values that hold no `{`, and with a pass for every placeholder, fill
      every placeholder with its value: every occurrence of each token is
      replaced, whatever the order of the passes. */
  lemma {:induction false} PassesFillTemplate(t: seq<Piece>, ts: seq<Token>, p: Project, show: real -> string)
    requires PlainPieces(t) && ValuesPlain(p, show) && HolesCovered(t, ts)
    ensures ApplyPasses(Render(t), ts, p, show) == Render(Fill(t, p, show))
    decreases |ts|
  {
    if |ts| == 0 {
      assert Fill(t, p, show) == t;
    } else {
      var u := ts[0];
      var v := TokenValue(u, p, show);
      PassFillsHole(t, u, v);
      var t' := SubstHole(t, u, v);
      assert ts == [u] + ts[1..];
      assert HolesCovered(t', ts[1..]) by {
        forall i | 0 <= i < |t'| && t'[i].Hole?
          ensures t'[i].token in ts[1..]
        {
          assert t[i] == t'[i] && t[i].token != u;
        }
      }
      PassesFillTemplate(t', ts[1..], p, show);
      assert Fill(t', p, show) == Fill(t, p, show);
    }
  }

  lemma {:induction false} RenderAppend(a: seq<Piece>, b: seq<Piece>)
    ensures Render(a + b) == Render(a) + Render(b)
    decreases |a|
  {
    if |a| > 0 {
      assert (a + b)[1..] == a[1..] + b;
      RenderAppend(a[1..], b);
    } else {
      assert a + b == b;
    }
  }

  /** `w` occurs in `s`. */
  predicate Contains(s: string, w: string)
  {
    exists i :: 0 <= i <= |s| && w <= s[i..]
  }

  /** A run of consecutive pieces of a template shows up, filled, in the
      filled page. */
  lemma FilledRunAppears(t: seq<Piece>, i: nat, w: seq<Piece>, p: Project, show: real -> string)
    requires i + |w| <= |t| && t[i..i + |w|] == w
    ensures Contains(Render(Fill(t, p, show)), Render(Fill(w, p, show)))
  {
    var k := |w|;
    var f := Fill(t, p, show);
    assert Fill(w, p, show) == f[i..i + k];
    assert f == f[..i] + f[i..i + k] + f[i + k..];
    RenderAppend(f[..i] + f[i..i + k], f[i + k..]);
    RenderAppend(f[..i], f[i..i + k]);
    var s := Render(f);
    var r := Render(f[i..i + k]);
    var j := |Render(f[..i])|;
    assert r <= s[j..];
  }

  lemma FilledPair(a: string, u: Token, p: Project, show: real -> string)
    ensures Render(Fill([Text(a), Hole(u)], p, show)) == a + TokenValue(u, p, show)
  {
    var f := Fill([Text(a), Hole(u)], p, show);
    var v := TokenValue(u, p, show);
    assert f == [Text(a), Text(v)];
    assert f[1..] == [Text(v)] && f[1..][1..] == [];
    assert Render([Text(v)]) == v;
  }

  lemma FilledTriple(a: string, u: Token, b: string, p: Project, show: real -> string)
    ensures Render(Fill([Text(a), Hole(u), Text(b)], p, show)) == a + TokenValue(u, p, show) + b
  {
    var f := Fill([Text(a), Hole(u), Text(b)], p, show);
    var v := TokenValue(u, p, show);
    assert f == [Text(a), Text(v), Text(b)];
    assert f[1..] == [Text(v), Text(b)] && f[1..][1..] == [Text(b)] && f[1..][1..][1..] == [];
    assert Render([Text(b)]) == b;
    assert Render([Text(v), Text(b)]) == v + b;
  }

  /** Under the plainness conditions, a filled run of the template appears
      in the exported page. */
  lemma RunAppears(t: seq<Piece>, i: nat, w: seq<Piece>, p: Project, show: real -> string)
    requires PlainPieces(t) && ValuesPlain(p, show)
    requires i + |w| <= |t| && t[i..i + |w|] == w
    ensures Contains(Export(t, p, show), Render(Fill(w, p, show)))
  {
    EveryTokenPassed(t);
    PassesFillTemplate(t, PassOrder, p, show);
    FilledRunAppears(t, i, w, p, show);
  }

  lemma {:induction false} EveryTokenPassed(t: seq<Piece>)
    ensures HolesCovered(t, PassOrder)
  {
    forall i | 0 <= i < |t| && t[i].Hole?
      ensures t[i].token in PassOrder
    {
      match t[i].token
      case Title => assert PassOrder[0] == Title;
      case SiteTitle => assert PassOrder[1] == SiteTitle;
      case ImageUrl => assert PassOrder[2] == ImageUrl;
      case Aspect => assert PassOrder[3] == Aspect;
      case GraphArea => assert PassOrder[4] == GraphArea;
      case Descriptions => assert PassOrder[5] == Descriptions;
      case Coords => assert PassOrder[6] == Coords;
    }
  }

  /** When the template's literal text and the values hold no `{`, the page
      is the template with every placeholder filled: the project title
      appears both in `<title>` and in the headline, the image link in the
      image's `src`, and the aspect ratio and the three lists in their
      hidden data elements. */
  lemma ExportPlacesValues(t: seq<Piece>, m: Markup, p: Project, show: real -> string)
    requires IndexShaped(t, m) && PlainPieces(t) && ValuesPlain(p, show)
    ensures Export(t, p, show) == Render(Fill(t, p, show))
    ensures Contains(Export(t, p, show), "<title>" + p.title + "</title>")
    ensures Contains(Export(t, p, show), m.headlineOpen + p.title)
    ensures Contains(Export(t, p, show), "src=\"" + p.image + "\"")
    ensures Contains(Export(t, p, show), DataDiv("aspect") + show(p.aspect) + "</div>")
    ensures Contains(Export(t, p, show), DataDiv("titles") + FeatureList(p.slides) + "</div>")
    ensures Contains(Export(t, p, show), DataDiv("descs") + DescriptionList(p.slides) + "</div>")
    ensures Contains(Export(t, p, show), DataDiv("coords") + CoordList(p.slides, show) + "</div>")
  {
    EveryTokenPassed(t);
    PassesFillTemplate(t, PassOrder, p, show);
    FilledPlacesScalars(t, m, p, show);
    FilledPlacesLists(t, m, p, show);
  }

  /** The filled template shows the title, the image link and the aspect
      ratio between the markup around their placeholders. */
  lemma FilledPlacesScalars(t: seq<Piece>, m: Markup, p: Project, show: real -> string)
    requires IndexShaped(t, m)
    ensures Contains(Render(Fill(t, p, show)), "<title>" + p.title + "</title>")
    ensures Contains(Render(Fill(t, p, show)), m.headlineOpen + p.title)
    ensures Contains(Render(Fill(t, p, show)), "src=\"" + p.image + "\"")
    ensures Contains(Render(Fill(t, p, show)), DataDiv("aspect") + show(p.aspect) + "</div>")
  {
    PlacedTriple(t, 2, "<title>", SiteTitle, "</title>", p, show);
    PlacedPair(t, 10, m.headlineOpen, Title, p, show);
    PlacedTriple(t, 6, "src=\"", ImageUrl, "\"", p, show);
    PlacedTriple(t, 13, DataDiv("aspect"), Aspect, "</div>", p, show);
  }

  /** The filled template shows the three lists inside their hidden data
      elements. */
  lemma FilledPlacesLists(t: seq<Piece>, m: Markup, p: Project, show: real -> string)
    requires IndexShaped(t, m)
    ensures Contains(Render(Fill(t, p, show)), DataDiv("titles") + FeatureList(p.slides) + "</div>")
    ensures Contains(Render(Fill(t, p, show)), DataDiv("descs") + DescriptionList(p.slides) + "</div>")
    ensures Contains(Render(Fill(t, p, show)), DataDiv("coords") + CoordList(p.slides, show) + "</div>")
  {
    PlacedTriple(t, 17, DataDiv("titles"), GraphArea, "</div>", p, show);
    assert TokenValue(GraphArea, p, show) == FeatureList(p.slides);
    PlacedTriple(t, 21, DataDiv("descs"), Descriptions, "</div>", p, show);
    assert TokenValue(Descriptions, p, show) == DescriptionList(p.slides);
    PlacedTriple(t, 25, DataDiv("coords"), Coords, "</div>", p, show);
    assert TokenValue(Coords, p, show) == CoordList(p.slides, show);
  }

  lemma PlacedPair(t: seq<Piece>, i: nat, a: string, u: Token, p: Project, show: real -> string)
    requires i + 2 <= |t| && t[i] == Text(a) && t[i + 1] == Hole(u)
    ensures Contains(Render(Fill(t, p, show)), a + TokenValue(u, p, show))
  {
    assert t[i..i + 2] == [Text(a), Hole(u)];
    FilledRunAppears(t, i, t[i..i + 2], p, show);
    FilledPair(a, u, p, show);
  }

  lemma PlacedTriple(t: seq<Piece>, i: nat, a: string, u: Token, b: string, p: Project, show: real -> string)
    requires i + 3 <= |t| && t[i] == Text(a) && t[i + 1] == Hole(u) && t[i + 2] == Text(b)
    ensures Contains(Render(Fill(t, p, show)), a + TokenValue(u, p, show) + b)
  {
    assert t[i..i + 3] == [Text(a), Hole(u), Text(b)];
    FilledRunAppears(t, i, t[i..i + 3], p, show);
    FilledTriple(a, u, b, p, show);
  }

  lemma {:induction false} ApplyPassesKeepsHead(s: string, ts: seq<Token>, p: Project, show: real -> string)
    requires |s| > 0 && s[0] != '{'
    ensures |ApplyPasses(s, ts, p, show)| > 0 && ApplyPasses(s, ts, p, show)[0] == s[0]
    decreases |ts|
  {
    if |ts| > 0 {
      TokenShape(ts[0]);
      var s' := ReplaceAll(s, TokenText(ts[0]), TokenValue(ts[0], p, show));
      ReplaceAllKeepsHead(s, TokenText(ts[0]), TokenValue(ts[0], p, show));
      ApplyPassesKeepsHead(s', ts[1..], p, show);
    }
  }

  /** A page exported from a template that opens with `<html>` starts with
      `<` whatever the values, so it is never empty. */
  lemma ExportStartsWithTag(t: seq<Piece>, p: Project, show: real -> string)
    requires |t| > 0 && t[0] == Text("<html>")
    ensures |Export(t, p, show)| > 0 && Export(t, p, show)[0] == '<'
  {
    assert Render(t) == "<html>" + Render(t[1..]);
    ApplyPassesKeepsHead(Render(t), PassOrder, p, show);
  }

  // ---------------------------------------------------------------------
  // properties of the lists

  /** No slide field holds `|`, and no number is shown with one. */
  ghost predicate Separable(slides: seq<Slide>, show: real -> string)
  {
    && (forall x: real :: '|' !in show(x))
    && (forall k :: 0 <= k < |slides| ==> '|' !in slides[k].data.graphicalFeature)
    && (forall k :: 0 <= k < |slides| && slides[k].data.description.Some? ==>
          '|' !in slides[k].data.description.value)
  }

  lemma CoordEntryAvoidsPipe(sel: Selection, show: real -> string)
    requires forall x: real :: '|' !in show(x)
    ensures '|' !in CoordEntry(sel, show)
  {
    var f := CornerFields(sel, show);
    assert forall j :: 0 <= j < 4 ==> '|' !in f[j];
  }

  /** Each list joins one entry per slide in slide order, with `||` between
      entries and none after the last: for n >= 1 slides it holds exactly
      n - 1 separators, and splitting it on `||` gives back the n entries
      (the feature label; the description, or a single space when it is
      missing or empty; the coordinate entry). */
  lemma ListsSplitBack(slides: seq<Slide>, show: real -> string)
    requires |slides| > 0 && Separable(slides, show)
    ensures Split(FeatureList(slides), ListSeparator) == Features(slides)
    ensures Split(DescriptionList(slides), ListSeparator) == DescriptionTexts(slides)
    ensures Split(CoordList(slides, show), ListSeparator) == CoordEntries(slides, show)
    ensures forall k :: 0 <= k < |slides| ==>
      && Features(slides)[k] == slides[k].data.graphicalFeature
      && DescriptionTexts(slides)[k] ==
           (if slides[k].data.description.Some? && slides[k].data.description.value != ""
            then slides[k].data.description.value else " ")
      && CoordEntries(slides, show)[k] == CoordEntry(slides[k].selection, show)
    ensures Count(FeatureList(slides), ListSeparator) == |slides| - 1
    ensures Count(DescriptionList(slides), ListSeparator) == |slides| - 1
    ensures Count(CoordList(slides, show), ListSeparator) == |slides| - 1
  {
    assert AvoidsSeparator(Features(slides), ListSeparator);
    assert AvoidsSeparator(DescriptionTexts(slides), ListSeparator) by {
      forall k | 0 <= k < |slides|
        ensures '|' !in DescriptionTexts(slides)[k]
      {
        var d := slides[k].data.description;
        if !(d.Some? && d.value != "") {
          assert DescriptionTexts(slides)[k] == [' '];
        }
      }
    }
    assert AvoidsSeparator(CoordEntries(slides, show), ListSeparator) by {
      forall k | 0 <= k < |slides|
        ensures '|' !in CoordEntries(slides, show)[k]
      {
        CoordEntryAvoidsPipe(slides[k].selection, show);
      }
    }
    SplitJoin(Features(slides), ListSeparator);
    SplitJoin(DescriptionTexts(slides), ListSeparator);
    SplitJoin(CoordEntries(slides, show), ListSeparator);
    JoinCount(Features(slides), ListSeparator);
    JoinCount(DescriptionTexts(slides), ListSeparator);
    JoinCount(CoordEntries(slides, show), ListSeparator);
  }

  /** A coordinate entry splits on `,` into the selection's four fields in
      stored order: start x, start y, end x, end y, never sorted, so the
      swapped corners of a backwards drag survive export. */
  lemma CoordEntrySplitsBack(sel: Selection, show: real -> string)
    requires forall x: real :: ',' !in show(x)
    ensures Split(CoordEntry(sel, show), ",") == CornerFields(sel, show)
    ensures sel.Corners? ==>
      Split(CoordEntry(sel, show), ",") == [show(sel.startX), show(sel.startY), show(sel.endX), show(sel.endY)]
  {
    var f := CornerFields(sel, show);
    if sel.Box? {
      assert ',' !in "undefined";
    }
    assert AvoidsSeparator(f, ",");
    FourFieldsSplit(f);
  }

  /** Four comma-free fields joined by commas split back into themselves. */
  lemma FourFieldsSplit(f: seq<string>)
    requires |f| == 4 && AvoidsSeparator(f, ",")
    ensures Split(f[0] + "," + f[1] + "," + f[2] + "," + f[3], ",") == f
  {
    assert Join(f[3..], ",") == f[3];
    assert f[2..][1..] == f[3..];
    assert Join(f[2..], ",") == f[2] + "," + f[3];
    assert f[1..][1..] == f[2..];
    assert Join(f[1..], ",") == f[1] + "," + f[2] + "," + f[3];
    assert Join(f, ",") == f[0] + "," + f[1] + "," + f[2] + "," + f[3];
    SplitJoin(f, ",");
  }

  /** The slides picked, in order, by an index map (a reordering when the
      map is a permutation). */
  function Reordered<T>(xs: seq<T>, order: seq<int>): (r: seq<T>)
    requires forall i :: 0 <= i < |order| ==> 0 <= order[i] < |xs|
    ensures |r| == |order|
  {
    seq(|order|, i requires 0 <= i < |order| => xs[order[i]])
  }

  /** Reordering the slides reorders the exported lists' entries the same
      way, without changing any entry or their number. */
  lemma ReorderReordersLists(slides: seq<Slide>, order: seq<int>, show: real -> string)
    requires forall i :: 0 <= i < |order| ==> 0 <= order[i] < |slides|
    requires |order| > 0 && Separable(slides, show)
    ensures Split(FeatureList(Reordered(slides, order)), ListSeparator) == Reordered(Features(slides), order)
    ensures Split(DescriptionList(Reordered(slides, order)), ListSeparator) == Reordered(DescriptionTexts(slides), order)
    ensures Split(CoordList(Reordered(slides, order), show), ListSeparator) == Reordered(CoordEntries(slides, show), order)
  {
    var moved := Reordered(slides, order);
    ReorderedSeparable(slides, order, show);
    ListsSplitBack(moved, show);
    ReorderedEntries(slides, order, show);
  }

  lemma ReorderedSeparable(slides: seq<Slide>, order: seq<int>, show: real -> string)
    requires forall i :: 0 <= i < |order| ==> 0 <= order[i] < |slides|
    requires Separable(slides, show)
    ensures Separable(Reordered(slides, order), show)
  {
    var moved := Reordered(slides, order);
    forall k | 0 <= k < |moved|
      ensures moved[k] == slides[order[k]]
    {
    }
  }

  lemma ReorderedEntries(slides: seq<Slide>, order: seq<int>, show: real -> string)
    requires forall i :: 0 <= i < |order| ==> 0 <= order[i] < |slides|
    ensures Features(Reordered(slides, order)) == Reordered(Features(slides), order)
    ensures DescriptionTexts(Reordered(slides, order)) == Reordered(DescriptionTexts(slides), order)
    ensures CoordEntries(Reordered(slides, order), show) == Reordered(CoordEntries(slides, show), order)
  {
  }

  /** Keeping `||` out of every field is not enough for the round trip: a
      label ending in `|` moves that `|` into the next entry. */
  lemma PipeInLabelBreaksRoundTrip()
    ensures Join(["a|", "b"], ListSeparator) == "a|||b"
    ensures Split("a|||b", ListSeparator) == ["a", "|b"]
  {
    var xs := ["a|", "b"];
    assert xs[1..] == ["b"];
    assert Join(xs, ListSeparator) == "a|" + "||" + "b";
    assert "a|" + "||" + "b" == "a|||b";
    assert Split("|b", ListSeparator) == ["|b"] by {
      assert Split("b", ListSeparator) == ["b"];
      assert "|b"[..2][1] == 'b' != ListSeparator[1];
      assert "|b"[1..] == "b";
      assert ['|'] + "b" == "|b";
    }
    assert Split("|||b", ListSeparator) == ["", "|b"] by {
      assert "|||b"[..2] == ListSeparator;
      assert "|||b"[2..] == "|b";
    }
    var rest := Split("|||b", ListSeparator);
    assert "a|||b"[..2][0] == 'a' != ListSeparator[0];
    assert "a|||b"[1..] == "|||b";
    assert Split("a|||b", ListSeparator) == [['a'] + rest[0]] + rest[1..];
    assert ['a'] + rest[0] == "a" && rest[1..] == ["|b"];
  }
}
