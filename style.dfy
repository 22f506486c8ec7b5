/**
 * The stylesheet source written at startup (app.ts:19, app.ts:25-41): a
 * template literal holding an `@import` of the user's colour file, a fixed
 * reset rule, and the five widget stylesheets inlined at build time. The
 * stylesheets are opaque text here; the document is modelled byte for byte,
 * as the template's pieces ("sections") with the template's own whitespace
 * ("gaps") between them.
 */
module Style {

  /** The inlined stylesheets: misc.scss, bar.scss, panel.scss, notif.scss, launcher.scss. */
  datatype Fragments = Fragments(misc: string, bar: string, panel: string, notif: string, launcher: string)

  /** `${HOME}/.config/ags_res/colors.scss`; HOME is taken as a parameter. */
  function ColorsPath(home: string): string {
    home + "/.config/ags_res/colors.scss"
  }

  /** `@import "<colors>";` */
  function ImportRule(colors: string): string {
    "@import \"" + colors + "\";"
  }

  /**
   * Clears every inherited property on every element, then gives every
   * element except icons the Rubik font at 13px.
   */
  const ResetRule: string :=
    "* {\n    all: unset;\n    &:not(icon) {\n      font-family: \"Rubik\";\n      font-size: 13px;\n    }\n  }"

  /** The template's non-blank pieces in the order the template lists them. */
  function Sections(colors: string, f: Fragments): seq<string> {
    [ImportRule(colors), ResetRule, f.misc, f.bar, f.panel, f.notif, f.launcher]
  }

  /** The template's whitespace: before, between and after the sections. */
  const Gaps: seq<string> := ["\n  ", "\n\n  ", "\n\n  ", "\n  ", "\n  ", "\n  ", "\n  ", "\n"]

  /** `gaps[0] + sections[0] + gaps[1] + ... + sections[n-1] + gaps[n]`. */
  function Weave(gaps: seq<string>, sections: seq<string>): string
    requires |gaps| == |sections| + 1
  {
    if |sections| == 0 then gaps[0]
    else gaps[0] + sections[0] + Weave(gaps[1..], sections[1..])
  }

  /** Where `sections[k]` begins in `Weave(gaps, sections)`. */
  function Start(gaps: seq<string>, sections: seq<string>, k: nat): nat
    requires |gaps| == |sections| + 1 && k < |sections|
  {
    |gaps[0]| + if k == 0 then 0 else |sections[0]| + Start(gaps[1..], sections[1..], k - 1)
  }

  /** `piece` occurs in `doc` at index `i`. */
  predicate At(doc: string, piece: string, i: nat) {
    i + |piece| <= |doc| && doc[i..i + |piece|] == piece
  }

  lemma AtPrefix(prefix: string, doc: string, piece: string, i: nat)
    requires At(doc, piece, i)
    ensures At(prefix + doc, piece, |prefix| + i)
  {
  }

  lemma AtFront(a: string, b: string)
    ensures At(a + b, a, 0)
  {
  }

  /** A woven text opens with its first gap. */
  lemma WeaveFront(gaps: seq<string>, sections: seq<string>)
    requires |gaps| == |sections| + 1
    ensures At(Weave(gaps, sections), gaps[0], 0)
  {
  }

  /** In a woven text each section sits at its start and is followed by the next gap. */
  lemma {:induction false} WeaveSection(gaps: seq<string>, sections: seq<string>, k: nat)
    requires |gaps| == |sections| + 1 && k < |sections|
    ensures At(Weave(gaps, sections), sections[k], Start(gaps, sections, k))
    ensures At(Weave(gaps, sections), gaps[k + 1], Start(gaps, sections, k) + |sections[k]|)
    decreases |sections|
  {
    var rest := Weave(gaps[1..], sections[1..]);
    var head := gaps[0] + sections[0];
    if k == 0 {
      AtFront(sections[0], rest);
      AtPrefix(gaps[0], sections[0] + rest, sections[0], 0);
      WeaveFront(gaps[1..], sections[1..]);
      AtPrefix(head, rest, gaps[1], 0);
    } else {
      WeaveSection(gaps[1..], sections[1..], k - 1);
      AtPrefix(head, rest, sections[k], Start(gaps[1..], sections[1..], k - 1));
      AtPrefix(head, rest, gaps[k + 1], Start(gaps[1..], sections[1..], k - 1) + |sections[k]|);
    }
  }

  /** The next section begins right after the gap that follows this one. */
  lemma {:induction false} StartNext(gaps: seq<string>, sections: seq<string>, k: nat)
    requires |gaps| == |sections| + 1 && k + 1 < |sections|
    ensures Start(gaps, sections, k + 1) == Start(gaps, sections, k) + |sections[k]| + |gaps[k + 1]|
    decreases |sections|
  {
    if k > 0 {
      StartNext(gaps[1..], sections[1..], k - 1);
    }
  }

  /** The gap after the last section runs to the end of the text. */
  lemma {:induction false} WeaveEnd(gaps: seq<string>, sections: seq<string>)
    requires |gaps| == |sections| + 1 && |sections| > 0
    ensures var k := |sections| - 1;
      Start(gaps, sections, k) + |sections[k]| + |gaps[k + 1]| == |Weave(gaps, sections)|
    decreases |sections|
  {
    if |sections| > 1 {
      WeaveEnd(gaps[1..], sections[1..]);
    }
  }

  /** The document that app.ts writes to the scratch file, for colour file `colors`. */
  function Assemble(colors: string, f: Fragments): string {
    Weave(Gaps, Sections(colors, f))
  }

  /** Spaces and line breaks only. */
  predicate Blank(s: string) {
    forall i :: 0 <= i < |s| ==> s[i] == ' ' || s[i] == '\n'
  }

  lemma GapsBlank()
    ensures forall j :: 0 <= j < |Gaps| ==> |Gaps[j]| > 0 && Blank(Gaps[j])
  {
  }

  /** Where section `k` (0 import, 1 reset, 2 misc, 3 bar, 4 panel, 5 notif, 6 launcher) begins. */
  function SectionStart(colors: string, f: Fragments, k: nat): nat
    requires k < 7
  {
    Start(Gaps, Sections(colors, f), k)
  }

  /**
   * The assembled document is the import of the colour file, the reset rule
   * and the misc, bar, panel, notif and launcher stylesheets, each in full,
   * in that order, without overlap, with nothing but spaces and line breaks
   * before, between and after them.
   */
  lemma AssembleLayout(colors: string, f: Fragments)
    ensures var doc, s := Assemble(colors, f), Sections(colors, f);
      && Blank(doc[..SectionStart(colors, f, 0)])
      && (forall k :: 0 <= k < 7 ==> At(doc, s[k], SectionStart(colors, f, k)))
      && (forall k :: 0 <= k < 6 ==>
            && SectionStart(colors, f, k) + |s[k]| < SectionStart(colors, f, k + 1)
            && Blank(doc[SectionStart(colors, f, k) + |s[k]|..SectionStart(colors, f, k + 1)]))
      && SectionStart(colors, f, 6) + |s[6]| < |doc|
      && Blank(doc[SectionStart(colors, f, 6) + |s[6]|..])
  {
    var doc, s := Assemble(colors, f), Sections(colors, f);
    GapsBlank();
    WeaveFront(Gaps, s);
    forall k | 0 <= k < 7
      ensures At(doc, s[k], SectionStart(colors, f, k))
    {
      WeaveSection(Gaps, s, k);
    }
    forall k | 0 <= k < 6
      ensures SectionStart(colors, f, k) + |s[k]| < SectionStart(colors, f, k + 1)
      ensures Blank(doc[SectionStart(colors, f, k) + |s[k]|..SectionStart(colors, f, k + 1)])
    {
      WeaveSection(Gaps, s, k);
      StartNext(Gaps, s, k);
      var e := SectionStart(colors, f, k) + |s[k]|;
      assert doc[e..SectionStart(colors, f, k + 1)] == Gaps[k + 1];
    }
    WeaveSection(Gaps, s, 6);
    WeaveEnd(Gaps, s);
    var e := SectionStart(colors, f, 6) + |s[6]|;
    assert doc[e..] == Gaps[7];
  }

  /** The document begins, after a line break and indentation, with the import of the colour file. */
  lemma AssembleStartsWithImport(colors: string, f: Fragments)
    ensures Assemble(colors, f)[..3 + |ImportRule(colors)|] == "\n  " + ImportRule(colors)
  {
  }

  /** For the same stylesheets, the document names the colour file it was built with. */
  lemma AssembleDeterminesColors(c1: string, c2: string, f: Fragments)
    requires Assemble(c1, f) == Assemble(c2, f)
    ensures c1 == c2
  {
    AssembleLayout(c1, f);
    AssembleLayout(c2, f);
    WeaveEnd(Gaps, Sections(c1, f));
    WeaveEnd(Gaps, Sections(c2, f));
    assert c1 == ImportRule(c1)[9..9 + |c1|];
  }
}
