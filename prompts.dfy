/** The layout shared by all five generated prompts: an opening paragraph followed by
    sections, each rendered as a blank line, a `## TITLE` line and its body lines. The
    prompt text is those lines joined with newlines, which is exactly the multi-line
    template literal of the source. */
module Prompts {
  import opened Strings

  datatype Section = Section(title: string, body: seq<string>)

  datatype Prompt = Prompt(intro: seq<string>, sections: seq<Section>)

  function SectionLines(sections: seq<Section>): seq<string>
  {
    if |sections| == 0 then []
    else ["", "## " + sections[0].title] + sections[0].body + SectionLines(sections[1..])
  }

  function Lines(p: Prompt): seq<string>
  {
    p.intro + SectionLines(p.sections)
  }

  function Render(p: Prompt): string
  {
    Join(Lines(p), "\n")
  }

  function Titles(sections: seq<Section>): (r: seq<string>)
    ensures |r| == |sections|
    ensures forall i :: 0 <= i < |sections| ==> r[i] == sections[i].title
  {
    if |sections| == 0 then [] else [sections[0].title] + Titles(sections[1..])
  }

  /** Line index, within the section lines, of the title line of section `i`. */
  function TitleLine(sections: seq<Section>, i: nat): nat
    requires i < |sections|
  {
    if i == 0 then 1 else 2 + |sections[0].body| + TitleLine(sections[1..], i - 1)
  }

  /** The title of section `i` is on line `TitleLine(sections, i)`, its body right after it,
      and the title lines come in section order. */
  lemma {:induction false} TitleLineAt(sections: seq<Section>, i: nat)
    requires i < |sections|
    ensures TitleLine(sections, i) + |sections[i].body| < |SectionLines(sections)|
    ensures SectionLines(sections)[TitleLine(sections, i)] == "## " + sections[i].title
    ensures forall j :: 0 <= j < |sections[i].body| ==>
              SectionLines(sections)[TitleLine(sections, i) + 1 + j] == sections[i].body[j]
    ensures i + 1 < |sections| ==> TitleLine(sections, i) < TitleLine(sections, i + 1)
  {
    var head := ["", "## " + sections[0].title] + sections[0].body;
    assert SectionLines(sections) == head + SectionLines(sections[1..]);
    if i > 0 {
      TitleLineAt(sections[1..], i - 1);
    }
    if i + 1 < |sections| {
      if i > 0 {
        TitleLineAt(sections[1..], i);
      }
    }
  }

  /** Every title line and every body line of every section occurs in the rendered text. */
  lemma RenderContainsSection(p: Prompt, i: nat, j: nat)
    requires i < |p.sections|
    ensures Contains(Render(p), "## " + p.sections[i].title)
    ensures j < |p.sections[i].body| ==> Contains(Render(p), p.sections[i].body[j])
  {
    TitleLineAt(p.sections, i);
    var at := |p.intro| + TitleLine(p.sections, i);
    assert Lines(p)[at] == "## " + p.sections[i].title;
    JoinContainsPart(Lines(p), "\n", at);
    if j < |p.sections[i].body| {
      assert Lines(p)[at + 1 + j] == p.sections[i].body[j];
      JoinContainsPart(Lines(p), "\n", at + 1 + j);
    }
  }

  /** Every section title line occurs in the rendered text. */
  lemma RenderContainsTitles(p: Prompt)
    ensures forall i :: 0 <= i < |p.sections| ==> Contains(Render(p), "## " + p.sections[i].title)
  {
    forall i | 0 <= i < |p.sections| ensures Contains(Render(p), "## " + p.sections[i].title) {
      RenderContainsSection(p, i, 0);
    }
  }

  /** A bullet block in a section body puts each of its bullets into the rendered text. */
  lemma RenderContainsBullets(p: Prompt, i: nat, j: nat, items: seq<string>)
    requires i < |p.sections| && j < |p.sections[i].body| && p.sections[i].body[j] == BulletBlock(items)
    ensures forall k :: 0 <= k < |items| ==> Contains(Render(p), "- " + items[k])
  {
    RenderContainsSection(p, i, j);
    forall k | 0 <= k < |items| ensures Contains(Render(p), "- " + items[k]) {
      JoinContainsPart(Bullets(items), "\n", k);
      ContainsTrans(Render(p), BulletBlock(items), "- " + items[k]);
    }
  }
}
