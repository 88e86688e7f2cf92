/** The prompt builder (`ThemeCategorizationPrompt` in prompt_engineer.py):
    a fixed instruction template around the theme vocabulary and the review. */
module PromptEngineer {
  import opened Text

  /** A Python list of theme names: a mutable object that several holders
      may share. */
  class ThemeList {
    var items: seq<string>

    constructor (items: seq<string>)
      ensures this.items == items
    {
      this.items := items;
    }
  }

  /** The fixed text of the prompt around its two slots: the text before
      the vocabulary, the text between the vocabulary and the review (the end
      of the vocabulary sentence, the instructions and the review header),
      and the text after the review (the expected response shape). */
  datatype Template = Template(preamble: string, middle: string, tail: string)

  /** The template `create_prompt` writes out. */
  const PromptTemplate: Template := Template(
@"You are analyzing a patient review to identify key themes or areas discussed in the text. Key themes are specific topics, concerns, or aspects of the healthcare experience that the patient mentions or talks about in their review.

Analyze the following patient review and identify all key themes from this list: ",
".\n\n" + @"Instructions:
- Identify themes that represent topics, concerns, or areas explicitly mentioned or discussed in the review
- A single review may contain multiple themes
- Match themes based on the content and context of what the patient is describing
- If no theme from the list matches the content, use 'unknown'
- For each identified theme, provide a brief description explaining why this theme applies

Patient Review:
",
@"

Respond with a JSON object containing a list of identified themes in the format below:
{
  ""themes"": [
    {
      ""theme"": """",
      ""description"": """"
    }
  ]
}")

  /** Everything of the prompt before the review slot. */
  function Head(t: Template, themes: seq<string>): string
  {
    t.preamble + Join(", ", themes) + t.middle
  }

  /** The prompt text for a theme vocabulary and a review: the source's
      concatenation, grouped around the review slot. */
  function Fill(t: Template, themes: seq<string>, review: string): string
  {
    Head(t, themes) + review + t.tail
  }

  /** Equal texts with the same prefix and suffix around one slot have the
      same slot. */
  lemma CancelAround(p: string, x: string, y: string, q: string)
    requires p + x + q == p + y + q
    ensures x == y
  {
    assert |x| == |y|;
    assert x == (p + x + q)[|p|..|p| + |x|];
    assert y == (p + y + q)[|p|..|p| + |y|];
  }

  /** Two prompts for the same vocabulary are equal exactly when the reviews
      are: they differ in the review slot and nowhere else. */
  lemma SameThemesDifferOnlyInReview(t: Template, themes: seq<string>, r1: string, r2: string)
    ensures Fill(t, themes, r1) == Fill(t, themes, r2) <==> r1 == r2
  {
    if Fill(t, themes, r1) == Fill(t, themes, r2) {
      CancelAround(Head(t, themes), r1, r2, t.tail);
    }
  }

  /** For the same review, two prompts are equal exactly when the two
      vocabularies join to the same text. */
  lemma SameReviewDiffersOnlyInThemes(t: Template, t1: seq<string>, t2: seq<string>, review: string)
    ensures Fill(t, t1, review) == Fill(t, t2, review) <==> Join(", ", t1) == Join(", ", t2)
  {
    var j1, j2, rest := Join(", ", t1), Join(", ", t2), t.middle + review + t.tail;
    if Fill(t, t1, review) == Fill(t, t2, review) {
      assert Fill(t, t1, review) == t.preamble + j1 + rest;
      assert Fill(t, t2, review) == t.preamble + j2 + rest;
      CancelAround(t.preamble, j1, j2, rest);
    }
  }

  /** In the prompt the source builds, the vocabulary line follows "from
      this list: " and lists the themes in order, separated by ", ", with no
      separator after the last; it ends with "." and the blank line before
      the instructions. */
  lemma ThemesLine(themes: seq<string>, t: string)
    ensures var p, m := PromptTemplate.preamble, PromptTemplate.middle;
      Head(PromptTemplate, themes + [t]) ==
        p + (if themes == [] then t else Join(", ", themes) + ", " + t) + m &&
      |p| >= 11 && p[|p| - 11..] == "this list: " &&
      |m| >= 3 && m[..3] == ".\n\n"
  {
    JoinSnoc(", ", themes, t);
  }

  /** The prompt builder holds the vocabulary list and, as a constant, the
      template it fills in. */
  class ThemeCategorizationPrompt {
    const themes: ThemeList
    const template: Template

    /** `themes or KEY_THEMES`: `None` (null) and an empty list both fall
        back to the module's default list object; any other list object is
        kept as given, not copied. */
    constructor (themes: ThemeList?, keyThemes: ThemeList)
      ensures themes == null || themes.items == [] ==> this.themes == keyThemes
      ensures themes != null && themes.items != [] ==> this.themes == themes
      ensures template == PromptTemplate
    {
      this.themes := if themes == null || themes.items == [] then keyThemes else themes;
      template := PromptTemplate;
    }

    /** `create_prompt`: reads the stored list and changes nothing. The
        prompt starts with the template's preamble and the vocabulary joined
        by ", ", carries the review verbatim in its slot, and ends with the
        template's tail. */
    function CreatePrompt(review: string): (prompt: string)
      reads this, themes
      ensures var h := Head(template, themes.items);
              |prompt| == |h| + |review| + |template.tail| &&
              prompt[..|h|] == h &&
              prompt[|h|..|h| + |review|] == review &&
              prompt[|h| + |review|..] == template.tail
      ensures prompt[..|template.preamble|] == template.preamble
    {
      Fill(template, themes.items, review)
    }

    /** `get_themes`: a new list object with the same items, so a caller that
        changes it does not change the stored list. */
    method GetThemes() returns (copy: ThemeList)
      ensures fresh(copy)
      ensures copy.items == themes.items
    {
      copy := new ThemeList(themes.items);
    }
  }

  /** A caller that mutates the list returned by `GetThemes` leaves the
      builder's vocabulary, and so its prompts, as they were. */
  method MutatingCopyKeepsVocabulary(p: ThemeCategorizationPrompt, extra: string, review: string)
    returns (before: string, after: string)
    ensures before == after
  {
    before := p.CreatePrompt(review);
    var copy := p.GetThemes();
    copy.items := copy.items + [extra];
    after := p.CreatePrompt(review);
  }
}
