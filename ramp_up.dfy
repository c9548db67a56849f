/** The ramp-up metric: how easy a repository is to start with, judged by
    its README.md: whether there is one, whether it is long, and whether
    it links to documentation. */
module RampUpMetric {
  import opened Results
  import opened JsText
  import opened MetricBase

  /** A README counts only when it was fetched and is not empty: the
      source tests the content for truthiness. */
  predicate Present(readme: Option<string>)
  {
    readme.Some? && |readme.value| > 0
  }

  /** `/https?:\/\/[^\s]+/.test(text)`: `http://` or `https://` followed by
      at least one character that is not whitespace. */
  predicate HasLink(text: string)
  {
    exists i :: 0 <= i < |text| && LinkAt(text, i)
  }

  predicate LinkAt(text: string, i: int)
  {
    || (OccursAt(text, "http://", i) && i + 7 < |text| && !IsWhitespace(text[i + 7]))
    || (OccursAt(text, "https://", i) && i + 8 < |text| && !IsWhitespace(text[i + 8]))
  }

  /** `checkDocumentationLink`: no README, no link. */
  function CheckDocumentationLink(readme: Option<string>): (b: bool)
    ensures b <==> Present(readme) && HasLink(readme.value)
  {
    if !Present(readme) then false else HasLink(readme.value)
  }

  /** `readmeContent.split('\n').length`. */
  function LineCount(text: string): (n: nat)
    ensures n == CountChar(text, '\n') + 1
  {
    SplitCharCount(text, '\n');
    |Split(text, "\n")|
  }

  /** The ramp-up score as a table: nothing without a README; otherwise 0.5
      for a README of at least 50 lines and 0.1 for a shorter one, and 0.5
      more when it has a link. */
  function RampUpScore(readme: Option<string>, hasLink: bool): real
  {
    if !Present(readme) then 0.0
    else (if LineCount(readme.value) < 50 then 0.1 else 0.5) + (if hasLink then 0.5 else 0.0)
  }

  /** `calculateRampUpScore`: the score is built step by step and then
      clamped at 0. */
  method CalculateRampUpScore(readme: Option<string>, hasLink: bool) returns (score: real)
    ensures score == RampUpScore(readme, hasLink)
    ensures 0.0 <= score <= 1.0
  {
    score := 0.0;
    if Present(readme) {
      var lineCount := |Split(readme.value, "\n")|;
      score := score + 0.5;
      if lineCount < 50 {
        score := score - 0.4;
      }
      if hasLink {
        score := score + 0.5;
      }
    }
    score := if 0.0 > score then 0.0 else score;
  }

  /** The five values the score can take, and its range. */
  lemma RampUpScoreValues(readme: Option<string>, hasLink: bool)
    ensures RampUpScore(readme, hasLink) in {0.0, 0.1, 0.5, 0.6, 1.0}
    ensures 0.0 <= RampUpScore(readme, hasLink) <= 1.0
    ensures !Present(readme) ==> RampUpScore(readme, hasLink) == 0.0
    ensures Present(readme) ==> RampUpScore(readme, hasLink) >= 0.1
  {
  }

  /** `fetchReadmeContent`: a failed fetch is an absent README, not an
      error. The base64 decoding is not part of this model. */
  function FetchReadme(fetched: Result<string>): (r: Option<string>)
    ensures fetched.Err? ==> r == None
    ensures fetched.Ok? ==> r == Some(fetched.value)
  {
    if fetched.Err? then None else Some(fetched.value)
  }

  /** A README that could not be fetched scores 0. */
  lemma FailedFetchScoresZero(fetched: Result<string>)
    requires fetched.Err?
    ensures var readme := FetchReadme(fetched);
      RampUpScore(readme, CheckDocumentationLink(readme)) == 0.0
  {
  }

  /** A README of fewer than 50 lines scores 0.6 with a link and 0.1
      without one. */
  lemma ShortReadme(text: string)
    requires |text| > 0 && CountChar(text, '\n') < 49
    ensures var readme := Some(text);
      RampUpScore(readme, CheckDocumentationLink(readme)) == if HasLink(text) then 0.6 else 0.1
  {
  }

  /** The seven-line README with a documentation link. */
  const DocsLines: seq<string> :=
    ["# Project", "## Installation", "Install instructions here", "## Usage",
     "Usage examples", "## Documentation", "https://" + "docs.example.com"]

  lemma DocsLineCount()
    ensures LineCount(Join(DocsLines, "\n")) == 7
  {
    JoinSplitChar(DocsLines, '\n');
  }

  lemma DocsHasLink()
    ensures HasLink(Join(DocsLines, "\n"))
  {
    var text := Join(DocsLines, "\n");
    assert DocsLines == DocsLines[..6] + ["https://" + "docs.example.com"];
    JoinSnoc(DocsLines[..6], "\n", "https://" + "docs.example.com");
    var prefix := Join(DocsLines[..6], "\n") + "\n";
    assert text == prefix + "https://" + "docs.example.com";
    OccursInMiddle(prefix, "https://", "docs.example.com");
    assert LinkAt(text, |prefix|);
  }

  /** Seven lines with a link score 0.6. */
  lemma DocsReadmeExample()
    ensures var readme := Some(Join(DocsLines, "\n"));
      RampUpScore(readme, CheckDocumentationLink(readme)) == 0.6
  {
    DocsLineCount();
    DocsHasLink();
  }

  /** Both link prefixes have a `:` after `http` or `https`, so a text
      without a colon has no link. */
  lemma NoLinkWithoutColon(text: string)
    requires ':' !in text
    ensures !HasLink(text)
  {
    forall i | 0 <= i < |text| ensures !LinkAt(text, i) {
      if i + 4 < |text| {
        assert text[i + 4] != "http://"[4];
        Mismatch(text, "http://", i, 4);
      }
      if i + 5 < |text| {
        assert text[i + 5] != "https://"[5];
        Mismatch(text, "https://", i, 5);
      }
    }
  }

  /** The three-line README with installation notes and no link. */
  const PlainLines: seq<string> := ["# Project", "## Installation", "Install instructions here"]

  lemma PlainLineCount()
    ensures LineCount(Join(PlainLines, "\n")) == 3
  {
    JoinSplitChar(PlainLines, '\n');
  }

  lemma PlainHasNoLink()
    ensures !HasLink(Join(PlainLines, "\n"))
  {
    var text := Join(PlainLines, "\n");
    assert text == "# Project" + "\n" + ("## Installation" + "\n" + "Install instructions here");
    NoLinkWithoutColon(text);
  }

  /** Three lines without a link score 0.1. */
  lemma PlainReadmeExample()
    ensures var readme := Some(Join(PlainLines, "\n"));
      RampUpScore(readme, CheckDocumentationLink(readme)) == 0.1
  {
    PlainLineCount();
    PlainHasNoLink();
  }

  class RampUp {
    const base: Metric
    var owner: Option<string>
    var repo: Option<string>

    constructor(url: string)
      ensures fresh(base) && base.URL == Some(url) && base.score == 0.0
      ensures (owner, repo) == OwnerAndRepo(url)
    {
      base := new Metric(url);
      owner, repo := OwnerAndRepo(url).0, OwnerAndRepo(url).1;
    }

    /** `init`: fetch the README, look for a link, score. */
    method Init(fetched: Result<string>)
      modifies base
      ensures var readme := FetchReadme(fetched);
        base.score == RampUpScore(readme, CheckDocumentationLink(readme))
      ensures base.URL == old(base.URL)
    {
      var readmeContent := FetchReadme(fetched);
      var hasDocumentationLink := CheckDocumentationLink(readmeContent);
      var s := CalculateRampUpScore(readmeContent, hasDocumentationLink);
      base.UpdateScore(s);
    }
  }
}
