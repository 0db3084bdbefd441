/**
  Content Extractor: the part of scrapeArticle that turns the page's paragraph
  texts into the article excerpt given to the prompt. Fetching the page and
  selecting its paragraphs happen outside the model: a fetch either fails or
  yields the selected paragraphs' texts in document order.
*/
module ContentExtractor {
  import opened Strings

  datatype FetchOutcome = Fetched(paragraphs: seq<string>) | FetchFailed

  /** The excerpt is cut to this many characters. */
  const MaxChars: nat := 8000

  const NoTextPlaceholder: string := "No text extracted."
  const FetchFailedPlaceholder: string := "Failed to fetch the article content. Use what you can from the link."

  /** What one paragraph adds to the text: its trimmed text and a newline, or
      nothing when the trimmed text is empty. */
  function Contribution(p: string): (c: string)
    ensures c == [] <==> AllSpace(p)
    ensures c != [] ==> |c| == |Trim(p)| + 1 && c[|c| - 1] == '\n' && !IsSpace(c[0])
    ensures c != [] ==> c[..|c| - 1] == Trim(p)
  {
    var t := Trim(p);
    if t != [] then t + "\n" else []
  }

  /** `f` applied to each element, in order. */
  function Map(f: string -> string, xs: seq<string>): (ys: seq<string>)
    ensures |ys| == |xs|
    ensures forall k :: 0 <= k < |xs| ==> ys[k] == f(xs[k])
  {
    seq(|xs|, k requires 0 <= k < |xs| => f(xs[k]))
  }

  /** Mapping a concatenation maps each run. */
  lemma MapAppend(f: string -> string, a: seq<string>, b: seq<string>)
    ensures Map(f, a + b) == Map(f, a) + Map(f, b)
  {
    var ma, mb, mab := Map(f, a), Map(f, b), Map(f, a + b);
    forall k | 0 <= k < |mab| ensures mab[k] == (ma + mb)[k] {
      if k < |a| {
        assert (a + b)[k] == a[k];
      } else {
        assert (a + b)[k] == b[k - |a|];
      }
    }
  }

  /** Each paragraph's contribution, in document order. */
  function Contributions(paragraphs: seq<string>): (cs: seq<string>)
    ensures |cs| == |paragraphs|
    ensures forall k :: 0 <= k < |cs| ==> cs[k] == Contribution(paragraphs[k])
  {
    Map(Contribution, paragraphs)
  }

  /** The text the paragraph loop builds: all contributions, concatenated. */
  function Accumulated(paragraphs: seq<string>): string {
    Concat(Map(Contribution, paragraphs))
  }

  /** Splitting the paragraphs splits the text at the same place. */
  lemma AccumulatedAppend(a: seq<string>, b: seq<string>)
    ensures Accumulated(a + b) == Accumulated(a) + Accumulated(b)
  {
    MapAppend(Contribution, a, b);
    ConcatAppend(Map(Contribution, a), Map(Contribution, b));
  }

  /** One more paragraph appends its contribution, and nothing else. */
  lemma AccumulatedSnoc(paragraphs: seq<string>, p: string)
    ensures Accumulated(paragraphs + [p]) == Accumulated(paragraphs) + Contribution(p)
  {
    MapAppend(Contribution, paragraphs, [p]);
    ConcatSnoc(Map(Contribution, paragraphs), Contribution(p));
    assert Map(Contribution, [p]) == [Contribution(p)];
  }

  /** The text is empty exactly when every paragraph is blank. */
  lemma AccumulatedEmpty(paragraphs: seq<string>)
    ensures Accumulated(paragraphs) == [] <==> forall k :: 0 <= k < |paragraphs| ==> AllSpace(paragraphs[k])
  {
    ConcatEmpty(Contributions(paragraphs));
  }

  /** Every non-empty text ends with the newline of its last contribution. */
  lemma AccumulatedEndsWithNewline(paragraphs: seq<string>)
    ensures Accumulated(paragraphs) != [] ==> Accumulated(paragraphs)[|Accumulated(paragraphs)| - 1] == '\n'
  {
    ConcatEndsWith(Contributions(paragraphs), '\n');
  }

  /** `s[0, n)`, or all of `s` when it is shorter: String.prototype.slice(0, n). */
  function SliceFront(s: string, n: nat): (r: string)
    ensures |r| == if |s| < n then |s| else n
    ensures r == s[..|r|]
  {
    if |s| <= n then s else s[..n]
  }

  /** `text.slice(0, 8000) || "No text extracted."` */
  function CapText(text: string): (r: string)
    ensures 0 < |r| <= MaxChars
    ensures text == [] ==> r == NoTextPlaceholder
    ensures text != [] ==> |r| <= |text| && r == text[..|r|] && (r == text || |r| == MaxChars)
  {
    var capped := SliceFront(text, MaxChars);
    if capped != [] then capped else NoTextPlaceholder
  }

  /** What scrapeArticle returns once the page is fetched: the accumulated text cut
      to 8000 characters, or the no-text placeholder when every paragraph is blank. */
  function ExtractedText(paragraphs: seq<string>): (r: string)
    ensures 0 < |r| <= MaxChars
    ensures r == NoTextPlaceholder <==> forall k :: 0 <= k < |paragraphs| ==> AllSpace(paragraphs[k])
    ensures r != NoTextPlaceholder ==>
      var text := Accumulated(paragraphs);
      && |r| <= |text| && r == text[..|r|]
      && (|r| < MaxChars ==> r == text && text[|text| - 1] == '\n')
  {
    var text := Accumulated(paragraphs);
    AccumulatedEmpty(paragraphs);
    AccumulatedEndsWithNewline(paragraphs);
    assert NoTextPlaceholder[|NoTextPlaceholder| - 1] == '.';
    CapText(text)
  }

  /** scrapeArticle for a given fetch outcome: never empty, never over 8000
      characters, and the failure placeholder exactly when the fetch failed. */
  function ScrapeResult(fetch: FetchOutcome): (r: string)
    ensures 0 < |r| <= MaxChars
    ensures r == FetchFailedPlaceholder <==> fetch.FetchFailed?
    ensures fetch.Fetched? ==> r == ExtractedText(fetch.paragraphs)
  {
    match fetch
    case FetchFailed => FetchFailedPlaceholder
    case Fetched(paragraphs) =>
      var r := ExtractedText(paragraphs);
      assert FetchFailedPlaceholder[|FetchFailedPlaceholder| - 1] == '.';
      assert |FetchFailedPlaceholder| != |NoTextPlaceholder| && |FetchFailedPlaceholder| != MaxChars;
      r
  }

  /** One pass of the paragraph loop keeps the text equal to the contributions so far. */
  lemma AccumulateStep(paragraphs: seq<string>, i: nat, text: string)
    requires i < |paragraphs| && text == Accumulated(paragraphs[..i])
    ensures var t := Trim(paragraphs[i]);
      (if t != [] then text + (t + "\n") else text) == Accumulated(paragraphs[..i + 1])
  {
    var p := paragraphs[i];
    var t := Trim(p);
    assert paragraphs[..i + 1] == paragraphs[..i] + [p];
    AccumulatedSnoc(paragraphs[..i], p);
    if t != [] {
      assert Contribution(p) == t + "\n";
    } else {
      assert Contribution(p) == [];
      assert text + [] == text;
    }
  }

  /** The paragraph loop of scrapeArticle: appends each non-blank paragraph's
      trimmed text and a newline, in document order. */
  method AccumulateParagraphs(paragraphs: seq<string>) returns (text: string)
    ensures text == Accumulated(paragraphs)
  {
    text := "";
    assert paragraphs[..0] == [];
    for i := 0 to |paragraphs|
      invariant text == Accumulated(paragraphs[..i])
    {
      AccumulateStep(paragraphs, i, text);
      var t := Trim(paragraphs[i]);
      if t != [] {
        text := text + (t + "\n");
      }
    }
    assert paragraphs[..|paragraphs|] == paragraphs;
  }

  /** scrapeArticle after its fetch: the paragraph loop, then the first 8000
      characters or the placeholders. */
  method ScrapeArticle(fetch: FetchOutcome) returns (text: string)
    ensures text == ScrapeResult(fetch)
  {
    match fetch
    case FetchFailed =>
      text := FetchFailedPlaceholder;
    case Fetched(paragraphs) =>
      var all := AccumulateParagraphs(paragraphs);
      text := SliceFront(all, MaxChars);
      if text == [] {
        text := NoTextPlaceholder;
      }
      assert text == CapText(all);
  }
}
