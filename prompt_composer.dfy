/**
  Prompt Composer: the request's defaults and the instruction text sent to the
  text-generation service. The template literal alternates fixed text and
  substituted values; the model keeps it as that list of pieces and the prompt
  is their concatenation, so where each value lands can be stated.
*/
module PromptComposer {
  import opened Wrappers
  import opened Strings
  import opened DurationEstimator

  /** The JSON body of POST /generate-script: every field may be absent. */
  datatype ScriptRequest = ScriptRequest(
    url: Option<string>,
    emotion: Option<string>,
    language: Option<string>,
    stance: Option<string>,
    duration: Option<int>,
    extraInfo: Option<string>)

  const DefaultDuration: int := 60
  const DefaultLanguage: string := "English"
  const DefaultEmotion: string := "Excited"
  const DefaultStance: string := "Neutral"
  const DefaultExtraInfo: string := "None"

  /** `v || default` for a string field. */
  function OrDefault(v: Option<string>, default: string): string {
    if Truthy(v) then v.value else default
  }

  /** `duration || 60`: an absent or zero duration becomes 60 seconds. */
  function EffectiveDuration(d: Option<int>): (r: int)
    ensures r != 0
    ensures d == None || d == Some(0) ==> r == DefaultDuration
    ensures d.Some? && d.value != 0 ==> r == d.value
  {
    if d.Some? && d.value != 0 then d.value else DefaultDuration
  }

  function EffectiveLanguage(req: ScriptRequest): string {
    OrDefault(req.language, DefaultLanguage)
  }

  /** The values the template substitutes. */
  datatype PromptInputs = PromptInputs(
    duration: int,
    targetWords: int,
    language: string,
    emotion: string,
    stance: string,
    extraInfo: string,
    article: string)

  /** The defaulted request fields, the word budget computed from the defaulted
      duration and language, and the article excerpt. */
  function InputsFor(req: ScriptRequest, article: string): (p: PromptInputs)
    ensures p.duration != 0 && MinTarget <= p.targetWords <= MaxTarget
    ensures p.language != [] && p.emotion != [] && p.stance != [] && p.extraInfo != []
    ensures Truthy(req.language) ==> p.language == req.language.value
    ensures Truthy(req.emotion) ==> p.emotion == req.emotion.value
    ensures Truthy(req.stance) ==> p.stance == req.stance.value
    ensures Truthy(req.extraInfo) ==> p.extraInfo == req.extraInfo.value
    ensures !Truthy(req.language) ==> p.language == DefaultLanguage
    ensures !Truthy(req.emotion) ==> p.emotion == DefaultEmotion
    ensures !Truthy(req.stance) ==> p.stance == DefaultStance
    ensures !Truthy(req.extraInfo) ==> p.extraInfo == DefaultExtraInfo
    ensures p.duration == EffectiveDuration(req.duration) && p.targetWords == TargetWords(p.duration, p.language)
    ensures p.article == article
  {
    var duration := EffectiveDuration(req.duration);
    var language := EffectiveLanguage(req);
    PromptInputs(
      duration,
      TargetWords(duration, language),
      language,
      OrDefault(req.emotion, DefaultEmotion),
      OrDefault(req.stance, DefaultStance),
      OrDefault(req.extraInfo, DefaultExtraInfo),
      article)
  }

  /** The template's fixed text, between its substitutions. */
  const Opening: string := "\nYou are a viral short-form video scriptwriter.\n\nWrite a "
  const AfterDuration: string := "-second script (~"
  const AfterTarget: string := " words) based on the article content below.\nDo NOT return fewer than "
  const AfterMinimum: string := " words.\nIf you must be concise, compress ideas—but keep the length target.\n\n--- INPUTS ---\nLanguage: "
  const EmotionLabel: string := "\nEmotion/Tone: "
  const StanceLabel: string := "\nStance: "
  const ExtraInfoLabel: string := "\nExtra Info: "
  const ArticleLabel: string := "\nSource Article (raw text excerpt):\n"
  const FormatHeading: string := "\n\n--- STYLE & FORMAT (MUST FOLLOW) ---\nOutput ONLY this structure, in "
  const BeforeSections: string := ":\n\n"
  const HookLabel: string := "[HOOK]"
  const HookGuide: string := "\n(1–2 killer lines. Pattern interrupt. Question or bold claim.)\n\n"
  const BodyLabel: string := "[BODY]"
  const BodyGuide: string := "\n(5–8 short lines. Conversational. No line > 12 words.\nSummarize the key points from the article.\nWeave in the chosen emotion and stance explicitly.\nUse simple, punchy sentences.)\n\n"
  const VisualCuesLabel: string := "[VISUAL CUES]"
  const VisualCuesGuide: string := "\n- 3–5 bullet ideas: split-screen, B-roll, phone-in-hand, overlays, emojis.\n\n"
  const EndingLabel: string := "[ENDING]"
  const EndingGuideAndRules: string := "\n(2–3 lines. Satisfying punchline or CTA.)\n\n--- RULES ---\n- Aim ~"
  const AfterRulesTarget: string := " words total across sections (≥ "
  const Closing: string := ").\n- Keep it video-ready: creator can read line-by-line.\n- Avoid fluff; prefer concrete facts/details from the article.\n- Keep names/numbers accurate if present."

  /** The template's opening instructions, with the duration and both word counts. */
  function Instructions(p: PromptInputs): seq<string> {
    [ Opening, IntToDecimal(p.duration), AfterDuration, IntToDecimal(p.targetWords), AfterTarget,
      IntToDecimal(MinWords(p.targetWords)), AfterMinimum ]
  }

  /** The INPUTS block: language, tone, stance, extra information and the article. */
  function Inputs(p: PromptInputs): seq<string> {
    [ p.language, EmotionLabel, p.emotion, StanceLabel, p.stance, ExtraInfoLabel, p.extraInfo,
      ArticleLabel, p.article ]
  }

  /** The STYLE & FORMAT block: the output language and the four labelled sections. */
  function Format(p: PromptInputs): seq<string> {
    [ FormatHeading, p.language, BeforeSections, HookLabel, HookGuide, BodyLabel, BodyGuide,
      VisualCuesLabel, VisualCuesGuide, EndingLabel ]
  }

  /** The RULES block, which states both word counts again. */
  function Rules(p: PromptInputs): seq<string> {
    [ EndingGuideAndRules, IntToDecimal(p.targetWords), AfterRulesTarget,
      IntToDecimal(MinWords(p.targetWords)), Closing ]
  }

  /** The generation prompt: the template's pieces, concatenated in order. */
  function ComposePrompt(p: PromptInputs): string {
    Concat(Instructions(p)) + Concat(Inputs(p)) + Concat(Format(p)) + Concat(Rules(p))
  }

  /** Where piece k of the instructions lands in the prompt. */
  lemma InInstructions(p: PromptInputs, k: nat) returns (at: nat)
    requires k < 7
    ensures OccursAt(ComposePrompt(p), Instructions(p)[k], at)
    ensures at + |Instructions(p)[k]| <= |Concat(Instructions(p))|
  {
    var a, b, c, d := Concat(Instructions(p)), Concat(Inputs(p)), Concat(Format(p)), Concat(Rules(p));
    var sub := Instructions(p)[k];
    ConcatAt(Instructions(p), k);
    at := |Concat(Instructions(p)[..k])|;
    OccursBefore(a, b, sub, at);
    OccursBefore(a + b, c, sub, at);
    OccursBefore(a + b + c, d, sub, at);
  }

  /** Where piece k of the inputs block lands in the prompt. */
  lemma InInputs(p: PromptInputs, k: nat) returns (at: nat)
    requires k < 9
    ensures OccursAt(ComposePrompt(p), Inputs(p)[k], at)
    ensures |Concat(Instructions(p))| <= at
    ensures at + |Inputs(p)[k]| <= |Concat(Instructions(p)) + Concat(Inputs(p))|
  {
    var a, b, c, d := Concat(Instructions(p)), Concat(Inputs(p)), Concat(Format(p)), Concat(Rules(p));
    var sub := Inputs(p)[k];
    ConcatAt(Inputs(p), k);
    var i := |Concat(Inputs(p)[..k])|;
    at := |a| + i;
    OccursAfter(a, b, sub, i);
    OccursBefore(a + b, c, sub, at);
    OccursBefore(a + b + c, d, sub, at);
  }

  /** Where piece k of the format block lands in the prompt. */
  lemma InFormat(p: PromptInputs, k: nat) returns (at: nat)
    requires k < 10
    ensures OccursAt(ComposePrompt(p), Format(p)[k], at)
    ensures |Concat(Instructions(p)) + Concat(Inputs(p))| + |Concat(Format(p)[..k])| == at
  {
    var a, b, c, d := Concat(Instructions(p)), Concat(Inputs(p)), Concat(Format(p)), Concat(Rules(p));
    var sub := Format(p)[k];
    ConcatAt(Format(p), k);
    var i := |Concat(Format(p)[..k])|;
    at := |a + b| + i;
    OccursAfter(a + b, c, sub, i);
    OccursBefore(a + b + c, d, sub, at);
  }

  /** Where piece k of the rules block lands in the prompt. */
  lemma InRules(p: PromptInputs, k: nat) returns (at: nat)
    requires k < 5
    ensures OccursAt(ComposePrompt(p), Rules(p)[k], at)
    ensures |Concat(Instructions(p)) + Concat(Inputs(p)) + Concat(Format(p))| <= at
  {
    var a, b, c, d := Concat(Instructions(p)), Concat(Inputs(p)), Concat(Format(p)), Concat(Rules(p));
    var sub := Rules(p)[k];
    ConcatAt(Rules(p), k);
    var i := |Concat(Rules(p)[..k])|;
    at := |a + b + c| + i;
    OccursAfter(a + b + c, d, sub, i);
  }

  /** The target word count and the 90% minimum are each stated twice: once in the
      instructions and once more in the closing rules. */
  lemma PromptStatesBudgetTwice(p: PromptInputs)
    ensures OccursTwice(ComposePrompt(p), IntToDecimal(p.targetWords))
    ensures OccursTwice(ComposePrompt(p), IntToDecimal(MinWords(p.targetWords)))
  {
    var prompt := ComposePrompt(p);
    var target, minimum := IntToDecimal(p.targetWords), IntToDecimal(MinWords(p.targetWords));
    assert Instructions(p)[3] == target && Instructions(p)[5] == minimum;
    assert Rules(p)[1] == target && Rules(p)[3] == minimum;
    var t1 := InInstructions(p, 3);
    var t2 := InRules(p, 1);
    assert t1 + |target| <= t2 && OccursAt(prompt, target, t1) && OccursAt(prompt, target, t2);
    var m1 := InInstructions(p, 5);
    var m2 := InRules(p, 3);
    assert m1 + |minimum| <= m2 && OccursAt(prompt, minimum, m1) && OccursAt(prompt, minimum, m2);
  }

  /** The prompt names the duration, the language (twice: as an input and as the
      output language), the tone, the stance, the extra information and the article. */
  lemma PromptStatesInputs(p: PromptInputs)
    ensures Contains(ComposePrompt(p), IntToDecimal(p.duration))
    ensures OccursTwice(ComposePrompt(p), p.language)
    ensures Contains(ComposePrompt(p), p.emotion)
    ensures Contains(ComposePrompt(p), p.stance)
    ensures Contains(ComposePrompt(p), p.extraInfo)
    ensures Contains(ComposePrompt(p), p.article)
  {
    PromptStatesDuration(p);
    PromptStatesLanguageTwice(p);
    var inputs := Inputs(p);
    assert inputs[2] == p.emotion && inputs[4] == p.stance && inputs[6] == p.extraInfo && inputs[8] == p.article;
    var e := InInputs(p, 2);
    var s := InInputs(p, 4);
    var x := InInputs(p, 6);
    var a := InInputs(p, 8);
  }

  /** The duration appears in the opening instructions. */
  lemma PromptStatesDuration(p: PromptInputs)
    ensures Contains(ComposePrompt(p), IntToDecimal(p.duration))
  {
    assert Instructions(p)[1] == IntToDecimal(p.duration);
    var d := InInstructions(p, 1);
  }

  /** The language appears among the inputs and again as the output language. */
  lemma PromptStatesLanguageTwice(p: PromptInputs)
    ensures OccursTwice(ComposePrompt(p), p.language)
  {
    assert Inputs(p)[0] == p.language && Format(p)[1] == p.language;
    var l1 := InInputs(p, 0);
    var l2 := InFormat(p, 1);
    assert l1 + |p.language| <= l2 && OccursAt(ComposePrompt(p), p.language, l1) && OccursAt(ComposePrompt(p), p.language, l2);
  }

  /** The four section labels appear in the order HOOK, BODY, VISUAL CUES, ENDING. */
  lemma PromptSectionsInOrder(p: PromptInputs) returns (hook: nat, body: nat, cues: nat, ending: nat)
    ensures OccursAt(ComposePrompt(p), HookLabel, hook)
    ensures OccursAt(ComposePrompt(p), BodyLabel, body)
    ensures OccursAt(ComposePrompt(p), VisualCuesLabel, cues)
    ensures OccursAt(ComposePrompt(p), EndingLabel, ending)
    ensures hook + |HookLabel| <= body && body + |BodyLabel| <= cues && cues + |VisualCuesLabel| <= ending
  {
    var parts := Format(p);
    assert parts[3] == HookLabel && parts[5] == BodyLabel && parts[7] == VisualCuesLabel && parts[9] == EndingLabel;
    hook := InFormat(p, 3);
    body := InFormat(p, 5);
    cues := InFormat(p, 7);
    ending := InFormat(p, 9);
    ConcatOffsetsGrow(parts, 3, 5);
    ConcatOffsetsGrow(parts, 5, 7);
    ConcatOffsetsGrow(parts, 7, 9);
  }

  /** A missing or zero duration is the same request as 60 seconds, both for the
      word budget and for the duration the prompt states. */
  lemma MissingDurationMeansSixty(req: ScriptRequest, article: string)
    requires req.duration == None || req.duration == Some(0)
    ensures InputsFor(req, article) == InputsFor(req.(duration := Some(60)), article)
    ensures InputsFor(req, article).duration == 60
    ensures InputsFor(req, article).targetWords == TargetWords(60, EffectiveLanguage(req))
  {
  }
}
