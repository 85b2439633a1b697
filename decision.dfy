/** The prompt `validateBenefitClaim` sends to the decision engine and the
    text it takes from the reply (infrastructure/validation/app.py). */
module Decision {
  import opened Wrappers
  import opened Text
  import opened JsonValue

  const CheckBlueprint: string := "US-Bank-Check"
  const ReceiptBlueprint: string := "Receipt"

  /** The three prompt wordings. */
  datatype Template = CheckTemplate | ReceiptTemplate | DocumentTemplate

  /** The wording is chosen by comparing the matched blueprint's name with the
      two known names; any other value, string or not, gets the generic one. */
  function SelectTemplate(blueprintName: Json): (t: Template)
    ensures t == CheckTemplate <==> blueprintName == JString(CheckBlueprint)
    ensures t == ReceiptTemplate <==> blueprintName == JString(ReceiptBlueprint)
    ensures t == DocumentTemplate <==> blueprintName !in {JString(CheckBlueprint), JString(ReceiptBlueprint)}
  {
    if blueprintName == JString(CheckBlueprint) then CheckTemplate
    else if blueprintName == JString(ReceiptBlueprint) then ReceiptTemplate
    else DocumentTemplate
  }

  /** What the claim is called in the context sentence. */
  function ClaimNoun(t: Template): string
  {
    match t
    case CheckTemplate => "check"
    case ReceiptTemplate => "receipt"
    case DocumentTemplate => "document"
  }

  /** What the question asks about. */
  function QuestionSubject(t: Template): string
  {
    match t
    case CheckTemplate => "check"
    case ReceiptTemplate => "pharmacy receipt"
    case DocumentTemplate => "document"
  }

  /** The request for a JSON answer with `decision` and `reason`, shared by all three wordings. */
  const AnswerFormat: string :=
    " Generate your response in JSON format with following fields: " + DecisionField + " and " + ReasonField

  const DecisionField: string := "decision (approved/not approved/ review needed)"
  const ReasonField: string := "reason (why approved/why not approved/or why review is needed)"

  /** Everything before the claim data: `$` (printed by `${context}`), then the
      context sentence up to and including its own literal `$`. */
  function Lead(t: Template): string
  {
    "$here is a benefit claim " + ClaimNoun(t) + ": $"
  }

  /** The question asked about the claim. */
  function Question(t: Template): string
  {
    "Should claim for this " + QuestionSubject(t) + " be approved?"
  }

  /** Everything after the claim data. */
  function Tail(t: Template): string
  {
    ". " + Question(t) + AnswerFormat
  }

  /** `input_text` for the claim data already rendered as text by `str()`. */
  function Prompt(blueprintName: Json, claimText: string): (p: string)
    ensures StartsWith(p, Lead(SelectTemplate(blueprintName)))
    ensures EndsWith(p, Tail(SelectTemplate(blueprintName)))
    ensures |p| == |Lead(SelectTemplate(blueprintName))| + |claimText| + |Tail(SelectTemplate(blueprintName))|
  {
    var t := SelectTemplate(blueprintName);
    StartsWithConcat(Lead(t), claimText + Tail(t));
    EndsWithConcat(Lead(t) + claimText, Tail(t));
    Lead(t) + claimText + Tail(t)
  }

  /** The claim data sits, untouched, between the lead and the tail, so the
      prompt determines it: it can be read back. */
  function ClaimTextOf(t: Template, p: string): string
    requires |p| >= |Lead(t)| + |Tail(t)|
  {
    p[|Lead(t)|..|p| - |Tail(t)|]
  }

  lemma PromptEmbedsClaim(blueprintName: Json, claimText: string)
    ensures var t := SelectTemplate(blueprintName);
            var p := Prompt(blueprintName, claimText);
            |p| >= |Lead(t)| + |Tail(t)| && ClaimTextOf(t, p) == claimText
  {
    var t := SelectTemplate(blueprintName);
    assert Prompt(blueprintName, claimText) == Lead(t) + claimText + Tail(t);
  }

  /** Every prompt contains the claim data, the question for the selected
      wording, and the request for `decision` and `reason`. */
  lemma PromptContents(blueprintName: Json, claimText: string)
    ensures var t := SelectTemplate(blueprintName);
            var p := Prompt(blueprintName, claimText);
            && IsSubstring(claimText, p)
            && IsSubstring(Question(t), p)
            && IsSubstring(DecisionField, p)
            && IsSubstring(ReasonField, p)
  {
    var t := SelectTemplate(blueprintName);
    var p := Prompt(blueprintName, claimText);
    var intro := " Generate your response in JSON format with following fields: ";
    // p == (Lead + claimText) + Tail
    SubstringOfConcat(Lead(t) + claimText, Tail(t));
    SubstringOfConcat(Lead(t), claimText);
    SubstringTransitive(claimText, Lead(t) + claimText, p);
    // Tail == (". " + Question) + AnswerFormat
    SubstringOfConcat(". " + Question(t), AnswerFormat);
    SubstringOfConcat(". ", Question(t));
    SubstringTransitive(Question(t), ". " + Question(t), Tail(t));
    SubstringTransitive(Question(t), Tail(t), p);
    SubstringTransitive(AnswerFormat, Tail(t), p);
    // AnswerFormat == ((intro + DecisionField) + " and ") + ReasonField
    SubstringOfConcat(intro + DecisionField + " and ", ReasonField);
    SubstringTransitive(ReasonField, AnswerFormat, p);
    SubstringOfConcat(intro + DecisionField, " and ");
    SubstringOfConcat(intro, DecisionField);
    SubstringTransitive(DecisionField, intro + DecisionField, intro + DecisionField + " and ");
    SubstringTransitive(DecisionField, intro + DecisionField + " and ", AnswerFormat);
    SubstringTransitive(DecisionField, AnswerFormat, p);
  }

  /** The wording depends on nothing but the selected template: any two
      blueprint names that select the same template give the same prompt for
      the same data. */
  lemma PromptDependsOnlyOnTemplate(name1: Json, name2: Json, claimText: string)
    requires SelectTemplate(name1) == SelectTemplate(name2)
    ensures Prompt(name1, claimText) == Prompt(name2, claimText)
  {
  }

  /** The three wordings differ for every claim: they already differ in the
      word after `$here is a benefit claim `. */
  lemma TemplatesDiffer(name1: Json, name2: Json, claimText: string)
    requires SelectTemplate(name1) != SelectTemplate(name2)
    ensures Prompt(name1, claimText) != Prompt(name2, claimText)
  {
    var t1 := SelectTemplate(name1);
    var t2 := SelectTemplate(name2);
    var at := |"$here is a benefit claim "|;
    assert Prompt(name1, claimText)[at] == ClaimNoun(t1)[0];
    assert Prompt(name2, claimText)[at] == ClaimNoun(t2)[0];
  }

  /** The part of the engine's reply the handler reads: `output`, and inside
      it `text`, either of which may be absent. */
  datatype Reply = Reply(output: Option<ReplyOutput>)
  datatype ReplyOutput = ReplyOutput(text: Option<string>)

  /** `response["output"]["text"]` when both keys are present, `""` otherwise. */
  function ReplyText(reply: Reply): (text: string)
    ensures reply.output.Some? && reply.output.value.text.Some? ==> text == reply.output.value.text.value
    ensures reply.output.None? || reply.output.value.text.None? ==> text == ""
  {
    match reply.output
    case Some(ReplyOutput(Some(text))) => text
    case _ => ""
  }
}
