/** The meta-prompt that asks the model for a better base prompt. */
module Improver {
  import opened Text
  import opened Lib
  import opened Responses
  import opened Ledger
  import opened PromptBuilder

  /** At most this many failures are shown to the improver. */
  const MaxShownFailures: nat := 10

  /** At most this many characters of a past prompt are shown. */
  const SnippetChars: nat := 50

  const IntroRole: string := "You are an assistant that improves trading prompts.\n"
  const IntroTask: string := "We have a base prompt (below) that instructs the model to produce an action (long, short, or none) and a brief rationale based on provided ETH, BTC, and SOL market data.\n"
  const IntroFinding: string := "We performed backtesting and found some instances where the model's predicted action did not match the correct action.\n\n"
  const IntroFailures: string := "Below are some examples of these failures:\n"
  const HistoryIntro: string := "\nWe also have a history of previous prompts and their overall accuracy scores:\n"
  const GoalsIntro: string := "\nWe need to improve the prompt so that:\n"
  const GoalAction: string := "- The model is more likely to produce correct 'action' decisions.\n"
  const GoalRationale: string := "- The rationale remains concise and well-aligned with the chosen action.\n"
  const GoalNoDisclaimers: string := "- The model should not provide disclaimers or mention hypothetical scenarios.\n"
  const GoalPatterns: string := "- The model should consistently rely on patterns, correlations, and recent price changes from the data.\n"
  const GoalLayout: string := "- The data is appended directly after the prompt.\n"
  const OriginalIntro: string := "\nOriginal Prompt:\n"
  const Closing: string := "\n\nPlease suggest an improved version of the prompt text (without adding any external formatting or code fences), incorporating the above improvements.\n"

  /** The fixed paragraphs of the meta-prompt, in the order they appear. */
  datatype Wording = Wording(preamble: string, historyIntro: string, goals: string,
                             originalIntro: string, closing: string)

  /** The paragraphs `build_improvement_prompt` writes. */
  const SourceWording: Wording :=
    Wording(IntroRole + IntroTask + IntroFinding + IntroFailures, HistoryIntro,
            GoalsIntro + GoalAction + GoalRationale + GoalNoDisclaimers + GoalPatterns + GoalLayout,
            OriginalIntro, Closing)

  /** `{:?}` of an action. */
  function ActionDebug(a: Action): string {
    match a
    case Long => "Long"
    case Short => "Short"
    case None => "None"
  }

  /** One `writeln!` per shown failure. */
  function FailureLine(f: Scored): string {
    "Window " + NatText(f.window) + ": Model predicted " + ActionDebug(f.pred)
      + ", but the correct action was " + ActionDebug(f.truth) + ". Model's rationale: "
      + f.rationale + "\n"
  }

  /** The lines of the given failures, in order. */
  function FailureLines(failures: seq<Scored>): string {
    if failures == [] then ""
    else FailureLines(failures[..|failures| - 1]) + FailureLine(failures[|failures| - 1])
  }

  /** `failures.iter().take(10)`. */
  function Shown(failures: seq<Scored>): seq<Scored> {
    failures[..if |failures| <= MaxShownFailures then |failures| else MaxShownFailures]
  }

  /** `replace('\n', " ")`. */
  function Flattened(s: string): (r: string)
    ensures |r| == |s| && SingleLine(r)
    ensures forall k :: 0 <= k < |s| ==> r[k] == if s[k] == '\n' then ' ' else s[k]
  {
    if s == [] then [] else [if s[0] == '\n' then ' ' else s[0]] + Flattened(s[1..])
  }

  /** `{:.50}` of the prompt with line breaks replaced by spaces. */
  function Snippet(prompt: string): string {
    var flat := Flattened(prompt);
    flat[..if |flat| <= SnippetChars then |flat| else SnippetChars]
  }

  /** One `writeln!` per ledger record. */
  function ScoreLine(record: PromptRecord, fmt: Formatter): string {
    "- Prompt score: " + fmt.fixed2(record.score * 100.0) + "% | Prompt snippet: "
      + Snippet(record.prompt) + "..." + "\n"
  }

  /** The lines of the given records, in order. */
  function ScoreLines(history: seq<PromptRecord>, fmt: Formatter): string {
    if history == [] then ""
    else ScoreLines(history[..|history| - 1], fmt) + ScoreLine(history[|history| - 1], fmt)
  }

  /**
   * What `build_improvement_prompt` returns with wording `w`: the preamble, the first ten
   * failures, the history lines, the goals, then the base prompt between its heading and the
   * closing request.
   */
  function ImprovementPrompt(w: Wording, basePrompt: string, failures: seq<Scored>,
                             history: seq<PromptRecord>, fmt: Formatter): (r: string)
    ensures |r| >= |w.preamble| + |basePrompt| && r[..|w.preamble|] == w.preamble
  {
    w.preamble + FailureLines(Shown(failures)) + w.historyIntro + ScoreLines(history, fmt) + w.goals
      + w.originalIntro + basePrompt + w.closing
  }

  /** The failure loop: one line for each of the first ten failures, appended to `prefix`. */
  method AppendFailureLines(prefix: string, failures: seq<Scored>) returns (prompt: string)
    ensures prompt == prefix + FailureLines(Shown(failures))
  {
    prompt := prefix;
    EmptyRight(prefix);
    assert failures[..0] == [];
    var i := 0;
    while i < |failures| && i < MaxShownFailures
      invariant 0 <= i <= |failures| && i <= MaxShownFailures
      invariant prompt == prefix + FailureLines(failures[..i])
    {
      assert failures[..i + 1][..i] == failures[..i];
      Assoc(prefix, FailureLines(failures[..i]), FailureLine(failures[i]));
      prompt := prompt + FailureLine(failures[i]);
      i := i + 1;
    }
    assert failures[..i] == Shown(failures);
  }

  /** The history loop: one line per ledger record, appended to `prefix`. */
  method AppendScoreLines(prefix: string, history: seq<PromptRecord>, fmt: Formatter)
    returns (prompt: string)
    ensures prompt == prefix + ScoreLines(history, fmt)
  {
    prompt := prefix;
    EmptyRight(prefix);
    assert history[..0] == [];
    var j := 0;
    while j < |history|
      invariant 0 <= j <= |history|
      invariant prompt == prefix + ScoreLines(history[..j], fmt)
    {
      ScoreLinesSnoc(history, j, fmt);
      Assoc(prefix, ScoreLines(history[..j], fmt), ScoreLine(history[j], fmt));
      prompt := prompt + ScoreLine(history[j], fmt);
      j := j + 1;
    }
    assert history[..j] == history;
  }

  /** `build_improvement_prompt`: fixed text, the failure and history lines, then the prompt. */
  method BuildImprovementPrompt(basePrompt: string, failures: seq<Scored>,
                                history: seq<PromptRecord>, fmt: Formatter)
    returns (prompt: string)
    ensures prompt == ImprovementPrompt(SourceWording, basePrompt, failures, history, fmt)
  {
    prompt := "";
    EmptyLeft(IntroRole);
    prompt := prompt + IntroRole;
    prompt := prompt + IntroTask;
    prompt := prompt + IntroFinding;
    prompt := prompt + IntroFailures;
    prompt := AppendFailureLines(prompt, failures);
    prompt := prompt + HistoryIntro;
    prompt := AppendScoreLines(prompt, history, fmt);
    ghost var mark := prompt;
    prompt := prompt + GoalsIntro;
    prompt := prompt + GoalAction;
    prompt := prompt + GoalRationale;
    prompt := prompt + GoalNoDisclaimers;
    prompt := prompt + GoalPatterns;
    prompt := prompt + GoalLayout;
    AssocSix(mark, GoalsIntro, GoalAction, GoalRationale, GoalNoDisclaimers, GoalPatterns, GoalLayout);
    prompt := prompt + OriginalIntro;
    prompt := prompt + basePrompt;
    prompt := prompt + Closing;
  }

  lemma ScoreLinesSnoc(history: seq<PromptRecord>, j: nat, fmt: Formatter)
    requires j < |history|
    ensures ScoreLines(history[..j + 1], fmt) == ScoreLines(history[..j], fmt) + ScoreLine(history[j], fmt)
  {
    assert history[..j + 1][..j] == history[..j];
  }

  lemma AssocSix(m: string, a: string, b: string, c: string, d: string, e: string, f: string)
    ensures m + a + b + c + d + e + f == m + (a + b + c + d + e + f)
  {
  }

  lemma SuffixOfConcat(x: string, a: string, b: string, c: string)
    ensures |x + a + b + c| - |a + b + c| == |x|
    ensures (x + a + b + c)[|x|..] == a + b + c
  {
  }

  /** The base prompt appears verbatim right after its heading, followed only by the closing
      request. */
  lemma OriginalPromptVerbatim(w: Wording, basePrompt: string, failures: seq<Scored>,
                               history: seq<PromptRecord>, fmt: Formatter)
    ensures var p := ImprovementPrompt(w, basePrompt, failures, history, fmt);
      var tail := w.originalIntro + basePrompt + w.closing;
      |p| >= |tail| && p[|p| - |tail|..] == tail
  {
    var body := w.preamble + FailureLines(Shown(failures)) + w.historyIntro
      + ScoreLines(history, fmt) + w.goals;
    SuffixOfConcat(body, w.originalIntro, basePrompt, w.closing);
  }

  /** Only the first ten failures matter. */
  lemma FailuresBeyondTenIgnored(w: Wording, basePrompt: string, failures: seq<Scored>,
                                 history: seq<PromptRecord>, fmt: Formatter)
    requires |failures| > MaxShownFailures
    ensures ImprovementPrompt(w, basePrompt, failures, history, fmt)
      == ImprovementPrompt(w, basePrompt, failures[..MaxShownFailures], history, fmt)
  {
    assert Shown(failures) == Shown(failures[..MaxShownFailures]);
  }

  /** A snippet has at most 50 characters, no line break, and mirrors the prompt's beginning. */
  lemma SnippetShape(prompt: string)
    ensures |Snippet(prompt)| == if |prompt| <= SnippetChars then |prompt| else SnippetChars
    ensures SingleLine(Snippet(prompt))
    ensures forall k :: 0 <= k < |Snippet(prompt)| ==>
      Snippet(prompt)[k] == if prompt[k] == '\n' then ' ' else prompt[k]
  {
  }

  lemma ActionDebugSingleLine(a: Action)
    ensures SingleLine(ActionDebug(a))
  {
  }

  /** A failure with a one-line rationale takes exactly one line. */
  lemma FailureLineCount(f: Scored)
    requires SingleLine(f.rationale)
    ensures LineCount(FailureLine(f)) == 1
  {
    NatTextSingleLine(f.window);
    ActionDebugSingleLine(f.pred);
    ActionDebugSingleLine(f.truth);
    var text := "Window " + NatText(f.window) + ": Model predicted " + ActionDebug(f.pred)
      + ", but the correct action was " + ActionDebug(f.truth) + ". Model's rationale: "
      + f.rationale;
    assert SingleLine(text);
    TerminatedLine(text);
  }

  /** A ledger record takes exactly one line when its score prints on one line. */
  lemma ScoreLineCount(record: PromptRecord, fmt: Formatter)
    requires SingleLineFormats(fmt)
    ensures LineCount(ScoreLine(record, fmt)) == 1
  {
    SnippetShape(record.prompt);
    var text := "- Prompt score: " + fmt.fixed2(record.score * 100.0) + "% | Prompt snippet: "
      + Snippet(record.prompt) + "...";
    assert SingleLine(text);
    TerminatedLine(text);
  }

  /** With one-line rationales, the failure block has one line for each of the first
      `min(10, |failures|)` failures. */
  lemma {:induction false} FailureBlockLines(failures: seq<Scored>)
    requires forall k :: 0 <= k < |failures| ==> SingleLine(failures[k].rationale)
    ensures LineCount(FailureLines(failures)) == |failures|
    decreases |failures|
  {
    if failures != [] {
      var init := failures[..|failures| - 1];
      FailureBlockLines(init);
      FailureLineCount(failures[|failures| - 1]);
      LineCountConcat(FailureLines(init), FailureLine(failures[|failures| - 1]));
    }
  }

  /** The history block has one line per ledger record. */
  lemma {:induction false} HistoryBlockLines(history: seq<PromptRecord>, fmt: Formatter)
    requires SingleLineFormats(fmt)
    ensures LineCount(ScoreLines(history, fmt)) == |history|
    decreases |history|
  {
    if history != [] {
      var init, last := history[..|history| - 1], history[|history| - 1];
      HistoryBlockLines(init, fmt);
      ScoreLineCount(last, fmt);
      LineCountConcat(ScoreLines(init, fmt), ScoreLine(last, fmt));
    }
  }

  /** The meta-prompt shows `min(10, |failures|)` failure lines. */
  lemma ShownFailureCount(failures: seq<Scored>)
    requires forall k :: 0 <= k < |failures| ==> SingleLine(failures[k].rationale)
    ensures LineCount(FailureLines(Shown(failures)))
      == if |failures| <= MaxShownFailures then |failures| else MaxShownFailures
  {
    var shown := Shown(failures);
    assert forall k :: 0 <= k < |shown| ==> shown[k] == failures[k];
    FailureBlockLines(shown);
  }
}
