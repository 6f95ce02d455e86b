/**
 * The decision logic of src/tidydir/cli.py: `confirm_action`, which reads
 * answers until one is recognised, and the chain of early returns in
 * `main` that turns what each step reports into the process's exit code.
 * The terminal is a parameter: the answers typed, in order. What the
 * organizer reports is a parameter too, one outcome per step.
 */
module Cli {
  import opened Common
  import opened Text

  /** How `confirm_action` reads one answer. */
  datatype Reply = Yes | No | Other

  /** One answer, lower-cased and stripped, compared with the four words
      the prompt accepts. */
  function Classify(response: string): Reply {
    Recognise(Strip(Lower(response)))
  }

  /** The reply an already normalised answer stands for. */
  function Recognise(answer: string): Reply {
    if answer == "yes" || answer == "y" then Yes
    else if answer == "no" || answer == "n" then No
    else Other
  }

  /** What `confirm_action` returns on the answers `responses`, and how
      many of them it reads; `None` when the answers run out first (the
      `input()` call then raises). The first recognised answer decides. */
  function ConfirmAnswer(responses: seq<string>): Option<(bool, nat)> {
    if responses == [] then None
    else
      match Classify(responses[0])
      case Yes => Some((true, 1))
      case No => Some((false, 1))
      case Other =>
        match ConfirmAnswer(responses[1..])
        case None => None
        case Some((b, n)) => Some((b, n + 1))
  }

  /** `confirm_action`: the `while True` loop over the answers typed. It
      returns the decision, or `None` when the answers run out, and how
      many times it prompted. */
  method ConfirmAction(responses: seq<string>) returns (decision: Option<bool>, prompts: nat)
    ensures decision.Some? ==> ConfirmAnswer(responses) == Some((decision.value, prompts))
    ensures decision.None? ==> ConfirmAnswer(responses).None? && prompts == |responses|
  {
    prompts := 0;
    while prompts < |responses|
      invariant 0 <= prompts <= |responses|
      invariant ConfirmAnswer(responses) == AfterOthers(ConfirmAnswer(responses[prompts..]), prompts)
    {
      var response := Strip(Lower(responses[prompts]));
      assert Classify(responses[prompts]) == Recognise(response);
      assert responses[prompts..][1..] == responses[prompts + 1..];
      prompts := prompts + 1;
      if response == "yes" || response == "y" {
        return Some(true), prompts;
      } else if response == "no" || response == "n" {
        return Some(false), prompts;
      }
    }
    decision := None;
  }

  /** The first recognised answer decides, and every answer before it is
      unrecognised; `None` means no answer was recognised. */
  lemma {:induction false} ConfirmAnswerMeans(responses: seq<string>)
    ensures var r := ConfirmAnswer(responses);
      && (r.Some? ==>
            && 1 <= r.value.1 <= |responses|
            && Classify(responses[r.value.1 - 1]) == (if r.value.0 then Yes else No)
            && forall k :: 0 <= k < r.value.1 - 1 ==> Classify(responses[k]) == Other)
      && (r.None? ==> forall k :: 0 <= k < |responses| ==> Classify(responses[k]) == Other)
  {
    if responses != [] && Classify(responses[0]) == Other {
      ConfirmAnswerMeans(responses[1..]);
    }
  }

  /** The answer after `skipped` unrecognised answers in front. */
  function AfterOthers(r: Option<(bool, nat)>, skipped: nat): Option<(bool, nat)> {
    match r
    case None => None
    case Some((b, n)) => Some((b, n + skipped))
  }

  /** The four accepted words are recognised as typed. */
  lemma AcceptedWords()
    ensures Classify("yes") == Yes && Classify("y") == Yes
    ensures Classify("no") == No && Classify("n") == No
  {
    StripWord("yes");
    StripWord("y");
    StripWord("no");
    StripWord("n");
  }

  /** Case and surrounding spaces do not matter: `" YES "` means yes. */
  lemma PaddedUpperYes()
    ensures Classify(" YES ") == Yes
  {
    assert Lower(" YES ") == " yes " by {
      assert Lower(" YES ") == [LowerChar(' '), LowerChar('Y'), LowerChar('E'), LowerChar('S'), LowerChar(' ')];
    }
    assert StripLeft(" yes ") == "yes " by {
      assert " yes "[1..] == "yes ";
      StripWord("yes ");
    }
    assert StripRight("yes ") == "yes" by {
      assert "yes "[..3] == "yes";
      StripWord("yes");
    }
  }

  /** Any other word is not recognised. */
  lemma OtherWords()
    ensures Classify("invalid") == Other && Classify("maybe") == Other
  {
    StripWord("invalid");
    StripWord("maybe");
  }

  /** The answers the tests type: `yes`, `y`, `no` and `n` decide at once,
      whatever their case and surrounding spaces, and an unrecognised
      answer is followed by another prompt. */
  lemma ConfirmExamples()
    ensures ConfirmAnswer(["yes"]) == Some((true, 1)) && ConfirmAnswer(["y"]) == Some((true, 1))
    ensures ConfirmAnswer(["no"]) == Some((false, 1)) && ConfirmAnswer(["n"]) == Some((false, 1))
    ensures ConfirmAnswer([" YES "]) == Some((true, 1))
    ensures ConfirmAnswer(["invalid", "yes"]) == Some((true, 2))
    ensures ConfirmAnswer(["maybe"]) == None
  {
    AcceptedWords();
    PaddedUpperYes();
    OtherWords();
    assert ["invalid", "yes"][1..] == ["yes"];
  }

  /** A lower-case word that neither starts nor ends with a space is its
      own lower-cased, stripped form. */
  lemma StripWord(w: string)
    requires w != [] && IsLower(w) && !IsSpace(w[0])
    ensures StripLeft(w) == w
    ensures !IsSpace(w[|w| - 1]) ==> Strip(Lower(w)) == w
  {
    LowerIsLower(w);
  }

  /** What each step of `main` reports. */
  datatype Outcome<T> = Done(value: T) | Raises

  /** What happens after `execute` is called. */
  datatype Execution = Interrupted | Fails | Finishes(moved: nat, total: nat)

  /** Everything `main` consults: the source path's checks, the organizer's
      construction, its permission issues, the number of groups the
      preview plans, the `--preview` flag, the answers typed at the prompt,
      and how execution ends. */
  datatype Run = Run(
    sourceExists: bool,
    sourceIsDir: bool,
    construction: Outcome<()>,
    issues: seq<string>,
    preview: Outcome<nat>,
    previewOnly: bool,
    responses: seq<string>,
    execution: Execution)

  /** The organizer calls `main` makes, in order. */
  datatype Step = Construct | CheckPermissions | Preview | Confirm | Execute

  /** How `main` ends: it returns an exit code, or the prompt's `input()`
      raises because the answers ran out, which `main` does not catch. */
  datatype Exit = Returns(code: int, steps: seq<Step>) | Uncaught(steps: seq<Step>)

  /** `main`: each check that fails returns at once. */
  function Main(run: Run): Exit {
    if !run.sourceExists || !run.sourceIsDir then Returns(1, [])
    else if run.construction.Raises? then Returns(1, [Construct])
    else if run.issues != [] then Returns(1, [Construct, CheckPermissions])
    else if run.preview.Raises? then Returns(1, [Construct, CheckPermissions, Preview])
    else if run.preview.value == 0 then Returns(0, [Construct, CheckPermissions, Preview])
    else if run.previewOnly then Returns(0, [Construct, CheckPermissions, Preview])
    else
      var asked := [Construct, CheckPermissions, Preview, Confirm];
      match ConfirmAnswer(run.responses)
      case None => Uncaught(asked)
      case Some((false, _)) => Returns(0, asked)
      case Some((true, _)) =>
        var ran := asked + [Execute];
        match run.execution
        case Interrupted => Returns(130, ran)
        case Fails => Returns(1, ran)
        case Finishes(moved, total) => Returns(if moved == total then 0 else 1, ran)
  }

  /** A missing source, or one that is not a directory, returns 1 before
      the organizer is built. */
  lemma BadSourceExitsEarly(run: Run)
    requires !run.sourceExists || !run.sourceIsDir
    ensures Main(run).Returns? && Main(run).code == 1 && Construct !in Main(run).steps
  {
  }

  /** An exception while building the organizer or while previewing
      returns 1, and nothing after that step is called. */
  lemma RaisingStepExits(run: Run)
    requires run.sourceExists && run.sourceIsDir
    requires run.construction.Raises? || (run.issues == [] && run.preview.Raises?)
    ensures Main(run).Returns? && Main(run).code == 1
    ensures Confirm !in Main(run).steps && Execute !in Main(run).steps
  {
  }

  /** Permission issues return 1 and the preview is never made. */
  lemma IssuesSkipPreview(run: Run)
    requires run.sourceExists && run.sourceIsDir && run.construction.Done?
    requires run.issues != []
    ensures Main(run) == Returns(1, [Construct, CheckPermissions])
    ensures Preview !in Main(run).steps
  {
  }

  /** An empty plan, the `--preview` flag, or a declined confirmation
      returns 0 without calling `execute`. */
  lemma NoExecutionExitsZero(run: Run)
    requires run.sourceExists && run.sourceIsDir && run.construction.Done?
    requires run.issues == [] && run.preview.Done?
    requires run.preview.value == 0 || run.previewOnly
             || (ConfirmAnswer(run.responses).Some? && !ConfirmAnswer(run.responses).value.0)
    ensures Main(run).Returns? && Main(run).code == 0
    ensures Execute !in Main(run).steps
  {
  }

  /** Once `execute` is called: an interrupt returns 130, any other
      exception 1, and otherwise 0 exactly when every planned file moved. */
  lemma ExecutionExitCode(run: Run)
    requires Main(run).Returns? && Execute in Main(run).steps
    ensures run.execution.Interrupted? ==> Main(run).code == 130
    ensures run.execution.Fails? ==> Main(run).code == 1
    ensures run.execution.Finishes? ==>
              (Main(run).code == 0 <==> run.execution.moved == run.execution.total)
  {
  }

  /** `execute` is called only after every check passed and the user
      agreed. */
  lemma ExecuteOnlyAfterYes(run: Run)
    requires Execute in Main(run).steps
    ensures run.sourceExists && run.sourceIsDir && run.construction.Done?
    ensures run.issues == [] && run.preview.Done? && run.preview.value > 0 && !run.previewOnly
    ensures ConfirmAnswer(run.responses).Some? && ConfirmAnswer(run.responses).value.0
  {
  }

  /** `main` returns 0, 1 or 130, and 130 only for an interrupt during
      execution. */
  lemma ExitCodes(run: Run)
    ensures Main(run).Returns? ==> Main(run).code in {0, 1, 130}
    ensures Main(run).Returns? && Main(run).code == 130 ==>
              Execute in Main(run).steps && run.execution.Interrupted?
  {
  }
}
