/**
 * The document-processing wizard: the operation choice, the two file inputs
 * and the rename rule, the operation-dependent submit checks, and the
 * two-phase submit whose second phase (the timer firing) is the `Complete`
 * event. The processing itself is a placeholder and has no model.
 */
module PdfAutomation {
  import opened Wrappers
  import JsString

  /** The three operation cards: 'separar', 'renomear', 'ambos'. */
  datatype Operation = Separar | Renomear | Ambos

  /** A selected file, by its name. */
  type FileName = string

  const SeparationInputMissing := "Selecione os arquivos para separação."
  const ModelMissing := "Selecione o PDF modelo."
  const RenameInputMissing := "Selecione os arquivos a serem renomeados."
  const ProcessInputMissing := "Selecione os arquivos a serem processados."
  const RuleMissing := "Descreva a regra de renomeação."
  const SuccessMessage := "Arquivo processado com sucesso! Faça o download abaixo."
  const MockDownloadUrl := "mock-url"

  /** `!renameRule.trim()`: the rule is empty once white space is trimmed. */
  predicate RuleBlank(rule: string)
    ensures RuleBlank(rule) <==> JsString.AllWhiteSpace(rule)
  {
    JsString.TrimEmptyIff(rule);
    JsString.Trim(rule) == ""
  }

  /** The operations that rename, and so need a model file and a rule. */
  predicate Renames(op: Operation) {
    op == Renomear || op == Ambos
  }

  /**
   * The message of the first failing submit check, or `None` when all pass.
   * With 'separar' only the input file is checked; with 'renomear' and
   * 'ambos' the model file, then the input file, then the rule.
   */
  function SubmitError(op: Operation, modelFile: Option<FileName>, inputFile: Option<FileName>, rule: string): (e: Option<string>)
    ensures e.None? <==> inputFile.Some? && (Renames(op) ==> modelFile.Some? && !RuleBlank(rule))
    ensures e.Some? ==> e.value in {SeparationInputMissing, ModelMissing, RenameInputMissing, ProcessInputMissing, RuleMissing}
  {
    match op
    case Separar =>
      if inputFile.None? then Some(SeparationInputMissing) else None
    case Renomear =>
      if modelFile.None? then Some(ModelMissing)
      else if inputFile.None? then Some(RenameInputMissing)
      else if RuleBlank(rule) then Some(RuleMissing)
      else None
    case Ambos =>
      if modelFile.None? then Some(ModelMissing)
      else if inputFile.None? then Some(ProcessInputMissing)
      else if RuleBlank(rule) then Some(RuleMissing)
      else None
  }

  /** With 'separar' the model file and the rule play no part: only the input file is checked. */
  lemma SeparateChecksOnlyInput(m1: Option<FileName>, m2: Option<FileName>, input: Option<FileName>, r1: string, r2: string)
    ensures SubmitError(Separar, m1, input, r1) == SubmitError(Separar, m2, input, r2)
    ensures SubmitError(Separar, m1, input, r1) == if input.None? then Some(SeparationInputMissing) else None
  {
  }

  /** The input-file message of each renaming operation; they differ. */
  function InputMissingFor(op: Operation): (msg: string)
    requires Renames(op)
  {
    if op == Renomear then RenameInputMissing else ProcessInputMissing
  }

  /**
   * For 'renomear' and 'ambos' the checks run in a fixed order and the first
   * that fails picks the message: model file, input file, rule.
   */
  lemma RenameCheckOrder(op: Operation, modelFile: Option<FileName>, inputFile: Option<FileName>, rule: string)
    requires Renames(op)
    ensures InputMissingFor(Renomear) != InputMissingFor(Ambos)
    ensures modelFile.None? ==> SubmitError(op, modelFile, inputFile, rule) == Some(ModelMissing)
    ensures modelFile.Some? && inputFile.None? ==>
              SubmitError(op, modelFile, inputFile, rule) == Some(InputMissingFor(op))
    ensures modelFile.Some? && inputFile.Some? && RuleBlank(rule) ==>
              SubmitError(op, modelFile, inputFile, rule) == Some(RuleMissing)
  {
  }

  /** A rule made only of white space (an empty one included) is rejected once both files are there. */
  lemma WhiteSpaceRuleRejected(op: Operation, modelFile: Option<FileName>, inputFile: Option<FileName>, rule: string)
    requires Renames(op) && modelFile.Some? && inputFile.Some?
    requires forall i :: 0 <= i < |rule| ==> JsString.IsWhiteSpace(rule[i])
    ensures SubmitError(op, modelFile, inputFile, rule) == Some(RuleMissing)
  {
    JsString.TrimEmptyIff(rule);
  }

  /** A rule with a code point that is not white space is accepted once both files are there. */
  lemma NonBlankRuleAccepted(op: Operation, modelFile: Option<FileName>, inputFile: Option<FileName>, rule: string, k: nat)
    requires Renames(op) && modelFile.Some? && inputFile.Some?
    requires k < |rule| && !JsString.IsWhiteSpace(rule[k])
    ensures SubmitError(op, modelFile, inputFile, rule) == None
  {
    JsString.TrimEmptyIff(rule);
  }

  /** The "PDF modelo" upload block is rendered. */
  predicate ModelFieldVisible(op: Operation)
    ensures ModelFieldVisible(op) <==> op != Separar
  {
    Renames(op)
  }

  /** The input-files upload block is rendered; while it is hidden the model block is shown. */
  predicate InputFieldVisible(op: Operation, modelFile: Option<FileName>)
    ensures !InputFieldVisible(op, modelFile) ==> ModelFieldVisible(op) && modelFile.None?
    ensures Renames(op) ==> (InputFieldVisible(op, modelFile) <==> modelFile.Some?)
  {
    op == Separar || modelFile.Some?
  }

  /** The rename-rule text area is rendered: only for a renaming operation, once an input file is chosen. */
  predicate RuleFieldVisible(op: Operation, inputFile: Option<FileName>)
    ensures RuleFieldVisible(op, inputFile) ==> ModelFieldVisible(op) && inputFile.Some?
    ensures op == Separar ==> !RuleFieldVisible(op, inputFile)
  {
    Renames(op) && inputFile.Some?
  }

  /** Every submit error points at a block that is on the screen. */
  lemma ErrorNamesVisibleField(op: Operation, modelFile: Option<FileName>, inputFile: Option<FileName>, rule: string)
    ensures SubmitError(op, modelFile, inputFile, rule) == Some(ModelMissing) ==> ModelFieldVisible(op)
    ensures SubmitError(op, modelFile, inputFile, rule) in {Some(SeparationInputMissing), Some(RenameInputMissing), Some(ProcessInputMissing)} ==>
              InputFieldVisible(op, modelFile)
    ensures SubmitError(op, modelFile, inputFile, rule) == Some(RuleMissing) ==> RuleFieldVisible(op, inputFile)
  {
  }

  /** The wizard component's state and its event handlers. */
  class Controller {
    var modelFile: Option<FileName>
    var inputFile: Option<FileName>
    var operation: Operation
    var renameRule: string
    var isLoading: bool
    var errorMsg: string
    var successMsg: string
    var downloadUrl: Option<string>
    /** A completion timer has been scheduled and has not fired yet. */
    ghost var timerScheduled: bool

    /**
     * Loading lasts exactly while a completion is scheduled and shows no
     * feedback; an error and a success never show together; a success
     * message and the download link come and go together.
     */
    ghost predicate Valid()
      reads this
    {
      isLoading == timerScheduled
      && (isLoading ==> errorMsg == "" && successMsg == "" && downloadUrl.None?)
      && (errorMsg != "" ==> successMsg == "" && downloadUrl.None?)
      && (successMsg != "" <==> downloadUrl.Some?)
      && (successMsg != "" ==> successMsg == SuccessMessage && downloadUrl == Some(MockDownloadUrl))
      && (errorMsg != "" ==> errorMsg in {SeparationInputMissing, ModelMissing, RenameInputMissing, ProcessInputMissing, RuleMissing})
    }

    /** The "Baixar ZIP gerado" button is rendered: exactly when the success message is. */
    predicate DownloadVisible()
      reads this
      ensures Valid() ==> (DownloadVisible() <==> successMsg != "")
      ensures Valid() && DownloadVisible() ==> !isLoading && errorMsg == ""
    {
      downloadUrl.Some?
    }

    constructor ()
      ensures Valid()
      ensures modelFile.None? && inputFile.None? && operation == Separar && renameRule == ""
      ensures !isLoading && errorMsg == "" && successMsg == "" && downloadUrl.None?
    {
      modelFile := None;
      inputFile := None;
      operation := Separar;
      renameRule := "";
      isLoading := false;
      errorMsg := "";
      successMsg := "";
      downloadUrl := None;
      timerScheduled := false;
    }

    /** `resetFeedback`: clears the error, the success message and the download link. */
    method ResetFeedback()
      requires Valid()
      modifies this`errorMsg, this`successMsg, this`downloadUrl
      ensures Valid()
      ensures errorMsg == "" && successMsg == "" && downloadUrl.None?
    {
      errorMsg := "";
      successMsg := "";
      downloadUrl := None;
    }

    /** `handleModelChange`: the chosen model file (`None` when the selection is empty), feedback cleared. */
    method HandleModelChange(file: Option<FileName>)
      requires Valid()
      modifies this`modelFile, this`errorMsg, this`successMsg, this`downloadUrl
      ensures Valid()
      ensures modelFile == file
      ensures errorMsg == "" && successMsg == "" && downloadUrl.None?
    {
      modelFile := file;
      ResetFeedback();
    }

    /** `handleInputChange`: the chosen input file, feedback cleared. */
    method HandleInputChange(file: Option<FileName>)
      requires Valid()
      modifies this`inputFile, this`errorMsg, this`successMsg, this`downloadUrl
      ensures Valid()
      ensures inputFile == file
      ensures errorMsg == "" && successMsg == "" && downloadUrl.None?
    {
      inputFile := file;
      ResetFeedback();
    }

    /** `handleOperationChange`: the new operation, with both files, the rule and the feedback cleared. */
    method HandleOperationChange(value: Operation)
      requires Valid()
      modifies this`operation, this`modelFile, this`inputFile, this`renameRule,
               this`errorMsg, this`successMsg, this`downloadUrl
      ensures Valid()
      ensures operation == value
      ensures modelFile.None? && inputFile.None? && renameRule == ""
      ensures errorMsg == "" && successMsg == "" && downloadUrl.None?
    {
      operation := value;
      modelFile := None;
      inputFile := None;
      renameRule := "";
      ResetFeedback();
    }

    /** `handleRenameRuleChange`: the rule as typed, feedback cleared. */
    method HandleRenameRuleChange(value: string)
      requires Valid()
      modifies this`renameRule, this`errorMsg, this`successMsg, this`downloadUrl
      ensures Valid()
      ensures renameRule == value
      ensures errorMsg == "" && successMsg == "" && downloadUrl.None?
    {
      renameRule := value;
      ResetFeedback();
    }

    /**
     * `handleSubmit`, first phase: clears the feedback, then either shows the
     * first failing check's message or starts loading and schedules the
     * completion. The button that calls it is disabled while loading.
     */
    method HandleSubmit()
      requires Valid() && !isLoading
      modifies this`isLoading, this`errorMsg, this`successMsg, this`downloadUrl, this`timerScheduled
      ensures Valid()
      ensures successMsg == "" && downloadUrl.None?
      ensures match SubmitError(operation, modelFile, inputFile, renameRule)
              case Some(msg) => errorMsg == msg && !isLoading && !timerScheduled
              case None => errorMsg == "" && isLoading && timerScheduled
    {
      ResetFeedback();

      if operation == Separar && inputFile.None? {
        errorMsg := SeparationInputMissing;
        return;
      }

      if operation == Renomear {
        if modelFile.None? {
          errorMsg := ModelMissing;
          return;
        }
        if inputFile.None? {
          errorMsg := RenameInputMissing;
          return;
        }
        if JsString.Trim(renameRule) == "" {
          errorMsg := RuleMissing;
          return;
        }
      }

      if operation == Ambos {
        if modelFile.None? {
          errorMsg := ModelMissing;
          return;
        }
        if inputFile.None? {
          errorMsg := ProcessInputMissing;
          return;
        }
        if JsString.Trim(renameRule) == "" {
          errorMsg := RuleMissing;
          return;
        }
      }

      isLoading := true;
      timerScheduled := true;
    }

    /** The scheduled completion fires: loading ends with the success message and the download link. */
    method Complete()
      requires Valid() && timerScheduled
      modifies this`isLoading, this`successMsg, this`downloadUrl, this`timerScheduled
      ensures Valid()
      ensures !isLoading && !timerScheduled
      ensures successMsg == SuccessMessage && downloadUrl == Some(MockDownloadUrl)
      ensures DownloadVisible()
    {
      isLoading := false;
      successMsg := SuccessMessage;
      downloadUrl := Some(MockDownloadUrl);
      timerScheduled := false;
    }
  }

  /**
   * The inputs stay enabled while loading, so an operation change between the
   * two phases wipes the files, and the completion still reports success.
   */
  method CompletionAfterOperationChange() returns (inputFile: Option<FileName>, successMsg: string, downloadVisible: bool)
    ensures inputFile.None?
    ensures successMsg == SuccessMessage && downloadVisible
  {
    var c := new Controller();
    c.HandleInputChange(Some("lote.zip"));
    assert SubmitError(c.operation, c.modelFile, c.inputFile, c.renameRule) == None;
    c.HandleSubmit();
    c.HandleOperationChange(Renomear);
    c.Complete();
    inputFile := c.inputFile;
    successMsg := c.successMsg;
    downloadVisible := c.DownloadVisible();
  }
}
