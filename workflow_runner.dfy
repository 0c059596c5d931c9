/** The workflow runner form: the target-language toggle, the submit validation (file
    first, then languages) and the request built from the form. The workflow API's answer
    is an input. */
module WorkflowRunner {
  import opened Base
  import Lists
  import opened FileUploader

  /** The form's configuration state. */
  datatype RunnerConfig = RunnerConfig(
    sourceLanguage: string,
    targetLanguages: seq<string>,
    asrModel: string,
    mtModel: string,
    contextModel: string,
    qaModel: string,
    streaming: bool,
    qualityThreshold: real)

  /** The request sent to the workflow API. */
  datatype WorkflowRequest = WorkflowRequest(
    videoPath: string,
    sourceLanguage: string,
    targetLanguages: seq<string>,
    asr: string,
    mt: string,
    context: string,
    qa: string,
    streaming: bool,
    qualityThreshold: real)

  /** The form as first rendered. */
  const InitialConfig: RunnerConfig :=
    RunnerConfig("en", ["hi"], "whisper-large-v3", "google-nmt", "gemini-pro", "isn-qa", false, 0.8)

  /** `handleTargetLanguageToggle`: only the target list changes, by the toggle idiom. */
  function ToggleTargetLanguage(config: RunnerConfig, lang: string): (r: RunnerConfig)
    ensures r == config.(targetLanguages := r.targetLanguages)
    ensures lang in r.targetLanguages <==> lang !in config.targetLanguages
    ensures forall l :: l != lang ==> (l in r.targetLanguages <==> l in config.targetLanguages)
    ensures lang !in config.targetLanguages ==> r.targetLanguages == config.targetLanguages + [lang]
  {
    config.(targetLanguages := Lists.Toggle(config.targetLanguages, lang))
  }

  /** Toggling the same language twice restores every language's membership. */
  lemma ToggleTargetLanguageTwice(config: RunnerConfig, lang: string)
    ensures var twice := ToggleTargetLanguage(ToggleTargetLanguage(config, lang), lang);
      forall l :: l in twice.targetLanguages <==> l in config.targetLanguages
  {
    Lists.ToggleTwice(config.targetLanguages, lang);
  }

  /** The request `handleSubmit` builds from a file and the form. */
  function BuildRequest(file: File, config: RunnerConfig): (req: WorkflowRequest)
    ensures req.videoPath == file.name
    ensures req.sourceLanguage == config.sourceLanguage && req.targetLanguages == config.targetLanguages
    ensures req.asr == config.asrModel && req.mt == config.mtModel
    ensures req.context == config.contextModel && req.qa == config.qaModel
    ensures req.streaming == config.streaming && req.qualityThreshold == config.qualityThreshold
  {
    WorkflowRequest(file.name, config.sourceLanguage, config.targetLanguages, config.asrModel,
                    config.mtModel, config.contextModel, config.qaModel, config.streaming,
                    config.qualityThreshold)
  }

  /** The validation half of `handleSubmit`: the missing file is reported before an empty
      target list, and only a complete form yields a request. */
  function CheckSubmission(file: Option<File>, config: RunnerConfig): (r: Result<WorkflowRequest, string>)
    ensures file.None? ==> r == Err("Please select a file to upload")
    ensures file.Some? && config.targetLanguages == [] ==> r == Err("Please select at least one target language")
    ensures r.Ok? <==> file.Some? && config.targetLanguages != []
    ensures r.Ok? ==> r.value == BuildRequest(file.value, config)
  {
    if file.None? then Err("Please select a file to upload")
    else if config.targetLanguages == [] then Err("Please select at least one target language")
    else Ok(BuildRequest(file.value, config))
  }

  /** With a file chosen, the initial form can be submitted as it stands. */
  lemma InitialConfigSubmits(file: File)
    ensures CheckSubmission(Some(file), InitialConfig).Ok?
    ensures CheckSubmission(Some(file), InitialConfig).value.targetLanguages == ["hi"]
    ensures CheckSubmission(Some(file), InitialConfig).value.sourceLanguage == "en"
    ensures !CheckSubmission(Some(file), InitialConfig).value.streaming
  {
  }

  /** The page's state variables; `sent` records the requests handed to the API. */
  class RunnerView {
    var file: Option<File>
    var loading: bool
    var error: string
    var config: RunnerConfig
    var sent: seq<WorkflowRequest>

    constructor ()
      ensures file == None && !loading && error == "" && config == InitialConfig && sent == []
    {
      file := None;
      loading := false;
      error := "";
      config := InitialConfig;
      sent := [];
    }

    /** `handleFileSelect`: keep the file and clear the error. */
    method SelectFile(f: File)
      modifies this
      ensures file == Some(f) && error == ""
      ensures loading == old(loading) && config == old(config) && sent == old(sent)
    {
      file := Some(f);
      error := "";
    }

    method ToggleLanguage(lang: string)
      modifies this
      ensures config == ToggleTargetLanguage(old(config), lang)
      ensures file == old(file) && loading == old(loading) && error == old(error) && sent == old(sent)
    {
      config := ToggleTargetLanguage(config, lang);
    }

    /** `handleSubmit`. An incomplete form only sets the error. A complete one is sent
        once; the API answers with the new job id (navigated to) or with an error whose
        message, or a fallback, is shown. */
    method Submit(answer: Result<string, Option<string>>) returns (navigateTo: Option<string>)
      modifies this
      ensures var check := CheckSubmission(old(file), old(config));
        && (check.Err? ==> error == check.error && sent == old(sent) && navigateTo == None)
        && (check.Ok? ==> sent == old(sent) + [check.value])
        && (check.Ok? && answer.Ok? ==>
              navigateTo == Some("/dashboard/workflows/" + answer.value) && error == "")
        && (check.Ok? && answer.Err? ==>
              navigateTo == None && error == OrStr(answer.error, "Failed to start workflow"))
      ensures loading == (if CheckSubmission(old(file), old(config)).Ok? then false else old(loading))
      ensures file == old(file) && config == old(config)
    {
      navigateTo := None;
      error := "";
      var check := CheckSubmission(file, config);
      if check.Err? {
        error := check.error;
        return;
      }
      loading := true;
      sent := sent + [check.value];
      if answer.Ok? {
        navigateTo := Some("/dashboard/workflows/" + answer.value);
      } else {
        error := OrStr(answer.error, "Failed to start workflow");
      }
      loading := false;
    }
  }
}
