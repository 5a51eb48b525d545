/**
 * The App component as an object: each `useState` hook is a field, and each
 * handler is a method that updates the fields through the same steps as its
 * setters. A handler that awaits the AI service is split at the `await`: the
 * first method returns the request to send, the second takes the outcome the
 * service settled with. Every method is specified by the matching transition
 * of the Workflow module.
 */
module AppController {
  import opened Options
  import opened Types
  import opened Gateway
  import opened Workflow
  import TemplateEditor

  class App {
    var templates: PromptTemplates
    var selectedFile: Option<ImageFile>
    var status: AppStatus
    var toneBlock: string
    var result: Option<GeneratedResult>
    var errorMsg: Option<string>
    var history: seq<HistoryItem>
    var loadedHistoryId: Option<string>
    var isRefiningPrompt: bool

    /** The fields read as one session value. */
    function State(): Session
      reads this
    {
      Session(templates, selectedFile, status, toneBlock, result, errorMsg,
              history, loadedHistoryId, isRefiningPrompt)
    }

    /**
     * What the screen relies on to render: the SUCCESS screen always has a
     * result to show. Every method keeps it; the Saved invariant of the
     * WorkflowProperties module is the one the history proofs use.
     */
    ghost predicate Valid()
      reads this
    {
      Workflow.Valid(State())
    }

    /** The hooks' initial values, with the templates read at start-up. */
    constructor (initialTemplates: PromptTemplates)
      ensures Valid() && State() == Initial(initialTemplates)
    {
      templates := initialTemplates;
      selectedFile := None;
      status := Idle;
      toneBlock := "";
      result := None;
      errorMsg := None;
      history := [];
      loadedHistoryId := None;
      isRefiningPrompt := false;
    }

    /** handleFileSelect up to its `await`; returns the extraction request it sends. */
    method SelectFile(file: ImageFile) returns (request: ExtractRequest)
      requires Valid()
      modifies this
      ensures Valid() && State() == FileSelected(old(State()), file)
      ensures request == ExtractRequest(file, old(templates.toneBlockTemplate), None)
    {
      selectedFile := Some(file);
      status := AnalyzingTone;
      errorMsg := None;
      result := None;
      toneBlock := "";
      loadedHistoryId := None;
      request := ExtractRequest(file, templates.toneBlockTemplate, None);
    }

    /** handleFileSelect once extractToneBlock has settled. */
    method CompleteToneExtraction(extraction: Outcome)
      requires Valid()
      modifies this
      ensures Valid() && State() == ToneExtracted(old(State()), extraction)
    {
      match extraction
      case Ok(text) =>
        toneBlock := text;
        status := ReviewTone;
      case Err(_) =>
        status := Error;
        errorMsg := Some(AnalyzeFailure);
    }

    /** The window's paste listener: starts a selection only for a pasted image outside text fields. */
    method Paste(focusInTextField: bool, clipboard: Option<seq<ImageFile>>) returns (request: Option<ExtractRequest>)
      requires Valid()
      modifies this
      ensures Valid()
      ensures PastedImage(focusInTextField, clipboard).None? ==> State() == old(State()) && request == None
      ensures PastedImage(focusInTextField, clipboard).Some? ==>
        var file := PastedImage(focusInTextField, clipboard).value;
        && State() == FileSelected(old(State()), file)
        && request == Some(ExtractRequest(file, old(templates.toneBlockTemplate), None))
    {
      request := None;
      if focusInTextField {
        return;
      }
      if clipboard.Some? && |clipboard.value| > 0 {
        var file := clipboard.value[0];
        if IsImageType(file.mimeType) {
          var sent := SelectFile(file);
          request := Some(sent);
        }
      }
    }

    /** The tone-block textarea's change handler. */
    method EditToneBlock(text: string)
      requires Valid()
      modifies this
      ensures Valid() && State() == ToneBlockEdited(old(State()), text)
    {
      toneBlock := text;
    }

    /** handleRegenerateTone up to its `await`; with no selected file it returns at once. */
    method RegenerateTone(feedback: string) returns (request: Option<ExtractRequest>)
      requires Valid()
      modifies this
      ensures Valid() && State() == RegenerateRequested(old(State()))
      ensures old(selectedFile).None? ==> request == None
      ensures old(selectedFile).Some? ==>
        request == Some(ExtractRequest(old(selectedFile).value, old(templates.toneBlockTemplate), Some(feedback)))
    {
      if selectedFile.None? {
        request := None;
        return;
      }
      status := AnalyzingTone;
      request := Some(ExtractRequest(selectedFile.value, templates.toneBlockTemplate, Some(feedback)));
    }

    /** handleRegenerateTone once extractToneBlock has settled. */
    method CompleteRegeneration(extraction: Outcome)
      requires Valid()
      modifies this
      ensures Valid() && State() == ToneRegenerated(old(State()), extraction)
    {
      match extraction
      case Ok(text) =>
        toneBlock := text;
        status := ReviewTone;
      case Err(message) =>
        status := ReviewTone;
        errorMsg := Some(RegenerateFailurePrefix + message);
    }

    /**
     * handleGeneratePrompts up to its `await`; returns the four rewrite requests it
     * sends and the tone block its closure captured, which the completion needs.
     */
    method GeneratePrompts() returns (requests: PerType<RewriteRequest>, toneBlockAtCall: string)
      requires Valid()
      modifies this
      ensures Valid() && State() == GenerationStarted(old(State()))
      ensures toneBlockAtCall == old(toneBlock)
      ensures forall t :: requests.Get(t) == RewriteRequest(toneBlockAtCall, old(templates).masterPrompts.Get(t))
    {
      toneBlockAtCall := toneBlock;
      status := GeneratingPrompts;
      errorMsg := None;
      loadedHistoryId := None;
      requests := PerType(
        RewriteRequest(toneBlock, templates.masterPrompts.Get(DustCore)),
        RewriteRequest(toneBlock, templates.masterPrompts.Get(ClayCore)),
        RewriteRequest(toneBlock, templates.masterPrompts.Get(StarchCore)),
        RewriteRequest(toneBlock, templates.masterPrompts.Get(CuttingSoap)));
    }

    /**
     * handleGeneratePrompts once Promise.all has settled over the four rewrites;
     * the caller passes as `toneBlockAtCall` the tone block that GeneratePrompts
     * returned for this batch, which becomes the result's finalToneBlock.
     */
    method CompleteGeneration(toneBlockAtCall: string, rewrites: PerType<Outcome>)
      requires Valid()
      modifies this
      ensures Valid() && State() == PromptsGenerated(old(State()), toneBlockAtCall, rewrites)
    {
      if !AllOk(rewrites) {
        status := ReviewTone;
        errorMsg := Some(GenerateFailurePrefix + RejectionMessage(rewrites));
        return;
      }
      var results := Settled(rewrites);
      var finalPrompts: map<ContentType, string> := map[];
      var i := 0;
      while i < |results|
        invariant 0 <= i <= |results|
        invariant finalPrompts == Collect(results[..i])
      {
        assert results[..i + 1][..i] == results[..i];
        finalPrompts := finalPrompts[results[i].contentType := results[i].prompt];
        i := i + 1;
      }
      assert results[..i] == results;
      SettledCollectsTexts(rewrites);
      result := Some(GeneratedResult(FromMap(finalPrompts), toneBlockAtCall));
      status := Success;
    }

    /**
     * handleRefinePrompt up to its `await`; with no result it returns at once.
     * The result panel only submits while no refinement is in flight.
     */
    method RefinePrompt(t: ContentType, instruction: string) returns (request: Option<RefineRequest>)
      requires Valid() && !isRefiningPrompt
      modifies this
      ensures Valid() && State() == RefineStarted(old(State()))
      ensures old(result).None? ==> request == None
      ensures old(result).Some? ==> request == Some(RefineRequest(old(result).value.prompts.Get(t), instruction))
    {
      if result.None? {
        request := None;
        return;
      }
      isRefiningPrompt := true;
      errorMsg := None;
      loadedHistoryId := None;
      request := Some(RefineRequest(result.value.prompts.Get(t), instruction));
    }

    /** handleRefinePrompt once refinePrompt has settled, including its `finally`. */
    method CompleteRefinement(t: ContentType, refinement: Outcome)
      requires Valid()
      modifies this
      ensures Valid() && State() == RefineFinished(old(State()), t, refinement)
    {
      match refinement {
        case Ok(text) =>
          if result.Some? {
            result := Some(result.value.WithPrompt(t, text));
          }
        case Err(message) =>
          errorMsg := Some(RefineFailure(t, message));
      }
      isRefiningPrompt := false;
    }

    /** handleManualPromptUpdate */
    method UpdatePrompt(t: ContentType, text: string)
      requires Valid()
      modifies this
      ensures Valid() && State() == PromptEdited(old(State()), t, text)
    {
      if result.None? {
        return;
      }
      loadedHistoryId := None;
      result := Some(result.value.WithPrompt(t, text));
    }

    /** handleNewSession; `idClock` and `timestamp` are the two Date.now() readings. */
    method NewSession(idClock: nat, timestamp: int)
      requires Valid()
      modifies this
      ensures Valid() && State() == Workflow.NewSession(old(State()), idClock, timestamp)
    {
      if result.Some? && (loadedHistoryId.None? || loadedHistoryId.value == "") {
        var item := HistoryItem(Decimal(idClock), timestamp, result.value);
        history := history + [item];
      }
      selectedFile := None;
      toneBlock := "";
      result := None;
      errorMsg := None;
      status := Idle;
      loadedHistoryId := None;
    }

    /** handleRestoreFromHistory */
    method RestoreFromHistory(item: HistoryItem)
      requires Valid()
      modifies this
      ensures Valid() && State() == Restored(old(State()), item)
    {
      toneBlock := item.result.finalToneBlock;
      result := Some(item.result);
      status := Success;
      selectedFile := None;
      loadedHistoryId := Some(item.id);
    }

    /** handleDeleteHistory */
    method DeleteHistory(id: string)
      requires Valid()
      modifies this
      ensures Valid() && State() == HistoryDeleted(old(State()), id)
    {
      history := WithoutId(history, id);
      if loadedHistoryId == Some(id) {
        loadedHistoryId := None;
      }
    }

    /** The template editor's master-prompt textarea. */
    method EditMasterPrompt(t: ContentType, value: string)
      requires Valid()
      modifies this
      ensures Valid() && State() == MasterPromptEdited(old(State()), t, value)
    {
      templates := TemplateEditor.UpdateMasterPrompt(templates, t, value);
    }

    /** The template editor's tone-block-template textarea. */
    method EditToneBlockTemplate(value: string)
      requires Valid()
      modifies this
      ensures Valid() && State() == ToneBlockTemplateEdited(old(State()), value)
    {
      templates := TemplateEditor.UpdateToneBlockTemplate(templates, value);
    }
  }
}
