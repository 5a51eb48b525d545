/**
 * Properties of handler calls run to completion and of sequences of them: the
 * history bookkeeping around loadedHistoryId, the workflow's scenarios, and
 * what a response arriving after a restore can do, since the handlers do not
 * check whether the state they update is still the one they started from.
 */
module WorkflowProperties {
  import opened Options
  import opened Types
  import opened Gateway
  import opened Workflow

  /** One handler call run to completion, with the outcomes its service calls settled with. */
  datatype Action =
    | Select(file: ImageFile, extraction: Outcome)
    | PasteClipboard(focusInTextField: bool, clipboard: Option<seq<ImageFile>>, extraction: Outcome)
    | EditTone(text: string)
    | Regenerate(extraction: Outcome)
    | Generate(rewrites: PerType<Outcome>)
    | Refine(contentType: ContentType, refinement: Outcome)
    | EditPrompt(contentType: ContentType, text: string)
    | StartNewSession(idClock: nat, timestamp: int)
    | RestoreItem(item: HistoryItem)
    | DeleteItem(id: string)
    | EditMaster(contentType: ContentType, value: string)
    | EditToneTemplate(value: string)

  /** The state after one handler call, begin and completion with nothing in between. */
  function Apply(s: Session, a: Action): Session {
    match a
    case Select(file, extraction) => ToneExtracted(FileSelected(s, file), extraction)
    case PasteClipboard(focus, clipboard, extraction) =>
      (match PastedImage(focus, clipboard)
       case None => s
       case Some(file) => ToneExtracted(FileSelected(s, file), extraction))
    case EditTone(text) => ToneBlockEdited(s, text)
    case Regenerate(extraction) =>
      if s.selectedFile.None? then s else ToneRegenerated(RegenerateRequested(s), extraction)
    case Generate(rewrites) => PromptsGenerated(GenerationStarted(s), s.toneBlock, rewrites)
    case Refine(t, refinement) =>
      if s.result.None? then s else RefineFinished(RefineStarted(s), t, refinement)
    case EditPrompt(t, text) => PromptEdited(s, t, text)
    case StartNewSession(idClock, timestamp) => NewSession(s, idClock, timestamp)
    case RestoreItem(item) => Restored(s, item)
    case DeleteItem(id) => HistoryDeleted(s, id)
    case EditMaster(t, value) => MasterPromptEdited(s, t, value)
    case EditToneTemplate(value) => ToneBlockTemplateEdited(s, value)
  }

  /** The history panel only offers items that are in the history. */
  predicate Enabled(s: Session, a: Action) {
    a.RestoreItem? ==> a.item in s.history
  }

  function Run(s: Session, actions: seq<Action>): Session
    decreases |actions|
  {
    if actions == [] then s else Run(Apply(s, actions[0]), actions[1..])
  }

  predicate Feasible(s: Session, actions: seq<Action>)
    decreases |actions|
  {
    actions == [] || (Enabled(s, actions[0]) && Feasible(Apply(s, actions[0]), actions[1..]))
  }

  /** Some history item with this id holds exactly this result. */
  ghost predicate RecordedAs(history: seq<HistoryItem>, id: string, r: GeneratedResult) {
    exists item :: item in history && item.id == id && item.result == r
  }

  /**
   * The bookkeeping loadedHistoryId stands for: history ids are never empty,
   * and a loaded id names a history item whose snapshot is the result shown.
   */
  ghost predicate Saved(s: Session) {
    && (forall item :: item in s.history ==> item.id != "")
    && (s.loadedHistoryId.Some? ==>
          s.result.Some? && RecordedAs(s.history, s.loadedHistoryId.value, s.result.value))
  }

  /** Every handler call run to completion keeps the bookkeeping. */
  lemma ApplyKeepsSaved(s: Session, a: Action)
    requires Saved(s) && Enabled(s, a)
    ensures Saved(Apply(s, a))
  {
  }

  /** Any run of complete handler calls keeps the bookkeeping. */
  lemma {:induction false} RunKeepsSaved(s: Session, actions: seq<Action>)
    requires Saved(s) && Feasible(s, actions)
    ensures Saved(Run(s, actions))
    decreases |actions|
  {
    if actions != [] {
      ApplyKeepsSaved(s, actions[0]);
      RunKeepsSaved(Apply(s, actions[0]), actions[1..]);
    }
  }

  /** From the state on mount, every run of complete handler calls keeps the bookkeeping. */
  lemma SavedFromStart(templates: PromptTemplates, actions: seq<Action>)
    requires Feasible(Initial(templates), actions)
    ensures Saved(Run(Initial(templates), actions))
  {
    RunKeepsSaved(Initial(templates), actions);
  }

  /**
   * Under the bookkeeping, a new session leaves the result it discards in the
   * history, adding an item only when the result was not loaded from there.
   */
  lemma NewSessionSavesOnce(s: Session, idClock: nat, timestamp: int)
    requires Saved(s) && s.result.Some?
    ensures var r := NewSession(s, idClock, timestamp);
      && s.history <= r.history
      && |r.history| == |s.history| + (if s.loadedHistoryId.None? then 1 else 0)
      && exists item :: item in r.history && item.result == s.result.value
  {
  }

  /** Except for a deletion, a complete handler call never alters or drops a saved item. */
  lemma HistoryOnlyGrows(s: Session, a: Action)
    requires !a.DeleteItem?
    ensures s.history <= Apply(s, a).history
  {
  }

  /** Restoring an item and starting a new session straight away saves nothing again. */
  lemma RestoreThenNewSessionAppendsNothing(s: Session, item: HistoryItem, idClock: nat, timestamp: int)
    requires item.id != ""
    ensures NewSession(Restored(s, item), idClock, timestamp).history == s.history
  {
  }

  /** Editing one prompt of a restored result makes the next new session save the edited result. */
  lemma EditAfterRestoreAppendsOne(s: Session, item: HistoryItem, t: ContentType, text: string,
                                   idClock: nat, timestamp: int)
    ensures var edited := PromptEdited(Restored(s, item), t, text);
      && edited.loadedHistoryId == None
      && NewSession(edited, idClock, timestamp).history
         == s.history + [HistoryItem(Decimal(idClock), timestamp, item.result.WithPrompt(t, text))]
  {
  }

  /** Refining one prompt of a restored result makes the next new session save the refined result. */
  lemma RefineAfterRestoreAppendsOne(s: Session, item: HistoryItem, t: ContentType, text: string,
                                     idClock: nat, timestamp: int)
    ensures var refined := Apply(Restored(s, item), Refine(t, Ok(text)));
      && refined.loadedHistoryId == None
      && NewSession(refined, idClock, timestamp).history
         == s.history + [HistoryItem(Decimal(idClock), timestamp, item.result.WithPrompt(t, text))]
  {
  }

  /**
   * Upload, extraction, a manual edit of the tone block, a successful batch
   * and a new session save the generated prompts over the edited tone block.
   */
  lemma UploadEditGenerateScenario(s: Session, file: ImageFile, extracted: string, edited: string,
                                   rewrites: PerType<Outcome>, idClock: nat, timestamp: int)
    requires AllOk(rewrites)
    ensures var s1 := Apply(s, Select(file, Ok(extracted)));
      var s2 := Apply(s1, EditTone(edited));
      var s3 := Apply(s2, Generate(rewrites));
      var s4 := Apply(s3, StartNewSession(idClock, timestamp));
      && s1.status == ReviewTone && s1.toneBlock == extracted
      && s3.status == Success && s3.result == Some(GeneratedResult(Texts(rewrites), edited))
      && s4.status == Idle
      && s4.history == s.history + [HistoryItem(Decimal(idClock), timestamp, GeneratedResult(Texts(rewrites), edited))]
  {
  }

  /** A failed first extraction shows the error screen with an empty tone block and keeps the file. */
  lemma FailedExtraction(s: Session, file: ImageFile, message: string)
    ensures var r := Apply(s, Select(file, Err(message)));
      && r.status == Error && r.errorMsg == Some(AnalyzeFailure)
      && r.toneBlock == "" && r.result == None && r.selectedFile == Some(file)
  {
  }

  /** Regeneration does nothing without a file, and a failed one keeps the tone block under review. */
  lemma RegenerationOutcomes(s: Session, extraction: Outcome)
    ensures s.selectedFile.None? ==> Apply(s, Regenerate(extraction)) == s
    ensures s.selectedFile.Some? && extraction.Err? ==>
      var r := Apply(s, Regenerate(extraction));
      && r.status == ReviewTone && r.toneBlock == s.toneBlock
      && r.errorMsg == Some(RegenerateFailurePrefix + extraction.message)
  {
  }

  /** A failed batch leaves the previous result (none on a first generation) and returns to review. */
  lemma FailedGenerationKeepsResult(s: Session, rewrites: PerType<Outcome>)
    requires !AllOk(rewrites)
    ensures var r := Apply(s, Generate(rewrites));
      && r.status == ReviewTone && r.result == s.result && r.loadedHistoryId == None
  {
  }

  /**
   * Without a staleness check, a refinement that settles after a restore edits
   * the restored result while it is still marked as loaded, and the next new
   * session saves nothing: the refined result is dropped.
   */
  lemma LateRefinementAfterRestore(s: Session, item: HistoryItem, t: ContentType, text: string,
                                   idClock: nat, timestamp: int)
    requires s.result.Some? && item.id != ""
    requires text != item.result.prompts.Get(t)
    ensures var s3 := RefineFinished(Restored(RefineStarted(s), item), t, Ok(text));
      && s3.loadedHistoryId == Some(item.id)
      && s3.result.Some? && s3.result.value != item.result
      && NewSession(s3, idClock, timestamp).history == s.history
  {
  }

  /**
   * Likewise, a batch that settles after a restore replaces the restored
   * result while it is still marked as loaded, and the next new session saves nothing.
   */
  lemma LateGenerationAfterRestore(s: Session, item: HistoryItem, rewrites: PerType<Outcome>,
                                   idClock: nat, timestamp: int)
    requires item.id != "" && AllOk(rewrites)
    requires Texts(rewrites) != item.result.prompts
    ensures var s3 := PromptsGenerated(Restored(GenerationStarted(s), item), s.toneBlock, rewrites);
      && s3.loadedHistoryId == Some(item.id)
      && s3.result.Some? && s3.result.value != item.result
      && NewSession(s3, idClock, timestamp).history == s.history
  {
  }
}
