/**
 * The workflow controller of App.tsx as values: the session state the
 * component keeps in its `useState` hooks, and one pure transition per step of
 * each handler. A handler that awaits the AI service is split in two: the
 * synchronous part before the `await` and the part that runs once the call has
 * settled with a given `Outcome`. The `AppController.App` class performs these
 * same transitions on its fields.
 */
module Workflow {
  import opened Options
  import opened Types
  import opened Gateway
  import TemplateEditor

  /** The controller's state: templates, the file, status, tone block, result, message, history. */
  datatype Session = Session(
    templates: PromptTemplates,
    selectedFile: Option<ImageFile>,
    status: AppStatus,
    toneBlock: string,
    result: Option<GeneratedResult>,
    errorMsg: Option<string>,
    history: seq<HistoryItem>,
    loadedHistoryId: Option<string>,
    isRefiningPrompt: bool)

  /** The state on mount, given the templates read at start-up. */
  function Initial(templates: PromptTemplates): (s: Session)
    ensures s.templates == templates && s.status == Idle && s.selectedFile == None
    ensures s.toneBlock == "" && s.result == None && s.errorMsg == None
    ensures s.history == [] && s.loadedHistoryId == None && !s.isRefiningPrompt
  {
    Session(templates, None, Idle, "", None, None, [], None, false)
  }

  /** The SUCCESS screen is only ever shown with a result to show. */
  predicate Valid(s: Session) {
    s.status == Success ==> s.result.Some?
  }

  const AnalyzeFailure := "Failed to analyze image. Please try again."
  const RegenerateFailurePrefix := "Failed to regenerate. "
  const GenerateFailurePrefix := "Failed to generate master prompts. "

  function RefineFailure(t: ContentType, message: string): string {
    "Failed to refine " + t.Label() + " prompt. " + message
  }

  // ---------------------------------------------------------------- image selection

  /** handleFileSelect up to its `await`: a fresh analysis that forgets the previous result. */
  function FileSelected(s: Session, file: ImageFile): (r: Session)
    ensures r.selectedFile == Some(file) && r.status == AnalyzingTone
    ensures r.result == None && r.errorMsg == None && r.toneBlock == "" && r.loadedHistoryId == None
    ensures r.history == s.history && r.templates == s.templates && r.isRefiningPrompt == s.isRefiningPrompt
    ensures Valid(r)
  {
    s.(selectedFile := Some(file), status := AnalyzingTone, errorMsg := None,
       result := None, toneBlock := "", loadedHistoryId := None)
  }

  /** handleFileSelect after its `await`: review the extracted text, or report the failure. */
  function ToneExtracted(s: Session, extraction: Outcome): (r: Session)
    ensures extraction.Ok? ==> r.status == ReviewTone && r.toneBlock == extraction.text && r.errorMsg == s.errorMsg
    ensures extraction.Err? ==> r.status == Error && r.errorMsg == Some(AnalyzeFailure) && r.toneBlock == s.toneBlock
    ensures r.selectedFile == s.selectedFile && r.result == s.result && r.loadedHistoryId == s.loadedHistoryId
    ensures r.history == s.history && r.templates == s.templates && r.isRefiningPrompt == s.isRefiningPrompt
    ensures Valid(r)
  {
    match extraction
    case Ok(text) => s.(toneBlock := text, status := ReviewTone)
    case Err(_) => s.(status := Error, errorMsg := Some(AnalyzeFailure))
  }

  /** A MIME type accepted by the paste and drop handlers: it starts with "image/". */
  predicate IsImageType(mimeType: string) {
    "image/" <= mimeType
  }

  /**
   * The paste handler's guard: the file it hands to handleFileSelect, if any.
   * `clipboard` is the event's clipboardData file list (None when absent).
   */
  function PastedImage(focusInTextField: bool, clipboard: Option<seq<ImageFile>>): (r: Option<ImageFile>)
    ensures focusInTextField ==> r == None
    ensures r.Some? <==> !focusInTextField && clipboard.Some? && |clipboard.value| > 0
                         && IsImageType(clipboard.value[0].mimeType)
    ensures r.Some? ==> r.value == clipboard.value[0]
  {
    if focusInTextField then None
    else if clipboard.Some? && |clipboard.value| > 0 && IsImageType(clipboard.value[0].mimeType)
    then Some(clipboard.value[0])
    else None
  }

  /** The tone-block textarea writes its text straight into the working tone block. */
  function ToneBlockEdited(s: Session, text: string): (r: Session)
    ensures r.toneBlock == text
    ensures r.status == s.status && r.result == s.result && r.loadedHistoryId == s.loadedHistoryId
    ensures r.history == s.history && r.errorMsg == s.errorMsg && r.selectedFile == s.selectedFile
    ensures r.templates == s.templates && r.isRefiningPrompt == s.isRefiningPrompt
    ensures Valid(s) ==> Valid(r)
  {
    s.(toneBlock := text)
  }

  // ---------------------------------------------------------------- regeneration

  /** handleRegenerateTone up to its `await`; nothing happens without a selected file. */
  function RegenerateRequested(s: Session): (r: Session)
    ensures s.selectedFile.None? ==> r == s
    ensures s.selectedFile.Some? ==> r.status == AnalyzingTone
    ensures r.toneBlock == s.toneBlock && r.result == s.result && r.errorMsg == s.errorMsg
    ensures r.loadedHistoryId == s.loadedHistoryId && r.history == s.history && r.selectedFile == s.selectedFile
    ensures r.templates == s.templates && r.isRefiningPrompt == s.isRefiningPrompt
    ensures Valid(s) ==> Valid(r)
  {
    if s.selectedFile.None? then s else s.(status := AnalyzingTone)
  }

  /** handleRegenerateTone after its `await`: back to review, with the new text or the old one. */
  function ToneRegenerated(s: Session, extraction: Outcome): (r: Session)
    ensures r.status == ReviewTone
    ensures extraction.Ok? ==> r.toneBlock == extraction.text && r.errorMsg == s.errorMsg
    ensures extraction.Err? ==> r.toneBlock == s.toneBlock
                                && r.errorMsg == Some(RegenerateFailurePrefix + extraction.message)
    ensures r.selectedFile == s.selectedFile && r.result == s.result && r.loadedHistoryId == s.loadedHistoryId
    ensures r.history == s.history && r.templates == s.templates && r.isRefiningPrompt == s.isRefiningPrompt
    ensures Valid(r)
  {
    match extraction
    case Ok(text) => s.(toneBlock := text, status := ReviewTone)
    case Err(message) => s.(status := ReviewTone, errorMsg := Some(RegenerateFailurePrefix + message))
  }

  // ---------------------------------------------------------------- four-way rewrite

  /** handleGeneratePrompts up to its `await`. */
  function GenerationStarted(s: Session): (r: Session)
    ensures r.status == GeneratingPrompts && r.errorMsg == None && r.loadedHistoryId == None
    ensures r.toneBlock == s.toneBlock && r.result == s.result && r.selectedFile == s.selectedFile
    ensures r.history == s.history && r.templates == s.templates && r.isRefiningPrompt == s.isRefiningPrompt
    ensures Valid(r)
  {
    s.(status := GeneratingPrompts, errorMsg := None, loadedHistoryId := None)
  }

  /** Every one of the four rewrites succeeded (Promise.all resolves). */
  predicate AllOk(rewrites: PerType<Outcome>) {
    forall t :: rewrites.Get(t).Ok?
  }

  /** The four response texts, keyed by the type each was requested for. */
  function Texts(rewrites: PerType<Outcome>): (r: PerType<string>)
    requires AllOk(rewrites)
    ensures forall t :: r.Get(t) == rewrites.Get(t).text
  {
    PerType(rewrites.Get(DustCore).text, rewrites.Get(ClayCore).text,
            rewrites.Get(StarchCore).text, rewrites.Get(CuttingSoap).text)
  }

  /**
   * The reason Promise.all rejects with. Which rejection comes first depends on
   * timing; the model takes the first failed type in list order.
   */
  function RejectionMessage(rewrites: PerType<Outcome>): (m: string)
    requires !AllOk(rewrites)
    ensures exists t :: rewrites.Get(t) == Err(m)
  {
    if rewrites.Get(DustCore).Err? then rewrites.Get(DustCore).message
    else if rewrites.Get(ClayCore).Err? then rewrites.Get(ClayCore).message
    else if rewrites.Get(StarchCore).Err? then rewrites.Get(StarchCore).message
    else rewrites.Get(CuttingSoap).message
  }

  /**
   * handleGeneratePrompts after its `await`: all four rewrites give the result,
   * keyed by type, over the tone block the handler captured; any failure leaves
   * the previous result in place and goes back to review.
   */
  function PromptsGenerated(s: Session, toneBlockAtCall: string, rewrites: PerType<Outcome>): (r: Session)
    ensures AllOk(rewrites) ==>
      && r.status == Success
      && r.result.Some?
      && (forall t :: r.result.value.prompts.Get(t) == rewrites.Get(t).text)
      && r.result.value.finalToneBlock == toneBlockAtCall
      && r.errorMsg == s.errorMsg
    ensures !AllOk(rewrites) ==>
      && r.status == ReviewTone
      && r.result == s.result
      && exists t :: rewrites.Get(t).Err? && r.errorMsg == Some(GenerateFailurePrefix + rewrites.Get(t).message)
    ensures r.toneBlock == s.toneBlock && r.selectedFile == s.selectedFile && r.loadedHistoryId == s.loadedHistoryId
    ensures r.history == s.history && r.templates == s.templates && r.isRefiningPrompt == s.isRefiningPrompt
    ensures Valid(r)
  {
    if AllOk(rewrites) then
      s.(result := Some(GeneratedResult(Texts(rewrites), toneBlockAtCall)), status := Success)
    else
      s.(status := ReviewTone, errorMsg := Some(GenerateFailurePrefix + RejectionMessage(rewrites)))
  }

  /** One settled rewrite, `{ type, prompt }`. */
  datatype Tagged = Tagged(contentType: ContentType, prompt: string)

  /** The array Promise.all resolves to: one entry per type, in CONTENT_TYPES order. */
  function Settled(rewrites: PerType<Outcome>): seq<Tagged>
    requires AllOk(rewrites)
  {
    seq(|AllContentTypes|, i requires 0 <= i < |AllContentTypes| =>
      Tagged(AllContentTypes[i], rewrites.Get(AllContentTypes[i]).text))
  }

  /** No two settled entries are for the same type. */
  predicate DistinctTypes(results: seq<Tagged>) {
    forall i, j :: 0 <= i < j < |results| ==> results[i].contentType != results[j].contentType
  }

  /** `results.forEach(r => { finalPrompts[r.type] = r.prompt })`, starting from `{}`. */
  function Collect(results: seq<Tagged>): map<ContentType, string> {
    if results == [] then map[]
    else
      var last := results[|results| - 1];
      Collect(results[..|results| - 1])[last.contentType := last.prompt]
  }

  /** With distinct types, the collected record holds exactly each entry's prompt under its type. */
  lemma {:induction false} CollectKeyedByType(results: seq<Tagged>)
    requires DistinctTypes(results)
    ensures forall t :: t in Collect(results) <==> exists i :: 0 <= i < |results| && results[i].contentType == t
    ensures forall i :: 0 <= i < |results| ==> Collect(results)[results[i].contentType] == results[i].prompt
  {
    if results != [] {
      var n := |results| - 1;
      var init := results[..n];
      assert DistinctTypes(init);
      CollectKeyedByType(init);
      forall t ensures t in Collect(results) <==> exists i :: 0 <= i < |results| && results[i].contentType == t {
        if t in Collect(init) {
          var i :| 0 <= i < |init| && init[i].contentType == t;
          assert results[i].contentType == t;
        }
        if exists i :: 0 <= i < |results| && results[i].contentType == t {
          var i :| 0 <= i < |results| && results[i].contentType == t;
          if i < n { assert init[i].contentType == t; }
        }
      }
      forall i | 0 <= i < |results|
        ensures Collect(results)[results[i].contentType] == results[i].prompt
      {
        if i < n {
          assert init[i] == results[i];
          assert results[i].contentType != results[n].contentType;
        }
      }
    }
  }

  /** The collected record does not depend on the order in which the entries arrive. */
  lemma CollectOrderIndependent(a: seq<Tagged>, b: seq<Tagged>)
    requires DistinctTypes(a) && DistinctTypes(b)
    requires forall x :: x in a <==> x in b
    ensures Collect(a) == Collect(b)
  {
    forall t | t in Collect(a) ensures t in Collect(b) && Collect(b)[t] == Collect(a)[t] {
      CollectKeyedByType(a);
      var i :| 0 <= i < |a| && a[i].contentType == t;
      assert a[i] in b;
      var j :| 0 <= j < |b| && b[j] == a[i];
      CollectKeyedByType(b);
    }
    forall t | t in Collect(b) ensures t in Collect(a) {
      CollectKeyedByType(b);
      var j :| 0 <= j < |b| && b[j].contentType == t;
      assert b[j] in a;
      var i :| 0 <= i < |a| && a[i] == b[j];
      CollectKeyedByType(a);
    }
    assert Collect(a).Keys == Collect(b).Keys;
  }

  /** Collecting what Promise.all resolves to gives a total record equal to the four texts. */
  lemma SettledCollectsTexts(rewrites: PerType<Outcome>)
    requires AllOk(rewrites)
    ensures forall t :: t in Collect(Settled(rewrites))
    ensures FromMap(Collect(Settled(rewrites))) == Texts(rewrites)
  {
    var results := Settled(rewrites);
    ContentTypesClosed();
    assert DistinctTypes(results);
    CollectKeyedByType(results);
    forall t ensures t in Collect(results) && Collect(results)[t] == rewrites.Get(t).text {
      assert t in AllContentTypes;
      var i :| 0 <= i < |AllContentTypes| && AllContentTypes[i] == t;
      assert results[i].contentType == t;
    }
    PerTypeExtensional(FromMap(Collect(results)), Texts(rewrites));
  }

  // ---------------------------------------------------------------- refinement and manual edit

  /** handleRefinePrompt up to its `await`; nothing happens without a result. */
  function RefineStarted(s: Session): (r: Session)
    ensures s.result.None? ==> r == s
    ensures s.result.Some? ==> r.isRefiningPrompt && r.errorMsg == None && r.loadedHistoryId == None
    ensures r.result == s.result && r.status == s.status && r.toneBlock == s.toneBlock
    ensures r.history == s.history && r.selectedFile == s.selectedFile && r.templates == s.templates
    ensures Valid(s) ==> Valid(r)
  {
    if s.result.None? then s
    else s.(isRefiningPrompt := true, errorMsg := None, loadedHistoryId := None)
  }

  /** handleRefinePrompt after its `await` (and its `finally`). */
  function RefineFinished(s: Session, t: ContentType, refinement: Outcome): (r: Session)
    ensures !r.isRefiningPrompt
    ensures refinement.Ok? ==>
      && r.errorMsg == s.errorMsg
      && r.result == (if s.result.Some? then Some(s.result.value.WithPrompt(t, refinement.text)) else None)
    ensures refinement.Err? ==> r.result == s.result && r.errorMsg == Some(RefineFailure(t, refinement.message))
    ensures r.status == s.status && r.toneBlock == s.toneBlock && r.loadedHistoryId == s.loadedHistoryId
    ensures r.history == s.history && r.selectedFile == s.selectedFile && r.templates == s.templates
    ensures Valid(s) ==> Valid(r)
  {
    match refinement
    case Ok(text) =>
      s.(result := if s.result.Some? then Some(s.result.value.WithPrompt(t, text)) else None,
         isRefiningPrompt := false)
    case Err(message) =>
      s.(errorMsg := Some(RefineFailure(t, message)), isRefiningPrompt := false)
  }

  /** handleManualPromptUpdate: replace one prompt by hand; nothing happens without a result. */
  function PromptEdited(s: Session, t: ContentType, text: string): (r: Session)
    ensures s.result.None? ==> r == s
    ensures s.result.Some? ==> r.result == Some(s.result.value.WithPrompt(t, text)) && r.loadedHistoryId == None
    ensures r.status == s.status && r.toneBlock == s.toneBlock && r.errorMsg == s.errorMsg
    ensures r.history == s.history && r.selectedFile == s.selectedFile && r.isRefiningPrompt == s.isRefiningPrompt
    ensures r.templates == s.templates
    ensures Valid(s) ==> Valid(r)
  {
    if s.result.None? then s
    else s.(loadedHistoryId := None, result := Some(s.result.value.WithPrompt(t, text)))
  }

  // ---------------------------------------------------------------- sessions and history

  /** `Date.now().toString()`: the decimal digits of a clock reading. */
  function Decimal(n: nat): (r: string)
    ensures |r| >= 1
    ensures forall i :: 0 <= i < |r| ==> '0' <= r[i] <= '9'
  {
    if n < 10 then [('0' as int + n) as char]
    else Decimal(n / 10) + [('0' as int + n % 10) as char]
  }

  /** The number a string of decimal digits denotes. */
  function DecimalValue(s: string): nat
    requires forall i :: 0 <= i < |s| ==> '0' <= s[i] <= '9'
  {
    if s == [] then 0
    else 10 * DecimalValue(s[..|s| - 1]) + (s[|s| - 1] as int - '0' as int)
  }

  /** Reading back the digits of a clock reading gives the reading. */
  lemma {:induction false} DecimalRoundTrip(n: nat)
    ensures DecimalValue(Decimal(n)) == n
  {
    if n >= 10 {
      DecimalRoundTrip(n / 10);
      var r := Decimal(n);
      assert r[..|r| - 1] == Decimal(n / 10);
    }
  }

  /** History ids made from different clock readings are different. */
  lemma DecimalInjective(a: nat, b: nat)
    ensures Decimal(a) == Decimal(b) ==> a == b
  {
    DecimalRoundTrip(a);
    DecimalRoundTrip(b);
  }

  /**
   * The guard of handleNewSession, `result && !loadedHistoryId`: an empty id
   * is falsy in JavaScript and counts as unset.
   */
  predicate HoldsUnsavedResult(s: Session) {
    s.result.Some? && (s.loadedHistoryId.None? || s.loadedHistoryId.value == "")
  }

  /** handleNewSession: save an unsaved result at the end of the history, then reset. */
  function NewSession(s: Session, idClock: nat, timestamp: int): (r: Session)
    ensures HoldsUnsavedResult(s) ==>
      r.history == s.history + [HistoryItem(Decimal(idClock), timestamp, s.result.value)]
    ensures !HoldsUnsavedResult(s) ==> r.history == s.history
    ensures r.status == Idle && r.selectedFile == None && r.toneBlock == ""
    ensures r.result == None && r.errorMsg == None && r.loadedHistoryId == None
    ensures r.templates == s.templates && r.isRefiningPrompt == s.isRefiningPrompt
    ensures Valid(r)
  {
    var history := if HoldsUnsavedResult(s)
                   then s.history + [HistoryItem(Decimal(idClock), timestamp, s.result.value)]
                   else s.history;
    s.(history := history, selectedFile := None, toneBlock := "", result := None,
       errorMsg := None, status := Idle, loadedHistoryId := None)
  }

  /** handleRestoreFromHistory: show a saved result and remember which item it came from. */
  function Restored(s: Session, item: HistoryItem): (r: Session)
    ensures r.status == Success && r.result == Some(item.result) && r.toneBlock == item.result.finalToneBlock
    ensures r.selectedFile == None && r.loadedHistoryId == Some(item.id)
    ensures r.errorMsg == s.errorMsg && r.history == s.history
    ensures r.templates == s.templates && r.isRefiningPrompt == s.isRefiningPrompt
    ensures Valid(r)
  {
    s.(toneBlock := item.result.finalToneBlock, result := Some(item.result), status := Success,
       selectedFile := None, loadedHistoryId := Some(item.id))
  }

  /** `history.filter(item => item.id !== id)` */
  function WithoutId(items: seq<HistoryItem>, id: string): (r: seq<HistoryItem>)
    ensures forall x :: x in r <==> x in items && x.id != id
    ensures |r| <= |items|
  {
    if items == [] then []
    else (if items[0].id != id then [items[0]] else []) + WithoutId(items[1..], id)
  }

  /** The filter works item by item, so the kept items stay in their original order. */
  lemma {:induction false} WithoutIdConcat(a: seq<HistoryItem>, b: seq<HistoryItem>, id: string)
    ensures WithoutId(a + b, id) == WithoutId(a, id) + WithoutId(b, id)
  {
    if a == [] {
      assert a + b == b;
    } else {
      assert (a + b)[1..] == a[1..] + b;
      WithoutIdConcat(a[1..], b, id);
    }
  }

  /** Deleting an id no item has leaves the history as it was. */
  lemma {:induction false} WithoutAbsentId(items: seq<HistoryItem>, id: string)
    requires forall x :: x in items ==> x.id != id
    ensures WithoutId(items, id) == items
  {
    if items != [] {
      WithoutAbsentId(items[1..], id);
    }
  }

  /** handleDeleteHistory: drop the items with that id; the shown result stays. */
  function HistoryDeleted(s: Session, id: string): (r: Session)
    ensures r.history == WithoutId(s.history, id)
    ensures s.loadedHistoryId == Some(id) ==> r.loadedHistoryId == None
    ensures s.loadedHistoryId != Some(id) ==> r.loadedHistoryId == s.loadedHistoryId
    ensures r.result == s.result && r.status == s.status && r.toneBlock == s.toneBlock
    ensures r.errorMsg == s.errorMsg && r.selectedFile == s.selectedFile && r.templates == s.templates
    ensures r.isRefiningPrompt == s.isRefiningPrompt
    ensures Valid(s) ==> Valid(r)
  {
    s.(history := WithoutId(s.history, id),
       loadedHistoryId := if s.loadedHistoryId == Some(id) then None else s.loadedHistoryId)
  }

  // ---------------------------------------------------------------- template edits

  /** The template editor's master-prompt change, applied to the application's templates. */
  function MasterPromptEdited(s: Session, t: ContentType, value: string): (r: Session)
    ensures r.templates.masterPrompts.Get(t) == value
    ensures forall u :: u != t ==> r.templates.masterPrompts.Get(u) == s.templates.masterPrompts.Get(u)
    ensures r.templates.toneBlockTemplate == s.templates.toneBlockTemplate
    ensures r.(templates := s.templates) == s
  {
    s.(templates := TemplateEditor.UpdateMasterPrompt(s.templates, t, value))
  }

  /** The template editor's tone-block-template change, applied to the application's templates. */
  function ToneBlockTemplateEdited(s: Session, value: string): (r: Session)
    ensures r.templates.toneBlockTemplate == value
    ensures r.templates.masterPrompts == s.templates.masterPrompts
    ensures r.(templates := s.templates) == s
  {
    s.(templates := TemplateEditor.UpdateToneBlockTemplate(s.templates, value))
  }
}
