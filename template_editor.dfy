/** The two functional updates the template editor applies to the stored templates. */
module TemplateEditor {
  import opened Types

  /** updateMasterPrompt: replace the master prompt of one content type. */
  function UpdateMasterPrompt(templates: PromptTemplates, t: ContentType, value: string): (r: PromptTemplates)
    ensures r.masterPrompts.Get(t) == value
    ensures forall u :: u != t ==> r.masterPrompts.Get(u) == templates.masterPrompts.Get(u)
    ensures r.toneBlockTemplate == templates.toneBlockTemplate
  {
    templates.(masterPrompts := templates.masterPrompts.Set(t, value))
  }

  /** The tone-block textarea's change handler: replace the template verbatim. */
  function UpdateToneBlockTemplate(templates: PromptTemplates, value: string): (r: PromptTemplates)
    ensures r.toneBlockTemplate == value
    ensures r.masterPrompts == templates.masterPrompts
  {
    templates.(toneBlockTemplate := value)
  }

  /** Typing the same value twice leaves the templates as typing it once. */
  lemma UpdateMasterPromptIdempotent(p: PromptTemplates, t: ContentType, v: string)
    ensures UpdateMasterPrompt(UpdateMasterPrompt(p, t, v), t, v) == UpdateMasterPrompt(p, t, v)
  {
  }

  /** Writing back the value a type already has changes nothing. */
  lemma UpdateMasterPromptWithCurrent(p: PromptTemplates, t: ContentType)
    ensures UpdateMasterPrompt(p, t, p.masterPrompts.Get(t)) == p
  {
  }

  /** Edits of two different content types commute. */
  lemma UpdateMasterPromptsCommute(p: PromptTemplates, t: ContentType, v: string, u: ContentType, w: string)
    requires t != u
    ensures UpdateMasterPrompt(UpdateMasterPrompt(p, t, v), u, w)
         == UpdateMasterPrompt(UpdateMasterPrompt(p, u, w), t, v)
  {
  }

  /** An edit of the tone-block template and an edit of a master prompt commute. */
  lemma TemplateEditsCommute(p: PromptTemplates, t: ContentType, v: string, tone: string)
    ensures UpdateToneBlockTemplate(UpdateMasterPrompt(p, t, v), tone)
         == UpdateMasterPrompt(UpdateToneBlockTemplate(p, tone), t, v)
  {
  }
}
