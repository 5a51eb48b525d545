/**
 * What the workflow controller exchanges with the generative-AI service. The
 * service itself is not part of this model: each call is represented by the
 * request the controller sends and the outcome the caller supplies.
 */
module Gateway {
  import opened Options

  /** A browser File as far as the workflow looks at it: its name and MIME type. */
  datatype ImageFile = ImageFile(name: string, mimeType: string)

  /** A settled call: the trimmed response text, or the message of the thrown error. */
  datatype Outcome = Ok(text: string) | Err(message: string)

  /** extractToneBlock(file, template, feedback?) */
  datatype ExtractRequest = ExtractRequest(image: ImageFile, template: string, feedback: Option<string>)

  /** rewriteMasterPrompt(toneBlock, masterTemplate) */
  datatype RewriteRequest = RewriteRequest(toneBlock: string, masterTemplate: string)

  /** refinePrompt(currentPrompt, instruction) */
  datatype RefineRequest = RefineRequest(currentPrompt: string, instruction: string)
}
