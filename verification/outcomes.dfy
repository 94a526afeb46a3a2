/** Success and failure values shared by both stage drivers.
    A JavaScript promise that rejects becomes `Fail`/`Err`; the error value
    travels unchanged to the caller, as the drivers never wrap it. */
module Outcomes {

  datatype Option<+T> = None | Some(value: T)

  /** Why a stage stopped.
      - ServiceError: a rejection with the reason an external collaborator
        gives (article fetcher, keyword extractor, image compositor). The
        collaborators are parameters of the model and may reject with any
        `Error`; the drivers pass it on unchanged and never build one.
      - TemplateNotFound: a caption was requested for a sentence index that
        has no entry in the template table (in the program this surfaces as a
        TypeError thrown while reading `.size` of `undefined`). */
  datatype Error = ServiceError(reason: string) | TemplateNotFound(index: nat)

  /** The settlement of a step that produces no value. */
  datatype Outcome = Pass | Fail(error: Error)

  /** The settlement of a step that produces a value. */
  datatype Result<+T> = Ok(value: T) | Err(error: Error)
}
