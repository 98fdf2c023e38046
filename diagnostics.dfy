/**
 The result shape shared by every rule: a diagnostic is a message and the
 path of the document location it is about.
 */
module Diagnostics {

  /** One step of a document path: an object key or an array index. */
  datatype PathSegment = Key(name: string) | Index(index: nat)

  type Path = seq<PathSegment>

  /** What the linting engine tells a rule about the node it is checking. */
  datatype Context = Context(path: Path)

  datatype Diagnostic = Diagnostic(message: string, path: Path)
}
