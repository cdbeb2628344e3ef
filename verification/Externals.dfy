/** Services the program calls but does not define, as uninterpreted functions that
    may also fail: whether a call fails is said separately, call by call. */
module Externals {
  import opened Basics
  import opened Text
  import opened Encodings
  import opened ResumeFit
  import opened VectorStore
  import opened Schema

  datatype Externals = Externals(
    pdfText: Bytes -> Option<string>,
    utf8Text: Bytes -> string,
    extractor: string -> ParsedData,
    embed: seq<string> -> seq<Vector>,
    rank: (Vector, Collection) -> seq<Point>,
    judge: (VerdictScore, seq<string>, string) -> (Label, string))

  /** `extract_text`; `None` is any exception, UnsupportedFileTypeError included. */
  function ExtractText(ext: Externals, content: Bytes, filename: string): Option<string> {
    var suffix := Suffix(filename);
    if suffix == "pdf" then ext.pdfText(content)
    else if suffix == "txt" || suffix == "md" then Some(ext.utf8Text(content))
    else None
  }

  /** A file is extracted from under its object key just as under its submitted name, and
      extraction fails exactly for a missing or unknown suffix, or a PDF that cannot be read. */
  lemma {:induction false} ExtractionIgnoresPrefix(ext: Externals, content: Bytes, org: Uuid, resumeId: Uuid,
                                                   filename: string)
    ensures ExtractText(ext, content, ObjectKey(org, resumeId, filename)) == ExtractText(ext, content, filename)
    ensures ExtractText(ext, content, filename).None? <==>
      Suffix(filename) !in {"pdf", "txt", "md"} || (Suffix(filename) == "pdf" && ext.pdfText(content).None?)
  {
    SuffixOfObjectKey(org, resumeId, filename);
  }

  /** Which extraction a name gets: that of the kind which its extension is in lower case, so
      that of "pdf" for "CV.PDF", and none without an extension. */
  lemma {:induction false} ExtractionExactly(ext: Externals, content: Bytes, name: string, extension: string,
                                             kind: string)
    requires '.' !in extension && LowerText(kind, extension)
    ensures ExtractText(ext, content, name + "." + extension)
         == if kind == "pdf" then ext.pdfText(content)
            else if kind == "txt" || kind == "md" then Some(ext.utf8Text(content))
            else None
    ensures '.' !in name ==> ExtractText(ext, content, name) == None
  {
    SuffixExactly(name, extension);
    assert kind == Lower(extension);
  }
}
