/**
 * The files to deploy and their binary/text classification. The content
 * sniffing itself is a parameter: the model does not re-derive it.
 */
module Files {

  newtype byte = x: int | 0 <= x < 256

  /** A file to deploy; `isBinary` is set by classification. */
  datatype FileRecord = FileRecord(path: string, content: seq<byte>, isBinary: bool)

  /** Two file lists that differ at most in their binary marks. */
  predicate SameFiles(a: seq<FileRecord>, b: seq<FileRecord>)
  {
    |a| == |b| && forall i :: 0 <= i < |a| ==> a[i].path == b[i].path && a[i].content == b[i].content
  }

  /**
   * Marks every file, in order, as binary or text by the content sniffer;
   * paths and contents are untouched.
   */
  function Classify(files: seq<FileRecord>, isBinaryFile: seq<byte> -> bool): (r: seq<FileRecord>)
    ensures SameFiles(r, files)
    ensures forall i :: 0 <= i < |r| ==> r[i].isBinary == isBinaryFile(files[i].content)
  {
    if files == [] then []
    else [files[0].(isBinary := isBinaryFile(files[0].content))] + Classify(files[1..], isBinaryFile)
  }

  /**
   * Classification reads nothing but the contents: lists that differ only
   * in their marks classify alike, so classifying twice changes nothing.
   */
  lemma ClassifyDependsOnlyOnContent(a: seq<FileRecord>, b: seq<FileRecord>, isBinaryFile: seq<byte> -> bool)
    requires SameFiles(a, b)
    ensures Classify(a, isBinaryFile) == Classify(b, isBinaryFile)
    ensures Classify(Classify(a, isBinaryFile), isBinaryFile) == Classify(a, isBinaryFile)
  {
    var ra := Classify(a, isBinaryFile);
    var rb := Classify(b, isBinaryFile);
    assert forall i :: 0 <= i < |ra| ==> ra[i] == rb[i];
    var rra := Classify(ra, isBinaryFile);
    assert forall i :: 0 <= i < |ra| ==> rra[i] == ra[i];
  }
}
