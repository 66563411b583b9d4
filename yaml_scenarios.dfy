/**
 * The two cases of yaml_test.go, stated over the filter's specification. The
 * test document is written as its lines; joined with "\n" they give the text
 * of the test (it starts and ends with a line break).
 */
module YamlScenarios {
  import opened Strings
  import opened Yaml

  /** The test document: four root sections with blank lines between them. */
  const DocumentLines := ["", "key1:", "  key11: 11", "", "key2: true", "", "key3:", "  key31: 31", "", "key4:", "  key41: 41", ""]

  const Document := Join(DocumentLines, '\n')

  /** `key3x` starts no line of the document. */
  const Keys := ["key2", "key3", "key3x"]

  /** `n` empty lines. */
  function Blank(n: nat): (r: seq<string>)
    ensures |r| == n && forall i :: 0 <= i < n ==> r[i] == ""
  {
    seq(n, _ => "")
  }

  /** Two texts that differ at position `i` do not start the same way. */
  lemma DiffersAt(s: string, prefix: string, i: nat)
    requires i < |prefix| && i < |s| && s[i] != prefix[i]
    ensures !HasPrefix(s, prefix)
  {
  }

  /** The flag of every line of the test document: set from `key2:` up to the line before `key4:`. */
  lemma {:induction false} DocumentFlags(i: nat)
    requires i < |DocumentLines|
    ensures IgnoringAt(DocumentLines, Keys, i) <==> 4 <= i <= 8
  {
    var ls := DocumentLines;
    assert HasPrefix(ls[4], Keys[0] + ":");
    assert HasPrefix(ls[6], Keys[1] + ":");
    DiffersAt(ls[1], Keys[0] + ":", 3);
    DiffersAt(ls[1], Keys[1] + ":", 3);
    DiffersAt(ls[1], Keys[2] + ":", 3);
    DiffersAt(ls[9], Keys[0] + ":", 3);
    DiffersAt(ls[9], Keys[1] + ":", 3);
    DiffersAt(ls[9], Keys[2] + ":", 3);
    if i > 0 { DocumentFlags(i - 1); }
  }

  lemma DocumentSplit()
    ensures Split(Document, '\n') == DocumentLines
  {
    SplitJoin(DocumentLines, '\n');
  }

  /** The lines the remove case expects: the key2 and key3 sections (lines 4 to 8) blanked. */
  const RemovedLines := DocumentLines[..4] + Blank(5) + DocumentLines[9..]

  /** The lines the keep case expects: everything but lines 4 to 8 blanked. */
  const KeptLines := Blank(4) + DocumentLines[4..9] + Blank(3)

  lemma {:induction false} FilteredDocumentLines(reverse: bool)
    ensures FilterLines(DocumentLines, Keys, reverse) == if reverse then KeptLines else RemovedLines
  {
    var out := FilterLines(DocumentLines, Keys, reverse);
    var expected := if reverse then KeptLines else RemovedLines;
    forall i | 0 <= i < |DocumentLines| ensures out[i] == expected[i] {
      DocumentFlags(i);
    }
    assert |out| == |expected|;
  }

  /**
   * yaml_test.go:11-34: removing key2, key3 and key3x blanks the key2 and key3
   * sections and keeps every other line and the line count.
   */
  lemma RemoveScenario()
    ensures Split(Filter(Document, Keys, false), '\n') == RemovedLines
  {
    DocumentSplit();
    LinesOfFilter(Document, Keys, false);
    FilteredDocumentLines(false);
  }

  /**
   * yaml_test.go:38-63: keeping key2, key3 and key3x keeps the key2 and key3
   * sections and blanks every other line, with the same line count.
   */
  lemma KeepScenario()
    ensures Split(Filter(Document, Keys, true), '\n') == KeptLines
  {
    DocumentSplit();
    LinesOfFilter(Document, Keys, true);
    FilteredDocumentLines(true);
  }
}
