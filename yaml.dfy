/**
 * The text-level root-key filter of yaml.go: a document is split into lines,
 * each line is either kept or replaced by the empty line, and the lines are
 * joined again. Whether a line is blanked depends on one flag that is
 * recomputed only at root lines (non-empty, no leading white space).
 */
module Yaml {
  import opened Strings

  /** A root line: its first character exists and is not white space. */
  predicate IsRoot(line: string) {
    |line| > 0 && !IsSpace(line[0])
  }

  /** Some key, followed immediately by ':', starts the line. */
  predicate StartsWithKey(line: string, keys: seq<string>) {
    exists k :: 0 <= k < |keys| && HasPrefix(line, keys[k] + ":")
  }

  /** The value of `isIgnoring` after line `i` has been looked at. */
  predicate IgnoringAt(lines: seq<string>, keys: seq<string>, i: nat)
    requires i < |lines|
  {
    if IsRoot(lines[i]) then StartsWithKey(lines[i], keys)
    else i > 0 && IgnoringAt(lines, keys, i - 1)
  }

  /** The blanking condition: the flag in remove mode, its negation in keep mode. */
  predicate Blanks(isIgnoring: bool, reverse: bool) {
    (isIgnoring && !reverse) || (!isIgnoring && reverse)
  }

  /** Line `i` after filtering. */
  function FilteredLine(lines: seq<string>, keys: seq<string>, reverse: bool, i: nat): string
    requires i < |lines|
  {
    if Blanks(IgnoringAt(lines, keys, i), reverse) then "" else lines[i]
  }

  /** The lines after filtering. */
  function FilterLines(lines: seq<string>, keys: seq<string>, reverse: bool): (r: seq<string>)
    ensures |r| == |lines|
    ensures forall i :: 0 <= i < |lines| ==> r[i] == FilteredLine(lines, keys, reverse, i)
  {
    seq(|lines|, i requires 0 <= i < |lines| => FilteredLine(lines, keys, reverse, i))
  }

  /** The document the filter produces. */
  function Filter(b: string, keys: seq<string>, reverse: bool): string {
    Join(FilterLines(Split(b, '\n'), keys, reverse), '\n')
  }

  /** Lines 22-23 of `yamlFilterRootKeys`: classifies a line as empty and then as root. */
  method RootLine(line: string) returns (isRoot: bool)
    ensures isRoot == IsRoot(line)
  {
    var isEmpty := |TrimSpace(line)| == 0;
    isRoot := TrimLeftSpace(line) == line && !isEmpty;
    RootLineTest(line);
  }

  /** The inner loop of `yamlFilterRootKeys`: looks for a key followed by ':' at the start of the line, stopping at the first. */
  method MatchesSomeKey(line: string, keys: seq<string>) returns (found: bool)
    ensures found == StartsWithKey(line, keys)
  {
    found := false;
    for k := 0 to |keys|
      invariant !found
      invariant forall j :: 0 <= j < k ==> !HasPrefix(line, keys[j] + ":")
    {
      if HasPrefix(line, keys[k] + ":") {
        found := true;
        break;
      }
    }
  }

  /** `yamlFilterRootKeys`: blanks the lines of the selected (or, when `reverse`, the other) root sections. */
  method FilterRootKeys(b: string, keys: seq<string>, reverse: bool) returns (r: string)
    ensures r == Filter(b, keys, reverse)
  {
    var parts := Split(b, '\n');
    var lines := new string[|parts|](i requires 0 <= i < |parts| => parts[i]);
    ghost var out := FilterLines(parts, keys, reverse);
    var isIgnoring := false;
    for i := 0 to lines.Length
      invariant isIgnoring == (i > 0 && IgnoringAt(parts, keys, i - 1))
      invariant forall k :: 0 <= k < i ==> lines[k] == out[k]
      invariant forall k :: i <= k < lines.Length ==> lines[k] == parts[k]
    {
      var line := lines[i];
      var isRoot := RootLine(line);
      if isRoot {
        isIgnoring := MatchesSomeKey(line, keys);
      }
      FlagStep(parts, keys, reverse, i);
      if (isIgnoring && !reverse) || (!isIgnoring && reverse) {
        lines[i] := "";
      }
    }
    assert lines[..] == out;
    r := Join(lines[..], '\n');
  }

  /** One step of the loop: the flag after line `i`, and line `i`'s fate, from the flag before it. */
  lemma FlagStep(lines: seq<string>, keys: seq<string>, reverse: bool, i: nat)
    requires i < |lines|
    ensures IgnoringAt(lines, keys, i) ==
      if IsRoot(lines[i]) then StartsWithKey(lines[i], keys) else i > 0 && IgnoringAt(lines, keys, i - 1)
    ensures FilterLines(lines, keys, reverse)[i] ==
      if Blanks(IgnoringAt(lines, keys, i), reverse) then "" else lines[i]
  {
  }

  /** `YAMLRemoveRootKeys`: blanks the sections whose root key is listed. */
  method RemoveRootKeys(b: string, keys: seq<string>) returns (r: string)
    ensures r == Filter(b, keys, false)
  {
    r := FilterRootKeys(b, keys, false);
  }

  /** `YAMLKeepRootKeys`: blanks every section whose root key is not listed. */
  method KeepRootKeys(b: string, keys: seq<string>) returns (r: string)
    ensures r == Filter(b, keys, true)
  {
    r := FilterRootKeys(b, keys, true);
  }

  // Properties of the filter

  /**
   * The source's test for a root line (trimming the left white space changes
   * nothing, and trimming all white space leaves something) holds exactly when
   * the line starts with a character that is not white space.
   */
  lemma RootLineTest(line: string)
    ensures (TrimLeftSpace(line) == line && |TrimSpace(line)| != 0) <==> IsRoot(line)
  {
    if IsRoot(line) {
      assert !AllSpace(line);
    }
  }

  /** The output, split again, is exactly the filtered lines: no line is added or deleted. */
  lemma {:induction false} LinesOfFilter(b: string, keys: seq<string>, reverse: bool)
    ensures Split(Filter(b, keys, reverse), '\n') == FilterLines(Split(b, '\n'), keys, reverse)
    ensures |Split(Filter(b, keys, reverse), '\n')| == |Split(b, '\n')|
  {
    var lines := FilterLines(Split(b, '\n'), keys, reverse);
    forall k | 0 <= k < |lines| ensures '\n' !in lines[k] {
      assert lines[k] == "" || lines[k] == Split(b, '\n')[k];
    }
    SplitJoin(lines, '\n');
  }

  /** Every output line is the input line at the same position, or empty. */
  lemma {:induction false} BlankedOrKept(b: string, keys: seq<string>, reverse: bool, i: nat)
    requires i < |Split(b, '\n')|
    ensures i < |Split(Filter(b, keys, reverse), '\n')|
    ensures var out := Split(Filter(b, keys, reverse), '\n')[i];
      out == Split(b, '\n')[i] || out == ""
  {
    LinesOfFilter(b, keys, reverse);
  }

  /**
   * Remove and keep mode are complementary: at every line, one of them keeps the
   * input line and the other blanks it, and the flag decides which.
   */
  lemma {:induction false} RemoveKeepComplement(b: string, keys: seq<string>, i: nat)
    requires i < |Split(b, '\n')|
    ensures i < |Split(Filter(b, keys, false), '\n')| && i < |Split(Filter(b, keys, true), '\n')|
    ensures var line := Split(b, '\n')[i];
      var removed := Split(Filter(b, keys, false), '\n')[i];
      var kept := Split(Filter(b, keys, true), '\n')[i];
      if IgnoringAt(Split(b, '\n'), keys, i) then removed == "" && kept == line
      else removed == line && kept == ""
  {
    LinesOfFilter(b, keys, false);
    LinesOfFilter(b, keys, true);
  }

  /** There is no root line in `lines[from..to]` (both ends included). */
  predicate NoRootBetween(lines: seq<string>, from: int, to: int)
    requires to < |lines|
  {
    forall m :: from <= m <= to && 0 <= m ==> !IsRoot(lines[m])
  }

  /**
   * The flag at line `i` is that of the most recent root line at or before `i`:
   * it is set iff such a root line exists and starts with a listed key.
   */
  lemma {:induction false} FlagOfLastRoot(lines: seq<string>, keys: seq<string>, i: nat)
    requires i < |lines|
    ensures IgnoringAt(lines, keys, i) <==>
      exists j :: 0 <= j <= i && IsRoot(lines[j]) && NoRootBetween(lines, j + 1, i) && StartsWithKey(lines[j], keys)
  {
    if IsRoot(lines[i]) {
      if StartsWithKey(lines[i], keys) {
        assert NoRootBetween(lines, i + 1, i);
      } else {
        forall j | 0 <= j <= i && IsRoot(lines[j]) && NoRootBetween(lines, j + 1, i)
          ensures j == i
        {
        }
      }
    } else if i > 0 {
      FlagOfLastRoot(lines, keys, i - 1);
      if IgnoringAt(lines, keys, i) {
        var j :| 0 <= j <= i - 1 && IsRoot(lines[j]) && NoRootBetween(lines, j + 1, i - 1) && StartsWithKey(lines[j], keys);
        assert NoRootBetween(lines, j + 1, i);
      } else {
        forall j | 0 <= j <= i && IsRoot(lines[j]) && NoRootBetween(lines, j + 1, i)
          ensures !StartsWithKey(lines[j], keys)
        {
          assert j <= i - 1 && NoRootBetween(lines, j + 1, i - 1);
        }
      }
    }
  }

  /** A line that is not a root line (blank or indented) inherits the flag of the line before. */
  lemma NonRootInherits(lines: seq<string>, keys: seq<string>, i: nat)
    requires 0 < i < |lines| && !IsRoot(lines[i])
    ensures IgnoringAt(lines, keys, i) == IgnoringAt(lines, keys, i - 1)
  {
  }

  /** Before the first root line the flag is off: such lines are kept in remove mode, blanked in keep mode. */
  lemma {:induction false} BeforeFirstRoot(lines: seq<string>, keys: seq<string>, i: nat)
    requires i < |lines| && NoRootBetween(lines, 0, i)
    ensures !IgnoringAt(lines, keys, i)
    ensures FilterLines(lines, keys, false)[i] == lines[i]
    ensures FilterLines(lines, keys, true)[i] == ""
  {
    if i > 0 {
      BeforeFirstRoot(lines, keys, i - 1);
    }
  }

  /** A key that starts no line changes nothing: the flag is the same with and without it. */
  lemma {:induction false} UnmatchedKeyFlag(lines: seq<string>, keys: seq<string>, key: string, i: nat)
    requires i < |lines|
    requires forall m :: 0 <= m < |lines| ==> !HasPrefix(lines[m], key + ":")
    ensures IgnoringAt(lines, keys + [key], i) == IgnoringAt(lines, keys, i)
  {
    var ks := keys + [key];
    if IsRoot(lines[i]) {
      if StartsWithKey(lines[i], ks) {
        var k :| 0 <= k < |ks| && HasPrefix(lines[i], ks[k] + ":");
        assert k < |keys| && ks[k] == keys[k];
      }
      if StartsWithKey(lines[i], keys) {
        var k :| 0 <= k < |keys| && HasPrefix(lines[i], keys[k] + ":");
        assert ks[k] == keys[k];
      }
    } else if i > 0 {
      UnmatchedKeyFlag(lines, keys, key, i - 1);
    }
  }

  /** Adding a key that matches no line leaves the output of either mode unchanged. */
  lemma UnmatchedKeyNoEffect(b: string, keys: seq<string>, key: string, reverse: bool)
    requires forall m :: 0 <= m < |Split(b, '\n')| ==> !HasPrefix(Split(b, '\n')[m], key + ":")
    ensures Filter(b, keys + [key], reverse) == Filter(b, keys, reverse)
  {
    var lines := Split(b, '\n');
    forall i | 0 <= i < |lines|
      ensures FilterLines(lines, keys + [key], reverse)[i] == FilterLines(lines, keys, reverse)[i]
    {
      UnmatchedKeyFlag(lines, keys, key, i);
    }
    assert FilterLines(lines, keys + [key], reverse) == FilterLines(lines, keys, reverse);
  }

  /** With no keys the flag is never set. */
  lemma {:induction false} NoKeysNoFlag(lines: seq<string>, i: nat)
    requires i < |lines|
    ensures !IgnoringAt(lines, [], i)
  {
    if !IsRoot(lines[i]) && i > 0 {
      NoKeysNoFlag(lines, i - 1);
    }
  }

  /** With no keys, remove mode returns the document unchanged. */
  lemma RemoveNoKeys(b: string)
    ensures Filter(b, [], false) == b
  {
    var lines := Split(b, '\n');
    forall i | 0 <= i < |lines| ensures FilterLines(lines, [], false)[i] == lines[i] {
      NoKeysNoFlag(lines, i);
    }
    assert FilterLines(lines, [], false) == lines;
    JoinSplit(b, '\n');
  }

  /** With no keys, keep mode blanks every line (the line count stays the same). */
  lemma KeepNoKeys(b: string)
    ensures Split(Filter(b, [], true), '\n') == seq(|Split(b, '\n')|, _ => "")
  {
    var lines := Split(b, '\n');
    forall i | 0 <= i < |lines| ensures FilterLines(lines, [], true)[i] == "" {
      NoKeysNoFlag(lines, i);
    }
    LinesOfFilter(b, [], true);
  }
}
