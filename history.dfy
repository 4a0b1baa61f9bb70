/** CalculationHistory: a newest-first log of expression strings, bounded by
    maxSize, saved to and loaded from a text file one entry per line. The file
    itself is outside the model: saving yields the text that would be written,
    loading takes the text that was read, or None when the file cannot be
    opened. The historyChanged signal is counted in a ghost field. */
module History {
  import Strings
  import Sequences

  const DEFAULT_MAX_SIZE: int := 20

  datatype Option<T> = None | Some(value: T)

  /** The first `maxSize` entries: what the removeLast loops leave behind. */
  function Truncated(h: seq<string>, maxSize: nat): (r: seq<string>)
    ensures |r| == if |h| <= maxSize then |h| else maxSize
    ensures r == h[..|r|]
  {
    if |h| <= maxSize then h else h[..maxSize]
  }

  /** addEntry(text) on the list: an empty text is ignored; otherwise the text
      goes in front and the oldest entries beyond maxSize are dropped. */
  function WithEntry(h: seq<string>, text: string, maxSize: nat): (r: seq<string>)
    ensures text == "" ==> r == h
    ensures text != "" ==> |r| <= maxSize && |r| == if |h| + 1 <= maxSize then |h| + 1 else maxSize
    ensures text != "" && maxSize > 0 ==> r[0] == text && r[1..] == h[..|r| - 1]
  {
    if text == "" then h else Truncated([text] + h, maxSize)
  }

  /** getLast: the newest entry, or the empty string. */
  function Newest(h: seq<string>): (r: string)
  {
    if h == [] then "" else h[0]
  }

  /** The text saveToFile writes: every entry followed by a newline, in the
      in-memory order, newest first. */
  function SaveText(h: seq<string>): (r: string)
    ensures r == "" <==> h == []
    ensures h != [] ==> r[|r| - 1] == '\n'
  {
    if h == [] then "" else h[0] + "\n" + SaveText(h[1..])
  }

  /** The index of the first newline, or the length when there is none. */
  function LineEnd(text: string): (i: nat)
    ensures i <= |text| && (i < |text| ==> text[i] == '\n')
    ensures forall k :: 0 <= k < i ==> text[k] != '\n'
  {
    if text == [] || text[0] == '\n' then 0 else 1 + LineEnd(text[1..])
  }

  /** The lines QTextStream::readLine returns until the stream is at its end:
      a final line without a newline still counts, a final newline does not
      start another line. */
  function ReadLines(text: string): (r: seq<string>)
    ensures |r| <= |text|
    ensures forall k :: 0 <= k < |r| ==> '\n' !in r[k]
    decreases |text|
  {
    if text == [] then []
    else
      var i := LineEnd(text);
      [text[..i]] + if i == |text| then [] else ReadLines(text[i + 1..])
  }

  /** A line as loadFromFile keeps it: non-empty, without white space at
      either end. */
  predicate Clean(e: string)
  {
    e != "" && !Strings.IsSpace(e[0]) && !Strings.IsSpace(e[|e| - 1])
  }

  /** One line of the file after trimming: kept unless it is blank. */
  function KeptLine(line: string): (r: seq<string>)
  {
    var t := Strings.Trimmed(line);
    if t == "" then [] else [t]
  }

  /** The first loop of loadFromFile: every line trimmed, blank lines
      dropped, in file order. */
  function KeptLines(lines: seq<string>): (r: seq<string>)
    ensures |r| <= |lines|
  {
    if lines == [] then []
    else KeptLines(lines[..|lines| - 1]) + KeptLine(lines[|lines| - 1])
  }

  /** What loadFromFile puts in the log: the kept lines back to front. No
      bound is applied. */
  function Loaded(lines: seq<string>): (r: seq<string>)
    ensures |r| <= |lines|
  {
    Sequences.Reverse(KeptLines(lines))
  }

  /** The first loop of loadFromFile: each line trimmed, blank ones skipped. */
  method KeepLines(all: seq<string>) returns (lines: seq<string>)
    ensures lines == KeptLines(all)
  {
    lines := [];
    var i := 0;
    while i < |all|
      invariant 0 <= i <= |all|
      invariant lines == KeptLines(all[..i])
    {
      KeptLinesStep(all, i);
      var line := Strings.Trimmed(all[i]);
      if line != "" {
        lines := lines + [line];
      }
      i := i + 1;
    }
    assert all[..i] == all;
  }

  /** The second loop of loadFromFile: the kept lines appended from the last
      one to the first. */
  method BackToFront(lines: seq<string>) returns (entries: seq<string>)
    ensures entries == Sequences.Reverse(lines)
  {
    entries := [];
    var j := |lines| - 1;
    while j >= 0
      invariant -1 <= j < |lines|
      invariant entries == Sequences.Reverse(lines[j + 1..])
      decreases j + 1
    {
      assert lines[j..][1..] == lines[j + 1..];
      entries := entries + [lines[j]];
      j := j - 1;
    }
  }

  lemma KeptLineClean(line: string)
    ensures |KeptLine(line)| <= 1
    ensures forall k :: 0 <= k < |KeptLine(line)| ==> Clean(KeptLine(line)[k])
  {
    var t := Strings.Trimmed(line);
    if t != "" {
      assert KeptLine(line) == [t];
    }
  }

  /** Every entry loading yields is non-empty and trimmed. */
  lemma {:induction false} KeptLinesClean(lines: seq<string>)
    ensures forall k :: 0 <= k < |KeptLines(lines)| ==> Clean(KeptLines(lines)[k])
  {
    if lines != [] {
      KeptLinesClean(lines[..|lines| - 1]);
      KeptLineClean(lines[|lines| - 1]);
    }
  }

  lemma LoadedClean(lines: seq<string>)
    ensures forall k :: 0 <= k < |Loaded(lines)| ==> Clean(Loaded(lines)[k])
  {
    KeptLinesClean(lines);
  }

  /** Entries that survive a save and a load unchanged: non-empty, without
      white space at either end, and without a line break inside. */
  ghost predicate Storable(h: seq<string>)
  {
    forall k :: 0 <= k < |h| ==> Clean(h[k]) && '\n' !in h[k]
  }

  lemma LineEndAt(text: string, i: nat)
    requires i < |text| && text[i] == '\n'
    requires forall k :: 0 <= k < i ==> text[k] != '\n'
    ensures LineEnd(text) == i
  {
  }

  /** Reading back the saved text gives the entries, when none holds a line
      break. */
  lemma {:induction false} ReadSavedText(h: seq<string>)
    requires forall k :: 0 <= k < |h| ==> '\n' !in h[k]
    ensures ReadLines(SaveText(h)) == h
  {
    if h != [] {
      var rest := SaveText(h[1..]);
      var text := SaveText(h);
      var n := |h[0]|;
      assert text == h[0] + "\n" + rest;
      assert text[n] == '\n';
      forall k | 0 <= k < n ensures text[k] != '\n' {
        assert text[k] == h[0][k];
        assert h[0][k] in h[0];
      }
      LineEndAt(text, n);
      assert text[..n] == h[0];
      assert text[n + 1..] == rest;
      ReadSavedText(h[1..]);
    }
  }

  lemma KeptLinesStep(lines: seq<string>, i: nat)
    requires i < |lines|
    ensures KeptLines(lines[..i + 1])
      == KeptLines(lines[..i]) + if Strings.Trimmed(lines[i]) == "" then [] else [Strings.Trimmed(lines[i])]
  {
    assert lines[..i + 1][..i] == lines[..i];
  }

  lemma KeptLineOfClean(e: string)
    requires Clean(e)
    ensures KeptLine(e) == [e]
  {
    Strings.TrimmedFixpoint(e);
  }

  /** Trimming and dropping blank lines keeps entries that are already clean. */
  lemma {:induction false} KeptLinesOfClean(lines: seq<string>)
    requires forall k :: 0 <= k < |lines| ==> Clean(lines[k])
    ensures KeptLines(lines) == lines
  {
    if lines != [] {
      var init, last := lines[..|lines| - 1], lines[|lines| - 1];
      calc {
        KeptLines(lines);
        KeptLines(init) + KeptLine(last);
        { KeptLinesOfClean(init); KeptLineOfClean(last); }
        init + [last];
        { assert lines == init + [last]; }
        lines;
      }
    }
  }

  /** Saving and loading again reverses the log: the file is written newest
      first and read back into the list back to front. The number of entries
      survives, but getLast afterwards is the oldest entry that was saved. */
  lemma SaveLoadReverses(h: seq<string>)
    requires Storable(h)
    ensures Loaded(ReadLines(SaveText(h))) == Sequences.Reverse(h)
    ensures |Loaded(ReadLines(SaveText(h)))| == |h|
    ensures h != [] ==> Newest(Loaded(ReadLines(SaveText(h)))) == h[|h| - 1]
  {
    ReadSavedText(h);
    KeptLinesOfClean(h);
  }

  /** Saving appends one line per entry. */
  lemma {:induction false} SaveTextAppend(h: seq<string>, e: string)
    ensures SaveText(h + [e]) == SaveText(h) + e + "\n"
    decreases |h|
  {
    if h == [] {
      assert [e][1..] == [];
    } else {
      assert (h + [e])[1..] == h[1..] + [e];
      SaveTextAppend(h[1..], e);
    }
  }

  class CalculationHistory {
    var history: seq<string>
    var maxSize: int
    ghost var changes: nat

    /** A negative bound would make the removeLast loops run on an empty list. */
    ghost predicate Valid()
      reads this
    {
      maxSize >= 0
    }

    function GetAll(): (r: seq<string>)
      reads this
    {
      history
    }

    function GetLast(): (r: string)
      reads this
      ensures history == [] ==> r == ""
      ensures history != [] ==> r == history[0]
    {
      Newest(history)
    }

    function Count(): (r: int)
      reads this
    {
      |history|
    }

    function MaxSize(): (r: int)
      reads this
    {
      maxSize
    }

    constructor ()
      ensures Valid() && history == [] && maxSize == DEFAULT_MAX_SIZE && changes == 0
    {
      history := [];
      maxSize := DEFAULT_MAX_SIZE;
      changes := 0;
    }

    method AddEntry(fullExpression: string)
      requires Valid()
      modifies this
      ensures Valid() && maxSize == old(maxSize)
      ensures history == WithEntry(old(history), fullExpression, maxSize)
      ensures fullExpression != "" ==> |history| <= maxSize
      ensures changes == old(changes) + if fullExpression == "" then 0 else 1
    {
      if fullExpression == "" {
        return;
      }
      ghost var grown := [fullExpression] + history;
      history := [fullExpression] + history;
      while |history| > maxSize
        invariant maxSize == old(maxSize) && changes == old(changes)
        invariant history == grown[..|history|]
        invariant |history| >= if |grown| <= maxSize then |grown| else maxSize
        decreases |history|
      {
        history := history[..|history| - 1];
      }
      changes := changes + 1;
    }

    method Clear()
      requires Valid()
      modifies this
      ensures Valid() && history == [] && maxSize == old(maxSize)
      ensures changes == old(changes) + 1
    {
      history := [];
      changes := changes + 1;
    }

    /** The text written to the file. */
    method SaveToFile() returns (text: string)
      ensures text == SaveText(history)
    {
      text := "";
      var i := 0;
      while i < |history|
        invariant 0 <= i <= |history|
        invariant text == SaveText(history[..i])
      {
        SaveTextAppend(history[..i], history[i]);
        assert history[..i + 1] == history[..i] + [history[i]];
        text := text + history[i] + "\n";
        i := i + 1;
      }
      assert history[..i] == history;
    }

    /** Replaces the log by the file's lines. When the file cannot be opened
        the log is kept, and historyChanged is emitted all the same. */
    method LoadFromFile(file: Option<string>)
      requires Valid()
      modifies this
      ensures Valid() && maxSize == old(maxSize)
      ensures file.None? ==> history == old(history)
      ensures file.Some? ==> history == Loaded(ReadLines(file.value))
      ensures changes == old(changes) + 1
    {
      if file.None? {
        changes := changes + 1;
        return;
      }
      var kept := KeepLines(ReadLines(file.value));
      var entries := BackToFront(kept);
      history := entries;
      changes := changes + 1;
    }

    /** Sets the bound and drops the oldest entries beyond it. */
    method SetMaxSize(newMaxSize: int)
      requires newMaxSize >= 0
      modifies this
      ensures Valid() && maxSize == newMaxSize
      ensures history == Truncated(old(history), newMaxSize) && |history| <= maxSize
      ensures changes == old(changes)
    {
      maxSize := newMaxSize;
      while |history| > maxSize
        invariant maxSize == newMaxSize && changes == old(changes)
        invariant history == old(history)[..|history|]
        invariant |history| >= if |old(history)| <= maxSize then |old(history)| else maxSize
        decreases |history|
      {
        history := history[..|history| - 1];
      }
    }
  }

  /** With the bound 3, four entries leave the three newest, newest first. */
  method KeepsNewestThree() returns (all: seq<string>, last: string)
    ensures all == ["d", "c", "b"] && last == "d"
  {
    var log := new CalculationHistory();
    log.SetMaxSize(3);
    log.AddEntry("a");
    log.AddEntry("b");
    log.AddEntry("c");
    log.AddEntry("d");
    all := log.GetAll();
    last := log.GetLast();
  }

  lemma ExampleStorable()
    ensures Storable(["4 * 2 = 8", "10 - 2 = 8", "5 + 3 = 8"])
  {
  }

  /** Three entries saved and loaded into a fresh log: three entries come
      back, and getLast is the first one added. */
  method SaveThenLoad() returns (count: int, last: string)
    ensures count == 3 && last == "5 + 3 = 8"
  {
    var log := new CalculationHistory();
    log.AddEntry("5 + 3 = 8");
    log.AddEntry("10 - 2 = 8");
    log.AddEntry("4 * 2 = 8");
    var text := log.SaveToFile();
    var h := log.GetAll();
    assert h == ["4 * 2 = 8", "10 - 2 = 8", "5 + 3 = 8"];
    ExampleStorable();
    SaveLoadReverses(h);
    var loaded := new CalculationHistory();
    loaded.LoadFromFile(Some(text));
    count := loaded.Count();
    last := loaded.GetLast();
  }
}
