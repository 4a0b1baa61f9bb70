/** HistoryPanel: splitting a history entry into its expression and its
    result for display, and the order in which the entries are laid out. */
module Panel {
  import Strings

  /** What separates an expression from its result in an entry. */
  const SEPARATOR: string := " = "

  /** The two labels of one history item. */
  datatype Item = Item(expression: string, result: string)

  /** parseExpression: splits at the last separator; an entry without one is
      all expression and no result. The expression is always a prefix of the
      entry and the result a suffix. */
  function ParseExpression(fullExpression: string): (item: Item)
    ensures |item.expression| <= |fullExpression|
    ensures item.expression == fullExpression[..|item.expression|]
    ensures |item.result| <= |fullExpression|
    ensures item.result == fullExpression[|fullExpression| - |item.result|..]
  {
    var equalPos := Strings.LastIndexOf(fullExpression, SEPARATOR);
    if equalPos != -1 then
      Item(fullExpression[..equalPos], fullExpression[equalPos + 3..])
    else
      Item(fullExpression, "")
  }

  /** An occurrence in a suffix is an occurrence in the whole string, shifted
      by where the suffix starts. */
  lemma OccursInSuffix(s: string, from: nat, pat: string, q: int)
    requires from <= |s| && Strings.OccursAt(s[from..], pat, q)
    ensures Strings.OccursAt(s, pat, from + q)
  {
    assert s[from..][q..q + |pat|] == s[from + q..from + q + |pat|];
  }

  /** An entry holding the separator is rebuilt by joining its two parts;
      the separator between them is the last occurrence in the entry, so the
      result part holds none. An entry without a separator keeps all of its
      text as the expression. */
  lemma ParseSplitsAtLastSeparator(s: string)
    ensures Strings.Contains(s, SEPARATOR) ==>
      ParseExpression(s).expression + SEPARATOR + ParseExpression(s).result == s
      && !Strings.Contains(ParseExpression(s).result, SEPARATOR)
    ensures Strings.Contains(s, SEPARATOR) ==>
      Strings.OccursAt(s, SEPARATOR, |ParseExpression(s).expression|)
      && forall j :: |ParseExpression(s).expression| < j ==> !Strings.OccursAt(s, SEPARATOR, j)
    ensures !Strings.Contains(s, SEPARATOR) ==> ParseExpression(s) == Item(s, "")
  {
    var p := Strings.LastIndexOf(s, SEPARATOR);
    if p != -1 {
      var result := ParseExpression(s).result;
      assert result == s[p + 3..];
      assert s == s[..p] + SEPARATOR + result;
      forall q | Strings.OccursAt(result, SEPARATOR, q)
        ensures false
      {
        OccursInSuffix(s, p + 3, SEPARATOR, q);
      }
    }
  }

  lemma ParseExamples()
    ensures ParseExpression("5 + 3 = 8") == Item("5 + 3", "8")
    ensures ParseExpression("42") == Item("42", "")
  {
    var s := "5 + 3 = 8";
    assert s[6..9][0] == '=';
    assert !Strings.OccursAt(s, SEPARATOR, 6);
    assert s[5..8] == SEPARATOR;
    assert Strings.LastIndexFrom(s, SEPARATOR, 6) == 5;
    assert s[..5] == "5 + 3" && s[8..] == "8";
  }

  /** The items of a list of entries, one per entry, in the same order. */
  function Parsed(history: seq<string>): (items: seq<Item>)
    ensures |items| == |history|
    ensures forall k :: 0 <= k < |history| ==> items[k] == ParseExpression(history[k])
  {
    if history == [] then [] else [ParseExpression(history[0])] + Parsed(history[1..])
  }

  /** Parsing a suffix of the log starting at i puts entry i first. */
  lemma ParsedStep(h: seq<string>, i: int)
    requires 0 <= i < |h|
    ensures Parsed(h[i..]) == [ParseExpression(h[i])] + Parsed(h[i + 1..])
  {
    assert h[i..][1..] == h[i + 1..];
  }

  /** updateHistory: the log is walked from its oldest entry to its newest
      and every item is inserted at the top of the layout, so the layout
      shows the log in its own order, newest on top. */
  method UpdateHistory(history: seq<string>) returns (items: seq<Item>)
    ensures |items| == |history|
    ensures forall k :: 0 <= k < |history| ==> items[k] == ParseExpression(history[k])
  {
    items := [];
    var i := |history| - 1;
    while i >= 0
      invariant -1 <= i < |history|
      invariant items == Parsed(history[i + 1..])
      decreases i + 1
    {
      ParsedStep(history, i);
      var item := ParseExpression(history[i]);
      items := [item] + items;
      i := i - 1;
    }
    assert history[0..] == history;
  }
}
