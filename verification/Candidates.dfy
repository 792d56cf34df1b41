// Candidate items, and the stroke-code filter of
// src/domains/input-engine/logic/candidate/bihuo_filter.cpp.
module Candidates {

  // engineIndex < 0: the item's place in the list is its index in the engine's own list.
  // commitText "": the item commits the text it shows.
  datatype CandidateItem = CandidateItem(text: string, isSentence: bool, engineIndex: int, commitText: string)

  function Plain(text: string): CandidateItem {
    CandidateItem(text, false, -1, "")
  }

  function EffectiveCommitText(item: CandidateItem): string {
    if item.commitText == "" then item.text else item.commitText
  }

  // Which engine item entry i of a displayed list stands for.
  function EngineIndex(items: seq<CandidateItem>, i: nat): nat
    requires i < |items|
  {
    if items[i].engineIndex >= 0 then items[i].engineIndex else i
  }

  // Stroke codes by character.
  type StrokeTable = map<string, string>

  predicate IsStrokeDigit(c: char) {
    '1' <= c <= '5'
  }

  function FirstChar(text: string): string {
    if text == "" then "" else text[..1]
  }

  // Length of raw without its trailing stroke digits.
  function StemLength(raw: string): (k: nat)
    ensures k <= |raw|
    ensures k > 0 ==> !IsStrokeDigit(raw[k - 1])
    ensures forall i :: k <= i < |raw| ==> IsStrokeDigit(raw[i])
  {
    if raw == "" || !IsStrokeDigit(raw[|raw| - 1]) then |raw| else StemLength(raw[..|raw| - 1])
  }

  // A raw of stroke digits only is not a stroke-filtered input.
  function PinyinPart(raw: string): string {
    var k := StemLength(raw);
    if k == 0 then raw else raw[..k]
  }

  function StrokeSuffix(raw: string): string {
    var k := StemLength(raw);
    if k == 0 then "" else raw[k..]
  }

  method SplitPinyinAndBihuo(raw: string) returns (pinyin: string, strokes: string)
    ensures pinyin == PinyinPart(raw) && strokes == StrokeSuffix(raw)
    ensures pinyin + strokes == raw
  {
    var split: nat := |raw|;
    while split > 0 && IsStrokeDigit(raw[split - 1])
      invariant 0 <= split <= |raw|
      invariant StemLength(raw) == StemLength(raw[..split])
    {
      assert raw[..split][..split - 1] == raw[..split - 1];
      split := split - 1;
    }
    assert raw[..|raw|] == raw;
    if split == 0 || split == |raw| {
      return raw, "";
    }
    assert raw[..split] + raw[split..] == raw;
    return raw[..split], raw[split..];
  }

  // Unlisted characters pass; listed ones need a code that starts with the strokes.
  predicate Passes(table: StrokeTable, strokes: string, item: CandidateItem) {
    var c := FirstChar(item.text);
    c in table ==> strokes <= table[c]
  }

  function FilteredFrom(items: seq<CandidateItem>, strokes: string, table: StrokeTable, i: nat): seq<CandidateItem>
    requires i <= |items|
    decreases |items| - i
  {
    if i == |items| then []
    else
      (if Passes(table, strokes, items[i]) then [items[i].(engineIndex := i)] else [])
      + FilteredFrom(items, strokes, table, i + 1)
  }

  function Filtered(items: seq<CandidateItem>, strokes: string, table: StrokeTable): seq<CandidateItem> {
    if strokes == "" then items else FilteredFrom(items, strokes, table, 0)
  }

  method FilterByBihuo(items: seq<CandidateItem>, strokes: string, table: StrokeTable) returns (r: seq<CandidateItem>)
    ensures r == Filtered(items, strokes, table)
  {
    if strokes == "" {
      return items;
    }
    r := [];
    for i := 0 to |items|
      invariant r + FilteredFrom(items, strokes, table, i) == FilteredFrom(items, strokes, table, 0)
    {
      var c := FirstChar(items[i].text);
      var keep := c !in table || strokes <= table[c];
      ghost var before, rest := r, FilteredFrom(items, strokes, table, i + 1);
      if keep {
        r := r + [items[i].(engineIndex := i)];
        assert before + ([items[i].(engineIndex := i)] + rest) == r + rest;
      } else {
        assert [] + rest == rest;
      }
    }
  }

  // Indices of the items that pass, in order, from index i on.
  function Kept(items: seq<CandidateItem>, strokes: string, table: StrokeTable, i: nat): seq<nat>
    requires i <= |items|
    decreases |items| - i
  {
    if i == |items| then []
    else (if Passes(table, strokes, items[i]) then [i] else []) + Kept(items, strokes, table, i + 1)
  }

  ghost predicate Increasing(s: seq<nat>) {
    forall j, k :: 0 <= j < k < |s| ==> s[j] < s[k]
  }

  // r is the items at the indices kept, each marked with its index, and these indices are
  // those from i on that pass, in order.
  ghost predicate KeepsFrom(items: seq<CandidateItem>, strokes: string, table: StrokeTable, i: nat,
                            kept: seq<nat>, r: seq<CandidateItem>) {
    && Increasing(kept)
    && (forall m: nat :: m in kept <==> i <= m < |items| && Passes(table, strokes, items[m]))
    && |r| == |kept|
    && (forall k :: 0 <= k < |r| ==> kept[k] < |items| && r[k] == items[kept[k]].(engineIndex := kept[k]))
  }

  lemma KeepsOneMore(items: seq<CandidateItem>, strokes: string, table: StrokeTable, i: nat,
                     kept: seq<nat>, r: seq<CandidateItem>)
    requires i < |items| && KeepsFrom(items, strokes, table, i + 1, kept, r)
    ensures if Passes(table, strokes, items[i])
            then KeepsFrom(items, strokes, table, i, [i] + kept, [items[i].(engineIndex := i)] + r)
            else KeepsFrom(items, strokes, table, i, kept, r)
  {
    hide Passes;
    forall k | 0 <= k < |kept|
      ensures i < kept[k]
    {
      assert kept[k] in kept;
    }
  }

  lemma KeepsNone(items: seq<CandidateItem>, strokes: string, table: StrokeTable)
    ensures KeepsFrom(items, strokes, table, |items|, [], [])
  {
  }

  // The filter keeps exactly the items that pass.
  lemma {:induction false} FilterKeeps(items: seq<CandidateItem>, strokes: string, table: StrokeTable, i: nat)
    requires i <= |items|
    ensures KeepsFrom(items, strokes, table, i, Kept(items, strokes, table, i), FilteredFrom(items, strokes, table, i))
    decreases |items| - i
  {
    hide Passes, KeepsFrom;
    if i == |items| {
      KeepsNone(items, strokes, table);
    } else {
      FilterKeeps(items, strokes, table, i + 1);
      var kept, r := Kept(items, strokes, table, i + 1), FilteredFrom(items, strokes, table, i + 1);
      KeepsOneMore(items, strokes, table, i, kept, r);
      assert [] + kept == kept && [] + r == r;
    }
  }

  // Item i of a list is still there, with its place in the list noted.
  ghost predicate Survives(items: seq<CandidateItem>, r: seq<CandidateItem>, i: nat)
    requires i < |items|
  {
    exists k :: 0 <= k < |r| && r[k] == items[i].(engineIndex := i)
  }

  // In terms of characters and codes: an item survives strokes if and only if its first
  // character has no code, or a code that begins with these strokes, one by one.
  lemma FilterByCodes(items: seq<CandidateItem>, strokes: string, table: StrokeTable, i: nat)
    requires i < |items| && strokes != ""
    ensures var c := if items[i].text == "" then "" else [items[i].text[0]];
            Survives(items, Filtered(items, strokes, table), i) <==>
            c in table ==> |strokes| <= |table[c]| && forall j :: 0 <= j < |strokes| ==> table[c][j] == strokes[j]
  {
    hide FilteredFrom, Kept;
    FilterKeeps(items, strokes, table, 0);
    var kept, r := Kept(items, strokes, table, 0), FilteredFrom(items, strokes, table, 0);
    var c := FirstChar(items[i].text);
    assert c == if items[i].text == "" then "" else [items[i].text[0]];
    if i in kept {
      var k :| 0 <= k < |kept| && kept[k] == i;
      assert r[k] == items[i].(engineIndex := i);
    }
    if Survives(items, r, i) {
      var k :| 0 <= k < |r| && r[k] == items[i].(engineIndex := i);
      assert kept[k] in kept && r[k] == items[kept[k]].(engineIndex := kept[k]);
    }
  }

  // The parts of an input: the strokes are all the stroke digits at its end, unless there
  // is nothing else.
  lemma SplitsExactly(raw: string, pinyin: string, strokes: string)
    ensures pinyin == PinyinPart(raw) && strokes == StrokeSuffix(raw) <==>
            && raw == pinyin + strokes
            && if forall i :: 0 <= i < |raw| ==> '1' <= raw[i] <= '5' then strokes == ""
               else
                 && pinyin != "" && !('1' <= pinyin[|pinyin| - 1] <= '5')
                 && forall i :: 0 <= i < |strokes| ==> '1' <= strokes[i] <= '5'
  {
    var k := StemLength(raw);
    hide StemLength;
    assert raw[..k] + raw[k..] == raw;
    if raw == pinyin + strokes && |pinyin| < k {
      assert raw[k - 1] == strokes[k - 1 - |pinyin|];
    } else if raw == pinyin + strokes && |pinyin| > k {
      assert pinyin[|pinyin| - 1] == raw[|pinyin| - 1];
    }
  }

  // ---- One more stroke only narrows -----------------------------------------------

  // b is the list a with some entries dropped: entry k of b is entry from[k] of a, standing
  // for the same engine item; exactly the entries that pass are kept.
  ghost predicate Narrows(a: seq<CandidateItem>, b: seq<CandidateItem>, from: seq<nat>,
                          table: StrokeTable, strokes: string) {
    && |from| == |b|
    && (forall k :: 0 <= k < |from| ==> from[k] < |a|)
    && Increasing(from)
    && (forall k :: 0 <= k < |from| ==>
          b[k] == a[from[k]].(engineIndex := EngineIndex(a, from[k])))
    && (forall m :: 0 <= m < |a| ==> (m in from <==> Passes(table, strokes, a[m])))
  }

  lemma AppendStroke(raw: string, d: char)
    requires IsStrokeDigit(d) && StemLength(raw) > 0
    ensures PinyinPart(raw + [d]) == PinyinPart(raw) && StrokeSuffix(raw + [d]) == StrokeSuffix(raw) + [d]
  {
    var longer := raw + [d];
    assert longer[..|longer| - 1] == raw;
    var k := StemLength(raw);
    assert longer[..k] == raw[..k] && longer[k..] == raw[k..] + [d];
  }

  // Positions in the sorted sequence a of the entries of the sorted sequence b.
  lemma {:induction false} SubsequenceOf(a: seq<nat>, b: seq<nat>) returns (from: seq<nat>)
    requires Increasing(a) && Increasing(b)
    requires forall k :: 0 <= k < |b| ==> b[k] in a
    ensures |from| == |b| && Increasing(from)
    ensures forall k :: 0 <= k < |from| ==> from[k] < |a| && a[from[k]] == b[k]
    decreases |b|
  {
    if b == [] {
      from := [];
    } else {
      var n := |b| - 1;
      var front := SubsequenceOf(a, b[..n]);
      var p: nat :| p < |a| && a[p] == b[n];
      forall j | 0 <= j < n
        ensures front[j] < p
      {
        assert a[front[j]] == b[j] < b[n] == a[p];
      }
      from := front + [p];
    }
  }

  // Filtering the engine's list by one more stroke drops exactly the listed characters
  // whose code does not continue that way, keeps the order, and every survivor still
  // stands for the same engine item.
  lemma OneMoreStroke(items: seq<CandidateItem>, strokes: string, d: char, table: StrokeTable)
    returns (from: seq<nat>)
    requires forall i :: 0 <= i < |items| ==> items[i].engineIndex == -1
    ensures Narrows(Filtered(items, strokes, table), Filtered(items, strokes + [d], table), from, table, strokes + [d])
  {
    hide Passes, FilteredFrom, Kept;
    var longer := strokes + [d];
    FilterKeeps(items, longer, table, 0);
    if strokes == "" {
      from := Kept(items, longer, table, 0);
    } else {
      from := NarrowerFilter(items, strokes, d, table);
    }
  }

  lemma NarrowerFilter(items: seq<CandidateItem>, strokes: string, d: char, table: StrokeTable)
    returns (from: seq<nat>)
    ensures Narrows(FilteredFrom(items, strokes, table, 0), FilteredFrom(items, strokes + [d], table, 0), from, table,
                    strokes + [d])
  {
    hide Passes, FilteredFrom, Kept;
    var longer := strokes + [d];
    FilterKeeps(items, strokes, table, 0);
    FilterKeeps(items, longer, table, 0);
    var wide, kept := Kept(items, strokes, table, 0), Kept(items, longer, table, 0);
    var a := FilteredFrom(items, strokes, table, 0);
    forall k | 0 <= k < |kept|
      ensures kept[k] in wide
    {
      assert kept[k] in kept;
      PassesShorter(table, strokes, d, items[kept[k]]);
    }
    from := SubsequenceOf(wide, kept);
    forall m | 0 <= m < |a|
      ensures m in from <==> Passes(table, longer, a[m])
    {
      PassesByText(table, longer, a[m], items[wide[m]]);
      if Passes(table, longer, a[m]) {
        assert wide[m] in kept;
        var k :| 0 <= k < |kept| && kept[k] == wide[m];
        assert wide[from[k]] == wide[m];
        assert from[k] == m;
      }
    }
  }

  lemma PassesByText(table: StrokeTable, strokes: string, a: CandidateItem, b: CandidateItem)
    requires a.text == b.text
    ensures Passes(table, strokes, a) <==> Passes(table, strokes, b)
  {
  }

  lemma PassesShorter(table: StrokeTable, strokes: string, d: char, item: CandidateItem)
    requires Passes(table, strokes + [d], item)
    ensures Passes(table, strokes, item)
  {
    assert strokes <= strokes + [d];
  }
}
