/** The label-selector parser behind the per-session Services. */
module Selector {
  import opened Wrappers
  import opened Text

  /** The characters `strings.TrimSpace` removes. */
  predicate IsSpace(c: char) {
    || '\t' <= c <= '\r' || c == ' ' || c == '\U{85}' || c == '\U{A0}' || c == '\U{1680}'
    || '\U{2000}' <= c <= '\U{200A}' || c == '\U{2028}' || c == '\U{2029}' || c == '\U{202F}'
    || c == '\U{205F}' || c == '\U{3000}'
  }

  /** The white space of Unicode, code point by code point. */
  lemma IsSpaceIff(c: char)
    ensures IsSpace(c) <==>
      c as int in {9, 10, 11, 12, 13, 32, 133, 160, 5760, 8192, 8193, 8194, 8195, 8196, 8197, 8198, 8199, 8200, 8201,
                   8202, 8232, 8233, 8239, 8287, 12288}
  {
  }

  function TrimLeft(s: string): string {
    if s != "" && IsSpace(s[0]) then TrimLeft(s[1..]) else s
  }

  function TrimRight(s: string): string {
    if s != "" && IsSpace(s[|s| - 1]) then TrimRight(s[..|s| - 1]) else s
  }

  function TrimSpace(s: string): string {
    TrimRight(TrimLeft(s))
  }

  /** The pair a piece of the selector stands for, if it has a '=' and a key before it. */
  function Pair(piece: string): Option<(string, string)> {
    match Cut(TrimSpace(piece))
    case None => None
    case Some((key, value)) => if key == "" then None else Some((key, value))
  }

  function Pairs(pieces: seq<string>): (pairs: seq<Option<(string, string)>>)
    ensures |pairs| == |pieces|
    ensures forall i :: 0 <= i < |pieces| ==> pairs[i] == Pair(pieces[i])
  {
    seq(|pieces|, i requires 0 <= i < |pieces| => Pair(pieces[i]))
  }

  /** Whoever looks a key up finds what the last pair for it said, and nothing else. */
  ghost predicate HoldsLastPairs(pairs: seq<Option<(string, string)>>, labels: map<string, string>) {
    && (forall i :: 0 <= i < |pairs| && pairs[i].Some? ==> pairs[i].value.0 in labels)
    && (forall key :: key in labels ==> exists i :: IsLast(pairs, i, key) && pairs[i] == Some((key, labels[key])))
  }

  /** The last pair for the key. */
  ghost predicate IsLast(pairs: seq<Option<(string, string)>>, i: int, key: string) {
    && 0 <= i < |pairs| && pairs[i].Some? && pairs[i].value.0 == key
    && forall j :: i < j < |pairs| && pairs[j].Some? ==> pairs[j].value.0 != key
  }

  /** parseSelector: on any text, later duplicates win, and only pieces without a '=' or
      without a key are dropped. */
  method ParseSelector(s: string) returns (labels: map<string, string>)
    ensures HoldsLastPairs(Pairs(Split(s, ',')), labels)
  {
    labels := map[];
    var pieces := Split(s, ',');
    ghost var pairs := Pairs(pieces);
    for n := 0 to |pieces|
      invariant HoldsLastPairs(pairs[..n], labels)
    {
      OnePairMore(pairs, n, labels);
      var halves := Cut(TrimSpace(pieces[n]));
      if halves.Some? && halves.value.0 != "" {
        labels := labels[halves.value.0 := halves.value.1];
      }
    }
    assert pairs[..|pieces|] == pairs;
  }

  function WithPair(labels: map<string, string>, pair: Option<(string, string)>): map<string, string> {
    if pair.None? then labels else labels[pair.value.0 := pair.value.1]
  }

  lemma OnePairMore(pairs: seq<Option<(string, string)>>, n: nat, labels: map<string, string>)
    requires n < |pairs| && HoldsLastPairs(pairs[..n], labels)
    ensures HoldsLastPairs(pairs[..n + 1], WithPair(labels, pairs[n]))
  {
    var after, more := WithPair(labels, pairs[n]), pairs[..n + 1];
    forall i | 0 <= i < |more| && more[i].Some?
      ensures more[i].value.0 in after
    {
      if i < n {
        assert pairs[..n][i] == more[i];
      }
    }
    forall key | key in after
      ensures exists i :: IsLast(more, i, key) && more[i] == Some((key, after[key]))
    {
      if pairs[n].Some? && pairs[n].value.0 == key {
        assert IsLast(more, n, key);
      } else {
        var i :| IsLast(pairs[..n], i, key) && pairs[..n][i] == Some((key, labels[key]));
        forall j | i < j < |more| && more[j].Some?
          ensures more[j].value.0 != key
        {
          if j < n {
            assert pairs[..n][j] == more[j];
          }
        }
        assert IsLast(more, i, key);
      }
    }
  }

  /** The answer is determined by the text. */
  lemma LabelsAreUnique(pairs: seq<Option<(string, string)>>, a: map<string, string>, b: map<string, string>)
    requires HoldsLastPairs(pairs, a) && HoldsLastPairs(pairs, b)
    ensures a == b
  {
  }

  // --- Round trip ---

  function Render(key: string, value: string): string {
    key + "=" + value
  }

  /** A label the notation can carry. */
  predicate Carried(key: string, value: string) {
    && key != "" && '=' !in key && ',' !in key && ',' !in value
    && !IsSpace(key[0]) && (value != "" ==> !IsSpace(value[|value| - 1]))
  }

  /** The rendering of a set of labels in some order. */
  function RenderAll(keys: seq<string>, labels: map<string, string>): (pieces: seq<string>)
    requires forall key :: key in keys ==> key in labels
    ensures |pieces| == |keys|
  {
    seq(|keys|, i requires 0 <= i < |keys| => Render(keys[i], labels[keys[i]]))
  }

  predicate ListsTheKeys(keys: seq<string>, labels: map<string, string>) {
    && (forall i :: 0 <= i < |keys| ==> keys[i] in labels)
    && (forall key :: key in labels ==> key in keys)
    && (forall i, j :: 0 <= i < j < |keys| ==> keys[i] != keys[j])
  }

  lemma PairOfRender(key: string, value: string)
    requires Carried(key, value)
    ensures Pair(Render(key, value)) == Some((key, value))
    ensures ',' !in Render(key, value)
  {
    CutAt(key, value);
    var text := Render(key, value);
    assert text[0] == key[0] && (value != "" ==> text[|text| - 1] == value[|value| - 1]);
    TrimSpaceTrims(text);
  }

  predicate PairsList(pairs: seq<Option<(string, string)>>, keys: seq<string>, labels: map<string, string>) {
    && |pairs| == |keys|
    && forall i :: 0 <= i < |keys| ==> keys[i] in labels && pairs[i] == Some((keys[i], labels[keys[i]]))
  }

  lemma RenderingSplits(keys: seq<string>, labels: map<string, string>)
    requires ListsTheKeys(keys, labels) && keys != []
    requires forall i :: 0 <= i < |keys| ==> Carried(keys[i], labels[keys[i]])
    ensures PairsList(Pairs(Split(Join(RenderAll(keys, labels), ','), ',')), keys, labels)
  {
    var pieces := RenderAll(keys, labels);
    forall i | 0 <= i < |pieces|
      ensures Pair(pieces[i]) == Some((keys[i], labels[keys[i]])) && ',' !in pieces[i]
    {
      PairOfRender(keys[i], labels[keys[i]]);
    }
    SplitUndoesJoin(pieces, ',');
  }

  lemma PairsListHolds(pairs: seq<Option<(string, string)>>, keys: seq<string>, labels: map<string, string>)
    requires ListsTheKeys(keys, labels) && PairsList(pairs, keys, labels)
    ensures HoldsLastPairs(pairs, labels)
  {
  }

  lemma {:induction false} TrimRightTrims(s: string)
    ensures TrimRight(s) <= s && forall i :: |TrimRight(s)| <= i < |s| ==> IsSpace(s[i])
    ensures TrimRight(s) != "" ==> !IsSpace(TrimRight(s)[|TrimRight(s)| - 1])
    ensures s != "" && !IsSpace(s[0]) ==> TrimRight(s) != ""
  {
    if s != "" && IsSpace(s[|s| - 1]) {
      TrimRightTrims(s[..|s| - 1]);
    }
  }

  lemma {:induction false} TrimLeftTrims(s: string)
    ensures TrimLeft(s) != "" ==> !IsSpace(TrimLeft(s)[0])
    ensures var n := |s| - |TrimLeft(s)|;
      n >= 0 && TrimLeft(s) == s[n..] && forall i :: 0 <= i < n ==> IsSpace(s[i])
  {
    if s != "" && IsSpace(s[0]) {
      TrimLeftTrims(s[1..]);
    }
  }

  /** `t` is `s` from position `n` on, but for space before it and after it. */
  ghost predicate LeavesOutSpace(s: string, t: string, n: nat) {
    && n + |t| <= |s| && t == s[n..n + |t|]
    && forall i :: 0 <= i < n || n + |t| <= i < |s| ==> IsSpace(s[i])
  }

  /** Trimming takes the space off both ends, and nothing else. */
  lemma TrimSpaceTrims(s: string)
    ensures var t := TrimSpace(s);
      && (exists n: nat :: LeavesOutSpace(s, t, n))
      && (t != "" ==> !IsSpace(t[0]) && !IsSpace(t[|t| - 1]))
      && (s != "" && !IsSpace(s[0]) && !IsSpace(s[|s| - 1]) ==> t == s)
    ensures forall c :: c in TrimSpace(s) ==> c in s
  {
    TrimLeftTrims(s);
    TrimRightTrims(TrimLeft(s));
    var n, t := |s| - |TrimLeft(s)|, TrimSpace(s);
    assert t == s[n..n + |t|];
    forall i | 0 <= i < n || n + |t| <= i < |s|
      ensures IsSpace(s[i])
    {
      if i >= n {
        assert s[i] == TrimLeft(s)[i - n];
      }
    }
    assert LeavesOutSpace(s, t, n);
  }

  /** Whatever the text, the parser only ever returns labels that the notation can carry. */
  lemma ParsedLabelsAreCarried(s: string, labels: map<string, string>, key: string)
    requires HoldsLastPairs(Pairs(Split(s, ',')), labels) && key in labels
    ensures Carried(key, labels[key])
  {
    var pieces := Split(s, ',');
    var i :| IsLast(Pairs(pieces), i, key) && Pairs(pieces)[i] == Some((key, labels[key]));
    assert ',' !in pieces[i];
    PairIsCarried(pieces[i], key, labels[key]);
  }

  lemma PairIsCarried(piece: string, key: string, value: string)
    requires Pair(piece) == Some((key, value)) && ',' !in piece
    ensures Carried(key, value)
  {
    TrimSpaceTrims(piece);
    var trimmed := TrimSpace(piece);
    hide TrimSpace, IsSpace, Cut, LeavesOutSpace;
    assert trimmed == key + "=" + value;
    assert trimmed[0] == key[0];
    assert value != "" ==> trimmed[|trimmed| - 1] == value[|value| - 1];
    assert forall c :: c in key || c in value ==> c in trimmed;
  }

  /** Parsing undoes rendering, in whatever order the labels are listed, exactly for the labels
      the notation can carry: a non-empty key without '=', no ',' anywhere, and no space
      around the pair. */
  lemma ParsingUndoesRenderingIff(keys: seq<string>, labels: map<string, string>, parsed: map<string, string>)
    requires ListsTheKeys(keys, labels) && keys != []
    requires HoldsLastPairs(Pairs(Split(Join(RenderAll(keys, labels), ','), ',')), parsed)
    ensures parsed == labels <==> forall key :: key in labels ==> Carried(key, labels[key])
  {
    if forall key :: key in labels ==> Carried(key, labels[key]) {
      var pairs := Pairs(Split(Join(RenderAll(keys, labels), ','), ','));
      RenderingSplits(keys, labels);
      PairsListHolds(pairs, keys, labels);
      LabelsAreUnique(pairs, parsed, labels);
    } else if parsed == labels {
      var key :| key in labels && !Carried(key, labels[key]);
      ParsedLabelsAreCarried(Join(RenderAll(keys, labels), ','), parsed, key);
    }
  }
}
