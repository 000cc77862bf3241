/** Splitting text at a separator and cutting it at the first '=', as the standard libraries do. */
module Text {
  import opened Wrappers

  predicate Free(pieces: seq<string>, sep: char) {
    forall piece :: piece in pieces ==> sep !in piece
  }

  function Split(text: string, sep: char): (pieces: seq<string>)
    ensures pieces != [] && Free(pieces, sep)
  {
    if text == "" then [""]
    else if text[0] == sep then [""] + Split(text[1..], sep)
    else var rest := Split(text[1..], sep); [[text[0]] + rest[0]] + rest[1..]
  }

  function Join(pieces: seq<string>, sep: char): string
    requires pieces != []
  {
    if |pieces| == 1 then pieces[0] else pieces[0] + [sep] + Join(pieces[1..], sep)
  }

  lemma {:induction false} JoinUndoesSplit(text: string, sep: char)
    ensures Join(Split(text, sep), sep) == text
  {
    if text == "" {
    } else {
      JoinUndoesSplit(text[1..], sep);
      var rest := Split(text[1..], sep);
      if text[0] == sep {
        assert ([""] + rest)[1..] == rest;
      } else {
        assert ([[text[0]] + rest[0]] + rest[1..])[1..] == rest[1..];
        assert text == [text[0]] + text[1..];
      }
    }
  }

  lemma {:induction false} SplitWhole(text: string, sep: char)
    requires sep !in text
    ensures Split(text, sep) == [text]
  {
    if text == "" {
    } else {
      SplitWhole(text[1..], sep);
      assert text == [text[0]] + text[1..];
    }
  }

  /** The pieces of a text with one more character in front. */
  function Extended(c: char, pieces: seq<string>, sep: char): seq<string>
    requires pieces != []
  {
    if c == sep then [""] + pieces else [[c] + pieces[0]] + pieces[1..]
  }

  lemma SplitExtended(c: char, text: string, sep: char)
    ensures Split([c] + text, sep) == Extended(c, Split(text, sep), sep)
  {
    assert ([c] + text)[1..] == text;
  }

  lemma ExtendedAcross(c: char, first: seq<string>, more: seq<string>, sep: char)
    requires first != []
    ensures Extended(c, first + more, sep) == Extended(c, first, sep) + more
  {
  }

  /** Splitting goes separator by separator. */
  lemma {:induction false} SplitAcross(a: string, b: string, sep: char)
    ensures Split(a + [sep] + b, sep) == Split(a, sep) + Split(b, sep)
  {
    hide Extended;
    if a == "" {
      assert a + [sep] + b == [sep] + b;
    } else {
      var c, rest := a[0], a[1..] + [sep] + b;
      SplitAcross(a[1..], b, sep);
      SplitExtended(c, a[1..], sep);
      SplitExtended(c, rest, sep);
      ExtendedAcross(c, Split(a[1..], sep), Split(b, sep), sep);
      hide Split;
      assert a == [c] + a[1..];
      assert a + [sep] + b == [c] + rest;
    }
  }

  lemma {:induction false} SplitUndoesJoin(pieces: seq<string>, sep: char)
    requires pieces != [] && Free(pieces, sep)
    ensures Split(Join(pieces, sep), sep) == pieces
  {
    SplitWhole(pieces[0], sep);
    if |pieces| > 1 {
      SplitUndoesJoin(pieces[1..], sep);
      SplitAcross(pieces[0], Join(pieces[1..], sep), sep);
    }
  }

  /** What a piece starts with up to a separator of its own is a piece of the split again. */
  lemma {:induction false} SplitKeeps(pieces: seq<string>, sep: char, i: nat)
    requires i < |pieces|
    ensures Split(pieces[i], sep)[0] in Split(Join(pieces, sep), sep)
  {
    if |pieces| > 1 {
      SplitAcross(pieces[0], Join(pieces[1..], sep), sep);
      if i > 0 {
        SplitKeeps(pieces[1..], sep, i - 1);
      }
    }
  }

  lemma {:induction false} SplitHead(prefix: string, text: string, sep: char)
    requires sep !in prefix && prefix <= text
    ensures prefix <= Split(text, sep)[0]
  {
    if prefix == "" {
    } else {
      assert text[0] == prefix[0] && prefix[1..] <= text[1..];
      SplitHead(prefix[1..], text[1..], sep);
      assert prefix == [prefix[0]] + prefix[1..];
    }
  }

  /** The last piece is empty exactly when the text is, or ends with the separator. */
  lemma {:induction false} SplitEnds(text: string, sep: char)
    ensures Split(text, sep)[|Split(text, sep)| - 1] == "" <==> text == "" || text[|text| - 1] == sep
  {
    if |text| == 1 {
      assert Split(text[1..], sep) == [""];
    } else if |text| > 1 {
      SplitEnds(text[1..], sep);
    }
  }

  /** No piece holds a character the text does not, and the other way round. */
  lemma {:induction false} SplitAddsNothing(text: string, sep: char, c: char)
    requires c !in text
    ensures forall piece :: piece in Split(text, sep) ==> c !in piece
  {
    if text == "" {
    } else {
      SplitAddsNothing(text[1..], sep, c);
    }
  }

  lemma {:induction false} JoinAddsNothing(pieces: seq<string>, sep: char, c: char)
    requires pieces != [] && c != sep
    requires forall piece :: piece in pieces ==> c !in piece
    ensures c !in Join(pieces, sep)
  {
    if |pieces| > 1 {
      JoinAddsNothing(pieces[1..], sep, c);
    }
  }

  /** Before and after the first '='. */
  function Cut(text: string): (r: Option<(string, string)>)
    ensures r.Some? <==> '=' in text
    ensures r.Some? ==> text == r.value.0 + "=" + r.value.1 && '=' !in r.value.0
  {
    if text == "" then None
    else if text[0] == '=' then Some(("", text[1..]))
    else
      match Cut(text[1..])
      case None => None
      case Some(halves) => Some(([text[0]] + halves.0, halves.1))
  }

  lemma {:induction false} CutAt(before: string, after: string)
    requires '=' !in before
    ensures Cut(before + "=" + after) == Some((before, after))
  {
    var text := before + "=" + after;
    if before == "" {
      assert text[1..] == after;
    } else {
      CutAt(before[1..], after);
      assert text[1..] == before[1..] + "=" + after;
      assert before == [before[0]] + before[1..];
    }
  }

  /** Starting with `key=` is being cut at that key. */
  lemma CutIsPrefix(text: string, key: string)
    requires '=' !in key
    ensures key + "=" <= text <==> Cut(text).Some? && Cut(text).value.0 == key
  {
    if key + "=" <= text {
      assert text == key + "=" + text[|key| + 1..];
      CutAt(key, text[|key| + 1..]);
    }
  }
}
