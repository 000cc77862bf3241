/** What the boot-time upsert does to the lines of an .env file, and why a later boot leaves no
    trace of an earlier one. */
module EnvLines {
  import opened Wrappers

  /** A line up to its first '=' and after it; a line without one belongs to nobody. */
  datatype Line = Assign(key: string, value: string) | Other(text: string)

  const BLANK := Other("")

  datatype Setting = Setting(key: string, value: string)
  {
    function Entry(): Line {
      Assign(key, value)
    }

    predicate Owns(line: Line) {
      line.Assign? && line.key == key
    }
  }

  /** The program's keys come out of a dictionary. */
  predicate Distinct(settings: seq<Setting>) {
    forall i, j :: 0 <= i < j < |settings| ==> settings[i].key != settings[j].key
  }

  predicate Found(doc: seq<Line>, s: Setting) {
    exists i :: 0 <= i < |doc| && s.Owns(doc[i])
  }

  function Replaced(line: Line, s: Setting): Line {
    if s.Owns(line) then s.Entry() else line
  }

  function ReplacedAll(doc: seq<Line>, s: Setting): (r: seq<Line>)
    ensures |r| == |doc|
  {
    seq(|doc|, i requires 0 <= i < |doc| => Replaced(doc[i], s))
  }

  /** The lines without the empty piece after a final line break: what the text terminates. */
  function Terminated(doc: seq<Line>): seq<Line> {
    if doc != [] && doc[|doc| - 1] == BLANK then doc[..|doc| - 1] else doc
  }

  function Upsert(doc: seq<Line>, s: Setting): seq<Line> {
    if Found(doc, s) then ReplacedAll(doc, s) else Terminated(doc) + [s.Entry(), BLANK]
  }

  function Upserts(doc: seq<Line>, settings: seq<Setting>): seq<Line> {
    if settings == [] then doc else Upsert(Upserts(doc, settings[..|settings| - 1]), settings[|settings| - 1])
  }

  // --- The same document, described at once ---

  function ValueOf(settings: seq<Setting>, key: string): Option<string> {
    if settings == [] then None
    else if settings[|settings| - 1].key == key then Some(settings[|settings| - 1].value)
    else ValueOf(settings[..|settings| - 1], key)
  }

  /** A line after every key has had its turn: its owner's entry, or the line it was. */
  function Settled(line: Line, settings: seq<Setting>): Line {
    if line.Assign? && ValueOf(settings, line.key).Some? then Assign(line.key, ValueOf(settings, line.key).value)
    else line
  }

  function SettledAll(doc: seq<Line>, settings: seq<Setting>): (r: seq<Line>)
    ensures |r| == |doc|
    ensures forall i :: 0 <= i < |doc| ==> r[i] == Settled(doc[i], settings)
  {
    seq(|doc|, i requires 0 <= i < |doc| => Settled(doc[i], settings))
  }

  /** The entries of the keys the document did not have, in the order of the keys. */
  function Added(doc: seq<Line>, settings: seq<Setting>): seq<Line> {
    if settings == [] then []
    else
      var last := settings[|settings| - 1];
      Added(doc, settings[..|settings| - 1]) + if Found(doc, last) then [] else [last.Entry()]
  }

  function Rewritten(doc: seq<Line>, settings: seq<Setting>): seq<Line> {
    if Added(doc, settings) == [] then SettledAll(doc, settings)
    else SettledAll(Terminated(doc), settings) + Added(doc, settings) + [BLANK]
  }

  lemma {:induction false} ValueOfIs(settings: seq<Setting>, key: string)
    ensures ValueOf(settings, key).Some? <==> exists i :: 0 <= i < |settings| && settings[i].key == key
    ensures Distinct(settings) ==>
      forall i :: 0 <= i < |settings| && settings[i].key == key ==> ValueOf(settings, key) == Some(settings[i].value)
  {
    if settings == [] {
    } else {
      var n := |settings| - 1;
      ValueOfIs(settings[..n], key);
      if i :| 0 <= i < |settings| && settings[i].key == key && i < n {
        assert settings[..n][i].key == key;
      }
    }
  }

  lemma {:induction false} AddedAre(doc: seq<Line>, settings: seq<Setting>, line: Line)
    ensures line in Added(doc, settings) <==>
      exists i :: 0 <= i < |settings| && !Found(doc, settings[i]) && line == settings[i].Entry()
  {
    hide Found;
    if settings == [] {
    } else {
      var n := |settings| - 1;
      AddedAre(doc, settings[..n], line);
      if i :| 0 <= i < |settings| && !Found(doc, settings[i]) && line == settings[i].Entry() && i < n {
        assert settings[..n][i] == settings[i];
      }
    }
  }

  /** The loop and the description agree on which keys are there so far. */
  lemma FoundInRewritten(doc: seq<Line>, settings: seq<Setting>, s: Setting)
    requires forall i :: 0 <= i < |settings| ==> settings[i].key != s.key
    ensures Found(Rewritten(doc, settings), s) <==> Found(doc, s)
  {
    var r := Rewritten(doc, settings);
    if i :| 0 <= i < |r| && s.Owns(r[i]) {
      if r[i] in Added(doc, settings) {
        AddedAre(doc, settings, r[i]);
      } else {
        assert i < |doc| && s.Owns(doc[i]);
      }
    }
    if i :| 0 <= i < |doc| && s.Owns(doc[i]) {
      assert s.Owns(Settled(doc[i], settings)) && r[i] == Settled(doc[i], settings);
    }
  }

  lemma AddedAreOthers(doc: seq<Line>, settings: seq<Setting>, s: Setting)
    requires forall i :: 0 <= i < |settings| ==> settings[i].key != s.key
    ensures ReplacedAll(Added(doc, settings), s) == Added(doc, settings)
  {
  }

  /** Settling with one more key is replacing that key's lines afterwards. */
  lemma SettledStep(doc: seq<Line>, settings: seq<Setting>)
    requires settings != [] && Distinct(settings)
    ensures var n := |settings| - 1;
      SettledAll(doc, settings) == ReplacedAll(SettledAll(doc, settings[..n]), settings[n])
  {
  }

  lemma SettledUntouched(doc: seq<Line>, settings: seq<Setting>)
    requires settings != [] && !Found(doc, settings[|settings| - 1])
    ensures SettledAll(doc, settings) == SettledAll(doc, settings[..|settings| - 1])
  {
  }

  lemma SettledTerminated(doc: seq<Line>, settings: seq<Setting>)
    ensures Terminated(SettledAll(doc, settings)) == SettledAll(Terminated(doc), settings)
  {
  }

  lemma ReplacedPieces(a: seq<Line>, b: seq<Line>, s: Setting)
    ensures ReplacedAll(a + b + [BLANK], s) == ReplacedAll(a, s) + ReplacedAll(b, s) + [BLANK]
  {
  }

  lemma SettledPieces(a: seq<Line>, b: seq<Line>, settings: seq<Setting>)
    ensures SettledAll(a + b + [BLANK], settings) == SettledAll(a, settings) + SettledAll(b, settings) + [BLANK]
  {
  }

  /** One more key that the document has: its lines are replaced. */
  lemma OneKeyReplaced(doc: seq<Line>, settings: seq<Setting>)
    requires settings != [] && Distinct(settings) && Found(doc, settings[|settings| - 1])
    ensures var n := |settings| - 1;
      Rewritten(doc, settings) == ReplacedAll(Rewritten(doc, settings[..n]), settings[n])
  {
    var n := |settings| - 1;
    var init, last := settings[..n], settings[n];
    assert Added(doc, settings) == Added(doc, init);
    if Added(doc, init) == [] {
      SettledStep(doc, settings);
    } else {
      SettledStep(Terminated(doc), settings);
      AddedAreOthers(doc, init, last);
      ReplacedPieces(SettledAll(Terminated(doc), init), Added(doc, init), last);
    }
  }

  /** One more key that it lacks: its entry goes last. */
  lemma OneKeyAdded(doc: seq<Line>, settings: seq<Setting>)
    requires settings != [] && !Found(doc, settings[|settings| - 1])
    ensures var n := |settings| - 1;
      Rewritten(doc, settings) == Terminated(Rewritten(doc, settings[..n])) + [settings[n].Entry(), BLANK]
  {
    var n := |settings| - 1;
    var init, last := settings[..n], settings[n];
    assert Added(doc, settings) == Added(doc, init) + [last.Entry()];
    hide Added, SettledAll, Found;
    NotFoundInBody(doc, last);
    SettledUntouched(Terminated(doc), settings);
    SettledTerminated(doc, init);
    OneMorePiece(SettledAll(Terminated(doc), init), Added(doc, init), last.Entry());
  }

  lemma OneMorePiece(a: seq<Line>, b: seq<Line>, entry: Line)
    ensures Terminated(a + b + [BLANK]) + [entry, BLANK] == a + (b + [entry]) + [BLANK]
    ensures a + [entry, BLANK] == a + ([] + [entry]) + [BLANK]
  {
  }

  lemma NotFoundInBody(doc: seq<Line>, s: Setting)
    requires !Found(doc, s)
    ensures !Found(Terminated(doc), s)
  {
  }

  /** Upserting key by key gives the settled old lines followed by the missing ones. */
  lemma {:induction false} UpsertsAreRewritten(doc: seq<Line>, settings: seq<Setting>)
    requires Distinct(settings)
    ensures Upserts(doc, settings) == Rewritten(doc, settings)
  {
    if settings == [] {
      assert SettledAll(doc, settings) == doc;
    } else {
      var n := |settings| - 1;
      UpsertsAreRewritten(doc, settings[..n]);
      FoundInRewritten(doc, settings[..n], settings[n]);
      if Found(doc, settings[n]) {
        OneKeyReplaced(doc, settings);
      } else {
        OneKeyAdded(doc, settings);
      }
    }
  }

  // --- What a rewrite promises ---

  /** Every key ends up with its own value, on every line it has, and has at least one. */
  lemma KeysHoldTheirValues(doc: seq<Line>, settings: seq<Setting>, k: nat)
    requires Distinct(settings) && k < |settings|
    ensures Found(Upserts(doc, settings), settings[k])
    ensures forall line :: line in Upserts(doc, settings) && settings[k].Owns(line) ==> line == settings[k].Entry()
  {
    hide Upserts;
    UpsertsAreRewritten(doc, settings);
    var r, s := Rewritten(doc, settings), settings[k];
    ValueOfIs(settings, s.key);
    if i :| 0 <= i < |doc| && s.Owns(doc[i]) {
      assert r[i] == s.Entry();
    } else {
      AddedAre(doc, settings, s.Entry());
      assert s.Entry() in r;
    }
    forall line | line in r && s.Owns(line)
      ensures line == s.Entry()
    {
      if line in Added(doc, settings) {
        AddedAre(doc, settings, line);
      } else {
        assert exists i :: 0 <= i < |doc| && line == Settled(doc[i], settings);
      }
    }
  }

  /** The lines no key owns. */
  function Others(doc: seq<Line>, settings: seq<Setting>): seq<Line> {
    if doc == [] then []
    else
      (if doc[0].Assign? && ValueOf(settings, doc[0].key).Some? then [] else [doc[0]]) + Others(doc[1..], settings)
  }

  lemma {:induction false} OthersOfSettled(doc: seq<Line>, settings: seq<Setting>)
    ensures Others(SettledAll(doc, settings), settings) == Others(doc, settings)
  {
    if doc == [] {
    } else {
      OthersOfSettled(doc[1..], settings);
      assert SettledAll(doc, settings)[1..] == SettledAll(doc[1..], settings);
    }
  }

  lemma {:induction false} OthersOfOwned(doc: seq<Line>, more: seq<Line>, settings: seq<Setting>)
    requires forall i :: 0 <= i < |more| ==> more[i].Assign? && ValueOf(settings, more[i].key).Some?
    ensures Others(doc + more, settings) == Others(doc, settings)
    decreases |doc| + |more|
  {
    if doc != [] {
      OthersOfOwned(doc[1..], more, settings);
      assert (doc + more)[1..] == doc[1..] + more;
    } else if more != [] {
      assert doc + more == more;
      OthersOfOwned([], more[1..], settings);
      assert [] + more[1..] == more[1..];
    }
  }

  /** Everything else in the file survives, line for line and in order. */
  lemma OtherLinesSurvive(doc: seq<Line>, settings: seq<Setting>)
    requires Distinct(settings)
    ensures Others(Terminated(Upserts(doc, settings)), settings) == Others(Terminated(doc), settings)
  {
    UpsertsAreRewritten(doc, settings);
    var added, body := Added(doc, settings), Terminated(doc);
    OthersOfSettled(body, settings);
    if added == [] {
      SettledTerminated(doc, settings);
    } else {
      forall i | 0 <= i < |added|
        ensures added[i].Assign? && ValueOf(settings, added[i].key).Some?
      {
        AddedAre(doc, settings, added[i]);
        ValueOfIs(settings, added[i].key);
      }
      assert Terminated(Rewritten(doc, settings)) == SettledAll(body, settings) + added;
      OthersOfOwned(SettledAll(body, settings), added, settings);
    }
  }

  predicate SameKeys(a: seq<Setting>, b: seq<Setting>) {
    |a| == |b| && forall i :: 0 <= i < |a| ==> a[i].key == b[i].key
  }

  /** A second settling overrides the first. */
  lemma SettledAbsorbs(doc: seq<Line>, first: seq<Setting>, second: seq<Setting>)
    requires SameKeys(first, second)
    ensures SettledAll(SettledAll(doc, first), second) == SettledAll(doc, second)
  {
    forall i | 0 <= i < |doc| && doc[i].Assign?
      ensures ValueOf(first, doc[i].key).Some? <==> ValueOf(second, doc[i].key).Some?
    {
      ValueOfIs(first, doc[i].key);
      ValueOfIs(second, doc[i].key);
    }
  }

  lemma {:induction false} AddedAbsorbs(doc: seq<Line>, first: seq<Setting>, second: seq<Setting>)
    requires Distinct(first) && Distinct(second) && SameKeys(first, second)
    ensures |Added(doc, first)| == |Added(doc, second)|
    ensures SettledAll(Added(doc, first), second) == Added(doc, second)
    decreases |first|
  {
    if first == [] {
    } else {
      var n := |first| - 1;
      var before := Added(doc, first[..n]);
      AddedAbsorbs(doc, first[..n], second[..n]);
      forall i | 0 <= i < |before|
        ensures Settled(before[i], second) == Settled(before[i], second[..n])
      {
        AddedAre(doc, first[..n], before[i]);
      }
      SameOwner(doc, first[n], second[n]);
      assert Settled(first[n].Entry(), second) == second[n].Entry();
    }
  }

  lemma SameOwner(doc: seq<Line>, s: Setting, t: Setting)
    requires s.key == t.key
    ensures Found(doc, s) <==> Found(doc, t)
  {
  }

  /** A later rewrite leaves no trace of an earlier one. */
  lemma UpsertsAbsorb(doc: seq<Line>, first: seq<Setting>, second: seq<Setting>)
    requires Distinct(first) && Distinct(second) && SameKeys(first, second)
    ensures Upserts(Upserts(doc, first), second) == Upserts(doc, second)
  {
    var r := Upserts(doc, first);
    UpsertsAreRewritten(doc, first);
    UpsertsAreRewritten(doc, second);
    UpsertsAreRewritten(r, second);
    NothingToAdd(doc, first, second);
    AddedAbsorbs(doc, first, second);
    SettledAbsorbs(doc, first, second);
    var body := Terminated(doc);
    SettledAbsorbs(body, first, second);
    SettledPieces(SettledAll(body, first), Added(doc, first), second);
  }

  lemma NothingToAdd(doc: seq<Line>, first: seq<Setting>, second: seq<Setting>)
    requires Distinct(first) && SameKeys(first, second)
    ensures Added(Upserts(doc, first), second) == []
  {
    var r := Upserts(doc, first);
    if Added(r, second) != [] {
      AddedAre(r, second, Added(r, second)[0]);
      var i :| 0 <= i < |second| && !Found(r, second[i]);
      KeysHoldTheirValues(doc, first, i);
      SameOwner(r, first[i], second[i]);
    }
  }
}
