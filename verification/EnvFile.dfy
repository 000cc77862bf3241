/** The .env rewriter of a session pod, on the text of the file: at every boot the credential
    lines are updated in place or appended, and everything else is somebody else's. */
module EnvFile {
  import opened Wrappers
  import opened Text
  import opened EnvLines

  /** What the program writes for a setting. */
  function Written(s: Setting): string {
    s.key + "=" + s.value
  }

  /** Fixed, distinct variable names. */
  predicate Named(settings: seq<Setting>) {
    Distinct(settings) && forall i :: 0 <= i < |settings| ==>
      '=' !in settings[i].key && '\n' !in settings[i].key && '\r' !in settings[i].key
  }

  /** A value spans lines when it has a line break; the connector's reply decides. */
  predicate NoBreaksIn(settings: seq<Setting>) {
    forall i :: 0 <= i < |settings| ==> '\n' !in settings[i].value
  }

  predicate NoReturnsIn(settings: seq<Setting>) {
    forall i :: 0 <= i < |settings| ==> '\r' !in settings[i].value
  }

  // --- The program ---

  /** `^KEY=` in multi-line mode finds a line that starts so. */
  predicate Searched(env: string, s: Setting) {
    exists i :: 0 <= i < |Split(env, '\n')| && s.key + "=" <= Split(env, '\n')[i]
  }

  function SubLine(line: string, s: Setting): string {
    if s.key + "=" <= line then Written(s) else line
  }

  function SubLines(lines: seq<string>, s: Setting): (r: seq<string>)
    ensures |r| == |lines|
  {
    seq(|lines|, i requires 0 <= i < |lines| => SubLine(lines[i], s))
  }

  /** Every match of `^KEY=.*$` replaced. */
  function Sub(env: string, s: Setting): string {
    Join(SubLines(Split(env, '\n'), s), '\n')
  }

  function Appended(env: string, entry: string): string {
    (if env != "" && env[|env| - 1] != '\n' then env + "\n" else env) + entry + "\n"
  }

  function Step(env: string, s: Setting): string {
    if Searched(env, s) then Sub(env, s) else Appended(env, Written(s))
  }

  function Rewrite(env: string, settings: seq<Setting>): string {
    if settings == [] then env
    else Step(Rewrite(env, settings[..|settings| - 1]), settings[|settings| - 1])
  }

  /** Reading a file as text turns every line ending into '\n'. */
  function ReadText(file: string): string {
    if file == "" then ""
    else if file[0] != '\r' then [file[0]] + ReadText(file[1..])
    else "\n" + ReadText(if |file| > 1 && file[1] == '\n' then file[2..] else file[1..])
  }

  /** One boot: the file that was there, if any, becomes the file that is there. */
  function Boot(file: Option<string>, settings: seq<Setting>): string {
    Rewrite(if file.Some? then ReadText(file.value) else "", settings)
  }

  /** The rewriter as it runs: `env` is reassigned key by key. */
  method RewriteFile(file: Option<string>, settings: seq<Setting>) returns (env: string)
    ensures env == Boot(file, settings)
  {
    env := if file.Some? then ReadText(file.value) else "";
    ghost var before := env;
    for i := 0 to |settings|
      invariant env == Rewrite(before, settings[..i])
    {
      var s := settings[i];
      if Searched(env, s) {
        env := Sub(env, s);
      } else {
        if env != "" && env[|env| - 1] != '\n' {
          env := env + "\n";
        }
        env := env + (Written(s) + "\n");
        assert env == Appended(Rewrite(before, settings[..i]), Written(s));
      }
      assert settings[..i + 1][..i] == settings[..i];
    }
    assert settings[..|settings|] == settings;
  }

  // --- The text as a document of lines ---

  function Parse(line: string): Line {
    match Cut(line)
    case None => Other(line)
    case Some((key, value)) => Assign(key, value)
  }

  function ParseAll(lines: seq<string>): (doc: seq<Line>)
    ensures |doc| == |lines|
  {
    seq(|lines|, i requires 0 <= i < |lines| => Parse(lines[i]))
  }

  function Doc(env: string): seq<Line> {
    ParseAll(Split(env, '\n'))
  }

  /** The document is the text: nothing is lost in it. */
  lemma DocIsTheText(a: string, b: string)
    requires Doc(a) == Doc(b)
    ensures a == b
  {
    var x, y := Split(a, '\n'), Split(b, '\n');
    forall i | 0 <= i < |x|
      ensures x[i] == y[i]
    {
      assert Doc(a)[i] == Parse(x[i]) && Doc(b)[i] == Parse(y[i]);
    }
    assert |x| == |Doc(a)| == |y|;
    assert x == y;
    JoinUndoesSplit(a, '\n');
    JoinUndoesSplit(b, '\n');
  }

  lemma OwnsIsPrefix(line: string, s: Setting)
    requires '=' !in s.key
    ensures s.key + "=" <= line <==> s.Owns(Parse(line))
  {
    CutIsPrefix(line, s.key);
  }

  lemma SearchedIsFound(env: string, s: Setting)
    requires '=' !in s.key
    ensures Searched(env, s) <==> Found(Doc(env), s)
  {
    var lines := Split(env, '\n');
    if i :| 0 <= i < |lines| && s.key + "=" <= lines[i] {
      OwnsIsPrefix(lines[i], s);
      assert s.Owns(Doc(env)[i]);
    }
    if i :| 0 <= i < |Doc(env)| && s.Owns(Doc(env)[i]) {
      OwnsIsPrefix(lines[i], s);
    }
  }

  lemma WrittenParses(s: Setting)
    requires '=' !in s.key
    ensures Parse(Written(s)) == s.Entry()
    ensures '\n' !in s.key && '\n' !in s.value ==> '\n' !in Written(s)
  {
    CutAt(s.key, s.value);
  }

  lemma SubIsReplacedAll(env: string, s: Setting)
    requires '=' !in s.key && '\n' !in s.key && '\n' !in s.value
    ensures Doc(Sub(env, s)) == ReplacedAll(Doc(env), s)
  {
    var lines := Split(env, '\n');
    WrittenParses(s);
    SplitUndoesJoin(SubLines(lines, s), '\n');
    forall i | 0 <= i < |lines|
      ensures Parse(SubLine(lines[i], s)) == Replaced(Parse(lines[i]), s)
    {
      OwnsIsPrefix(lines[i], s);
    }
  }

  lemma SplitEnded(body: string)
    ensures Split(body + "\n", '\n') == Split(body, '\n') + [""]
  {
    SplitAcross(body, "", '\n');
    assert body + ['\n'] + "" == body + "\n";
  }

  /** The lines of a text without the empty piece after its last break. */
  function Kept(env: string): seq<string> {
    var lines := Split(env, '\n');
    if lines[|lines| - 1] == "" then lines[..|lines| - 1] else lines
  }

  /** Appending to the text appends to what it terminates. */
  lemma AppendedSplits(env: string, entry: string)
    ensures Split(Appended(env, entry), '\n') == Kept(env) + Split(entry + "\n", '\n')
  {
    hide Split;
    SplitEnds(env, '\n');
    var lines, more := Split(env, '\n'), Split(entry + "\n", '\n');
    if env == "" {
      SplitWhole(env, '\n');
      assert Appended(env, entry) == entry + "\n";
      assert Kept(env) + more == more;
    } else if env[|env| - 1] == '\n' {
      var body := env[..|env| - 1];
      assert env == body + "\n";
      SplitEnded(body);
      assert Kept(env) == Split(body, '\n');
      assert Appended(env, entry) == body + ['\n'] + (entry + "\n");
      SplitAcross(body, entry + "\n", '\n');
    } else {
      assert Appended(env, entry) == env + ['\n'] + (entry + "\n");
      SplitAcross(env, entry + "\n", '\n');
    }
  }

  lemma AppendedIsAdded(env: string, entry: string)
    requires '\n' !in entry
    ensures Doc(Appended(env, entry)) == Terminated(Doc(env)) + [Parse(entry), BLANK]
  {
    hide Split;
    AppendedSplits(env, entry);
    SplitEnded(entry);
    SplitWhole(entry, '\n');
    assert Parse("") == BLANK;
    var lines := Split(env, '\n');
    assert Doc(env)[|lines| - 1] == BLANK <==> lines[|lines| - 1] == "";
    assert ParseAll(Kept(env)) == Terminated(Doc(env));
    ParsePieces(Kept(env), [entry, ""]);
  }

  lemma ParsePieces(a: seq<string>, b: seq<string>)
    ensures ParseAll(a + b) == ParseAll(a) + ParseAll(b)
  {
  }

  /** The rewriter on the text is the upsert on the lines. */
  lemma {:induction false} RewriteIsUpserts(env: string, settings: seq<Setting>)
    requires Named(settings) && NoBreaksIn(settings)
    ensures Doc(Rewrite(env, settings)) == Upserts(Doc(env), settings)
  {
    if settings == [] {
    } else {
      var n := |settings| - 1;
      RewriteIsUpserts(env, settings[..n]);
      var before := Rewrite(env, settings[..n]);
      SearchedIsFound(before, settings[n]);
      WrittenParses(settings[n]);
      if Searched(before, settings[n]) {
        SubIsReplacedAll(before, settings[n]);
      } else {
        AppendedIsAdded(before, Written(settings[n]));
      }
    }
  }

  // --- What a rewrite promises ---

  /** Every key has its value on every line it has, and has a line; every other line the text
      terminates is there as before and in order. */
  lemma RewriteSetsTheKeysOnly(env: string, settings: seq<Setting>)
    requires Named(settings) && NoBreaksIn(settings)
    ensures forall k :: 0 <= k < |settings| ==> Searched(Rewrite(env, settings), settings[k])
    ensures forall k, line ::
      (0 <= k < |settings| && line in Split(Rewrite(env, settings), '\n') && settings[k].key + "=" <= line) ==>
        line == Written(settings[k])
    ensures Others(Terminated(Doc(Rewrite(env, settings))), settings) == Others(Terminated(Doc(env)), settings)
  {
    var r := Rewrite(env, settings);
    RewriteIsUpserts(env, settings);
    OtherLinesSurvive(Doc(env), settings);
    forall k | 0 <= k < |settings|
      ensures Searched(r, settings[k])
    {
      KeysHoldTheirValues(Doc(env), settings, k);
      SearchedIsFound(r, settings[k]);
    }
    forall k, line | 0 <= k < |settings| && line in Split(r, '\n') && settings[k].key + "=" <= line
      ensures line == Written(settings[k])
    {
      KeysHoldTheirValues(Doc(env), settings, k);
      OwnsIsPrefix(line, settings[k]);
      var i :| 0 <= i < |Split(r, '\n')| && Split(r, '\n')[i] == line;
      assert Doc(r)[i] == Parse(line);
      assert Parse(line) in Doc(r);
    }
  }

  /** The text has this line, and no other line for the key. */
  ghost predicate HasLine(text: string, key: string, value: string) {
    && key + "=" + value in Split(text, '\n')
    && forall line :: line in Split(text, '\n') && key + "=" <= line ==> line == key + "=" + value
  }

  lemma OnlyLine(lines: seq<string>, s: Setting)
    requires exists i :: 0 <= i < |lines| && s.key + "=" <= lines[i]
    requires forall line :: line in lines && s.key + "=" <= line ==> line == Written(s)
    ensures Written(s) in lines
  {
    var i :| 0 <= i < |lines| && s.key + "=" <= lines[i];
    assert lines[i] in lines;
  }

  lemma SettingHasItsLine(env: string, settings: seq<Setting>, i: nat)
    requires Named(settings) && NoBreaksIn(settings) && i < |settings|
    ensures HasLine(Rewrite(env, settings), settings[i].key, settings[i].value)
  {
    RewriteSetsTheKeysOnly(env, settings);
    hide Rewrite, Split, Named, NoBreaksIn, Others, Terminated, Doc;
    assert Searched(Rewrite(env, settings), settings[i]);
    OnlyLine(Split(Rewrite(env, settings), '\n'), settings[i]);
  }

  /** A later rewrite leaves no trace of an earlier one, whatever the text. */
  lemma RewriteAbsorbs(env: string, first: seq<Setting>, second: seq<Setting>)
    requires Named(first) && NoBreaksIn(first) && Named(second) && NoBreaksIn(second) && SameKeys(first, second)
    ensures Rewrite(Rewrite(env, first), second) == Rewrite(env, second)
  {
    RewriteIsUpserts(env, first);
    RewriteIsUpserts(env, second);
    RewriteIsUpserts(Rewrite(env, first), second);
    UpsertsAbsorb(Doc(env), first, second);
    DocIsTheText(Rewrite(Rewrite(env, first), second), Rewrite(env, second));
  }

  // --- Across boots, on the file ---

  lemma {:induction false} ReadTextIs(file: string)
    ensures '\r' !in ReadText(file)
    ensures ReadText(file) == file <==> '\r' !in file
    decreases |file|
  {
    if file == "" {
    } else {
      ReadTextIs(file[1..]);
      assert file == [file[0]] + file[1..];
      if |file| > 1 && file[1] == '\n' {
        ReadTextIs(file[2..]);
      }
    }
  }

  /** "\r\n", a lone '\r' and '\n' each end one line. */
  lemma {:induction false} EveryEndingIsOne(line: string, rest: string)
    requires '\r' !in line
    ensures ReadText(line + "\r\n" + rest) == line + "\n" + ReadText(rest)
    ensures ReadText(line + "\n" + rest) == line + "\n" + ReadText(rest)
    ensures rest == "" || rest[0] != '\n' ==> ReadText(line + "\r" + rest) == line + "\n" + ReadText(rest)
  {
    if line == "" {
      assert ("\r\n" + rest)[2..] == ("\r" + rest)[1..] == ("\n" + rest)[1..] == rest;
      assert "" + "\r\n" + rest == "\r\n" + rest && "" + "\r" + rest == "\r" + rest;
    } else {
      var c, init := line[0], line[1..];
      EveryEndingIsOne(init, rest);
      ReadOneMore(c, init + "\r\n" + rest);
      ReadOneMore(c, init + "\r" + rest);
      ReadOneMore(c, init + "\n" + rest);
      hide ReadText;
      assert line == [c] + init;
      assert line + "\r\n" + rest == [c] + (init + "\r\n" + rest);
      assert line + "\r" + rest == [c] + (init + "\r" + rest);
      assert line + "\n" + rest == [c] + (init + "\n" + rest);
      assert line + "\n" + ReadText(rest) == [c] + (init + "\n" + ReadText(rest));
    }
  }

  lemma ReadOneMore(c: char, text: string)
    requires c != '\r'
    ensures ReadText([c] + text) == [c] + ReadText(text)
  {
    assert ([c] + text)[1..] == text;
  }

  lemma {:induction false} RewriteAddsNoReturns(env: string, settings: seq<Setting>)
    requires Named(settings) && NoReturnsIn(settings) && '\r' !in env
    ensures '\r' !in Rewrite(env, settings)
  {
    if settings == [] {
    } else {
      var n := |settings| - 1;
      RewriteAddsNoReturns(env, settings[..n]);
      var before := Rewrite(env, settings[..n]);
      SplitAddsNothing(before, '\n', '\r');
      JoinAddsNothing(SubLines(Split(before, '\n'), settings[n]), '\n', '\r');
    }
  }

  /** Whatever credentials earlier boots wrote, the file a boot leaves depends only on the
      original file and on its own credentials. */
  lemma {:induction false} BootsAbsorb(file: Option<string>, earlier: seq<seq<Setting>>, last: seq<Setting>)
    requires Named(last) && NoBreaksIn(last) && NoReturnsIn(last)
    requires forall i :: 0 <= i < |earlier| ==>
      Named(earlier[i]) && NoBreaksIn(earlier[i]) && NoReturnsIn(earlier[i]) && SameKeys(earlier[i], last)
    ensures Boot(After(file, earlier), last) == Boot(file, last)
  {
    if earlier == [] {
    } else {
      var n := |earlier| - 1;
      var before, first := After(file, earlier[..n]), earlier[n];
      BootsAbsorb(file, earlier[..n], last);
      var env := if before.Some? then ReadText(before.value) else "";
      if before.Some? {
        ReadTextIs(before.value);
      }
      RewriteAddsNoReturns(env, first);
      ReadTextIs(Rewrite(env, first));
      RewriteAbsorbs(env, first, last);
    }
  }

  /** The file after a sequence of boots. */
  function After(file: Option<string>, boots: seq<seq<Setting>>): Option<string> {
    if boots == [] then file
    else Some(Boot(After(file, boots[..|boots| - 1]), boots[|boots| - 1]))
  }

  // --- Why the credentials must fit on a line ---

  /** The line breaks of a text. */
  function Breaks(text: string): nat {
    |Split(text, '\n')| - 1
  }

  lemma {:induction false} BreaksOfJoin(lines: seq<string>, fewer: seq<string>)
    requires |lines| == |fewer| > 0
    requires forall i :: 0 <= i < |lines| ==> Breaks(lines[i]) >= Breaks(fewer[i])
    ensures Breaks(Join(lines, '\n')) >= Breaks(Join(fewer, '\n'))
    ensures (exists i :: 0 <= i < |lines| && Breaks(lines[i]) > Breaks(fewer[i])) ==>
      Breaks(Join(lines, '\n')) > Breaks(Join(fewer, '\n'))
  {
    if |lines| > 1 {
      BreaksOfJoin(lines[1..], fewer[1..]);
      SplitAcross(lines[0], Join(lines[1..], '\n'), '\n');
      SplitAcross(fewer[0], Join(fewer[1..], '\n'), '\n');
      if i :| 0 <= i < |lines| && Breaks(lines[i]) > Breaks(fewer[i]) && i > 0 {
        assert lines[1..][i - 1] == lines[i] && fewer[1..][i - 1] == fewer[i];
      }
    }
  }

  /** No step removes a line break, and replacing a line by a value that has one adds it. */
  lemma StepNeverJoinsLines(env: string, s: Setting)
    ensures Breaks(Step(env, s)) >= Breaks(env)
    ensures Searched(env, s) && '\n' in s.value ==> Breaks(Step(env, s)) > Breaks(env)
  {
    var lines := Split(env, '\n');
    if Searched(env, s) {
      forall i | 0 <= i < |lines|
        ensures Breaks(lines[i]) == 0
      {
        SplitWhole(lines[i], '\n');
      }
      JoinUndoesSplit(env, '\n');
      BreaksOfJoin(SubLines(lines, s), lines);
      if '\n' in s.value {
        SplitUnlessWhole(Written(s));
        var i :| 0 <= i < |lines| && s.key + "=" <= lines[i];
        assert Breaks(SubLines(lines, s)[i]) > Breaks(lines[i]);
      }
    } else {
      SplitAcross(env, Written(s) + "\n", '\n');
      SplitAcross(env + ['\n'] + Written(s), "", '\n');
      SplitAcross(env + Written(s), "", '\n');
      assert env + Written(s) + ['\n'] + "" == env + Written(s) + "\n";
      assert env + ['\n'] + Written(s) + ['\n'] + "" == env + "\n" + Written(s) + "\n";
      SplitAcross(env, Written(s), '\n');
      SplitGrows(env, Written(s));
    }
  }

  lemma {:induction false} SplitGrows(a: string, b: string)
    ensures Breaks(a + b) >= Breaks(a)
  {
    if a == "" {
    } else {
      SplitGrows(a[1..], b);
      assert (a + b)[1..] == a[1..] + b;
    }
  }

  lemma SplitUnlessWhole(text: string)
    requires '\n' in text
    ensures Breaks(text) > 0
  {
    JoinUndoesSplit(text, '\n');
  }

  /** A key that has a line keeps one, whoever's turn it is and whatever the values hold. */
  lemma StepKeepsKeys(env: string, s: Setting, t: Setting)
    requires '=' !in s.key && '=' !in t.key && '\n' !in t.key && Searched(env, t)
    ensures Searched(Step(env, s), t)
  {
    var lines := Split(env, '\n');
    var i :| 0 <= i < |lines| && t.key + "=" <= lines[i];
    if Searched(env, s) {
      var r := SubLines(lines, s);
      assert t.key + "=" <= r[i] by {
        CutIsPrefix(lines[i], t.key);
        CutIsPrefix(lines[i], s.key);
      }
      SplitHead(t.key + "=", r[i], '\n');
      SplitKeeps(r, '\n', i);
    } else {
      AppendKeepsLines(env, Written(s), i);
    }
    var after := Split(Step(env, s), '\n');
    var j :| 0 <= j < |after| && t.key + "=" <= after[j];
  }

  lemma AppendKeepsLines(env: string, entry: string, i: nat)
    requires i < |Split(env, '\n')| && Split(env, '\n')[i] != ""
    ensures Split(env, '\n')[i] in Split(Appended(env, entry), '\n')
  {
    hide Split;
    AppendedSplits(env, entry);
    assert Kept(env)[i] == Split(env, '\n')[i];
  }

  lemma {:induction false} RewriteKeepsKeys(env: string, settings: seq<Setting>, t: Setting)
    requires Named(settings) && '=' !in t.key && '\n' !in t.key && Searched(env, t)
    ensures Searched(Rewrite(env, settings), t)
  {
    if settings == [] {
    } else {
      var n := |settings| - 1;
      RewriteKeepsKeys(env, settings[..n], t);
      StepKeepsKeys(Rewrite(env, settings[..n]), settings[n], t);
    }
  }

  /** Over a text that has all the keys, every value with a line break leaves more lines. */
  lemma {:induction false} RewriteNeverJoinsLines(env: string, settings: seq<Setting>)
    requires Named(settings)
    requires forall i :: 0 <= i < |settings| ==> Searched(env, settings[i])
    ensures Breaks(Rewrite(env, settings)) >= Breaks(env)
    ensures !NoBreaksIn(settings) ==> Breaks(Rewrite(env, settings)) > Breaks(env)
  {
    hide Split, Step;
    if settings == [] {
    } else {
      var n := |settings| - 1;
      RewriteNeverJoinsLines(env, settings[..n]);
      RewriteKeepsKeys(env, settings[..n], settings[n]);
      StepNeverJoinsLines(Rewrite(env, settings[..n]), settings[n]);
    }
  }

  lemma RewriteOfKnownKeys(env: string, settings: seq<Setting>)
    requires Named(settings) && NoBreaksIn(settings)
    requires forall i :: 0 <= i < |settings| ==> Searched(env, settings[i])
    ensures Breaks(Rewrite(env, settings)) == Breaks(env)
  {
    RewriteIsUpserts(env, settings);
    UpsertsAreRewritten(Doc(env), settings);
    if Added(Doc(env), settings) != [] {
      AddedAre(Doc(env), settings, Added(Doc(env), settings)[0]);
      var i :| 0 <= i < |settings| && !Found(Doc(env), settings[i]);
      SearchedIsFound(env, settings[i]);
    }
    assert |Doc(Rewrite(env, settings))| == |Doc(env)|;
  }

  /** Every text forgets `first` when `second` is written over it. */
  ghost predicate IsForgotten(first: seq<Setting>, second: seq<Setting>) {
    forall env :: Rewrite(Rewrite(env, first), second) == Rewrite(env, second)
  }

  function KeyLines(settings: seq<Setting>): (lines: seq<string>)
    ensures |lines| == |settings|
  {
    seq(|settings|, i requires 0 <= i < |settings| => Written(settings[i]))
  }

  /** Credentials are forgotten by the next rewrite exactly when none of them has a line break:
      the rest of a value that has one is a line no later boot recognises. */
  lemma ForgottenIff(first: seq<Setting>, second: seq<Setting>)
    requires Named(first) && Named(second) && NoBreaksIn(second) && SameKeys(first, second)
    ensures IsForgotten(first, second) <==> NoBreaksIn(first)
  {
    if NoBreaksIn(first) {
      forall env
        ensures Rewrite(Rewrite(env, first), second) == Rewrite(env, second)
      {
        RewriteAbsorbs(env, first, second);
      }
    } else {
      var lines := KeyLines(second);
      var env := Join(lines, '\n');
      SplitUndoesJoin(lines, '\n');
      var once := Rewrite(env, first);
      forall i | 0 <= i < |second|
        ensures Searched(env, first[i]) && Searched(env, second[i]) && Searched(once, second[i])
      {
        assert first[i].key + "=" <= lines[i];
        assert Searched(env, second[i]);
        RewriteKeepsKeys(env, first, second[i]);
      }
      RewriteNeverJoinsLines(env, first);
      RewriteNeverJoinsLines(once, second);
      RewriteOfKnownKeys(env, second);
      assert Rewrite(once, second) != Rewrite(env, second);
    }
  }
}
