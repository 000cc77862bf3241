/** The boot of a session pod: provision until it works or must not be tried again, then write
    the credentials into the .env file. */
module Bootstrap {
  import opened Wrappers
  import opened GoTime
  import opened EnvLines
  import opened EnvFile

  datatype Credentials = Credentials(gatewayId: string, secret: string, deliveryKey: string)

  /** What one request to the connector came to. `Null` is a reply whose JSON body is `null`. */
  datatype Answer = Creds(creds: Credentials) | Null | Status(code: int) | Failed

  /** An answer and the time it took to arrive. */
  datatype Attempt = Attempt(answer: Answer, took: nat)
  {
    predicate Refused() {
      answer.Status? && (answer.code == 401 || answer.code == 403 || answer.code == 409)
    }
  }

  datatype Outcome = Trying(now: Time) | Provisioned(creds: Credentials) | Exited(code: int) | Raised

  const PATIENCE: int := 120 * SECOND
  const RETRY_SLEEP: int := 3 * SECOND

  /** One turn of the loop. */
  function Turn(a: Attempt, now: Time, deadline: Time): Outcome {
    match a.answer
    case Creds(c) => Provisioned(c)
    case Null => Trying(now + a.took)
    case Status(code) =>
      if a.Refused() then Exited(code)
      else if now + a.took > deadline then Raised
      else Trying(now + a.took + RETRY_SLEEP)
    case Failed =>
      if now + a.took > deadline then Raised else Trying(now + a.took + RETRY_SLEEP)
  }

  /** The loop over a record of what the connector would do, attempt by attempt; it is still
      trying when the record ends first. */
  function Loop(attempts: seq<Attempt>, start: Time): Outcome {
    if attempts == [] then Trying(start)
    else
      var n := |attempts| - 1;
      match Loop(attempts[..n], start)
      case Trying(now) => Turn(attempts[n], now, start + PATIENCE)
      case ended => ended
  }

  /** The retry loop as it runs. `used` is how many requests it sent. */
  method Provision(attempts: seq<Attempt>, start: Time) returns (outcome: Outcome, used: nat)
    ensures used <= |attempts| && (outcome.Trying? ==> used == |attempts|)
    ensures outcome == Loop(attempts, start) == Loop(attempts[..used], start)
    ensures forall k :: 0 <= k < used ==> Loop(attempts[..k], start).Trying?
  {
    var deadline := start + PATIENCE;
    var now := start;
    used := 0;
    while used < |attempts|
      invariant used <= |attempts|
      invariant Loop(attempts[..used], start) == Trying(now)
      invariant forall k :: 0 <= k < used ==> Loop(attempts[..k], start).Trying?
    {
      var a := attempts[used];
      assert attempts[..used + 1][..used] == attempts[..used];
      used := used + 1;
      now := now + a.took;
      match a.answer {
        case Creds(c) => outcome := Provisioned(c); EndedStaysEnded(attempts, start, used); return;
        case Null => continue;
        case Status(code) =>
          if a.Refused() {
            outcome := Exited(code);
            EndedStaysEnded(attempts, start, used);
            return;
          }
        case Failed =>
      }
      if now > deadline {
        outcome := Raised;
        EndedStaysEnded(attempts, start, used);
        return;
      }
      now := now + RETRY_SLEEP;
    }
    assert attempts[..used] == attempts;
    outcome := Trying(now);
  }

  lemma {:induction false} EndedStaysEnded(attempts: seq<Attempt>, start: Time, n: nat)
    requires n <= |attempts| && !Loop(attempts[..n], start).Trying?
    ensures Loop(attempts, start) == Loop(attempts[..n], start)
  {
    if n < |attempts| {
      var m := |attempts| - 1;
      assert attempts[..m][..n] == attempts[..n];
      EndedStaysEnded(attempts[..m], start, n);
    } else {
      assert attempts[..n] == attempts;
    }
  }

  // --- What the loop promises ---

  /** A failure worth another try: no connection, or any status but three. */
  predicate TriesAgain(answer: Answer) {
    answer.Failed? || (answer.Status? && answer.code != 401 && answer.code != 403 && answer.code != 409)
  }

  /** How many of the attempts failed. */
  function Failures(attempts: seq<Attempt>): nat {
    if attempts == [] then 0
    else Failures(attempts[..|attempts| - 1]) + if TriesAgain(attempts[|attempts| - 1].answer) then 1 else 0
  }

  /** How long the attempts took. */
  function Took(attempts: seq<Attempt>): nat {
    if attempts == [] then 0 else Took(attempts[..|attempts| - 1]) + attempts[|attempts| - 1].took
  }

  /** While it is trying, the requests have taken their time and every failure its sleep of three
      seconds; nothing but failures and `null` came in, and at most 41 failures fit before the
      deadline. */
  lemma {:induction false} TryingIsBounded(attempts: seq<Attempt>, start: Time)
    requires Loop(attempts, start).Trying?
    ensures Loop(attempts, start).now == start + Took(attempts) + Failures(attempts) * 3 * SECOND
    ensures Failures(attempts) <= 41
    ensures forall k :: 0 <= k < |attempts| ==> TriesAgain(attempts[k].answer) || attempts[k].answer.Null?
  {
    if attempts == [] {
    } else {
      var n := |attempts| - 1;
      TryingIsBounded(attempts[..n], start);
      forall k | 0 <= k < n
        ensures TriesAgain(attempts[k].answer) || attempts[k].answer.Null?
      {
        assert attempts[..n][k] == attempts[k];
      }
    }
  }

  /** The loop is over after at most 42 requests whose body is not `null`, whatever they
      answer and however long they take. */
  lemma {:induction false} EndsWithoutNulls(attempts: seq<Attempt>, start: Time)
    requires |attempts| > 41
    requires forall k :: 0 <= k < |attempts| ==> !attempts[k].answer.Null?
    ensures !Loop(attempts, start).Trying?
  {
    if Loop(attempts, start).Trying? {
      TryingIsBounded(attempts, start);
      AllFail(attempts);
    }
  }

  lemma {:induction false} AllFail(attempts: seq<Attempt>)
    requires forall k :: 0 <= k < |attempts| ==> TriesAgain(attempts[k].answer)
    ensures Failures(attempts) == |attempts|
  {
    if attempts == [] {
    } else {
      AllFail(attempts[..|attempts| - 1]);
    }
  }

  /** The first `n` attempts at a connector that answers for ever. */
  function Prefix(connector: nat -> Attempt, n: nat): (attempts: seq<Attempt>)
    ensures |attempts| == n
  {
    seq(n, k requires 0 <= k < n => connector(k))
  }

  ghost predicate NullFrom(connector: nat -> Attempt, n: nat) {
    forall k: nat :: k >= n ==> connector(k).answer.Null?
  }

  lemma PrefixSplits(connector: nat -> Attempt, n: nat)
    ensures Prefix(connector, n + 1)[..n] == Prefix(connector, n)
    ensures Prefix(connector, n + 1)[n] == connector(n)
  {
  }

  lemma {:induction false} NullsKeepItTrying(connector: nat -> Attempt, start: Time, n: nat, m: nat)
    requires n <= m && NullFrom(connector, n) && Loop(Prefix(connector, n), start).Trying?
    ensures Loop(Prefix(connector, m), start).Trying?
  {
    if n < m {
      PrefixSplits(connector, m - 1);
      NullsKeepItTrying(connector, start, n, m - 1);
    }
  }

  /** A loop that never ends and keeps being answered by something else piles up failures. */
  lemma {:induction false} FailuresGrow(connector: nat -> Attempt, start: Time, m: nat) returns (n: nat)
    requires forall n: nat :: Loop(Prefix(connector, n), start).Trying?
    requires forall n: nat :: !NullFrom(connector, n)
    ensures Failures(Prefix(connector, n)) >= m
  {
    n := 0;
    if m > 0 {
      var before := FailuresGrow(connector, start, m - 1);
      assert !NullFrom(connector, before);
      var k: nat :| k >= before && !connector(k).answer.Null?;
      n := k + 1;
      PrefixSplits(connector, k);
      TryingIsBounded(Prefix(connector, n), start);
      FailuresOnlyGrow(connector, before, k);
    }
  }

  lemma {:induction false} FailuresOnlyGrow(connector: nat -> Attempt, n: nat, m: nat)
    requires n <= m
    ensures Failures(Prefix(connector, n)) <= Failures(Prefix(connector, m))
  {
    if n < m {
      PrefixSplits(connector, m - 1);
      FailuresOnlyGrow(connector, n, m - 1);
    }
  }

  /** The boot hangs exactly when the connector ends up answering nothing but `null` while the
      loop still runs; every other connector gets an answer out of it. */
  lemma HangsIff(connector: nat -> Attempt, start: Time)
    ensures (forall n: nat :: Loop(Prefix(connector, n), start).Trying?) <==>
      exists n: nat :: NullFrom(connector, n) && Loop(Prefix(connector, n), start).Trying?
  {
    if n: nat :| NullFrom(connector, n) && Loop(Prefix(connector, n), start).Trying? {
      forall m: nat
        ensures Loop(Prefix(connector, m), start).Trying?
      {
        if m >= n {
          NullsKeepItTrying(connector, start, n, m);
        } else if !Loop(Prefix(connector, m), start).Trying? {
          assert Prefix(connector, n)[..m] == Prefix(connector, m);
          EndedStaysEnded(Prefix(connector, n), start, m);
        }
      }
    } else if forall n: nat :: Loop(Prefix(connector, n), start).Trying? {
      var n := FailuresGrow(connector, start, 42);
      TryingIsBounded(Prefix(connector, n), start);
    }
  }

  /** A refusal, which is a 401, a 403 or a 409, ends the boot with the request that was refused:
      the loop never sends the connector another one. */
  lemma {:induction false} RefusalIsFinal(attempts: seq<Attempt>, start: Time, k: nat)
    requires k < |attempts| && Loop(attempts[..k], start).Trying?
    ensures attempts[k].answer in {Status(401), Status(403), Status(409)} <==> Loop(attempts[..k + 1], start).Exited?
    ensures attempts[k].answer in {Status(401), Status(403), Status(409)} ==>
      Loop(attempts, start) == Exited(attempts[k].answer.code)
  {
    assert attempts[..k + 1][..k] == attempts[..k];
    if attempts[k].Refused() {
      EndedStaysEnded(attempts, start, k + 1);
    }
  }

  /** The first credentials that come in while the loop is trying are the ones it ends with. */
  lemma {:induction false} ProvisionedIff(attempts: seq<Attempt>, start: Time, creds: Credentials)
    ensures Loop(attempts, start) == Provisioned(creds) <==>
      exists k :: 0 <= k < |attempts| && Loop(attempts[..k], start).Trying? && attempts[k].answer == Creds(creds)
  {
    if Loop(attempts, start) == Provisioned(creds) {
      var k := LastTrying(attempts, start);
      assert attempts[k].answer == Creds(creds);
    } else if k :| 0 <= k < |attempts| && Loop(attempts[..k], start).Trying? && attempts[k].answer == Creds(creds) {
      assert attempts[..k + 1][..k] == attempts[..k];
      EndedStaysEnded(attempts, start, k + 1);
    }
  }

  /** The attempt that ended the loop. */
  lemma {:induction false} LastTrying(attempts: seq<Attempt>, start: Time) returns (k: nat)
    requires !Loop(attempts, start).Trying?
    ensures k < |attempts| && Loop(attempts[..k], start).Trying?
    ensures Loop(attempts, start) == Turn(attempts[k], Loop(attempts[..k], start).now, start + PATIENCE)
  {
    var n := |attempts| - 1;
    if Loop(attempts[..n], start).Trying? {
      k := n;
    } else {
      k := LastTrying(attempts[..n], start);
      assert attempts[..n][..k] == attempts[..k];
    }
  }

  /** It gives up if and only if, while it is trying, a failure comes back more than two minutes
      after the start. */
  lemma RaisedIff(attempts: seq<Attempt>, start: Time)
    ensures Loop(attempts, start).Raised? <==>
      exists k :: 0 <= k < |attempts| && Loop(attempts[..k], start).Trying? && TriesAgain(attempts[k].answer)
        && Loop(attempts[..k], start).now + attempts[k].took > start + 120 * SECOND
  {
    if Loop(attempts, start).Raised? {
      var k := LastTrying(attempts, start);
      assert TriesAgain(attempts[k].answer);
      assert Loop(attempts[..k], start).now + attempts[k].took > start + 120 * SECOND;
    } else if k :| 0 <= k < |attempts| && Loop(attempts[..k], start).Trying? && TriesAgain(attempts[k].answer)
                   && Loop(attempts[..k], start).now + attempts[k].took > start + 120 * SECOND {
      assert attempts[..k + 1][..k] == attempts[..k];
      EndedStaysEnded(attempts, start, k + 1);
    }
  }

  // --- The whole boot ---

  /** The five lines a boot owns. */
  function Settings(url: string, creds: Credentials): seq<Setting> {
    [Setting("GATEWAY_RELAY_URL", url),
     Setting("GATEWAY_RELAY_ID", creds.gatewayId),
     Setting("GATEWAY_RELAY_SECRET", creds.secret),
     Setting("GATEWAY_RELAY_DELIVERY_KEY", creds.deliveryKey),
     Setting("GATEWAY_RELAY_PLATFORMS", "discord")]
  }

  method Run(file: Option<string>, url: string, attempts: seq<Attempt>, start: Time)
    returns (outcome: Outcome, left: Option<string>)
    ensures outcome == Loop(attempts, start)
    ensures outcome.Provisioned? ==> left == Some(Boot(file, Settings(url, outcome.creds)))
    ensures !outcome.Provisioned? ==> left == file
  {
    var used;
    outcome, used := Provision(attempts, start);
    if outcome.Provisioned? {
      var env := RewriteFile(file, Settings(url, outcome.creds));
      left := Some(env);
    } else {
      left := file;
    }
  }

  predicate Plain(key: string) {
    '=' !in key && '\n' !in key && '\r' !in key
  }

  lemma PlainPrefix()
    ensures Plain("GATEWAY_RELAY_")
  {
  }

  lemma PlainShortNames()
    ensures Plain("URL") && Plain("ID") && Plain("SECRET")
  {
  }

  lemma PlainLongNames()
    ensures Plain("DELIVERY_KEY") && Plain("PLATFORMS")
  {
  }

  /** One prefix for all five, so that each name is looked at in two short pieces. */
  lemma NamesSplit()
    ensures "GATEWAY_RELAY_URL" == "GATEWAY_RELAY_" + "URL" && "GATEWAY_RELAY_ID" == "GATEWAY_RELAY_" + "ID"
    ensures "GATEWAY_RELAY_SECRET" == "GATEWAY_RELAY_" + "SECRET"
    ensures "GATEWAY_RELAY_DELIVERY_KEY" == "GATEWAY_RELAY_" + "DELIVERY_KEY"
    ensures "GATEWAY_RELAY_PLATFORMS" == "GATEWAY_RELAY_" + "PLATFORMS"
  {
  }

  lemma FiveNames(url: string, creds: Credentials)
    ensures Named(Settings(url, creds))
  {
    NamesSplit();
    PlainPrefix();
    PlainShortNames();
    PlainLongNames();
    NamesByLength(Settings(url, creds));
  }

  lemma NamesByLength(settings: seq<Setting>)
    requires forall i :: 0 <= i < |settings| ==> Plain(settings[i].key)
    requires forall i, j :: 0 <= i < j < |settings| ==> |settings[i].key| != |settings[j].key|
    ensures Named(settings)
  {
  }

  predicate FitsOneLine(text: string) {
    '\n' !in text && '\r' !in text
  }

  predicate Tame(url: string, creds: Credentials) {
    FitsOneLine(url) && FitsOneLine(creds.gatewayId) && FitsOneLine(creds.secret) && FitsOneLine(creds.deliveryKey)
  }

  /** A boot leaves the file with these five lines, each with its own credential. */
  lemma BootWritesFiveLines(file: Option<string>, url: string, creds: Credentials)
    requires Tame(url, creds)
    ensures var text := Boot(file, Settings(url, creds));
      && HasLine(text, "GATEWAY_RELAY_URL", url)
      && HasLine(text, "GATEWAY_RELAY_ID", creds.gatewayId)
      && HasLine(text, "GATEWAY_RELAY_SECRET", creds.secret)
      && HasLine(text, "GATEWAY_RELAY_DELIVERY_KEY", creds.deliveryKey)
      && HasLine(text, "GATEWAY_RELAY_PLATFORMS", "discord")
  {
    FiveNames(url, creds);
    var settings := Settings(url, creds);
    hide HasLine, Rewrite, Named;
    forall i | 0 <= i < 5
      ensures HasLine(Boot(file, settings), settings[i].key, settings[i].value)
    {
      SettingHasItsLine(if file.Some? then ReadText(file.value) else "", settings, i);
    }
    hide Boot;
    assert HasLine(Boot(file, settings), settings[0].key, settings[0].value);
    assert HasLine(Boot(file, settings), settings[1].key, settings[1].value);
    assert HasLine(Boot(file, settings), settings[2].key, settings[2].value);
    assert HasLine(Boot(file, settings), settings[3].key, settings[3].value);
    assert HasLine(Boot(file, settings), settings[4].key, settings[4].value);
  }

  /** A reboot rotates the credentials without a trace of the previous boot's. */
  lemma RebootRotates(file: Option<string>, url: string, first: Credentials, second: Credentials)
    requires Tame(url, first) && Tame(url, second)
    ensures Boot(Some(Boot(file, Settings(url, first))), Settings(url, second)) == Boot(file, Settings(url, second))
  {
    FiveNames(url, first);
    FiveNames(url, second);
    var earlier := [Settings(url, first)];
    assert After(file, earlier) == Some(Boot(file, Settings(url, first))) by {
      assert earlier[..0] == [];
    }
    BootsAbsorb(file, earlier, Settings(url, second));
  }
}
