/**
 * `reconnect.py`: periodically reconnect the unmanaged simulators of one
 * simulator name to a brain through the `bonsai` command line. The world the
 * script talks to (the outcome of every command it runs and the contents of
 * `sim_list.json` after each listing) is a parameter of the model.
 */
module Reconnect {
  import opened Wrappers
  import opened Strings
  import opened Seqs

  /** `timeout_value`: the timeout of every command, in seconds. */
  const TimeoutValue: nat := 15 * 60
  /** `retry_wait`: the pause after a failed attempt, in seconds. */
  const RetryWait: nat := 1 * 60
  /** `max_retries`: the most attempts one `connect_sim` call makes. */
  const MaxRetries: nat := 10
  /** The pause between listing the simulators and reading the list back. */
  const ListPause: nat := 1
  /** Spaces between the words of the connect command where its literal continues
    * on the next line: the one before the backslash and the 20 of the indentation. */
  const ContinuationGap: nat := 21

  // --- parse_sim_status ------------------------------------------------------

  /** One entry of the `value` list of `sim_list.json`; a key the entry lacks is `None`. */
  datatype Instance = Instance(action: Option<string>, sessionId: Option<string>)

  /** Whatever `parse_sim_status` raises: no readable JSON, a missing key. */
  datatype ParseError = MalformedList

  /**
   * The session ids of the entries whose action is `Unset`, in list order; an
   * entry without an action, or an `Unset` one without a session id, fails.
   */
  function UnsetSessions(instances: seq<Instance>): Result<seq<string>, ParseError>
    decreases |instances|
  {
    if instances == [] then Ok([])
    else
      var inst := instances[|instances| - 1];
      match UnsetSessions(instances[..|instances| - 1])
      case Err(e) => Err(e)
      case Ok(ids) =>
        if inst.action.None? then Err(MalformedList)
        else if inst.action.value != "Unset" then Ok(ids)
        else if inst.sessionId.None? then Err(MalformedList)
        else Ok(ids + [inst.sessionId.value])
  }

  /** `sim_list.json` as read back: `None` when it is not JSON or has no `value` list. */
  function SimStatus(simList: Option<seq<Instance>>): Result<seq<string>, ParseError> {
    if simList.None? then Err(MalformedList) else UnsetSessions(simList.value)
  }

  /** Every entry has the keys `parse_sim_status` looks up. */
  predicate WellFormed(instances: seq<Instance>) {
    forall i :: 0 <= i < |instances| ==>
      instances[i].action.Some? && (instances[i].action.value == "Unset" ==> instances[i].sessionId.Some?)
  }

  predicate IsUnset(inst: Instance, id: string) {
    inst.action == Some("Unset") && inst.sessionId == Some(id)
  }

  /** A failure in a prefix of the list is a failure of the whole list. */
  lemma {:induction false} UnsetSessionsPrefixErr(instances: seq<Instance>, i: nat)
    requires i <= |instances| && UnsetSessions(instances[..i]) == Err(MalformedList)
    ensures UnsetSessions(instances) == Err(MalformedList)
    decreases |instances| - i
  {
    if i < |instances| {
      assert instances[..i + 1][..i] == instances[..i];
      UnsetSessionsPrefixErr(instances, i + 1);
    } else {
      assert instances[..i] == instances;
    }
  }

  method ParseSimStatus(simList: Option<seq<Instance>>) returns (r: Result<seq<string>, ParseError>)
    ensures r == SimStatus(simList)
  {
    if simList.None? {
      return Err(MalformedList);
    }
    var instances := simList.value;
    var unsetSims := [];
    for i := 0 to |instances|
      invariant UnsetSessions(instances[..i]) == Ok(unsetSims)
    {
      var inst := instances[i];
      assert instances[..i + 1][..i] == instances[..i];
      assert instances[..i + 1][i] == inst;
      if inst.action.None? {
        UnsetSessionsPrefixErr(instances, i + 1);
        return Err(MalformedList);
      }
      if inst.action.value == "Unset" {
        if inst.sessionId.None? {
          UnsetSessionsPrefixErr(instances, i + 1);
          return Err(MalformedList);
        }
        unsetSims := unsetSims + [inst.sessionId.value];
      }
    }
    assert instances[..|instances|] == instances;
    return Ok(unsetSims);
  }

  /** The list parses exactly when every entry has the keys that are looked up. */
  lemma {:induction false} UnsetSessionsOk(instances: seq<Instance>)
    ensures UnsetSessions(instances).Ok? <==> WellFormed(instances)
    decreases |instances|
  {
    if instances != [] {
      var front := instances[..|instances| - 1];
      UnsetSessionsOk(front);
      assert forall i :: 0 <= i < |front| ==> front[i] == instances[i];
    }
  }

  /** The ids returned are those of the `Unset` entries, and no other. */
  lemma {:induction false} UnsetSessionsMembers(instances: seq<Instance>, id: string)
    requires UnsetSessions(instances).Ok?
    ensures id in UnsetSessions(instances).value <==> exists i :: 0 <= i < |instances| && IsUnset(instances[i], id)
    decreases |instances|
  {
    if instances != [] {
      var front := instances[..|instances| - 1];
      var last := instances[|instances| - 1];
      UnsetSessionsMembers(front, id);
      assert forall i :: 0 <= i < |front| ==> front[i] == instances[i];
      if exists i :: 0 <= i < |instances| && IsUnset(instances[i], id) {
        var i :| 0 <= i < |instances| && IsUnset(instances[i], id);
        if i < |front| {
          assert IsUnset(front[i], id);
        }
      }
    }
  }

  /** The ids keep the order of the list: the ids of two lists one after the other. */
  lemma {:induction false} UnsetSessionsAppend(xs: seq<Instance>, ys: seq<Instance>)
    requires UnsetSessions(xs + ys).Ok?
    ensures UnsetSessions(xs).Ok? && UnsetSessions(ys).Ok?
    ensures UnsetSessions(xs + ys).value == UnsetSessions(xs).value + UnsetSessions(ys).value
    decreases |ys|
  {
    if ys == [] {
      assert xs + ys == xs;
    } else {
      var front := ys[..|ys| - 1];
      var y := ys[|ys| - 1];
      assert (xs + ys)[..|xs + ys| - 1] == xs + front;
      assert (xs + ys)[|xs + ys| - 1] == y;
      assert UnsetSessions(xs + front).Ok?;
      UnsetSessionsAppend(xs, front);
      if y.action.value == "Unset" {
        AppendAssoc(UnsetSessions(xs).value, UnsetSessions(front).value, [y.sessionId.value]);
      }
    }
  }

  // --- the bonsai commands ---------------------------------------------------

  datatype Command =
    | ListSims(simulatorName: string)
    | ConnectSession(sessionId: string, brainName: string, brainVersion: string, conceptName: string, action: string)

  /** Each word followed by its number of spaces, one after the other. */
  function Render(parts: seq<(string, nat)>): string
    decreases |parts|
  {
    if parts == [] then "" else parts[0].0 + Spaces(parts[0].1) + Render(parts[1..])
  }

  function WordsOf(parts: seq<(string, nat)>): (ws: seq<string>)
    ensures |ws| == |parts| && forall i :: 0 <= i < |parts| ==> ws[i] == parts[i].0
  {
    seq(|parts|, i requires 0 <= i < |parts| => parts[i].0)
  }

  /** The words of the `list_cmd` string and the spaces after each. */
  function ListParts(simulatorName: string): seq<(string, nat)> {
    [("bonsai", 1), ("simulator", 1), ("unmanaged", 1), ("list", 1),
     ("--simulator-name", 1), (simulatorName, 1), ("-o", 1), ("json", 0)]
  }

  /** The `list_cmd` string. */
  function ListLine(simulatorName: string): string {
    Render(ListParts(simulatorName))
  }

  /** A flag and its value, followed by the line break and indentation of the `connect_cmd` literal. */
  function FlagLine(flag: string, value: string): seq<(string, nat)> {
    [(flag, 1), (value, ContinuationGap)]
  }

  /** The words of the `connect_cmd` string, whose literal runs over six source lines, and the spaces after each. */
  function ConnectParts(sessionId: string, brainName: string, brainVersion: string, conceptName: string, action: string): seq<(string, nat)> {
    [("bonsai", 1), ("simulator", 1), ("unmanaged", 1), ("connect", ContinuationGap)]
    + FlagLine("--session-id", sessionId)
    + FlagLine("--brain-name", brainName)
    + FlagLine("--brain-version", brainVersion)
    + FlagLine("--concept-name", conceptName)
    + [("--action", 1), (action, 0)]
  }

  /** The `connect_cmd` string. */
  function ConnectLine(sessionId: string, brainName: string, brainVersion: string, conceptName: string, action: string): string {
    Render(ConnectParts(sessionId, brainName, brainVersion, conceptName, action))
  }

  /** The argument vector a command is run with: its string `.split()`. */
  function Argv(cmd: Command): seq<string> {
    match cmd
    case ListSims(name) => Words(ListLine(name))
    case ConnectSession(s, b, v, c, a) => Words(ConnectLine(s, b, v, c, a))
  }

  lemma {:induction false} WordsSpaces(n: nat, rest: string)
    ensures Words(Spaces(n) + rest) == Words(rest)
    decreases n
  {
    if n > 0 {
      var s := Spaces(n) + rest;
      assert s[0] == ' ';
      assert s[1..] == Spaces(n - 1) + rest;
      WordsSpaces(n - 1, rest);
    } else {
      assert Spaces(n) + rest == rest;
    }
  }

  /** A word followed by a space, or by nothing, is the first argument. */
  lemma WordsSpaced(t: string, n: nat, rest: string)
    requires IsToken(t) && (n >= 1 || rest == [])
    ensures Words(t + Spaces(n) + rest) == [t] + Words(rest)
  {
    var gap := Spaces(n) + rest;
    var s := t + gap;
    assert t + Spaces(n) + rest == s;
    if n == 0 {
      assert s == t;
      WordsOfToken(t);
      assert Words(rest) == [];
    } else {
      assert gap[0] == ' ';
      TokenEndOfToken(t, gap);
      assert s[0] == t[0];
      assert s[..|t|] == t;
      assert s[|t|..] == gap;
      WordsSpaces(n, rest);
    }
  }

  /** Words each followed by at least one space, the last by any number, split back into those words. */
  lemma {:induction false} WordsRender(parts: seq<(string, nat)>)
    requires forall i :: 0 <= i < |parts| ==> IsToken(parts[i].0)
    requires forall i :: 0 <= i < |parts| - 1 ==> parts[i].1 >= 1
    ensures Words(Render(parts)) == WordsOf(parts)
    decreases |parts|
  {
    if parts == [] {
    } else if |parts| == 1 {
      assert Render(parts[1..]) == "";
      WordsSpaced(parts[0].0, 0, "");
      WordsSpaces(parts[0].1, "");
      WordsOfToken(parts[0].0);
      assert parts[0].0 + Spaces(parts[0].1) + "" == parts[0].0 + (Spaces(parts[0].1) + "");
      WordsSet(parts[0].0, Spaces(parts[0].1));
    } else {
      WordsRender(parts[1..]);
      WordsSpaced(parts[0].0, parts[0].1, Render(parts[1..]));
      assert WordsOf(parts) == [parts[0].0] + WordsOf(parts[1..]);
    }
  }

  /** A word followed only by spaces splits as the word. */
  lemma WordsSet(t: string, gap: string)
    requires IsToken(t) && forall i :: 0 <= i < |gap| ==> gap[i] == ' '
    ensures Words(t + gap + "") == [t]
  {
    var s := t + gap;
    assert t + gap + "" == s;
    if gap == [] {
      assert s == t;
      WordsOfToken(t);
    } else {
      TokenEndOfToken(t, gap);
      assert s[..|t|] == t;
      assert s[|t|..] == gap;
      WordsOfSpaces(gap);
    }
  }

  lemma {:induction false} WordsOfSpaces(gap: string)
    requires forall i :: 0 <= i < |gap| ==> gap[i] == ' '
    ensures Words(gap) == []
    decreases |gap|
  {
    if gap != [] {
      WordsOfSpaces(gap[1..]);
    }
  }

  lemma ListFlagsAreTokens()
    ensures IsToken("list") && IsToken("--simulator-name") && IsToken("-o") && IsToken("json")
  {
  }

  lemma ListPartsTokens(simulatorName: string)
    requires IsToken(simulatorName)
    ensures var parts := ListParts(simulatorName);
      (forall i :: 0 <= i < |parts| ==> IsToken(parts[i].0)) && (forall i :: 0 <= i < |parts| - 1 ==> parts[i].1 >= 1)
  {
    CommandWordsAreTokens();
    ListFlagsAreTokens();
  }

  /** With a name that is a single word, the listing runs with exactly these arguments. */
  lemma ListArgv(simulatorName: string)
    requires IsToken(simulatorName)
    ensures Argv(ListSims(simulatorName))
      == ["bonsai", "simulator", "unmanaged", "list", "--simulator-name", simulatorName, "-o", "json"]
  {
    ListPartsTokens(simulatorName);
    WordsRender(ListParts(simulatorName));
  }

  lemma CommandWordsAreTokens()
    ensures IsToken("bonsai") && IsToken("simulator") && IsToken("unmanaged") && IsToken("connect")
  {
  }

  lemma ConnectFlagsAreTokens()
    ensures IsToken("--session-id") && IsToken("--brain-name") && IsToken("--brain-version")
    ensures IsToken("--concept-name") && IsToken("--action")
  {
  }

  lemma WordsOfAppend(p: seq<(string, nat)>, q: seq<(string, nat)>)
    ensures WordsOf(p + q) == WordsOf(p) + WordsOf(q)
  {
  }

  predicate Renderable(parts: seq<(string, nat)>) {
    (forall i :: 0 <= i < |parts| ==> IsToken(parts[i].0)) && (forall i :: 0 <= i < |parts| - 1 ==> parts[i].1 >= 1)
  }

  lemma RenderableAppend(p: seq<(string, nat)>, q: seq<(string, nat)>)
    requires Renderable(p) && Renderable(q) && (p != [] ==> p[|p| - 1].1 >= 1)
    ensures Renderable(p + q)
  {
  }

  lemma ConnectPartsTokens(sessionId: string, brainName: string, brainVersion: string, conceptName: string, action: string)
    requires IsToken(sessionId) && IsToken(brainName) && IsToken(brainVersion) && IsToken(conceptName) && IsToken(action)
    ensures Renderable(ConnectParts(sessionId, brainName, brainVersion, conceptName, action))
  {
    CommandWordsAreTokens();
    ConnectFlagsAreTokens();
    var head: seq<(string, nat)> := [("bonsai", 1), ("simulator", 1), ("unmanaged", 1), ("connect", ContinuationGap)];
    var s1 := FlagLine("--session-id", sessionId);
    var s2 := FlagLine("--brain-name", brainName);
    var s3 := FlagLine("--brain-version", brainVersion);
    var s4 := FlagLine("--concept-name", conceptName);
    var tail: seq<(string, nat)> := [("--action", 1), (action, 0)];
    RenderableAppend(head, s1);
    RenderableAppend(head + s1, s2);
    RenderableAppend(head + s1 + s2, s3);
    RenderableAppend(head + s1 + s2 + s3, s4);
    RenderableAppend(head + s1 + s2 + s3 + s4, tail);
  }

  /** With values that are single words, each connect runs with exactly these arguments. */
  lemma ConnectArgv(sessionId: string, brainName: string, brainVersion: string, conceptName: string, action: string)
    requires IsToken(sessionId) && IsToken(brainName) && IsToken(brainVersion) && IsToken(conceptName) && IsToken(action)
    ensures Argv(ConnectSession(sessionId, brainName, brainVersion, conceptName, action))
      == ["bonsai", "simulator", "unmanaged", "connect"]
         + ["--session-id", sessionId] + ["--brain-name", brainName] + ["--brain-version", brainVersion]
         + ["--concept-name", conceptName] + ["--action", action]
  {
    ConnectPartsTokens(sessionId, brainName, brainVersion, conceptName, action);
    WordsRender(ConnectParts(sessionId, brainName, brainVersion, conceptName, action));
    var head: seq<(string, nat)> := [("bonsai", 1), ("simulator", 1), ("unmanaged", 1), ("connect", ContinuationGap)];
    var s1 := FlagLine("--session-id", sessionId);
    var s2 := FlagLine("--brain-name", brainName);
    var s3 := FlagLine("--brain-version", brainVersion);
    var s4 := FlagLine("--concept-name", conceptName);
    var tail: seq<(string, nat)> := [("--action", 1), (action, 0)];
    WordsOfAppend(head + s1 + s2 + s3 + s4, tail);
    WordsOfAppend(head + s1 + s2 + s3, s4);
    WordsOfAppend(head + s1 + s2, s3);
    WordsOfAppend(head + s1, s2);
    WordsOfAppend(head, s1);
    assert WordsOf(head) == ["bonsai", "simulator", "unmanaged", "connect"];
    assert WordsOf(s1) == ["--session-id", sessionId];
    assert WordsOf(s2) == ["--brain-name", brainName];
    assert WordsOf(s3) == ["--brain-version", brainVersion];
    assert WordsOf(s4) == ["--concept-name", conceptName];
    assert WordsOf(tail) == ["--action", action];
  }

  // --- connect_sim -----------------------------------------------------------

  /**
   * How a command run with `check=True` ends: normally, by `TimeoutExpired`,
   * by another `SubprocessError` (a non-zero exit), or by an `OSError` such as
   * a missing `bonsai` executable, which no handler of the script catches.
   */
  datatype Outcome = Completed | TimedOut | ExitError | LaunchError

  datatype Event = Ran(command: Command, timeout: nat, outcome: Outcome) | Slept(seconds: int)

  /** The arguments of `connect_sim`. */
  datatype Config = Config(simulatorName: string, brainName: string, brainVersion: string, conceptName: string, action: string)

  /**
   * The world `connect_sim` talks to: `outcome(k, 0)` ends the listing of
   * attempt `k` and `outcome(k, j + 1)` its `j`-th connect; `listing(k)` is
   * `sim_list.json` as read back in attempt `k`.
   */
  datatype World = World(outcome: (nat, nat) -> Outcome, listing: nat -> Option<seq<Instance>>)

  /** How an attempt, or a whole call, ends: every connect done, retried (or out of retries), or raised. */
  datatype End = Connected | Retry | Raised

  datatype Attempt = Attempt(events: seq<Event>, end: End)

  function ConnectCommand(cfg: Config, sessionId: string): Command {
    ConnectSession(sessionId, cfg.brainName, cfg.brainVersion, cfg.conceptName, cfg.action)
  }

  /** The connects of attempt `k` from the `j`-th session on. */
  function ConnectFrom(cfg: Config, w: World, k: nat, ids: seq<string>, j: nat): Attempt
    decreases |ids| - j
  {
    if j >= |ids| then Attempt([], Connected)
    else
      var o := w.outcome(k, j + 1);
      var ev := Ran(ConnectCommand(cfg, ids[j]), TimeoutValue, o);
      match o
      case Completed =>
        var rest := ConnectFrom(cfg, w, k, ids, j + 1);
        Attempt([ev] + rest.events, rest.end)
      case LaunchError => Attempt([ev], Raised)
      case _ => Attempt([ev, Slept(RetryWait)], Retry)
  }

  /** One pass through the `try` block of `connect_sim`, the `retry_count`-th. */
  function AttemptAt(cfg: Config, w: World, k: nat): Attempt {
    var o := w.outcome(k, 0);
    var list := Ran(ListSims(cfg.simulatorName), TimeoutValue, o);
    match o
    case LaunchError => Attempt([list], Raised)
    case Completed =>
      (match SimStatus(w.listing(k))
       case Err(_) => Attempt([list, Slept(ListPause), Slept(RetryWait)], Retry)
       case Ok(ids) =>
         var c := ConnectFrom(cfg, w, k, ids, 0);
         Attempt([list, Slept(ListPause)] + c.events, c.end))
    case _ => Attempt([list, Slept(RetryWait)], Retry)
  }

  /** A call of `connect_sim`: its events, the final `retry_count` and how it ended. */
  datatype Session = Session(events: seq<Event>, attempts: nat, end: End)

  /** The attempts of one call, indexed by `retry_count`. */
  function Attempts(cfg: Config, w: World): nat -> Attempt {
    (k: nat) => AttemptAt(cfg, w, k)
  }

  /** The attempts `att` from the `count`-th on, until one does not ask for a retry or the retries run out. */
  function RoundsOf(att: nat -> Attempt, count: nat): Session
    decreases MaxRetries - count
  {
    if count >= MaxRetries then Session([], count, Retry)
    else
      var a := att(count);
      if a.end == Retry then
        var rest := RoundsOf(att, count + 1);
        Session(a.events + rest.events, rest.attempts, rest.end)
      else Session(a.events, count + 1, a.end)
  }

  /** The rounds of `connect_sim` from the `count`-th attempt on. */
  function Rounds(cfg: Config, w: World, count: nat): Session {
    RoundsOf(Attempts(cfg, w), count)
  }

  /** The `for sessid in unset_sims` loop of attempt `k`. */
  method ConnectEach(cfg: Config, w: World, k: nat, unsetSims: seq<string>) returns (events: seq<Event>, end: End)
    ensures Attempt(events, end) == ConnectFrom(cfg, w, k, unsetSims, 0)
  {
    events := [];
    for j := 0 to |unsetSims|
      invariant events + ConnectFrom(cfg, w, k, unsetSims, j).events == ConnectFrom(cfg, w, k, unsetSims, 0).events
      invariant ConnectFrom(cfg, w, k, unsetSims, j).end == ConnectFrom(cfg, w, k, unsetSims, 0).end
    {
      var o := w.outcome(k, j + 1);
      var ev := Ran(ConnectCommand(cfg, unsetSims[j]), TimeoutValue, o);
      if o == LaunchError {
        return events + [ev], Raised;
      } else if o != Completed {
        return events + [ev, Slept(RetryWait)], Retry;
      }
      AppendAssoc(events, [ev], ConnectFrom(cfg, w, k, unsetSims, j + 1).events);
      events := events + [ev];
    }
    assert events + [] == events;
    end := Connected;
  }

  /** The body of the `while` loop of `connect_sim`, before its `finally`. */
  method TryAttempt(cfg: Config, w: World, k: nat) returns (events: seq<Event>, end: End)
    ensures Attempt(events, end) == AttemptAt(cfg, w, k)
  {
    var o := w.outcome(k, 0);
    events := [Ran(ListSims(cfg.simulatorName), TimeoutValue, o)];
    if o == LaunchError {
      return events, Raised;
    } else if o != Completed {
      return events + [Slept(RetryWait)], Retry;
    }
    events := events + [Slept(ListPause)];
    var unsetSims := ParseSimStatus(w.listing(k));
    if unsetSims.Err? {
      return events + [Slept(RetryWait)], Retry;
    }
    var connectEvents;
    connectEvents, end := ConnectEach(cfg, w, k, unsetSims.value);
    events := events + connectEvents;
  }

  /**
   * One step of the loop of `connect_sim`: when the events so far followed by the
   * rounds from `count` on make up the whole call, then after attempt `count` either
   * the call is over or the same holds from `count + 1` on.
   */
  lemma RoundsStep(att: nat -> Attempt, count: nat, events: seq<Event>, total: Session)
    requires count < MaxRetries
    requires events + RoundsOf(att, count).events == total.events
    requires RoundsOf(att, count).attempts == total.attempts && RoundsOf(att, count).end == total.end
    ensures att(count).end != Retry ==> Session(events + att(count).events, count + 1, att(count).end) == total
    ensures att(count).end == Retry ==>
              (events + att(count).events) + RoundsOf(att, count + 1).events == total.events &&
              RoundsOf(att, count + 1).attempts == total.attempts && RoundsOf(att, count + 1).end == total.end
  {
    if att(count).end == Retry {
      AppendAssoc(events, att(count).events, RoundsOf(att, count + 1).events);
    }
  }

  method ConnectSim(cfg: Config, w: World) returns (events: seq<Event>, retryCount: nat, end: End)
    ensures Session(events, retryCount, end) == Rounds(cfg, w, 0)
  {
    ghost var att := Attempts(cfg, w);
    ghost var total := RoundsOf(att, 0);
    events := [];
    retryCount := 0;
    end := Retry;
    while retryCount < MaxRetries
      invariant retryCount <= MaxRetries
      invariant events + RoundsOf(att, retryCount).events == total.events
      invariant RoundsOf(att, retryCount).attempts == total.attempts
      invariant RoundsOf(att, retryCount).end == total.end
      decreases MaxRetries - retryCount
    {
      var attemptEvents, attemptEnd := TryAttempt(cfg, w, retryCount);
      assert att(retryCount) == Attempt(attemptEvents, attemptEnd);
      RoundsStep(att, retryCount, events, total);
      events := events + attemptEvents;
      retryCount := retryCount + 1;
      if attemptEnd != Retry {
        end := attemptEnd;
        return;
      }
    }
    assert events + [] == events;
  }

  // --- what a call of connect_sim does ---------------------------------------

  /** The events of attempts `from` up to `to`, one after the other. */
  function AttemptLog(att: nat -> Attempt, from: nat, to: nat): seq<Event>
    decreases if to > from then to - from else 0
  {
    if from >= to then [] else att(from).events + AttemptLog(att, from + 1, to)
  }

  /** The number of attempts lies between one and `max_retries`, the call ends as its last
      attempt does, and it ends in a retry only when the retries are used up. */
  lemma {:induction false} RoundsEnd(att: nat -> Attempt, count: nat)
    requires count < MaxRetries
    ensures count < RoundsOf(att, count).attempts <= MaxRetries
    ensures att(RoundsOf(att, count).attempts - 1).end == RoundsOf(att, count).end
    ensures RoundsOf(att, count).end == Retry ==> RoundsOf(att, count).attempts == MaxRetries
    decreases MaxRetries - count
  {
    if att(count).end == Retry && count + 1 < MaxRetries {
      RoundsEnd(att, count + 1);
    }
  }

  /** Every attempt before the last asked for a retry. */
  lemma {:induction false} RoundsRetryBeforeLast(att: nat -> Attempt, count: nat, k: nat)
    requires count <= k < RoundsOf(att, count).attempts - 1
    ensures att(k).end == Retry
    decreases MaxRetries - count
  {
    if k > count {
      RoundsRetryBeforeLast(att, count + 1, k);
    }
  }

  /** The events of a call are those of its attempts, one after the other. */
  lemma {:induction false} RoundsLog(att: nat -> Attempt, count: nat)
    ensures RoundsOf(att, count).events == AttemptLog(att, count, RoundsOf(att, count).attempts)
    decreases MaxRetries - count
  {
    if count >= MaxRetries {
    } else if att(count).end == Retry {
      RoundsLog(att, count + 1);
      if count + 1 < MaxRetries {
        RoundsEnd(att, count + 1);
      }
      assert count < RoundsOf(att, count + 1).attempts;
    } else {
      assert AttemptLog(att, count + 1, count + 1) == [];
      assert att(count).events + [] == att(count).events;
    }
  }

  /**
   * A call makes between one and `max_retries` attempts, one after the other;
   * every attempt but the last asked for a retry, and the call ends as its last
   * attempt does, which is a retry only when the retries are used up.
   */
  lemma RoundsAttempts(cfg: Config, w: World, count: nat)
    requires count < MaxRetries
    ensures var s := Rounds(cfg, w, count);
      count < s.attempts <= MaxRetries &&
      s.events == AttemptLog(Attempts(cfg, w), count, s.attempts) &&
      (forall k :: count <= k < s.attempts - 1 ==> AttemptAt(cfg, w, k).end == Retry) &&
      AttemptAt(cfg, w, s.attempts - 1).end == s.end &&
      (s.end == Retry ==> s.attempts == MaxRetries)
  {
    var att := Attempts(cfg, w);
    RoundsEnd(att, count);
    RoundsLog(att, count);
    forall k | count <= k < RoundsOf(att, count).attempts - 1
      ensures AttemptAt(cfg, w, k).end == Retry
    {
      RoundsRetryBeforeLast(att, count, k);
    }
  }

  /** A call that ends in a retry has failed all `max_retries` attempts. */
  lemma GivesUpAfterMaxRetries(cfg: Config, w: World)
    requires Rounds(cfg, w, 0).end == Retry
    ensures Rounds(cfg, w, 0).attempts == MaxRetries
    ensures forall k :: 0 <= k < MaxRetries ==> AttemptAt(cfg, w, k).end == Retry
  {
    var att := Attempts(cfg, w);
    RoundsEnd(att, 0);
    forall k | 0 <= k < MaxRetries
      ensures AttemptAt(cfg, w, k).end == Retry
    {
      if k < MaxRetries - 1 {
        RoundsRetryBeforeLast(att, 0, k);
      }
    }
  }

  /** An attempt whose listing, parse and every connect succeed ends the loop at once. */
  lemma StopsAtFirstSuccess(cfg: Config, w: World, k: nat)
    requires k < MaxRetries && AttemptAt(cfg, w, k).end == Connected
    requires forall i :: 0 <= i < k ==> AttemptAt(cfg, w, i).end == Retry
    ensures Rounds(cfg, w, 0).attempts == k + 1 && Rounds(cfg, w, 0).end == Connected
  {
    RoundsAttempts(cfg, w, 0);
  }

  function CountLists(events: seq<Event>): nat
    decreases |events|
  {
    if events == [] then 0
    else CountLists(events[..|events| - 1]) + if events[|events| - 1].Ran? && events[|events| - 1].command.ListSims? then 1 else 0
  }

  lemma {:induction false} CountListsAppend(xs: seq<Event>, ys: seq<Event>)
    ensures CountLists(xs + ys) == CountLists(xs) + CountLists(ys)
    decreases |ys|
  {
    if ys == [] {
      assert xs + ys == xs;
    } else {
      var front := ys[..|ys| - 1];
      assert (xs + ys)[..|xs + ys| - 1] == xs + front;
      CountListsAppend(xs, front);
    }
  }

  /** No connect is a listing. */
  lemma {:induction false} ConnectFromLists(cfg: Config, w: World, k: nat, ids: seq<string>, j: nat)
    ensures CountLists(ConnectFrom(cfg, w, k, ids, j).events) == 0
    decreases |ids| - j
  {
    if j < |ids| {
      var o := w.outcome(k, j + 1);
      var ev := Ran(ConnectCommand(cfg, ids[j]), TimeoutValue, o);
      assert CountLists([ev]) == 0;
      if o == Completed {
        ConnectFromLists(cfg, w, k, ids, j + 1);
        CountListsAppend([ev], ConnectFrom(cfg, w, k, ids, j + 1).events);
      } else if o != LaunchError {
        assert [ev, Slept(RetryWait)][..1] == [ev];
      }
    }
  }

  /** Every attempt lists the simulators exactly once, as its first command. */
  lemma OneListingPerAttempt(cfg: Config, w: World, k: nat)
    ensures |AttemptAt(cfg, w, k).events| > 0
    ensures AttemptAt(cfg, w, k).events[0] == Ran(ListSims(cfg.simulatorName), TimeoutValue, w.outcome(k, 0))
    ensures CountLists(AttemptAt(cfg, w, k).events) == 1
  {
    var o := w.outcome(k, 0);
    var list := Ran(ListSims(cfg.simulatorName), TimeoutValue, o);
    assert CountLists([list]) == 1;
    if o == Completed {
      assert CountLists([list, Slept(ListPause)]) == 1 by {
        assert [list, Slept(ListPause)][..1] == [list];
      }
      if SimStatus(w.listing(k)).Err? {
        assert [list, Slept(ListPause), Slept(RetryWait)][..2] == [list, Slept(ListPause)];
      } else {
        var c := ConnectFrom(cfg, w, k, SimStatus(w.listing(k)).value, 0);
        ConnectFromLists(cfg, w, k, SimStatus(w.listing(k)).value, 0);
        CountListsAppend([list, Slept(ListPause)], c.events);
      }
    } else if o != LaunchError {
      assert [list, Slept(RetryWait)][..1] == [list];
    }
  }

  lemma {:induction false} AttemptLogLists(att: nat -> Attempt, from: nat, to: nat)
    requires from <= to
    requires forall k :: from <= k < to ==> CountLists(att(k).events) == 1
    ensures CountLists(AttemptLog(att, from, to)) == to - from
    decreases if to > from then to - from else 0
  {
    if from < to {
      AttemptLogLists(att, from + 1, to);
      CountListsAppend(att(from).events, AttemptLog(att, from + 1, to));
    }
  }

  /** `retry_count` rises by one per attempt: the final count is the number of listings run. */
  lemma RetryCountIsListings(cfg: Config, w: World)
    ensures CountLists(Rounds(cfg, w, 0).events) == Rounds(cfg, w, 0).attempts
  {
    RoundsAttempts(cfg, w, 0);
    var att := Attempts(cfg, w);
    forall k | 0 <= k < Rounds(cfg, w, 0).attempts
      ensures CountLists(att(k).events) == 1
    {
      OneListingPerAttempt(cfg, w, k);
    }
    AttemptLogLists(att, 0, Rounds(cfg, w, 0).attempts);
  }

  /** A list that cannot be parsed costs an attempt: the loop pauses and retries. */
  lemma ParseFailureRetries(cfg: Config, w: World, k: nat)
    requires w.outcome(k, 0) == Completed && SimStatus(w.listing(k)).Err?
    ensures AttemptAt(cfg, w, k)
      == Attempt([Ran(ListSims(cfg.simulatorName), TimeoutValue, Completed), Slept(ListPause), Slept(RetryWait)], Retry)
  {
  }

  /** The index of the first connect, from the `j`-th on, that does not complete, or `|ids|`. */
  function FirstFailure(w: World, k: nat, ids: seq<string>, j: nat): (n: nat)
    ensures j <= |ids| ==> j <= n <= |ids|
    decreases |ids| - j
  {
    if j >= |ids| then j
    else if w.outcome(k, j + 1) != Completed then j
    else FirstFailure(w, k, ids, j + 1)
  }

  /** The connect commands for sessions `j` up to `n`, with their outcomes. */
  function Issued(cfg: Config, w: World, k: nat, ids: seq<string>, j: nat, n: nat): seq<Event>
    requires j <= n <= |ids|
  {
    seq(n - j, i requires 0 <= i < n - j => Ran(ConnectCommand(cfg, ids[j + i]), TimeoutValue, w.outcome(k, j + i + 1)))
  }

  lemma IssuedCons(cfg: Config, w: World, k: nat, ids: seq<string>, j: nat, n: nat)
    requires j < n <= |ids|
    ensures Issued(cfg, w, k, ids, j, n)
      == [Ran(ConnectCommand(cfg, ids[j]), TimeoutValue, w.outcome(k, j + 1))] + Issued(cfg, w, k, ids, j + 1, n)
  {
  }

  /** The connects before the first failure all completed, and that one did not. */
  lemma {:induction false} FirstFailureSpec(w: World, k: nat, ids: seq<string>, j: nat)
    requires j <= |ids|
    ensures forall i :: j < i <= FirstFailure(w, k, ids, j) ==> w.outcome(k, i) == Completed
    ensures FirstFailure(w, k, ids, j) < |ids| ==> w.outcome(k, FirstFailure(w, k, ids, j) + 1) != Completed
    decreases |ids| - j
  {
    if j < |ids| && w.outcome(k, j + 1) == Completed {
      FirstFailureSpec(w, k, ids, j + 1);
    }
  }

  /** What a failing connect leaves of its attempt: the pause and a retry, or the raise of a launch error. */
  function Abandoned(o: Outcome): Attempt {
    if o == LaunchError then Attempt([], Raised) else Attempt([Slept(RetryWait)], Retry)
  }

  /** The attempt described by its connects: every one up to the first failure, then what that failure leaves. */
  function IssuedAttempt(cfg: Config, w: World, k: nat, ids: seq<string>, j: nat): Attempt
    requires j <= |ids|
  {
    var n := FirstFailure(w, k, ids, j);
    if n == |ids| then Attempt(Issued(cfg, w, k, ids, j, n), Connected)
    else
      var a := Abandoned(w.outcome(k, n + 1));
      Attempt(Issued(cfg, w, k, ids, j, n + 1) + a.events, a.end)
  }

  /**
   * Connects are issued in list order; they all complete up to the first that
   * does not, which abandons the rest of the attempt.
   */
  lemma {:induction false} ConnectsInOrder(cfg: Config, w: World, k: nat, ids: seq<string>, j: nat)
    requires j <= |ids|
    ensures ConnectFrom(cfg, w, k, ids, j) == IssuedAttempt(cfg, w, k, ids, j)
    decreases |ids| - j
  {
    if j == |ids| {
      assert Issued(cfg, w, k, ids, j, j) == [];
    } else {
      var o := w.outcome(k, j + 1);
      var ev := Ran(ConnectCommand(cfg, ids[j]), TimeoutValue, o);
      if o != Completed {
        IssuedCons(cfg, w, k, ids, j, j + 1);
        assert Issued(cfg, w, k, ids, j + 1, j + 1) == [];
      } else {
        ConnectsInOrder(cfg, w, k, ids, j + 1);
        var n := FirstFailure(w, k, ids, j + 1);
        var m := if n == |ids| then n else n + 1;
        IssuedCons(cfg, w, k, ids, j, m);
        if n < |ids| {
          AppendAssoc([ev], Issued(cfg, w, k, ids, j + 1, m), Abandoned(w.outcome(k, n + 1)).events);
        }
      }
    }
  }

  // --- __main__ --------------------------------------------------------------

  /** The default of `--action`. */
  const DefaultAction := "Train"

  /** The command line; an option not given is `None`. */
  datatype Args = Args(
    simulatorName: Option<string>, brainName: Option<string>, brainVersion: Option<string>,
    conceptName: Option<string>, action: Option<string>, interval: Option<int>)

  function ActionOf(args: Args): string {
    if args.action.Some? then args.action.value else DefaultAction
  }

  /** The two `parser.error` exits, each ending the script with status 2. */
  datatype UsageError = MissingConnectArgs | MissingInterval

  function ValidateArgs(args: Args): (r: Result<(Config, int), UsageError>)
    ensures r == Err(MissingConnectArgs) <==>
      args.simulatorName.None? || args.brainName.None? || args.brainVersion.None? || args.conceptName.None?
    ensures r == Err(MissingInterval) <==>
      args.simulatorName.Some? && args.brainName.Some? && args.brainVersion.Some? && args.conceptName.Some?
      && args.interval.None?
    ensures r.Ok? ==> r.value == (Config(args.simulatorName.value, args.brainName.value, args.brainVersion.value,
      args.conceptName.value, ActionOf(args)), args.interval.value)
  {
    if args.simulatorName.None? || args.brainName.None? || args.brainVersion.None? || args.conceptName.None? then
      Err(MissingConnectArgs)
    else if args.interval.None? then Err(MissingInterval)
    else
      Ok((Config(args.simulatorName.value, args.brainName.value, args.brainVersion.value, args.conceptName.value,
        ActionOf(args)), args.interval.value))
  }

  /** Why the `while True` loop stopped: the rounds modelled ran out, `connect_sim` raised, or `time.sleep` refused a negative interval. */
  datatype Stop = RoundsDone | ConnectRaised | NegativeSleep

  /** The `connect_sim` calls of the loop: round `i` talks to `worlds(i)`. */
  function Calls(cfg: Config, worlds: nat -> World): nat -> Session {
    (i: nat) => Rounds(cfg, worlds(i), 0)
  }

  /** Rounds `r` up to `rounds` of the loop, round `i` being the call `calls(i)`. */
  function Periodic(interval: int, calls: nat -> Session, r: nat, rounds: nat): (seq<Event>, Stop)
    decreases rounds - r
  {
    if r >= rounds then ([], RoundsDone)
    else
      var s := calls(r);
      if s.end == Raised then (s.events, ConnectRaised)
      else if interval * 60 < 0 then (s.events, NegativeSleep)
      else
        var rest := Periodic(interval, calls, r + 1, rounds);
        (s.events + [Slept(interval * 60)] + rest.0, rest.1)
  }

  /** The checks and the `while True` loop of the entry point, run for `rounds` rounds. */
  method Reconnect(args: Args, worlds: nat -> World, rounds: nat) returns (r: Result<(seq<Event>, Stop), UsageError>)
    ensures ValidateArgs(args).Err? ==> r == Err(ValidateArgs(args).error)
    ensures ValidateArgs(args).Ok? ==>
      r == Ok(Periodic(ValidateArgs(args).value.1, Calls(ValidateArgs(args).value.0, worlds), 0, rounds))
  {
    var checked := ValidateArgs(args);
    if checked.Err? {
      return Err(checked.error);
    }
    var cfg, interval := checked.value.0, checked.value.1;
    ghost var calls := Calls(cfg, worlds);
    var events := [];
    var round := 0;
    while round < rounds
      invariant round <= rounds
      invariant events + Periodic(interval, calls, round, rounds).0 == Periodic(interval, calls, 0, rounds).0
      invariant Periodic(interval, calls, round, rounds).1 == Periodic(interval, calls, 0, rounds).1
      decreases rounds - round
    {
      var sessionEvents, retries, end := ConnectSim(cfg, worlds(round));
      assert calls(round) == Session(sessionEvents, retries, end);
      if end == Raised {
        return Ok((events + sessionEvents, ConnectRaised));
      }
      if interval * 60 < 0 {
        return Ok((events + sessionEvents, NegativeSleep));
      }
      ghost var rest := Periodic(interval, calls, round + 1, rounds).0;
      AppendAssoc(events, sessionEvents + [Slept(interval * 60)], rest);
      events := events + (sessionEvents + [Slept(interval * 60)]);
      round := round + 1;
    }
    assert events + [] == events;
    return Ok((events, RoundsDone));
  }

  /**
   * Each round is a fresh `connect_sim` call followed by the pause: with a
   * non-negative interval and no raising round, the loop runs every round.
   */
  lemma {:induction false} PeriodicRuns(interval: int, calls: nat -> Session, r: nat, rounds: nat)
    requires interval >= 0 && r <= rounds
    requires forall i :: r <= i < rounds ==> calls(i).end != Raised
    ensures Periodic(interval, calls, r, rounds).1 == RoundsDone
    ensures CountSleeps(Periodic(interval, calls, r, rounds).0, interval * 60) >= rounds - r
    decreases rounds - r
  {
    if r < rounds {
      PeriodicRuns(interval, calls, r + 1, rounds);
      var s := calls(r);
      var rest := Periodic(interval, calls, r + 1, rounds).0;
      CountSleepsAppend(s.events + [Slept(interval * 60)], rest, interval * 60);
      CountSleepsAppend(s.events, [Slept(interval * 60)], interval * 60);
      assert [Slept(interval * 60)][..0] == [];
    }
  }

  function CountSleeps(events: seq<Event>, seconds: int): nat
    decreases |events|
  {
    if events == [] then 0
    else CountSleeps(events[..|events| - 1], seconds) + if events[|events| - 1] == Slept(seconds) then 1 else 0
  }

  lemma {:induction false} CountSleepsAppend(xs: seq<Event>, ys: seq<Event>, seconds: int)
    ensures CountSleeps(xs + ys, seconds) == CountSleeps(xs, seconds) + CountSleeps(ys, seconds)
    decreases |ys|
  {
    if ys == [] {
      assert xs + ys == xs;
    } else {
      var front := ys[..|ys| - 1];
      assert (xs + ys)[..|xs + ys| - 1] == xs + front;
      CountSleepsAppend(xs, front, seconds);
    }
  }

  /** A negative `--interval` ends the script at the first pause, after one call of `connect_sim`. */
  lemma NegativeIntervalStops(interval: int, calls: nat -> Session, rounds: nat)
    requires interval < 0 && rounds > 0 && calls(0).end != Raised
    ensures Periodic(interval, calls, 0, rounds) == (calls(0).events, NegativeSleep)
  {
  }
}
