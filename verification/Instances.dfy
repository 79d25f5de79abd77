/** ExpandNumprocs in internal/process/manager.go, and which config changes its processes survive. */
module Instances {
  import opened Basics
  import opened Configs
  import opened Names
  import Expand

  // ---------------------------------------------------------------------
  // expandVar
  // ---------------------------------------------------------------------

  predicate OccursAt(s: string, pattern: string, i: nat) {
    i + |pattern| <= |s| && s[i..i + |pattern|] == pattern
  }

  /** No occurrence of the pattern starts before position `end`. */
  predicate Clear(s: string, pattern: string, end: nat) {
    forall j: nat :: j < end ==> !OccursAt(s, pattern, j)
  }

  /** indexOf: the first occurrence, or -1. */
  method IndexOf(s: string, substr: string) returns (i: int)
    ensures i >= -1
    ensures if i < 0 then Clear(s, substr, |s| + 1) else OccursAt(s, substr, i) && Clear(s, substr, i)
  {
    i := 0;
    while i + |substr| <= |s|
      invariant 0 <= i && Clear(s, substr, i)
    {
      if s[i..i + |substr|] == substr {
        return;
      }
      i := i + 1;
    }
    i := -1;
  }

  function One(pattern: string, value: string): seq<Rule> {
    [Rule(pattern, value)]
  }

  lemma {:induction false} MatchOne(pattern: string, value: string, s: string)
    ensures Match(One(pattern, value), s) == if OccursAt(s, pattern, 0) then 0 else 1
  {
    assert One(pattern, value)[1..] == [];
    assert s[..|s|] == s;
    if pattern <= s { assert s[0..|pattern|] == pattern; }
  }

  /** Text in which no occurrence starts is kept. */
  lemma {:induction false} KeepsClear(a: string, t: string, pattern: string, value: string)
    requires pattern != "" && Clear(a + t, pattern, |a|)
    ensures Replace(One(pattern, value), a + t) == a + Replace(One(pattern, value), t)
    decreases |a|
  {
    hide OccursAt, Replace;
    if a == "" {
      assert a + t == t;
    } else {
      var s, b := a + t, a[1..];
      assert s[1..] == b + t && a == [s[0]] + b;
      forall j: nat | j < |b| ensures !OccursAt(b + t, pattern, j) {
        OccursInTail(s, pattern, j);
      }
      KeepsClear(b, t, pattern, value);
      KeepsHead(pattern, value, s);
      Regroup([s[0]], b, Replace(One(pattern, value), t));
    }
  }

  lemma {:induction false} KeepsHead(pattern: string, value: string, s: string)
    requires pattern != "" && s != "" && !OccursAt(s, pattern, 0)
    ensures Replace(One(pattern, value), s) == [s[0]] + Replace(One(pattern, value), s[1..])
  {
    MatchOne(pattern, value, s);
  }

  lemma OccursInTail(s: string, pattern: string, j: nat)
    requires s != ""
    ensures OccursAt(s[1..], pattern, j) <==> OccursAt(s, pattern, j + 1)
  {
    if j + 1 + |pattern| <= |s| { assert s[1..][j..j + |pattern|] == s[j + 1..j + 1 + |pattern|]; }
  }

  lemma {:induction false} ReplacesHead(pattern: string, value: string, rest: string)
    requires pattern != ""
    ensures Replace(One(pattern, value), pattern + rest) == value + Replace(One(pattern, value), rest)
  {
    var s := pattern + rest;
    assert OccursAt(s, pattern, 0);
    MatchOne(pattern, value, s);
    assert s[|pattern|..] == rest;
  }

  /** The value can neither contain an occurrence nor become part of one. */
  predicate Inert(pattern: string, value: string) {
    Placeholder(pattern) && value != "" && forall c :: c in value ==> c !in pattern
  }

  /** Replacing the first occurrence leaves the result of the pass, and nothing to find before the value's end. */
  lemma {:induction false} ReplaceFirst(s: string, pattern: string, value: string, i: nat)
    requires Inert(pattern, value) && OccursAt(s, pattern, i) && Clear(s, pattern, i)
    ensures var s' := s[..i] + value + s[i + |pattern|..];
      && Replace(One(pattern, value), s') == Replace(One(pattern, value), s)
      && Clear(s', pattern, i + |value|)
  {
    hide Replace, Clear;
    var a, rest := s[..i], s[i + |pattern|..];
    assert s == a + (pattern + rest);
    KeepsClear(a, pattern + rest, pattern, value);
    ReplacesHead(pattern, value, rest);
    NothingAcross(a, pattern, value, rest);
    KeepsClear(a + value, rest, pattern, value);
    Regroup(a, value, Replace(One(pattern, value), rest));
  }

  lemma Regroup(a: string, b: string, c: string)
    ensures a + (b + c) == a + b + c
  {}

  lemma Mismatch(s: string, pattern: string, j: nat, k: nat)
    requires k < |pattern| && (j + k < |s| ==> s[j + k] != pattern[k])
    ensures !OccursAt(s, pattern, j)
  {
    if j + |pattern| <= |s| { assert s[j..j + |pattern|][k] == s[j + k]; }
  }

  lemma {:induction false} NothingAcross(a: string, pattern: string, value: string, rest: string)
    requires Inert(pattern, value) && Clear(a + (pattern + rest), pattern, |a|)
    ensures Clear(a + value + rest, pattern, |a + value|)
  {
    var s, s' := a + (pattern + rest), a + value + rest;
    forall j: nat | j < |a + value| ensures !OccursAt(s', pattern, j) {
      if j >= |a| {
        assert s'[j] == value[j - |a|] && value[j - |a|] in value && pattern[0] in pattern;
        Mismatch(s', pattern, j, 0);
      } else if j + |pattern| > |a| {
        assert s'[|a|] == value[0] && value[0] in value && pattern[|a| - j] in pattern;
        Mismatch(s', pattern, j, |a| - j);
      } else {
        assert s'[j..j + |pattern|] == a[j..j + |pattern|] == s[j..j + |pattern|];
        assert !OccursAt(s, pattern, j);
      }
    }
  }

  /** expandVar: replacing first occurrences until there is none is one pass from left to right, and ends. */
  method ExpandVar(text: string, pattern: string, value: string) returns (s: string)
    requires Inert(pattern, value)
    ensures s == Replace(One(pattern, value), text)
  {
    hide Replace;
    s := text;
    ghost var done: nat := 0;
    while true
      invariant done <= |s| && Clear(s, pattern, done)
      invariant Replace(One(pattern, value), s) == Replace(One(pattern, value), text)
      decreases |s| - done
    {
      var idx := IndexOf(s, pattern);
      if idx < 0 {
        assert s + "" == s;
        KeepsClear(s, "", pattern, value);
        ReplaceNothing(One(pattern, value));
        return;
      }
      ReplaceFirst(s, pattern, value, idx);
      assert idx >= done;
      s := s[..idx] + value + s[idx + |pattern|..];
      done := idx + |value|;
    }
  }

  lemma {:induction false} DecimalIsInert(num: int)
    ensures Inert(PROCESS_NUM, Decimal(num))
  {
    PlaceholdersAreFour();
    DecimalCharacters(num);
    assert forall c :: c in PROCESS_NUM ==> c != '-' && !('0' <= c <= '9');
  }

  lemma {:induction false} DecimalCharacters(num: int)
    ensures forall c :: c in Decimal(num) ==> c == '-' || '0' <= c <= '9'
    decreases if num < 0 then 1 - num else num
  {
    if num < 0 { DecimalCharacters(-num); } else if num >= 10 { DecimalCharacters(num / 10); }
  }

  /** Config loading leaves %(process_num)d in place; each instance puts its own number there. */
  function Numbered(text: string, num: int): string {
    DecimalIsInert(num);
    Replace(One(PROCESS_NUM, Decimal(num)), text)
  }

  function Percents(s: string): nat {
    if s == "" then 0 else (if s[0] == '%' then 1 else 0) + Percents(s[1..])
  }

  lemma {:induction false} PercentsConcat(a: string, b: string)
    ensures Percents(a + b) == Percents(a) + Percents(b)
    decreases |a|
  {
    if a == "" {
      assert a + b == b;
    } else {
      assert (a + b)[1..] == a[1..] + b;
      PercentsConcat(a[1..], b);
    }
  }

  lemma {:induction false} NoPercents(s: string)
    requires '%' !in s
    ensures Percents(s) == 0
  {
    if s != "" { NoPercents(s[1..]); }
  }

  lemma PlaceholderHasOne(pattern: string)
    requires Placeholder(pattern)
    ensures Percents(pattern) == 1
  {
    NoPercents(pattern[1..]);
  }

  /**
    The pass changes a text exactly if the text contains the placeholder: each
    replacement takes a percent sign away.
   */
  lemma {:induction false} ReplaceKeepsIff(text: string, pattern: string, value: string)
    requires Inert(pattern, value)
    ensures !Contains(text, pattern) ==> Replace(One(pattern, value), text) == text
    ensures Percents(Replace(One(pattern, value), text)) <= Percents(text)
    ensures Contains(text, pattern) ==> Percents(Replace(One(pattern, value), text)) < Percents(text)
    decreases |text|
  {
    if text != "" {
      MatchOne(pattern, value, text);
      if OccursAt(text, pattern, 0) {
        var rest := text[|pattern|..];
        assert text == pattern + rest;
        ReplaceKeepsIff(rest, pattern, value);
        PercentsConcat(pattern, rest);
        PercentsConcat(value, Replace(One(pattern, value), rest));
        PlaceholderHasOne(pattern);
        assert pattern[0] in pattern;
        NoPercents(value);
      } else {
        var rest := text[1..];
        assert text == [text[0]] + rest;
        ReplaceKeepsIff(rest, pattern, value);
        assert ([text[0]] + Replace(One(pattern, value), rest))[1..] == Replace(One(pattern, value), rest);
      }
    }
  }

  /**
    Doubling every % and $ protects a text through config loading, but with
    numprocs > 1 the instance then looks for its placeholder in the result: the
    text comes through both stages exactly if it does not contain that.
   */
  lemma EscapeThroughBothStagesIff(text: string, ctx: Expand.Context, env: map<string, string>, num: int)
    ensures Expand.ExpandString(Expand.Escape(text), ctx, env) == Ok(text)
    ensures Numbered(text, num) == text <==> !Contains(text, PROCESS_NUM)
  {
    hide Contains, Decimal;
    Expand.EscapeRoundTrip(text, ctx, env);
    DecimalIsInert(num);
    ReplaceKeepsIff(text, PROCESS_NUM, Decimal(num));
  }

  function NumberedLog(log: StreamLog, num: int): StreamLog {
    log.(logfile := Numbered(log.logfile, num))
  }

  /** instanceConfig. */
  function InstanceConfig(cfg: ProgramConfig, num: int): ProgramConfig {
    var s := cfg.spawn;
    cfg.(spawn := s.(
      command := Numbered(s.command, num),
      directory := Numbered(s.directory, num),
      user := Numbered(s.user, num),
      stdout := NumberedLog(s.stdout, num),
      stderr := NumberedLog(s.stderr, num),
      environment := match s.environment
        case None => None
        case Some(env) => Some(map k | k in env :: Numbered(env[k], num))))
  }

  /** The config of process `k` of a program, counting from 0. */
  function NthConfig(cfg: ProgramConfig, k: nat): ProgramConfig {
    if cfg.numprocs <= 1 then cfg else InstanceConfig(cfg, cfg.numprocsStart + k)
  }

  /** `result` is `text` with the number in place of the placeholder. */
  ghost predicate PutIn(text: string, num: int, result: string) {
    exists lits: seq<string> :: PutBetween(lits, text, num, result)
  }

  ghost predicate PutBetween(lits: seq<string>, text: string, num: int, result: string) {
    && |lits| > 0 && (forall i :: 0 <= i < |lits| ==> !Contains(lits[i], "%(process_num)d"))
    && text == Woven(lits, Repeated("%(process_num)d", |lits| - 1))
    && result == Woven(lits, Repeated(Decimal(num), |lits| - 1))
  }

  function Repeated(s: string, n: nat): (r: seq<string>)
    ensures |r| == n && forall i :: 0 <= i < n ==> r[i] == s
  {
    seq(n, _ => s)
  }

  lemma OneIsUnambiguous(num: int)
    ensures Unambiguous(One(PROCESS_NUM, Decimal(num))) && NonEmptyPatterns(One(PROCESS_NUM, Decimal(num)))
  {
    PlaceholdersAreFour();
  }

  lemma NumberedPutsIn(text: string, num: int)
    ensures PutIn(text, num, Numbered(text, num))
  {
    hide Contains, Woven, Replace, Unambiguous, Decimal;
    var rules := One(PROCESS_NUM, Decimal(num));
    OneIsUnambiguous(num);
    var lits, holes := EveryTextIsWoven(rules, text);
    ReplaceFills(rules, lits, holes);
    forall i | 0 <= i < |holes| ensures holes[i] == 0 { assert holes[i] in holes; }
    assert Patterns(rules, holes) == Repeated("%(process_num)d", |holes|);
    assert Values(rules, holes) == Repeated(Decimal(num), |holes|);
    forall i | 0 <= i < |lits| ensures !Contains(lits[i], "%(process_num)d") {
      assert !Contains(lits[i], rules[0].pattern);
    }
    assert PutBetween(lits, text, num, Numbered(text, num));
  }

  ghost predicate LogNumbered(log: StreamLog, num: int, r: StreamLog) {
    PutIn(log.logfile, num, r.logfile) && r == log.(logfile := r.logfile)
  }

  ghost predicate EnvironmentNumbered(env: Option<map<string, string>>, num: int, r: Option<map<string, string>>) {
    match env
    case None => r.None?
    case Some(env) => r.Some? && r.value.Keys == env.Keys && forall k :: k in env ==> PutIn(env[k], num, r.value[k])
  }

  /** `r` is the config with the instance's number in the fields that may ask for it, and the same otherwise. */
  ghost predicate IsNumbered(cfg: ProgramConfig, num: int, r: ProgramConfig) {
    var s, t := cfg.spawn, r.spawn;
    && PutIn(s.command, num, t.command) && PutIn(s.directory, num, t.directory) && PutIn(s.user, num, t.user)
    && LogNumbered(s.stdout, num, t.stdout) && LogNumbered(s.stderr, num, t.stderr)
    && EnvironmentNumbered(s.environment, num, t.environment)
    && r == cfg.(spawn := s.(command := t.command, directory := t.directory, user := t.user,
                             stdout := t.stdout, stderr := t.stderr, environment := t.environment))
  }

  lemma InstanceIsNumbered(cfg: ProgramConfig, num: int)
    ensures IsNumbered(cfg, num, InstanceConfig(cfg, num))
  {
    hide PutIn, Numbered;
    forall text ensures PutIn(text, num, Numbered(text, num)) { NumberedPutsIn(text, num); }
  }

  datatype Instance = Instance(name: string, group: string, cfg: ProgramConfig)

  /** One instance with the config as it is, or as many as are asked for, each with its own number put in. */
  ghost predicate AreNumbered(cfg: ProgramConfig, instances: seq<Instance>) {
    if cfg.numprocs <= 1 then |instances| == 1 && instances[0].cfg == cfg
    else
      && |instances| == cfg.numprocs
      && forall k :: 0 <= k < |instances| ==> IsNumbered(cfg, cfg.numprocsStart + k, instances[k].cfg)
  }

  method ExpandNumprocs(program: string, cfg: ProgramConfig) returns (instances: seq<Instance>)
    ensures |instances| == Copies(cfg)
    ensures forall k :: 0 <= k < |instances| ==>
      instances[k] == Instance(NthName(program, cfg, k), program, NthConfig(cfg, k))
    ensures AreNumbered(cfg, instances)
  {
    hide InstanceConfig, NthName, IsNumbered;
    var names := InstanceNames(program, cfg);
    if cfg.numprocs <= 1 {
      return [Instance(names[0], program, cfg)];
    }
    instances := [];
    for k := 0 to |names|
      invariant |instances| == k
      invariant forall i :: 0 <= i < k ==> IsNumbered(cfg, cfg.numprocsStart + i, instances[i].cfg)
      invariant forall i :: 0 <= i < k ==>
        instances[i] == Instance(NthName(program, cfg, i), program, NthConfig(cfg, i))
    {
      InstanceIsNumbered(cfg, cfg.numprocsStart + k);
      instances := instances + [Instance(names[k], program, InstanceConfig(cfg, cfg.numprocsStart + k))];
    }
  }

  // ---------------------------------------------------------------------
  // needsRestart in internal/process/reload.go
  // ---------------------------------------------------------------------

  const CLEARED := Supervision(0, None, Never, 0, 0, [], "", 0, false, false, "")

  /** spawnSettings: the config without what the supervisor only consults while managing a process. */
  function WithoutSupervision(cfg: ProgramConfig): ProgramConfig {
    cfg.(sup := CLEARED)
  }

  predicate NeedsRestart(was: ProgramConfig, now: ProgramConfig) {
    WithoutSupervision(was) != WithoutSupervision(now)
  }

  /**
    A program is updated in place exactly if the change touches nothing but
    supervision settings; then it keeps its set of process names, and each
    process keeps the settings its child was spawned with.
   */
  lemma InPlaceChangeKeepsChildren(program: string, was: ProgramConfig, now: ProgramConfig, k: nat)
    ensures !NeedsRestart(was, now) <==> was.(sup := now.sup) == now
    ensures !NeedsRestart(was, now) ==>
      && Copies(now) == Copies(was)
      && NthName(program, now, k) == NthName(program, was, k)
      && NthConfig(now, k) == NthConfig(was, k).(sup := now.sup)
  {
    hide Replace, Decimal;
    if !NeedsRestart(was, now) {
      assert was.(sup := now.sup) == WithoutSupervision(was).(sup := now.sup);
      assert now == WithoutSupervision(now).(sup := now.sup);
      if was.numprocs > 1 {
        NameIgnoresSupervision(program, was, now, was.numprocsStart + k);
      }
    }
  }

  lemma NameIgnoresSupervision(program: string, was: ProgramConfig, now: ProgramConfig, num: int)
    requires was.(sup := now.sup) == now
    ensures InstanceName(program, was, num) == InstanceName(program, now, num)
  {
    assert was.processName == now.processName && was.numprocs == now.numprocs;
    assert Rules(program, was, num) == Rules(program, now, num);
  }
}
