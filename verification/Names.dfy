/** internal/config/names.go: the process names a config gives rise to. */
module Names {
  import opened Basics
  import opened Configs
  import opened Ordering

  // ---------------------------------------------------------------------
  // strings.NewReplacer
  // ---------------------------------------------------------------------

  datatype Rule = Rule(pattern: string, value: string)

  /** The first rule, in argument order, whose pattern the text begins with; |rules| if there is none. */
  function Match(rules: seq<Rule>, text: string): (k: nat)
    ensures k <= |rules|
    ensures k < |rules| ==> rules[k].pattern <= text
  {
    if rules == [] then 0
    else if rules[0].pattern <= text then 0
    else 1 + Match(rules[1..], text)
  }

  ghost predicate NonEmptyPatterns(rules: seq<Rule>) {
    forall i :: 0 <= i < |rules| ==> rules[i].pattern != ""
  }

  /** One pass from left to right; replaced text is not looked at again. */
  function Replace(rules: seq<Rule>, text: string): string
    requires NonEmptyPatterns(rules)
    decreases |text|
  {
    if text == "" then ""
    else
      var k := Match(rules, text);
      if k < |rules| then rules[k].value + Replace(rules, text[|rules[k].pattern|..])
      else [text[0]] + Replace(rules, text[1..])
  }

  /** strings.Contains. */
  predicate Contains(text: string, pattern: string) {
    pattern <= text || (text != "" && Contains(text[1..], pattern))
  }

  /** A placeholder: a percent sign, then no further one. */
  predicate Placeholder(pattern: string) {
    pattern != "" && pattern[0] == '%' && '%' !in pattern[1..]
  }

  /** No pattern is a prefix of another one, and all are placeholders. */
  ghost predicate Unambiguous(rules: seq<Rule>) {
    && (forall i :: 0 <= i < |rules| ==> Placeholder(rules[i].pattern))
    && forall i, j :: 0 <= i < |rules| && 0 <= j < |rules| && i != j ==> !(rules[i].pattern <= rules[j].pattern)
  }

  /** Rules that differ at most in the value of rule `at`, where the one has `a` and the other `b`. */
  ghost predicate DifferAt(r1: seq<Rule>, r2: seq<Rule>, at: nat) {
    && |r1| == |r2| && at < |r1|
    && (forall i :: 0 <= i < |r1| ==> r1[i].pattern == r2[i].pattern)
    && forall i :: 0 <= i < |r1| && i != at ==> r1[i] == r2[i]
  }

  lemma {:induction false} MatchAgrees(r1: seq<Rule>, r2: seq<Rule>, text: string)
    requires |r1| == |r2| && forall i :: 0 <= i < |r1| ==> r1[i].pattern == r2[i].pattern
    ensures Match(r1, text) == Match(r2, text)
  {
    if r1 != [] {
      forall i | 0 <= i < |r1| - 1 ensures r1[1..][i].pattern == r2[1..][i].pattern {}
      MatchAgrees(r1[1..], r2[1..], text);
    }
  }

  lemma {:induction false} MatchIsIt(rules: seq<Rule>, text: string, at: nat)
    requires Unambiguous(rules) && at < |rules|
    requires rules[at].pattern <= text
    ensures Match(rules, text) == at
  {
    var k := Match(rules, text);
    MatchFirst(rules, text, at);
    if k != at {
      var p, q := rules[k].pattern, rules[at].pattern;
      PrefixesCompare(p, q, text);
    }
  }

  lemma PrefixesCompare(p: string, q: string, text: string)
    requires p <= text && q <= text
    ensures p <= q || q <= p
  {}

  lemma {:induction false} MatchFirst(rules: seq<Rule>, text: string, at: nat)
    requires at < |rules| && rules[at].pattern <= text
    ensures Match(rules, text) <= at
  {
    if at > 0 && !(rules[0].pattern <= text) { MatchFirst(rules[1..], text, at - 1); }
  }

  lemma PatternsNonEmpty(rules: seq<Rule>)
    requires Unambiguous(rules)
    ensures NonEmptyPatterns(rules)
  {}

  /**
    Values of the same length for one placeholder: wherever the text contains
    it the results differ, and where it does not they are the same. Values of
    different lengths: likewise, already in the length of the result.
   */
  lemma {:induction false} ReplaceTells(r1: seq<Rule>, r2: seq<Rule>, at: nat, text: string)
    requires Unambiguous(r1) && Unambiguous(r2) && DifferAt(r1, r2, at)
    requires |r1[at].value| <= |r2[at].value| && r1[at].value != r2[at].value
    ensures NonEmptyPatterns(r1) && NonEmptyPatterns(r2)
    ensures !Contains(text, r1[at].pattern) ==> Replace(r1, text) == Replace(r2, text)
    ensures Contains(text, r1[at].pattern) ==>
      if |r1[at].value| < |r2[at].value| then |Replace(r1, text)| < |Replace(r2, text)|
      else |Replace(r1, text)| == |Replace(r2, text)| && Replace(r1, text) != Replace(r2, text)
    decreases |text|
  {
    PatternsNonEmpty(r1);
    PatternsNonEmpty(r2);
    if text != "" {
      var k := Match(r1, text);
      MatchAgrees(r1, r2, text);
      var rest := if k < |r1| then text[|r1[k].pattern|..] else text[1..];
      ReplaceTells(r1, r2, at, rest);
      if k == at {
        SplitDiffers(r1[at].value, Replace(r1, rest), r2[at].value, Replace(r2, rest));
      } else {
        if k < |r1| {
          ContainsBeyond(text, r1[k].pattern, r1[at].pattern);
          if r1[at].pattern <= text { MatchIsIt(r1, text, at); }
        } else if r1[at].pattern <= text {
          MatchFirst(r1, text, at);
        }
        var v := if k < |r1| then r1[k].value else [text[0]];
        PrefixCancels(v, Replace(r1, rest), Replace(r2, rest));
      }
    }
  }

  lemma SplitDiffers(a: string, x: string, b: string, y: string)
    ensures |a| == |b| && a != b ==> a + x != b + y
  {
    if |a| == |b| && a + x == b + y {
      assert a == (a + x)[..|a|] && b == (b + y)[..|b|];
    }
  }

  lemma PrefixCancels(v: string, x: string, y: string)
    ensures v + x == v + y ==> x == y
  {
    assert x == (v + x)[|v|..] && y == (v + y)[|v|..];
  }

  /** A placeholder found behind the start of another one lies wholly behind that one. */
  lemma {:induction false} ContainsBeyond(text: string, p: string, q: string)
    requires Placeholder(p) && Placeholder(q) && p <= text && !(q <= text)
    ensures Contains(text, q) <==> Contains(text[|p|..], q)
  {
    ContainsAfter(text, q, |p|);
  }

  lemma {:induction false} ContainsAfter(text: string, q: string, n: nat)
    requires Placeholder(q) && 0 < n <= |text| && !(q <= text)
    requires forall i :: 0 < i < n ==> text[i] != '%'
    ensures Contains(text, q) <==> Contains(text[n..], q)
    decreases |text|
  {
    if n > 1 {
      var tail := text[1..];
      assert tail[0] == text[1] && !(q <= tail);
      ContainsAfter(tail, q, n - 1);
      assert tail[n - 1..] == text[n..];
    }
  }

  // ---------------------------------------------------------------------
  // Texts with holes
  // ---------------------------------------------------------------------

  /** The literal parts of a text with something in between. */
  function Woven(lits: seq<string>, between: seq<string>): string
    requires |lits| == |between| + 1
  {
    if between == [] then lits[0] else lits[0] + between[0] + Woven(lits[1..], between[1..])
  }

  /** The literal parts contain no pattern. */
  ghost predicate Plain(rules: seq<Rule>, lits: seq<string>) {
    forall i, k :: 0 <= i < |lits| && 0 <= k < |rules| ==> !Contains(lits[i], rules[k].pattern)
  }

  lemma {:induction false} MatchNone(rules: seq<Rule>, text: string)
    requires forall k :: 0 <= k < |rules| ==> !(rules[k].pattern <= text)
    ensures Match(rules, text) == |rules|
  {
    if rules != [] {
      forall k | 0 <= k < |rules[1..]| ensures !(rules[1..][k].pattern <= text) {
        assert rules[1..][k] == rules[k + 1];
      }
      MatchNone(rules[1..], text);
    }
  }

  /** A placeholder cannot begin in a text without it and end beyond the percent sign that follows. */
  lemma NotAcross(a: string, t: string, pattern: string)
    requires Placeholder(pattern) && a != "" && !Contains(a, pattern) && (t == "" || t[0] == '%')
    ensures !(pattern <= a + t)
  {
    if |pattern| <= |a| {
      assert (a + t)[..|pattern|] == a[..|pattern|];
    } else if t != "" {
      assert pattern[1..][|a| - 1] == pattern[|a|] && (a + t)[|a|] == '%';
    }
  }

  lemma {:induction false} LiteralPasses(rules: seq<Rule>, a: string, t: string)
    requires Unambiguous(rules) && NonEmptyPatterns(rules) && (t == "" || t[0] == '%')
    requires forall k :: 0 <= k < |rules| ==> !Contains(a, rules[k].pattern)
    ensures Replace(rules, a + t) == a + Replace(rules, t)
    decreases |a|
  {
    hide Replace, Unambiguous, NonEmptyPatterns, Contains;
    if a == "" {
      assert a + t == t && a + Replace(rules, t) == Replace(rules, t);
    } else {
      LiteralStep(rules, a, t);
      LiteralPasses(rules, a[1..], t);
      assert [a[0]] + (a[1..] + Replace(rules, t)) == a + Replace(rules, t);
    }
  }

  lemma {:induction false} LiteralStep(rules: seq<Rule>, a: string, t: string)
    requires Unambiguous(rules) && NonEmptyPatterns(rules) && (t == "" || t[0] == '%')
    requires a != "" && forall k :: 0 <= k < |rules| ==> !Contains(a, rules[k].pattern)
    ensures forall k :: 0 <= k < |rules| ==> !Contains(a[1..], rules[k].pattern)
    ensures Replace(rules, a + t) == [a[0]] + Replace(rules, a[1..] + t)
  {
    hide Placeholder;
    forall k | 0 <= k < |rules| ensures !(rules[k].pattern <= a + t) { NotAcross(a, t, rules[k].pattern); }
    MatchNone(rules, a + t);
    assert (a + t)[1..] == a[1..] + t;
  }

  lemma {:induction false} HoleIsFilled(rules: seq<Rule>, at: nat, t: string)
    requires Unambiguous(rules) && NonEmptyPatterns(rules) && at < |rules|
    ensures Replace(rules, rules[at].pattern + t) == rules[at].value + Replace(rules, t)
  {
    var s := rules[at].pattern + t;
    MatchIsIt(rules, s, at);
    assert s[|rules[at].pattern|..] == t;
  }

  function Patterns(rules: seq<Rule>, holes: seq<nat>): (r: seq<string>)
    requires forall k :: k in holes ==> k < |rules|
    ensures |r| == |holes|
  {
    seq(|holes|, i requires 0 <= i < |holes| => assert holes[i] in holes; rules[holes[i]].pattern)
  }

  function Values(rules: seq<Rule>, holes: seq<nat>): (r: seq<string>)
    requires forall k :: k in holes ==> k < |rules|
    ensures |r| == |holes|
  {
    seq(|holes|, i requires 0 <= i < |holes| => assert holes[i] in holes; rules[holes[i]].value)
  }

  /** The replacer fills the holes and leaves the literal parts. */
  lemma {:induction false} ReplaceFills(rules: seq<Rule>, lits: seq<string>, holes: seq<nat>)
    requires Unambiguous(rules) && NonEmptyPatterns(rules) && Plain(rules, lits)
    requires |lits| == |holes| + 1 && forall k :: k in holes ==> k < |rules|
    ensures Replace(rules, Woven(lits, Patterns(rules, holes))) == Woven(lits, Values(rules, holes))
    decreases |holes|
  {
    hide Replace, Contains, Unambiguous;
    if holes == [] {
      assert lits[0] + "" == lits[0];
      LiteralPasses(rules, lits[0], "");
      assert Replace(rules, "") == "" by { ReplaceNothing(rules); }
    } else {
      var k, more := holes[0], holes[1..];
      assert holes[0] in holes && forall i :: i in more ==> i in holes;
      assert Patterns(rules, holes)[1..] == Patterns(rules, more) && Values(rules, holes)[1..] == Values(rules, more);
      var rest := Woven(lits[1..], Patterns(rules, more));
      ReplaceFills(rules, lits[1..], more);
      HoleIsFilled(rules, k, rest);
      BeginsWithPercent(rules, k, rest);
      LiteralPasses(rules, lits[0], rules[k].pattern + rest);
      assert lits[0] + rules[k].pattern + rest == lits[0] + (rules[k].pattern + rest);
      assert lits[0] + rules[k].value + Replace(rules, rest) == lits[0] + (rules[k].value + Replace(rules, rest));
    }
  }

  lemma BeginsWithPercent(rules: seq<Rule>, k: nat, rest: string)
    requires Unambiguous(rules) && k < |rules|
    ensures (rules[k].pattern + rest)[0] == '%'
  {}

  lemma ReplaceNothing(rules: seq<Rule>)
    requires NonEmptyPatterns(rules)
    ensures Replace(rules, "") == ""
  {}

  /** Every text has literal parts and holes. */
  lemma {:induction false} EveryTextIsWoven(rules: seq<Rule>, text: string)
    returns (lits: seq<string>, holes: seq<nat>)
    requires Unambiguous(rules) && NonEmptyPatterns(rules)
    ensures Plain(rules, lits) && |lits| == |holes| + 1 && forall k :: k in holes ==> k < |rules|
    ensures Woven(lits, Patterns(rules, holes)) == text
    decreases |text|
  {
    hide Contains, Unambiguous;
    var k := Match(rules, text);
    if text == "" {
      lits, holes := [""], [];
      NothingInNothing(rules);
    } else if k < |rules| {
      var pattern := rules[k].pattern;
      var more, others := EveryTextIsWoven(rules, text[|pattern|..]);
      lits, holes := [""] + more, [k] + others;
      assert lits[1..] == more && Patterns(rules, holes)[1..] == Patterns(rules, others);
      assert "" + pattern + text[|pattern|..] == text;
      NothingInNothing(rules);
    } else {
      var more, others := EveryTextIsWoven(rules, text[1..]);
      lits, holes := [[text[0]] + more[0]] + more[1..], others;
      WovenHead([text[0]], more, Patterns(rules, others));
      StartsTheText(lits, Patterns(rules, others));
      StillPlain(rules, text, more[0]);
    }
  }

  lemma NothingInNothing(rules: seq<Rule>)
    requires NonEmptyPatterns(rules)
    ensures Plain(rules, [""])
  {}

  lemma StillPlain(rules: seq<Rule>, text: string, lit: string)
    requires text != "" && Match(rules, text) == |rules| && Plain(rules, [lit]) && [text[0]] + lit <= text
    ensures Plain(rules, [[text[0]] + lit])
  {
    var first := [text[0]] + lit;
    assert first[1..] == lit;
    forall k | 0 <= k < |rules| ensures !Contains(first, rules[k].pattern) {
      assert !Contains([lit][0], rules[k].pattern);
      if rules[k].pattern <= first { MatchFirst(rules, text, k); }
    }
  }

  lemma StartsTheText(lits: seq<string>, between: seq<string>)
    requires |lits| == |between| + 1
    ensures lits[0] <= Woven(lits, between)
  {}

  lemma WovenHead(a: string, lits: seq<string>, between: seq<string>)
    requires |lits| == |between| + 1
    ensures Woven([a + lits[0]] + lits[1..], between) == a + Woven(lits, between)
  {
    assert ([a + lits[0]] + lits[1..])[1..] == lits[1..];
  }

  // ---------------------------------------------------------------------
  // InstanceNames
  // ---------------------------------------------------------------------

  const PROGRAM_NAME := "%(program_name)s"
  const PROCESS_NUM := "%(process_num)d"
  const GROUP_NAME := "%(group_name)s"
  const NUMPROCS := "%(numprocs)d"

  function Rules(program: string, cfg: ProgramConfig, num: int): seq<Rule> {
    [Rule(PROGRAM_NAME, program), Rule(PROCESS_NUM, Decimal(num)),
     Rule(GROUP_NAME, program), Rule(NUMPROCS, Decimal(cfg.numprocs))]
  }

  lemma PlaceholdersAreFour()
    ensures Placeholder(PROGRAM_NAME) && Placeholder(PROCESS_NUM) && Placeholder(GROUP_NAME) && Placeholder(NUMPROCS)
    ensures |PROGRAM_NAME| > 5 && |PROCESS_NUM| > 5 && |GROUP_NAME| > 5 && |NUMPROCS| > 5
    ensures PROGRAM_NAME[2] == 'p' && PROCESS_NUM[2] == 'p' && GROUP_NAME[2] == 'g' && NUMPROCS[2] == 'n'
    ensures PROGRAM_NAME[5] == 'g' && PROCESS_NUM[5] == 'c'
  {}

  lemma Apart(p: string, q: string, i: nat)
    requires i < |p| && i < |q| && p[i] != q[i]
    ensures !(p <= q) && !(q <= p)
  {}

  lemma RulesAreUnambiguous(program: string, cfg: ProgramConfig, num: int)
    ensures Unambiguous(Rules(program, cfg, num)) && NonEmptyPatterns(Rules(program, cfg, num))
  {
    PlaceholdersAreFour();
    FourRules(PROGRAM_NAME, PROCESS_NUM, GROUP_NAME, NUMPROCS, Rules(program, cfg, num));
    PatternsNonEmpty(Rules(program, cfg, num));
  }

  lemma FourRules(a: string, b: string, c: string, d: string, rules: seq<Rule>)
    requires Placeholder(a) && Placeholder(b) && Placeholder(c) && Placeholder(d)
    requires |a| > 5 && |b| > 5 && |c| > 5 && |d| > 5
    requires a[2] == 'p' && b[2] == 'p' && c[2] == 'g' && d[2] == 'n' && a[5] == 'g' && b[5] == 'c'
    requires |rules| == 4
    requires rules[0].pattern == a && rules[1].pattern == b && rules[2].pattern == c && rules[3].pattern == d
    ensures Unambiguous(rules)
  {
    hide Placeholder;
    Apart(a, b, 5);
    Apart(a, c, 2);
    Apart(a, d, 2);
    Apart(b, c, 2);
    Apart(b, d, 2);
    Apart(c, d, 2);
  }

  function InstanceName(program: string, cfg: ProgramConfig, num: int): string {
    if cfg.processName == "" then program + "_" + Decimal(num)
    else
      RulesAreUnambiguous(program, cfg, num);
      Replace(Rules(program, cfg, num), cfg.processName)
  }

  /** What a template can ask for. */
  datatype Hole = ProgramHole | NumberHole | GroupHole | CountHole

  function HoleText(h: Hole): string {
    match h
    case ProgramHole => "%(program_name)s"
    case NumberHole => "%(process_num)d"
    case GroupHole => "%(group_name)s"
    case CountHole => "%(numprocs)d"
  }

  function HoleValue(h: Hole, program: string, cfg: ProgramConfig, num: int): string {
    match h
    case ProgramHole | GroupHole => program
    case NumberHole => Decimal(num)
    case CountHole => Decimal(cfg.numprocs)
  }

  function HoleTexts(holes: seq<Hole>): (r: seq<string>)
    ensures |r| == |holes| && forall i :: 0 <= i < |holes| ==> r[i] == HoleText(holes[i])
  {
    seq(|holes|, i requires 0 <= i < |holes| => HoleText(holes[i]))
  }

  function HoleValues(holes: seq<Hole>, program: string, cfg: ProgramConfig, num: int): (r: seq<string>)
    ensures |r| == |holes| && forall i :: 0 <= i < |holes| ==> r[i] == HoleValue(holes[i], program, cfg, num)
  {
    seq(|holes|, i requires 0 <= i < |holes| => HoleValue(holes[i], program, cfg, num))
  }

  /**
    A process_name made of literal text and placeholders names an instance by
    that text, with the program's name for the program and the group, the
    instance's own number, and the number of processes.
   */
  lemma NameOfTemplate(program: string, cfg: ProgramConfig, num: int, lits: seq<string>, holes: seq<Hole>)
    requires |lits| == |holes| + 1 && cfg.processName != "" && cfg.processName == Woven(lits, HoleTexts(holes))
    requires forall i, h :: 0 <= i < |lits| ==> !Contains(lits[i], HoleText(h))
    ensures InstanceName(program, cfg, num) == Woven(lits, HoleValues(holes, program, cfg, num))
  {
    hide Contains, Woven, Replace, Unambiguous, Decimal;
    var rules := Rules(program, cfg, num);
    RulesAreUnambiguous(program, cfg, num);
    var ks := seq(|holes|, i requires 0 <= i < |holes| => RuleOf(holes[i]));
    forall h: Hole ensures rules[RuleOf(h)] == Rule(HoleText(h), HoleValue(h, program, cfg, num)) {}
    assert Plain(rules, lits) by {
      assert rules[0].pattern == HoleText(ProgramHole) && rules[1].pattern == HoleText(NumberHole);
      assert rules[2].pattern == HoleText(GroupHole) && rules[3].pattern == HoleText(CountHole);
    }
    ReplaceFills(rules, lits, ks);
    assert Patterns(rules, ks) == HoleTexts(holes);
    assert Values(rules, ks) == HoleValues(holes, program, cfg, num);
  }

  function RuleOf(h: Hole): (k: nat)
    ensures k < 4
  {
    match h
    case ProgramHole => 0
    case NumberHole => 1
    case GroupHole => 2
    case CountHole => 3
  }

  /** The number of processes of a program. */
  function Copies(cfg: ProgramConfig): nat {
    if cfg.numprocs <= 1 then 1 else cfg.numprocs
  }

  /** The name of process `k` of a program, counting from 0. */
  function NthName(program: string, cfg: ProgramConfig, k: nat): string {
    if cfg.numprocs > 1 then InstanceName(program, cfg, cfg.numprocsStart + k)
    else if cfg.processName != "" then cfg.processName
    else program
  }

  method InstanceNames(program: string, cfg: ProgramConfig) returns (names: seq<string>)
    ensures cfg.numprocs <= 1 ==> names == [if cfg.processName == "" then program else cfg.processName]
    ensures cfg.numprocs > 1 ==> |names| == cfg.numprocs && forall k :: 0 <= k < |names| ==>
      names[k] == if cfg.processName == "" then program + "_" + Decimal(cfg.numprocsStart + k)
                  else InstanceName(program, cfg, cfg.numprocsStart + k)
    ensures |names| == Copies(cfg)
    ensures forall k :: 0 <= k < |names| ==> names[k] == NthName(program, cfg, k)
  {
    if cfg.numprocs <= 1 {
      if cfg.processName != "" && cfg.processName != program {
        return [cfg.processName];
      }
      return [program];
    }
    names := [];
    var i := cfg.numprocsStart;
    while i < cfg.numprocsStart + cfg.numprocs
      invariant i == cfg.numprocsStart + |names| && |names| <= cfg.numprocs
      invariant forall k :: 0 <= k < |names| ==> names[k] == NthName(program, cfg, k)
    {
      names := names + [InstanceName(program, cfg, i)];
      i := i + 1;
    }
  }

  // ---------------------------------------------------------------------
  // The processes of one program
  // ---------------------------------------------------------------------

  lemma {:induction false} DecimalIsDigits(n: nat)
    ensures Decimal(n)[0] != '-'
  {
    if n >= 10 { DecimalIsDigits(n / 10); }
  }

  lemma {:induction false} NaturalsDiffer(n: nat, m: nat)
    requires Decimal(n) == Decimal(m)
    ensures n == m
  {
    hide Decimal;
    LastDigit(n);
    LastDigit(m);
    DigitsDiffer(n % 10, m % 10);
    if n >= 10 { NaturalsDiffer(n / 10, m / 10); }
  }

  lemma {:induction false} DecimalIsInjective(n: int, m: int)
    requires Decimal(n) == Decimal(m)
    ensures n == m
  {
    hide Decimal;
    Sign(n);
    Sign(m);
    NaturalsDiffer(if n < 0 then -n else n, if m < 0 then -m else m);
  }

  lemma Sign(n: int)
    ensures n < 0 ==> Decimal(n)[0] == '-' && Decimal(n)[1..] == Decimal(-n)
    ensures n >= 0 ==> Decimal(n)[0] != '-'
  {
    if n >= 0 { DecimalIsDigits(n); }
  }

  lemma LastDigit(n: nat)
    ensures var s := Decimal(n);
      s[|s| - 1] == DIGITS[n % 10] && (if n < 10 then |s| == 1 else |s| >= 2 && s[..|s| - 1] == Decimal(n / 10))
  {}

  lemma DigitsDiffer(i: nat, j: nat)
    requires i < 10 && j < 10
    ensures DIGITS[i] == DIGITS[j] ==> i == j
  {}

  /** Two instances of a program share a name exactly if its process_name leaves out the process number. */
  lemma {:induction false} InstancesDifferIff(program: string, cfg: ProgramConfig, n: int, m: int)
    requires n != m
    ensures InstanceName(program, cfg, n) == InstanceName(program, cfg, m)
      <==> cfg.processName != "" && !Contains(cfg.processName, PROCESS_NUM)
  {
    hide Replace, Decimal, Contains, Unambiguous, NonEmptyPatterns;
    if Decimal(n) == Decimal(m) { DecimalIsInjective(n, m); }
    if cfg.processName == "" {
      PrefixCancels(program + "_", Decimal(n), Decimal(m));
    } else {
      var rn, rm := Rules(program, cfg, n), Rules(program, cfg, m);
      RulesAreUnambiguous(program, cfg, n);
      RulesAreUnambiguous(program, cfg, m);
      if |Decimal(n)| <= |Decimal(m)| {
        ReplaceTells(rn, rm, 1, cfg.processName);
      } else {
        ReplaceTells(rm, rn, 1, cfg.processName);
      }
    }
  }

  // ---------------------------------------------------------------------
  // validateProcessNames
  // ---------------------------------------------------------------------

  datatype NameError = NeedsNumber(program: string) | SharedName(name: string, first: string, second: string)

  /** numprocs > 1 with a process_name that does not tell the instances apart. */
  predicate LacksNumber(cfg: ProgramConfig) {
    cfg.numprocs > 1 && cfg.processName != "" && !Contains(cfg.processName, PROCESS_NUM)
  }

  /** No two processes of the config share a name. */
  ghost predicate NamesDiffer(programs: map<string, ProgramConfig>) {
    forall p, q, i: nat, j: nat ::
      p in programs && q in programs && i < Copies(programs[p]) && j < Copies(programs[q]) ==>
        NthName(p, programs[p], i) == NthName(q, programs[q], j) ==> p == q && i == j
  }

  /** What the loops have built: the program that owns each name so far, and the errors. */
  datatype Scan = Scan(owner: map<string, string>, errs: seq<NameError>)

  function CheckName(program: string, name: string, s: Scan): Scan {
    if name in s.owner then s.(errs := s.errs + [SharedName(name, s.owner[name], program)])
    else s.(owner := s.owner[name := program])
  }

  function CheckNames(program: string, names: seq<string>, s: Scan): Scan {
    if names == [] then s
    else CheckName(program, names[|names| - 1], CheckNames(program, names[..|names| - 1], s))
  }

  function AllNames(program: string, cfg: ProgramConfig): (names: seq<string>)
    ensures |names| == Copies(cfg)
    ensures forall k :: 0 <= k < |names| ==> names[k] == NthName(program, cfg, k)
  {
    seq(Copies(cfg), k requires 0 <= k => NthName(program, cfg, k))
  }

  function CheckProgram(program: string, cfg: ProgramConfig, s: Scan): Scan {
    if LacksNumber(cfg) then s.(errs := s.errs + [NeedsNumber(program)])
    else CheckNames(program, AllNames(program, cfg), s)
  }

  function CheckPrograms(programs: map<string, ProgramConfig>, order: seq<string>): Scan
    requires forall p :: p in order ==> p in programs
  {
    if order == [] then Scan(map[], [])
    else
      var last := order[|order| - 1];
      CheckProgram(last, programs[last], CheckPrograms(programs, order[..|order| - 1]))
  }

  /** `order` lists the programs by name. */
  ghost predicate InNameOrder(programs: map<string, ProgramConfig>, order: seq<string>) {
    NamesAscending(order) && Distinct(order) && forall p :: p in order <==> p in programs
  }

  method ValidateProcessNames(programs: map<string, ProgramConfig>) returns (errs: seq<NameError>)
    ensures errs == [] <==> NamesDiffer(programs)
    ensures exists order :: InNameOrder(programs, order) && errs == CheckPrograms(programs, order).errs
  {
    hide NamesDiffer, CheckPrograms;
    var order := SortNames(programs.Keys);
    errs := CheckInOrder(programs, order);
    AcceptedIffNamesDiffer(programs, order);
    assert InNameOrder(programs, order);
  }

  /** The loops of validateProcessNames. */
  method CheckInOrder(programs: map<string, ProgramConfig>, order: seq<string>) returns (errs: seq<NameError>)
    requires forall p :: p in order ==> p in programs
    ensures errs == CheckPrograms(programs, order).errs
  {
    hide NthName, LacksNumber;
    errs := [];
    var owner := map[];
    for i := 0 to |order|
      invariant Scan(owner, errs) == CheckPrograms(programs, order[..i])
    {
      var prog := order[i];
      var p := programs[prog];
      assert order[..i + 1][..i] == order[..i] && order[..i + 1][i] == prog;
      if LacksNumber(p) {
        errs := errs + [NeedsNumber(prog)];
        continue;
      }
      ghost var before := Scan(owner, errs);
      var names := InstanceNames(prog, p);
      assert names == AllNames(prog, p);
      for k := 0 to |names|
        invariant Scan(owner, errs) == CheckNames(prog, names[..k], before)
      {
        var name := names[k];
        assert names[..k + 1][..k] == names[..k];
        if name in owner {
          errs := errs + [SharedName(name, owner[name], prog)];
          continue;
        }
        owner := owner[name := prog];
      }
      assert names[..|names|] == names;
    }
    assert order[..|order|] == order;
  }

  // ---------------------------------------------------------------------
  // What an error says
  // ---------------------------------------------------------------------

  /** The program leaves out the number it needs, or the second of two programs comes to a name the first has taken. */
  ghost predicate Truthful(programs: map<string, ProgramConfig>, order: seq<string>, e: NameError) {
    match e
    case NeedsNumber(p) => p in order && p in programs && LacksNumber(programs[p])
    case SharedName(name, a, b) =>
      && a in order && b in order && a in programs && b in programs
      && name in AllNames(a, programs[a]) && name in AllNames(b, programs[b])
      && (a != b ==> exists i, j :: 0 <= i < j < |order| && order[i] == a && order[j] == b)
  }

  /** Every error is true, and each name's owner has it. */
  ghost predicate ScanIsTrue(programs: map<string, ProgramConfig>, order: seq<string>, s: Scan) {
    && (forall e :: e in s.errs ==> Truthful(programs, order, e))
    && forall n :: n in s.owner ==>
         s.owner[n] in order && s.owner[n] in programs && n in AllNames(s.owner[n], programs[s.owner[n]])
  }

  lemma TruthStays(programs: map<string, ProgramConfig>, init: seq<string>, last: string, e: NameError)
    requires Truthful(programs, init, e)
    ensures Truthful(programs, init + [last], e)
  {
    hide LacksNumber, AllNames;
    if e.SharedName? && e.first != e.second {
      var i, j :| 0 <= i < j < |init| && init[i] == e.first && init[j] == e.second;
      assert (init + [last])[i] == e.first && (init + [last])[j] == e.second;
    }
  }

  lemma {:induction false} NamesAreTrue(
    programs: map<string, ProgramConfig>, init: seq<string>, last: string, names: seq<string>, s: Scan)
    requires last in programs && ScanIsTrue(programs, init + [last], s)
    requires forall n :: n in names ==> n in AllNames(last, programs[last])
    requires forall n :: n in s.owner && s.owner[n] != last ==> s.owner[n] in init
    ensures var r := CheckNames(last, names, s);
      ScanIsTrue(programs, init + [last], r) && forall n :: n in r.owner && r.owner[n] != last ==> r.owner[n] in init
    decreases |names|
  {
    hide LacksNumber, AllNames;
    if names != [] {
      var name := names[|names| - 1];
      assert names == names[..|names| - 1] + [name];
      NamesAreTrue(programs, init, last, names[..|names| - 1], s);
      var before := CheckNames(last, names[..|names| - 1], s);
      if name in before.owner && before.owner[name] != last {
        var i :| 0 <= i < |init| && init[i] == before.owner[name];
        assert (init + [last])[i] == before.owner[name] && (init + [last])[|init|] == last;
      }
    }
  }

  /** The errors are true: they name the program, or the name and both its owners, in order. */
  lemma {:induction false} NameErrorsAreTrue(programs: map<string, ProgramConfig>, order: seq<string>)
    requires forall p :: p in order ==> p in programs
    ensures ScanIsTrue(programs, order, CheckPrograms(programs, order))
    decreases |order|
  {
    hide LacksNumber, AllNames, CheckNames;
    if order != [] {
      var init, last := order[..|order| - 1], order[|order| - 1];
      assert order == init + [last];
      NameErrorsAreTrue(programs, init);
      var s := CheckPrograms(programs, init);
      forall e | e in s.errs ensures Truthful(programs, order, e) { TruthStays(programs, init, last, e); }
      if !LacksNumber(programs[last]) {
        NamesAreTrue(programs, init, last, AllNames(last, programs[last]), s);
      }
    }
  }

  // ---------------------------------------------------------------------
  // What an empty list of errors means
  // ---------------------------------------------------------------------

  predicate Disjoint(names: seq<string>, taken: set<string>) {
    forall name :: name in names ==> name !in taken
  }

  /** The names go through exactly if they differ from each other and from those already owned. */
  lemma {:induction false} CheckNamesMeans(program: string, names: seq<string>, s: Scan)
    ensures var r := CheckNames(program, names, s);
      && |s.errs| <= |r.errs|
      && (r.errs == s.errs <==> Distinct(names) && Disjoint(names, s.owner.Keys))
      && (r.errs == s.errs ==> r.owner.Keys == s.owner.Keys + set name | name in names)
    decreases |names|
  {
    if names != [] {
      var init, last := names[..|names| - 1], names[|names| - 1];
      CheckNamesMeans(program, init, s);
      assert names == init + [last];
      DistinctSnoc(init, last);
    }
  }

  lemma DistinctSnoc(init: seq<string>, last: string)
    ensures Distinct(init + [last]) <==> Distinct(init) && last !in init
  {
    var names := init + [last];
    if Distinct(names) {
      assert names[|init|] == last;
      forall i | 0 <= i < |init| ensures init[i] != last { assert names[i] == init[i]; }
      forall i, j | 0 <= i < j < |init| ensures init[i] != init[j] {
        assert names[i] == init[i] && names[j] == init[j];
      }
    }
  }

  /** A program's names go through on their own exactly if it numbers its instances. */
  lemma {:induction false} OwnNamesDiffer(program: string, cfg: ProgramConfig)
    ensures Distinct(AllNames(program, cfg)) <==> !LacksNumber(cfg)
  {
    hide InstanceName, Contains;
    var names := AllNames(program, cfg);
    if cfg.numprocs > 1 {
      if LacksNumber(cfg) {
        InstancesDifferIff(program, cfg, cfg.numprocsStart, cfg.numprocsStart + 1);
        assert names[0] == names[1];
      } else {
        forall i, j | 0 <= i < j < |names| ensures names[i] != names[j] {
          InstancesDifferIff(program, cfg, cfg.numprocsStart + i, cfg.numprocsStart + j);
        }
      }
    }
  }

  /** The names of the programs of `order`. */
  ghost function Taken(programs: map<string, ProgramConfig>, order: seq<string>): set<string>
    requires forall p :: p in order ==> p in programs
  {
    set p, name | p in order && name in AllNames(p, programs[p]) :: name
  }

  ghost predicate AllDiffer(programs: map<string, ProgramConfig>, order: seq<string>)
    requires forall p :: p in order ==> p in programs
  {
    && (forall p :: p in order ==> !LacksNumber(programs[p]))
    && forall i, j :: 0 <= i < j < |order| ==>
         Disjoint(AllNames(order[j], programs[order[j]]), set name | name in AllNames(order[i], programs[order[i]]))
  }

  lemma {:induction false} CheckProgramsMeans(programs: map<string, ProgramConfig>, order: seq<string>)
    requires forall p :: p in order ==> p in programs
    ensures var r := CheckPrograms(programs, order);
      && (r.errs == [] <==> AllDiffer(programs, order))
      && (r.errs == [] ==> r.owner.Keys == Taken(programs, order))
    decreases |order|
  {
    hide AllNames, LacksNumber, CheckNames;
    if order != [] {
      var init, last := order[..|order| - 1], order[|order| - 1];
      assert order == init + [last];
      CheckProgramsMeans(programs, init);
      var before := CheckPrograms(programs, init);
      var names := AllNames(last, programs[last]);
      CheckNamesMeans(last, names, before);
      OwnNamesDiffer(last, programs[last]);
      TakenSnoc(programs, init, last);
      AllDifferSnoc(programs, init, last);
    }
  }

  lemma TakenSnoc(programs: map<string, ProgramConfig>, init: seq<string>, last: string)
    requires forall p :: p in init + [last] ==> p in programs
    requires forall p :: p in init ==> p in programs
    ensures last in programs
    ensures Taken(programs, init + [last])
      == Taken(programs, init) + set name | name in AllNames(last, programs[last])
  {
    hide AllNames;
    assert last in init + [last];
    assert forall p :: p in init ==> p in init + [last];
  }

  lemma AllDifferSnoc(programs: map<string, ProgramConfig>, init: seq<string>, last: string)
    requires forall p :: p in init + [last] ==> p in programs
    requires forall p :: p in init ==> p in programs
    ensures last in programs
    ensures AllDiffer(programs, init + [last]) <==>
      (AllDiffer(programs, init) && !LacksNumber(programs[last])
       && Disjoint(AllNames(last, programs[last]), Taken(programs, init)))
  {
    hide AllNames, LacksNumber;
    var order := init + [last];
    assert last in order;
    assert forall p :: p in init ==> p in order;
    if AllDiffer(programs, order) {
      forall i, j | 0 <= i < j < |init|
        ensures Disjoint(AllNames(init[j], programs[init[j]]), set name | name in AllNames(init[i], programs[init[i]]))
      {
        assert order[i] == init[i] && order[j] == init[j];
      }
      forall p, name | p in init && name in AllNames(last, programs[last])
        ensures name !in AllNames(p, programs[p])
      {
        var i :| 0 <= i < |init| && init[i] == p;
        assert order[i] == p && order[|init|] == last;
      }
    }
  }

  /**
    The validation finds nothing exactly if no two processes of the config
    share a name, so every process of an accepted config can be told apart.
   */
  lemma {:induction false} AcceptedIffNamesDiffer(programs: map<string, ProgramConfig>, order: seq<string>)
    requires Distinct(order) && forall p :: p in order <==> p in programs
    ensures CheckPrograms(programs, order).errs == [] <==> NamesDiffer(programs)
  {
    hide NthName, LacksNumber, CheckPrograms, NamesDiffer;
    CheckProgramsMeans(programs, order);
    if NamesDiffer(programs) { DifferImpliesChecked(programs, order); }
    if AllDiffer(programs, order) { CheckedImpliesDiffer(programs, order); }
  }

  lemma {:induction false} DifferImpliesChecked(programs: map<string, ProgramConfig>, order: seq<string>)
    requires Distinct(order) && forall p :: p in order <==> p in programs
    requires NamesDiffer(programs)
    ensures AllDiffer(programs, order)
  {
    hide NthName, LacksNumber;
    forall p | p in order ensures !LacksNumber(programs[p]) {
      OwnNamesDiffer(p, programs[p]);
      var names := AllNames(p, programs[p]);
      assert Distinct(names);
    }
    forall i, j, name | 0 <= i < j < |order| && name in AllNames(order[j], programs[order[j]])
      ensures name !in AllNames(order[i], programs[order[i]])
    {
      var a, b := AllNames(order[j], programs[order[j]]), AllNames(order[i], programs[order[i]]);
      var k :| 0 <= k < |a| && a[k] == name;
      forall l | 0 <= l < |b| ensures b[l] != name {}
    }
  }

  lemma {:induction false} CheckedImpliesDiffer(programs: map<string, ProgramConfig>, order: seq<string>)
    requires Distinct(order) && forall p :: p in order <==> p in programs
    requires AllDiffer(programs, order)
    ensures NamesDiffer(programs)
  {
    hide NthName, LacksNumber;
    forall p, q, i: nat, j: nat |
      p in programs && q in programs && i < Copies(programs[p]) && j < Copies(programs[q])
      && NthName(p, programs[p], i) == NthName(q, programs[q], j)
      ensures p == q && i == j
    {
      var a, b := AllNames(p, programs[p]), AllNames(q, programs[q]);
      assert a[i] == b[j];
      var x :| 0 <= x < |order| && order[x] == p;
      var y :| 0 <= y < |order| && order[y] == q;
      OwnNamesDiffer(p, programs[p]);
      assert Distinct(a);
      assert a[i] in a && b[j] in b;
    }
  }
}
