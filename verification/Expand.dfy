/** internal/config/expand.go: template variables, environment references and escapes. */
module Expand {
  import opened Basics

  datatype Context = Context(
    here: string, programName: string, processNum: int, groupName: string, numProcs: int, keepProcessNum: bool)

  datatype ExpandError = UnclosedTemplate | UnknownVariable(name: string) | UnclosedEnv | UndefinedEnv(name: string)

  type Expanded = Result<string, ExpandError>

  predicate StartsWith(s: string, prefix: string) {
    |s| >= |prefix| && s[..|prefix|] == prefix
  }

  /** strings.Index: the first place `pattern` occurs at, or -1. */
  function Index(s: string, pattern: string): (i: int)
    requires pattern != ""
    ensures -1 <= i
    ensures i >= 0 ==> i + |pattern| <= |s| && s[i..i + |pattern|] == pattern && s[i] == pattern[0]
  {
    if |s| < |pattern| then -1
    else if s[..|pattern|] == pattern then
      assert s[..|pattern|][0] == s[0];
      0
    else
      var i := Index(s[1..], pattern);
      if i < 0 then -1 else i + 1
  }

  function ResolveTemplateVar(name: string, ctx: Context): Expanded {
    if name == "here" then Ok(ctx.here)
    else if name == "program_name" then Ok(ctx.programName)
    else if name == "process_num" then Ok(if ctx.keepProcessNum then "%(process_num)d" else Decimal(ctx.processNum))
    else if name == "group_name" then Ok(ctx.groupName)
    else if name == "numprocs" then Ok(Decimal(ctx.numProcs))
    else Err(UnknownVariable(name))
  }

  /** Prefixes a successful expansion. */
  function Prepend(text: string, rest: Expanded): Expanded {
    match rest
    case Ok(s) => Ok(text + s)
    case Err(e) => Err(e)
  }

  lemma PrependPrepend(a: string, b: string, rest: Expanded)
    ensures Prepend(a, Prepend(b, rest)) == Prepend(a + b, rest)
    ensures Prepend("", rest) == rest
    ensures forall e: ExpandError :: Prepend(a, Err(e)) == Err(e)
    ensures Prepend(a, Ok("")) == Ok(a)
  {
    assert a + "" == a;
    if rest.Ok? {
      assert a + (b + rest.value) == (a + b) + rest.value;
      assert "" + rest.value == rest.value;
    }
  }

  // ---------------------------------------------------------------------
  // Phase 1: %(name)s and %(name)d
  // ---------------------------------------------------------------------

  /** Where the variable opened at the head of `s` closes: at the first ")s" or ")d"; -1 if it does not. */
  function CloseOf(s: string): (i: int)
    ensures -1 <= i && i + 2 <= |s| + 1
    ensures i >= 0 ==> i + 2 <= |s| && s[i] == ')'
  {
    var end, endD := Index(s, ")s"), Index(s, ")d");
    if end < 0 && endD < 0 then -1
    else if end >= 0 && (endD < 0 || end < endD) then end
    else endD
  }

  lemma CloseAfterOpen(s: string)
    requires |s| >= 2 && s[0] == '%' && s[1] == '('
    ensures CloseOf(s) < 0 || CloseOf(s) >= 2
  {}

  function TemplateVars(s: string, ctx: Context): Expanded
    decreases |s|
  {
    if s == "" then Ok("")
    else if StartsWith(s, "%%") then Prepend("%%", TemplateVars(s[2..], ctx))
    else if StartsWith(s, "%(") then
      assert s[..2][0] == '%' && s[..2][1] == '(';
      CloseAfterOpen(s);
      var close := CloseOf(s);
      if close < 0 then Err(UnclosedTemplate)
      else
        match ResolveTemplateVar(s[2..close], ctx)
        case Err(e) => Err(e)
        case Ok(val) => Prepend(val, TemplateVars(s[close + 2..], ctx))
    else Prepend([s[0]], TemplateVars(s[1..], ctx))
  }

  lemma EmptyTemplate(s: string, ctx: Context)
    requires s == ""
    ensures TemplateVars(s, ctx) == Ok("")
  {}

  /** TemplateVars at a cursor. */
  lemma {:induction false} TemplateVarsAt(s: string, i: nat, ctx: Context)
    requires i < |s|
    ensures TemplateVars(s[i..], ctx) ==
      if i + 1 < |s| && s[i] == '%' && s[i + 1] == '%' then Prepend("%%", TemplateVars(s[i + 2..], ctx))
      else if i + 1 < |s| && s[i] == '%' && s[i + 1] == '(' then
        var close := CloseOf(s[i..]);
        if close < 2 then Err(UnclosedTemplate)
        else
          match ResolveTemplateVar(s[i + 2..i + close], ctx)
          case Err(e) => Err(e)
          case Ok(val) => Prepend(val, TemplateVars(s[i + close + 2..], ctx))
      else Prepend([s[i]], TemplateVars(s[i + 1..], ctx))
  {
    var rest := s[i..];
    hide ResolveTemplateVar, CloseOf, Prepend;
    if i + 1 < |s| && s[i] == '%' && s[i + 1] == '%' {
      assert rest[..2] == "%%" && rest[2..] == s[i + 2..];
    } else if i + 1 < |s| && s[i] == '%' && s[i + 1] == '(' {
      assert rest[..2] == "%(";
      CloseAfterOpen(rest);
      var close := CloseOf(rest);
      if close >= 2 {
        assert rest[2..close] == s[i + 2..i + close] && rest[close + 2..] == s[i + close + 2..];
      }
    } else {
      assert |rest| >= 2 ==> rest[..2][0] == s[i] && rest[..2][1] == s[i + 1];
      assert rest[0] == s[i] && rest[1..] == s[i + 1..];
    }
  }

  method ExpandTemplateVars(s: string, ctx: Context) returns (r: Expanded)
    ensures r == TemplateVars(s, ctx)
  {
    var result := "";
    var i := 0;
    hide Prepend, ResolveTemplateVar, TemplateVars, Index;
    PrependPrepend("", "", TemplateVars(s, ctx));
    assert s[0..] == s;
    while i < |s|
      invariant 0 <= i <= |s|
      invariant TemplateVars(s, ctx) == Prepend(result, TemplateVars(s[i..], ctx))
      decreases |s| - i
    {
      TemplateVarsAt(s, i, ctx);
      if i + 1 < |s| && s[i] == '%' && s[i + 1] == '%' {
        PrependPrepend(result, "%%", TemplateVars(s[i + 2..], ctx));
        result := result + "%%";
        i := i + 2;
      } else if i + 1 < |s| && s[i] == '%' && s[i + 1] == '(' {
        CloseAfterOpen(s[i..]);
        PrependPrepend(result, "", Ok(""));
        var end := Index(s[i..], ")s");
        var endD := Index(s[i..], ")d");
        if end < 0 && endD < 0 {
          return Err(UnclosedTemplate);
        }
        var close := if end >= 0 && (endD < 0 || end < endD) then end else endD;
        match ResolveTemplateVar(s[i + 2..i + close], ctx) {
          case Err(e) =>
            return Err(e);
          case Ok(val) =>
            PrependPrepend(result, val, TemplateVars(s[i + close + 2..], ctx));
            result := result + val;
            i := i + close + 2;
        }
      } else {
        PrependPrepend(result, [s[i]], TemplateVars(s[i + 1..], ctx));
        result := result + [s[i]];
        i := i + 1;
      }
    }
    EmptyTemplate(s[i..], ctx);
    PrependPrepend(result, "", Ok(""));
    return Ok(result);
  }

  // ---------------------------------------------------------------------
  // Phase 2: ${NAME}
  // ---------------------------------------------------------------------

  function EnvVars(s: string, env: map<string, string>): Expanded
    decreases |s|
  {
    if s == "" then Ok("")
    else if StartsWith(s, "$$") then Prepend("$$", EnvVars(s[2..], env))
    else if StartsWith(s, "${") then
      var end := Index(s, "}");
      if end < 0 then Err(UnclosedEnv)
      else
        assert s[..2][0] == '$' && s[..2][1] == '{' && s[end..end + 1][0] == '}';
        var name := s[2..end];
        if name in env then Prepend(env[name], EnvVars(s[end + 1..], env)) else Err(UndefinedEnv(name))
    else Prepend([s[0]], EnvVars(s[1..], env))
  }

  lemma EmptyEnv(s: string, env: map<string, string>)
    requires s == ""
    ensures EnvVars(s, env) == Ok("")
  {}

  /** EnvVars at a cursor. */
  lemma {:induction false} EnvVarsAt(s: string, i: nat, env: map<string, string>)
    requires i < |s|
    ensures EnvVars(s[i..], env) ==
      if i + 1 < |s| && s[i] == '$' && s[i + 1] == '$' then Prepend("$$", EnvVars(s[i + 2..], env))
      else if i + 1 < |s| && s[i] == '$' && s[i + 1] == '{' then
        var end := Index(s[i..], "}");
        if end < 2 then Err(UnclosedEnv)
        else if s[i + 2..i + end] !in env then Err(UndefinedEnv(s[i + 2..i + end]))
        else Prepend(env[s[i + 2..i + end]], EnvVars(s[i + end + 1..], env))
      else Prepend([s[i]], EnvVars(s[i + 1..], env))
  {
    var rest := s[i..];
    hide Index, Prepend;
    if i + 1 < |s| && s[i] == '$' && s[i + 1] == '$' {
      assert rest[..2] == "$$" && rest[2..] == s[i + 2..];
    } else if i + 1 < |s| && s[i] == '$' && s[i + 1] == '{' {
      assert rest[..2] == "${" && rest[0] == '$' && rest[1] == '{';
      var end := Index(rest, "}");
      if end >= 0 {
        assert rest[end..end + 1][0] == '}';
        assert rest[2..end] == s[i + 2..i + end] && rest[end + 1..] == s[i + end + 1..];
      }
    } else {
      assert |rest| >= 2 ==> rest[..2][0] == s[i] && rest[..2][1] == s[i + 1];
      assert rest[0] == s[i] && rest[1..] == s[i + 1..];
    }
  }

  method ExpandEnvVars(s: string, env: map<string, string>) returns (r: Expanded)
    ensures r == EnvVars(s, env)
  {
    var result := "";
    var i := 0;
    hide Prepend, EnvVars, Index;
    PrependPrepend("", "", EnvVars(s, env));
    assert s[0..] == s;
    while i < |s|
      invariant 0 <= i <= |s|
      invariant EnvVars(s, env) == Prepend(result, EnvVars(s[i..], env))
      decreases |s| - i
    {
      EnvVarsAt(s, i, env);
      if i + 1 < |s| && s[i] == '$' && s[i + 1] == '$' {
        PrependPrepend(result, "$$", EnvVars(s[i + 2..], env));
        result := result + "$$";
        i := i + 2;
      } else if i + 1 < |s| && s[i] == '$' && s[i + 1] == '{' {
        PrependPrepend(result, "", Ok(""));
        var end := Index(s[i..], "}");
        BraceAfterOpen(s[i..]);
        if end < 0 {
          return Err(UnclosedEnv);
        }
        var name := s[i + 2..i + end];
        if name !in env {
          return Err(UndefinedEnv(name));
        }
        PrependPrepend(result, env[name], EnvVars(s[i + end + 1..], env));
        result := result + env[name];
        i := i + end + 1;
      } else {
        PrependPrepend(result, [s[i]], EnvVars(s[i + 1..], env));
        result := result + [s[i]];
        i := i + 1;
      }
    }
    EmptyEnv(s[i..], env);
    PrependPrepend(result, "", Ok(""));
    return Ok(result);
  }

  lemma BraceAfterOpen(s: string)
    requires |s| >= 2 && s[0] == '$' && s[1] == '{'
    ensures Index(s, "}") < 0 || Index(s, "}") >= 2
  {}

  // ---------------------------------------------------------------------
  // Phase 3, and all together
  // ---------------------------------------------------------------------

  /** strings.ReplaceAll of a doubled character by a single one. */
  function Undouble(s: string, c: char): string
    decreases |s|
  {
    if |s| >= 2 && s[0] == c && s[1] == c then [c] + Undouble(s[2..], c)
    else if s == "" then ""
    else [s[0]] + Undouble(s[1..], c)
  }

  function ExpandString(s: string, ctx: Context, env: map<string, string>): Expanded {
    if s == "" then Ok(s)
    else
      match TemplateVars(s, ctx)
      case Err(e) => Err(e)
      case Ok(text) =>
        match EnvVars(text, env)
        case Err(e) => Err(e)
        case Ok(text) => Ok(Undouble(Undouble(text, '%'), '$'))
  }

  // ---------------------------------------------------------------------
  // What a string means, piece by piece
  // ---------------------------------------------------------------------

  datatype Token =
    | Char(c: char)
    | Percent
    | Dollar
    | Template(name: string, decimal: bool)
    | Env(name: string)

  function Written(t: Token): string {
    match t
    case Char(c) => [c]
    case Percent => "%%"
    case Dollar => "$$"
    case Template(name, decimal) => "%(" + name + if decimal then ")d" else ")s"
    case Env(name) => "${" + name + "}"
  }

  /** The token exists in the context; no phase parses the value of an environment variable, whatever it contains. */
  predicate Proper(t: Token, ctx: Context, env: map<string, string>) {
    match t
    case Char(_) | Percent | Dollar => true
    case Template(name, _) => ')' !in name && ResolveTemplateVar(name, ctx).Ok?
    case Env(name) => '}' !in name && '%' !in name && name in env
  }

  /** What a token stands for. */
  function Meaning(t: Token, ctx: Context, env: map<string, string>): string
    requires Proper(t, ctx, env)
  {
    match t
    case Char(c) => [c]
    case Percent => "%"
    case Dollar => "$"
    case Template(name, _) => ResolveTemplateVar(name, ctx).value
    case Env(name) => env[name]
  }

  predicate AllProper(ts: seq<Token>, ctx: Context, env: map<string, string>) {
    forall i :: 0 <= i < |ts| ==> Proper(ts[i], ctx, env)
  }

  function Render(ts: seq<Token>): string {
    if ts == [] then "" else Written(ts[0]) + Render(ts[1..])
  }

  function Meanings(ts: seq<Token>, ctx: Context, env: map<string, string>): string
    requires AllProper(ts, ctx, env)
  {
    if ts == [] then "" else Meaning(ts[0], ctx, env) + Meanings(ts[1..], ctx, env)
  }

  /** A token as the first phase leaves it, and as the second does. */
  function Mid(t: Token, ctx: Context, env: map<string, string>, phase: nat): string
    requires Proper(t, ctx, env)
  {
    if t.Template? || (t.Env? && phase == 2) then Meaning(t, ctx, env) else Written(t)
  }

  function Mids(ts: seq<Token>, ctx: Context, env: map<string, string>, phase: nat): string
    requires AllProper(ts, ctx, env)
  {
    if ts == [] then "" else Mid(ts[0], ctx, env, phase) + Mids(ts[1..], ctx, env, phase)
  }

  // The first phase

  lemma {:induction false} PassText(a: string, rest: string, ctx: Context)
    requires '%' !in a
    ensures TemplateVars(a + rest, ctx) == Prepend(a, TemplateVars(rest, ctx))
    decreases a
  {
    hide Prepend, TemplateVars;
    if a == "" {
      assert a + rest == rest;
      PrependPrepend("", "", TemplateVars(rest, ctx));
    } else {
      var s := a + rest;
      assert s[0..] == s && s[1..] == a[1..] + rest;
      TemplateVarsAt(s, 0, ctx);
      PassText(a[1..], rest, ctx);
      PrependPrepend([a[0]], a[1..], TemplateVars(rest, ctx));
      assert [a[0]] + a[1..] == a;
    }
  }

  lemma {:induction false} IndexSkips(a: string, rest: string, pattern: string)
    requires pattern != "" && pattern[0] !in a
    ensures Index(a + rest, pattern) == if Index(rest, pattern) < 0 then -1 else |a| + Index(rest, pattern)
    decreases a
  {
    if a == "" {
      assert a + rest == rest;
    } else {
      var s := a + rest;
      assert s[0] == a[0] && s[1..] == a[1..] + rest;
      assert |s| >= |pattern| ==> s[..|pattern|][0] == a[0];
      IndexSkips(a[1..], rest, pattern);
      if |s| < |pattern| {
        assert |rest| < |pattern|;
      }
    }
  }

  lemma CloseOfTemplate(name: string, decimal: bool, rest: string)
    requires ')' !in name
    ensures CloseOf(Written(Template(name, decimal)) + rest) == 2 + |name|
  {
    hide Index;
    var a := "%(" + name;
    var close := if decimal then ")d" else ")s";
    assert Written(Template(name, decimal)) + rest == a + (close + rest);
    IndexSkips(a, close + rest, ")s");
    IndexSkips(a, close + rest, ")d");
    IndexAtHead(close, rest);
    IndexNotAtHead(close, rest, if decimal then ")s" else ")d");
  }

  lemma IndexAtHead(pattern: string, rest: string)
    requires pattern != ""
    ensures Index(pattern + rest, pattern) == 0
  {
    assert (pattern + rest)[..|pattern|] == pattern;
  }

  lemma IndexNotAtHead(head: string, rest: string, pattern: string)
    requires |head| == |pattern| > 0 && head != pattern
    ensures Index(head + rest, pattern) != 0
  {
    assert (head + rest)[..|pattern|] == head;
  }

  /**
    The first phase reads the tokens as they are meant: taking percent signs in
    pairs from the left, it never makes a pair or a reference of a lone one and
    the beginning of a reference or a parenthesis. A lone sign comes before the
    tokens if `odd`.
   */
  predicate ReadFirst(ts: seq<Token>, odd: bool) {
    ts == [] ||
    match ts[0]
    case Char(c) => if c == '%' then ReadFirst(ts[1..], !odd) else (odd ==> c != '(') && ReadFirst(ts[1..], false)
    case Percent => ReadFirst(ts[1..], odd)
    case Template(_, _) => !odd && ReadFirst(ts[1..], false)
    case _ => ReadFirst(ts[1..], false)
  }

  function Lone(odd: bool, c: char): string {
    if odd then [c] else ""
  }

  lemma {:induction false} FirstPhaseToken(t: Token, rest: string, ctx: Context, env: map<string, string>)
    requires Proper(t, ctx, env) && t != Char('%')
    ensures TemplateVars(Written(t) + rest, ctx) == Prepend(Mid(t, ctx, env, 1), TemplateVars(rest, ctx))
  {
    hide TemplateVars, Prepend, ResolveTemplateVar, CloseOf;
    var s := Written(t) + rest;
    assert s[0..] == s;
    match t
    case Percent =>
      TemplateVarsAt(s, 0, ctx);
      assert s[2..] == rest;
    case Template(name, decimal) =>
      TemplateVarsAt(s, 0, ctx);
      CloseOfTemplate(name, decimal, rest);
      assert s[2..2 + |name|] == name && s[2 + |name| + 2..] == rest;
    case _ => PassText(Written(t), rest, ctx);
  }

  /** A pair of percent signs, and a percent sign that makes nothing of what follows. */
  lemma {:induction false} PercentPasses(rest: string, ctx: Context)
    ensures TemplateVars("%%" + rest, ctx) == Prepend("%%", TemplateVars(rest, ctx))
    ensures rest == "" || (rest[0] != '%' && rest[0] != '(') ==>
      TemplateVars("%" + rest, ctx) == Prepend("%", TemplateVars(rest, ctx))
  {
    hide TemplateVars, Prepend, ResolveTemplateVar, CloseOf;
    var two, one := "%%" + rest, "%" + rest;
    assert two[0..] == two && two[2..] == rest && one[0..] == one && one[1..] == rest;
    TemplateVarsAt(two, 0, ctx);
    TemplateVarsAt(one, 0, ctx);
  }

  /** One token more, before a rest that begins outside a reference. */
  lemma {:induction false} FirstPhaseOther(
    t: Token, odd: bool, rest: string, mids: string, ctx: Context, env: map<string, string>)
    requires Proper(t, ctx, env) && t != Char('%') && (odd ==> !t.Percent? && !t.Template? && t != Char('('))
    requires TemplateVars(rest, ctx) == Ok(mids)
    ensures TemplateVars(Lone(odd, '%') + (Written(t) + rest), ctx) == Ok(Lone(odd, '%') + (Mid(t, ctx, env, 1) + mids))
  {
    hide TemplateVars, Proper, Mid, ResolveTemplateVar;
    FirstPhaseToken(t, rest, ctx, env);
    var text, mid := Written(t) + rest, Mid(t, ctx, env, 1) + mids;
    assert "" + text == text && "" + mid == mid;
    if odd { PercentPasses(text, ctx); }
  }

  /** A lone percent sign more, or a pair after one. */
  lemma {:induction false} FirstPhaseSign(odd: bool, rest: string, mids: string, ctx: Context)
    ensures odd && TemplateVars(rest, ctx) == Ok(mids) ==>
      TemplateVars("%" + ("%" + rest), ctx) == Ok("%" + ("%" + mids))
    ensures TemplateVars("%" + rest, ctx) == Ok("%" + mids) ==>
      TemplateVars("%" + ("%%" + rest), ctx) == Ok("%" + ("%%" + mids))
  {
    hide TemplateVars;
    PercentPasses(rest, ctx);
    PercentPasses("%" + rest, ctx);
    assert "%" + ("%" + rest) == "%%" + rest && "%" + ("%" + mids) == "%%" + mids;
    assert "%" + ("%%" + rest) == "%%" + ("%" + rest) && "%" + ("%%" + mids) == "%%" + ("%" + mids);
  }

  lemma {:induction false} FirstPhase(ts: seq<Token>, odd: bool, ctx: Context, env: map<string, string>)
    requires AllProper(ts, ctx, env) && ReadFirst(ts, odd)
    ensures TemplateVars(Lone(odd, '%') + Render(ts), ctx) == Ok(Lone(odd, '%') + Mids(ts, ctx, env, 1))
    decreases ts
  {
    hide TemplateVars, Proper, Mid;
    if ts == [] {
      PercentPasses("", ctx);
      EmptyTemplate("", ctx);
      assert "" + "" == "" && "%" + "" == "%";
    } else {
      var t, rest, mids := ts[0], Render(ts[1..]), Mids(ts[1..], ctx, env, 1);
      assert forall a: string :: "" + a == a;
      MidOfText(t, ctx, env);
      if t == Char('%') {
        FirstPhase(ts[1..], !odd, ctx, env);
        FirstPhaseSign(odd, rest, mids, ctx);
      } else if t.Percent? && odd {
        FirstPhase(ts[1..], true, ctx, env);
        FirstPhaseSign(odd, rest, mids, ctx);
      } else {
        FirstPhase(ts[1..], false, ctx, env);
        FirstPhaseOther(t, odd, rest, mids, ctx, env);
      }
    }
  }

  lemma MidOfText(t: Token, ctx: Context, env: map<string, string>)
    requires Proper(t, ctx, env)
    ensures (t.Char? || t.Percent? || t.Dollar?) ==> Mid(t, ctx, env, 1) == Mid(t, ctx, env, 2) == Written(t)
  {}

  // The second phase

  lemma {:induction false} PassEnvText(a: string, rest: string, env: map<string, string>)
    requires '$' !in a
    ensures EnvVars(a + rest, env) == Prepend(a, EnvVars(rest, env))
    decreases a
  {
    hide Prepend, EnvVars;
    if a == "" {
      assert a + rest == rest;
      PrependPrepend("", "", EnvVars(rest, env));
    } else {
      var s := a + rest;
      assert s[0..] == s && s[1..] == a[1..] + rest;
      EnvVarsAt(s, 0, env);
      PassEnvText(a[1..], rest, env);
      PrependPrepend([a[0]], a[1..], EnvVars(rest, env));
      assert [a[0]] + a[1..] == a;
    }
  }

  function Chars(s: string): seq<Token> {
    if s == "" then [] else [Char(s[0])] + Chars(s[1..])
  }

  /** The tokens of the text the first phase leaves: of a template variable only the characters of its value remain. */
  function AfterFirst(ts: seq<Token>, ctx: Context, env: map<string, string>): seq<Token>
    requires AllProper(ts, ctx, env)
  {
    if ts == [] then []
    else (if ts[0].Template? then Chars(Meaning(ts[0], ctx, env)) else [ts[0]]) + AfterFirst(ts[1..], ctx, env)
  }

  lemma OneTokenMore(t: Token, rest: seq<Token>, ctx: Context, env: map<string, string>)
    requires Proper(t, ctx, env) && AllProper(rest, ctx, env)
    ensures AllProper([t] + rest, ctx, env) && Render([t] + rest) == Written(t) + Render(rest)
    ensures Mids([t] + rest, ctx, env, 2) == Mid(t, ctx, env, 2) + Mids(rest, ctx, env, 2)
  {
    hide Proper, Written, Mid;
    assert ([t] + rest)[1..] == rest;
  }

  lemma {:induction false} CharsMean(s: string, rest: seq<Token>, ctx: Context, env: map<string, string>)
    requires AllProper(rest, ctx, env)
    ensures AllProper(Chars(s) + rest, ctx, env) && Render(Chars(s) + rest) == s + Render(rest)
    ensures Mids(Chars(s) + rest, ctx, env, 2) == s + Mids(rest, ctx, env, 2)
  {
    hide Render, Mids, AllProper, ResolveTemplateVar;
    var text, mids := Render(rest), Mids(rest, ctx, env, 2);
    if s == "" {
      assert Chars(s) + rest == rest && s + text == text && s + mids == mids;
    } else {
      var t, more := Char(s[0]), Chars(s[1..]) + rest;
      CharsMean(s[1..], rest, ctx, env);
      OneTokenMore(t, more, ctx, env);
      assert Written(t) == Mid(t, ctx, env, 2) == [s[0]];
      HeadBack(s, text);
      HeadBack(s, mids);
      assert Chars(s) + rest == [t] + more;
    }
  }

  lemma HeadBack(s: string, a: string)
    requires s != ""
    ensures [s[0]] + (s[1..] + a) == s + a
  {}

  lemma {:induction false} AfterFirstIs(ts: seq<Token>, ctx: Context, env: map<string, string>)
    requires AllProper(ts, ctx, env)
    ensures AllProper(AfterFirst(ts, ctx, env), ctx, env)
    ensures Render(AfterFirst(ts, ctx, env)) == Mids(ts, ctx, env, 1)
    ensures Mids(AfterFirst(ts, ctx, env), ctx, env, 2) == Mids(ts, ctx, env, 2)
    ensures forall t :: t in AfterFirst(ts, ctx, env) ==> !t.Template?
  {
    hide Proper, Meaning, Written;
    if ts != [] {
      var t, rest := ts[0], AfterFirst(ts[1..], ctx, env);
      AfterFirstIs(ts[1..], ctx, env);
      if t.Template? {
        CharsMean(Meaning(t, ctx, env), rest, ctx, env);
        CharsAreChars(Meaning(t, ctx, env));
      } else {
        assert ([t] + rest)[1..] == rest;
      }
    }
  }

  lemma {:induction false} CharsAreChars(s: string)
    ensures forall t :: t in Chars(s) ==> t.Char?
  {
    if s != "" { CharsAreChars(s[1..]); }
  }

  /** The second phase reads what it finds as it is meant; the same for dollar signs. */
  predicate ReadSecond(ts: seq<Token>, odd: bool) {
    ts == [] ||
    match ts[0]
    case Char(c) => if c == '$' then ReadSecond(ts[1..], !odd) else (odd ==> c != '{') && ReadSecond(ts[1..], false)
    case Dollar => ReadSecond(ts[1..], odd)
    case Env(_) => !odd && ReadSecond(ts[1..], false)
    case _ => ReadSecond(ts[1..], false)
  }

  lemma {:induction false} SecondPhaseToken(t: Token, rest: string, ctx: Context, env: map<string, string>)
    requires Proper(t, ctx, env) && t != Char('$') && !t.Template?
    ensures EnvVars(Written(t) + rest, env) == Prepend(Mid(t, ctx, env, 2), EnvVars(rest, env))
  {
    hide EnvVars, Prepend, ResolveTemplateVar, Index;
    var s := Written(t) + rest;
    assert s[0..] == s;
    match t
    case Dollar =>
      EnvVarsAt(s, 0, env);
      assert s[2..] == rest;
    case Env(name) =>
      EnvVarsAt(s, 0, env);
      var a := "${" + name;
      assert s == a + ("}" + rest);
      IndexSkips(a, "}" + rest, "}");
      IndexAtHead("}", rest);
      assert s[2..2 + |name|] == name && s[2 + |name| + 1..] == rest;
    case _ => PassEnvText(Written(t), rest, env);
  }

  lemma {:induction false} DollarPasses(rest: string, env: map<string, string>)
    ensures EnvVars("$$" + rest, env) == Prepend("$$", EnvVars(rest, env))
    ensures rest == "" || (rest[0] != '$' && rest[0] != '{') ==>
      EnvVars("$" + rest, env) == Prepend("$", EnvVars(rest, env))
  {
    hide EnvVars, Prepend, Index;
    var two, one := "$$" + rest, "$" + rest;
    assert two[0..] == two && two[2..] == rest && one[0..] == one && one[1..] == rest;
    EnvVarsAt(two, 0, env);
    EnvVarsAt(one, 0, env);
  }

  lemma {:induction false} SecondPhaseOther(
    t: Token, odd: bool, rest: string, mids: string, ctx: Context, env: map<string, string>)
    requires Proper(t, ctx, env) && t != Char('$') && !t.Template?
    requires odd ==> !t.Dollar? && !t.Env? && t != Char('{')
    requires EnvVars(rest, env) == Ok(mids)
    ensures EnvVars(Lone(odd, '$') + (Written(t) + rest), env) == Ok(Lone(odd, '$') + (Mid(t, ctx, env, 2) + mids))
  {
    hide EnvVars, Proper, Mid, ResolveTemplateVar;
    SecondPhaseToken(t, rest, ctx, env);
    var text, mid := Written(t) + rest, Mid(t, ctx, env, 2) + mids;
    assert "" + text == text && "" + mid == mid;
    if odd { DollarPasses(text, env); }
  }

  lemma {:induction false} SecondPhaseSign(odd: bool, rest: string, mids: string, env: map<string, string>)
    ensures odd && EnvVars(rest, env) == Ok(mids) ==>
      EnvVars("$" + ("$" + rest), env) == Ok("$" + ("$" + mids))
    ensures EnvVars("$" + rest, env) == Ok("$" + mids) ==>
      EnvVars("$" + ("$$" + rest), env) == Ok("$" + ("$$" + mids))
  {
    hide EnvVars;
    DollarPasses(rest, env);
    DollarPasses("$" + rest, env);
    assert "$" + ("$" + rest) == "$$" + rest && "$" + ("$" + mids) == "$$" + mids;
    assert "$" + ("$$" + rest) == "$$" + ("$" + rest) && "$" + ("$$" + mids) == "$$" + ("$" + mids);
  }

  lemma {:induction false} SecondPhase(ts: seq<Token>, odd: bool, ctx: Context, env: map<string, string>)
    requires AllProper(ts, ctx, env) && ReadSecond(ts, odd) && forall t :: t in ts ==> !t.Template?
    ensures EnvVars(Lone(odd, '$') + Render(ts), env) == Ok(Lone(odd, '$') + Mids(ts, ctx, env, 2))
    decreases ts
  {
    hide EnvVars, Proper, Mid;
    if ts == [] {
      DollarPasses("", env);
      EmptyEnv("", env);
      assert "" + "" == "" && "$" + "" == "$";
    } else {
      var t, rest, mids := ts[0], Render(ts[1..]), Mids(ts[1..], ctx, env, 2);
      assert forall a: string :: "" + a == a;
      MidOfText(t, ctx, env);
      if t == Char('$') {
        SecondPhase(ts[1..], !odd, ctx, env);
        SecondPhaseSign(odd, rest, mids, env);
      } else if t.Dollar? && odd {
        SecondPhase(ts[1..], true, ctx, env);
        SecondPhaseSign(odd, rest, mids, env);
      } else {
        SecondPhase(ts[1..], false, ctx, env);
        SecondPhaseOther(t, odd, rest, mids, ctx, env);
      }
    }
  }

  // The third phase

  /** What the third phase finds: a character standing for itself, or a doubled one standing for one. */
  datatype Unit = One(c: char) | Esc(c: char)

  function Ones(s: string): seq<Unit> {
    if s == "" then [] else [One(s[0])] + Ones(s[1..])
  }

  function UnitsOf(t: Token, ctx: Context, env: map<string, string>): seq<Unit>
    requires Proper(t, ctx, env)
  {
    match t
    case Percent => [Esc('%')]
    case Dollar => [Esc('$')]
    case _ => Ones(Meaning(t, ctx, env))
  }

  function Units(ts: seq<Token>, ctx: Context, env: map<string, string>): seq<Unit>
    requires AllProper(ts, ctx, env)
  {
    if ts == [] then [] else UnitsOf(ts[0], ctx, env) + Units(ts[1..], ctx, env)
  }

  /** The text at the beginning (0), with each escaped % made single (1), and with each escaped $ as well (2). */
  function Text(us: seq<Unit>, stage: nat): string {
    if us == [] then ""
    else
      (if us[0].Esc? && !(us[0].c == '%' && stage >= 1) && !(us[0].c == '$' && stage >= 2)
       then [us[0].c, us[0].c] else [us[0].c])
      + Text(us[1..], stage)
  }

  lemma {:induction false} TextConcat(a: seq<Unit>, b: seq<Unit>, stage: nat)
    ensures Text(a + b, stage) == Text(a, stage) + Text(b, stage)
    decreases |a|
  {
    if a == [] {
      assert a + b == b;
    } else {
      assert (a + b)[1..] == a[1..] + b;
      TextConcat(a[1..], b, stage);
    }
  }

  lemma {:induction false} TextOfOnes(s: string, stage: nat)
    ensures Text(Ones(s), stage) == s
  {
    if s != "" { TextOfOnes(s[1..], stage); }
  }

  lemma {:induction false} UnitTexts(t: Token, ctx: Context, env: map<string, string>)
    requires Proper(t, ctx, env)
    ensures Text(UnitsOf(t, ctx, env), 0) == Mid(t, ctx, env, 2)
    ensures Text(UnitsOf(t, ctx, env), 2) == Meaning(t, ctx, env)
  {
    TextOfOnes(Meaning(t, ctx, env), 0);
    TextOfOnes(Meaning(t, ctx, env), 2);
    assert [Esc('%')][1..] == [] && [Esc('$')][1..] == [];
  }

  lemma {:induction false} AllTexts(ts: seq<Token>, ctx: Context, env: map<string, string>)
    requires AllProper(ts, ctx, env)
    ensures Text(Units(ts, ctx, env), 0) == Mids(ts, ctx, env, 2)
    ensures Text(Units(ts, ctx, env), 2) == Meanings(ts, ctx, env)
  {
    hide Proper, Text, UnitsOf, Mid, Meaning;
    if ts == [] {
      TextNothing();
    } else {
      var a, b := UnitsOf(ts[0], ctx, env), Units(ts[1..], ctx, env);
      UnitTexts(ts[0], ctx, env);
      AllTexts(ts[1..], ctx, env);
      TextConcat(a, b, 0);
      TextConcat(a, b, 2);
    }
  }

  lemma TextNothing()
    ensures Text([], 0) == "" && Text([], 2) == ""
  {}

  /**
    In every unbroken run of the character at most one stands for itself; in
    the run the units begin in, none does if `used`.
   */
  predicate RunsOk(us: seq<Unit>, c: char, used: bool) {
    us == [] ||
    (if us[0].c != c then RunsOk(us[1..], c, false)
     else if us[0].Esc? then RunsOk(us[1..], c, used)
     else !used && RunsOk(us[1..], c, true))
  }

  /** Only percent and dollar signs are escaped. */
  predicate SignsEscaped(us: seq<Unit>) {
    forall i :: 0 <= i < |us| && us[i].Esc? ==> us[i].c == '%' || us[i].c == '$'
  }

  function Count(s: string, c: char): nat {
    if s == "" then 0 else (if s[0] == c then 1 else 0) + Count(s[1..], c)
  }

  /** The sign the stage makes single. */
  function SignOf(stage: nat): char {
    if stage == 0 then '%' else '$'
  }

  /** Undouble on the text of the first unit, when an odd number of signs of the run come before it or not. */
  lemma {:induction false} UndoubleUnit(u: Unit, rest: string, stage: nat)
    requires stage <= 1 && (u.Esc? ==> u.c == '%' || u.c == '$')
    ensures var c := SignOf(stage);
      var text := Text([u], stage) + rest;
      if u.c != c then
        && Undouble(text, c) == Text([u], stage + 1) + Undouble(rest, c)
        && Undouble([c] + text, c) == [c] + Text([u], stage + 1) + Undouble(rest, c)
      else if u.Esc? then
        && Undouble(text, c) == [c] + Undouble(rest, c)
        && Undouble([c] + text, c) == [c] + Undouble([c] + rest, c)
      else
        && text == [c] + rest
        && Undouble([c] + text, c) == [c] + Undouble(rest, c)
  {
    var c := SignOf(stage);
    assert [u][1..] == [];
    assert Text([u], stage) == (if |Text([u], stage)| == 2 then [u.c, u.c] else [u.c]);
    var text := Text([u], stage) + rest;
    if u.c != c {
      UndoubleOther(text, c);
      if |Text([u], stage)| == 2 {
        assert text[1..] == [u.c] + rest;
        UndoubleOther([u.c] + rest, c);
        assert ([u.c] + rest)[1..] == rest;
      } else {
        assert text[1..] == rest;
      }
      assert ([c] + text)[1..] == text;
    } else if u.Esc? {
      assert text[2..] == rest && ([c] + text)[2..] == [c] + rest;
    } else {
      assert ([c] + text)[2..] == rest;
    }
  }

  lemma UndoubleOther(s: string, c: char)
    requires s != "" && s[0] != c
    ensures Undouble(s, c) == [s[0]] + Undouble(s[1..], c)
  {}

  lemma TextCons(us: seq<Unit>, stage: nat)
    requires us != []
    ensures Text(us, stage) == Text([us[0]], stage) + Text(us[1..], stage)
  {
    assert [us[0]][1..] == [];
  }

  /** A stage does what it should if the runs of its sign are as they should be. */
  lemma {:induction false} StageIsRight(us: seq<Unit>, stage: nat)
    requires stage <= 1 && SignsEscaped(us)
    ensures var c := SignOf(stage);
      && (RunsOk(us, c, false) ==> Undouble(Text(us, stage), c) == Text(us, stage + 1))
      && (RunsOk(us, c, true) ==> Undouble([c] + Text(us, stage), c) == [c] + Text(us, stage + 1))
  {
    var c := SignOf(stage);
    if us == [] {
      assert [c][1..] == "" && [c] + "" == [c];
    } else {
      hide Undouble, Text;
      TextCons(us, stage);
      TextCons(us, stage + 1);
      TextOfSign(us[0], stage);
      UndoubleUnit(us[0], Text(us[1..], stage), stage);
      StageIsRight(us[1..], stage);
    }
  }

  lemma TextOfSign(u: Unit, stage: nat)
    requires stage <= 1
    ensures u.c == SignOf(stage) ==> Text([u], stage + 1) == [u.c]
  {
    assert [u][1..] == [];
  }

  lemma {:induction false} CountConcat(a: string, b: string, c: char)
    ensures Count(a + b, c) == Count(a, c) + Count(b, c)
    decreases |a|
  {
    if a == "" {
      assert a + b == b;
    } else {
      assert (a + b)[1..] == a[1..] + b;
      CountConcat(a[1..], b, c);
    }
  }

  lemma CountOne(x: char, c: char)
    ensures Count([x], c) == if x == c then 1 else 0
    ensures Count([x, x], c) == if x == c then 2 else 0
  {
    assert [x][1..] == "" && [x, x][1..] == [x];
  }

  /** A unit of the stage's sign leaves one of it, and other units none. */
  lemma CountUnit(u: Unit, stage: nat)
    requires stage <= 1 && (u.Esc? ==> u.c == '%' || u.c == '$')
    ensures Count(Text([u], stage + 1), SignOf(stage)) == if u.c == SignOf(stage) then 1 else 0
  {
    assert [u][1..] == [];
    CountOne(u.c, SignOf(stage));
    assert Text([u], stage + 1) == [u.c] || Text([u], stage + 1) == [u.c, u.c];
  }

  /** A stage never leaves more signs than it should, and fewer if a run has two that stand for themselves. */
  lemma {:induction false} StageLosesSigns(us: seq<Unit>, stage: nat)
    requires stage <= 1 && SignsEscaped(us)
    ensures var c := SignOf(stage);
      var even, odd, right :=
        Count(Undouble(Text(us, stage), c), c), Count(Undouble([c] + Text(us, stage), c), c),
        Count(Text(us, stage + 1), c);
      && even <= right && odd <= 1 + right
      && (!RunsOk(us, c, false) ==> even < right)
      && (!RunsOk(us, c, true) ==> odd < 1 + right)
  {
    var c := SignOf(stage);
    if us == [] {
      assert [c][1..] == "" && [c] + "" == [c];
      CountOne(c, c);
    } else {
      hide Undouble, Text, Count;
      var u, rest := us[0], us[1..];
      TextCons(us, stage);
      TextCons(us, stage + 1);
      UndoubleUnit(u, Text(rest, stage), stage);
      StageLosesSigns(rest, stage);
      CountUnit(u, stage);
      CountOne(c, c);
      CountConcat(Text([u], stage + 1), Text(rest, stage + 1), c);
      if u.c != c {
        CountConcat(Text([u], stage + 1), Undouble(Text(rest, stage), c), c);
        CountConcat([c] + Text([u], stage + 1), Undouble(Text(rest, stage), c), c);
        CountConcat([c], Text([u], stage + 1), c);
      } else {
        CountConcat([c], Undouble(Text(rest, stage), c), c);
        CountConcat([c], Undouble([c] + Text(rest, stage), c), c);
      }
    }
  }

  /** Making one sign single does not touch the other. */
  lemma {:induction false} UndoubleKeepsCount(s: string, c: char, d: char)
    requires c != d
    ensures Count(Undouble(s, c), d) == Count(s, d)
    decreases |s|
  {
    if |s| >= 2 && s[0] == c && s[1] == c {
      UndoubleKeepsCount(s[2..], c, d);
      assert s[1..][1..] == s[2..];
      assert ([c] + Undouble(s[2..], c))[1..] == Undouble(s[2..], c);
    } else if s != "" {
      UndoubleKeepsCount(s[1..], c, d);
      assert ([s[0]] + Undouble(s[1..], c))[1..] == Undouble(s[1..], c);
    }
  }

  /** The percent signs that should be there after the first stage are those that should be there at the end. */
  lemma {:induction false} PercentsAreFinal(us: seq<Unit>)
    requires SignsEscaped(us)
    ensures Count(Text(us, 1), '%') == Count(Text(us, 2), '%')
  {
    if us != [] {
      PercentsAreFinal(us[1..]);
      TextCons(us, 1);
      TextCons(us, 2);
      CountUnitPercent(us[0]);
      CountConcat(Text([us[0]], 1), Text(us[1..], 1), '%');
      CountConcat(Text([us[0]], 2), Text(us[1..], 2), '%');
    }
  }

  lemma CountUnitPercent(u: Unit)
    requires u.Esc? ==> u.c == '%' || u.c == '$'
    ensures Count(Text([u], 1), '%') == Count(Text([u], 2), '%')
  {
    assert [u][1..] == [];
    CountOne(u.c, '%');
  }

  /** The third phase gives what was meant exactly if no run of a sign has two that stand for themselves. */
  lemma {:induction false} ThirdPhaseIff(us: seq<Unit>)
    requires SignsEscaped(us)
    ensures Undouble(Undouble(Text(us, 0), '%'), '$') == Text(us, 2)
      <==> RunsOk(us, '%', false) && RunsOk(us, '$', false)
  {
    hide Undouble, Text, Count, RunsOk;
    StageIsRight(us, 0);
    StageIsRight(us, 1);
    if !RunsOk(us, '%', false) {
      StageLosesSigns(us, 0);
      PercentsAreFinal(us);
      UndoubleKeepsCount(Undouble(Text(us, 0), '%'), '$', '%');
    } else if !RunsOk(us, '$', false) {
      StageLosesSigns(us, 1);
    }
  }

  lemma {:induction false} UnitsSignsEscaped(ts: seq<Token>, ctx: Context, env: map<string, string>)
    requires AllProper(ts, ctx, env)
    ensures SignsEscaped(Units(ts, ctx, env))
  {
    hide Proper, Meaning;
    if ts != [] {
      UnitsSignsEscaped(ts[1..], ctx, env);
      OnesEscapeNothing(if ts[0].Percent? || ts[0].Dollar? then "" else Meaning(ts[0], ctx, env));
    }
  }

  lemma {:induction false} OnesEscapeNothing(s: string)
    ensures forall i :: 0 <= i < |Ones(s)| ==> Ones(s)[i].One?
  {
    if s != "" { OnesEscapeNothing(s[1..]); }
  }

  /** What the third phase finds does not go beyond what values and escapes may contain together. */
  predicate SignsAreSafe(ts: seq<Token>, ctx: Context, env: map<string, string>)
    requires AllProper(ts, ctx, env)
  {
    RunsOk(Units(ts, ctx, env), '%', false) && RunsOk(Units(ts, ctx, env), '$', false)
  }

  /** Both phases read the tokens as they are meant. */
  predicate Readable(ts: seq<Token>, ctx: Context, env: map<string, string>)
    requires AllProper(ts, ctx, env)
  {
    ReadFirst(ts, false) && ReadSecond(AfterFirst(ts, ctx, env), false)
  }

  /**
    A string put together from characters, escapes and references that the
    phases read as such expands, and it expands to what its pieces stand for
    exactly if in the text they make up, across the borders of tokens, no
    unbroken run of % and no run of $ holds two signs that stand for themselves,
    be they from values or written alone: the third phase takes any two for an
    escape.
   */
  lemma ExpansionIsMeaningIff(ts: seq<Token>, ctx: Context, env: map<string, string>)
    requires AllProper(ts, ctx, env) && Readable(ts, ctx, env)
    ensures ExpandString(Render(ts), ctx, env).Ok?
    ensures ExpandString(Render(ts), ctx, env) == Ok(Meanings(ts, ctx, env)) <==> SignsAreSafe(ts, ctx, env)
  {
    hide TemplateVars, EnvVars, Undouble, Written, Proper, ResolveTemplateVar, RunsOk, Units, Text, SignsEscaped,
      ReadFirst, ReadSecond, AfterFirst;
    FirstPhase(ts, false, ctx, env);
    AfterFirstIs(ts, ctx, env);
    SecondPhase(AfterFirst(ts, ctx, env), false, ctx, env);
    assert "" + Render(ts) == Render(ts) && "" + Mids(ts, ctx, env, 1) == Mids(ts, ctx, env, 1);
    assert "" + Mids(ts, ctx, env, 2) == Mids(ts, ctx, env, 2);
    AllTexts(ts, ctx, env);
    UnitsSignsEscaped(ts, ctx, env);
    ThirdPhaseIff(Units(ts, ctx, env));
    if Render(ts) == "" {
      if ts != [] { WrittenIsNotEmpty(ts[0]); }
      EmptyTemplate("", ctx);
      EmptyEnv("", env);
      UndoubleNothing();
    }
  }

  lemma UndoubleNothing()
    ensures forall c :: Undouble("", c) == ""
  {}

  /** No sign stands for itself, neither in a value nor alone. */
  predicate NoSigns(ts: seq<Token>, ctx: Context, env: map<string, string>)
    requires AllProper(ts, ctx, env)
  {
    forall t :: t in ts && Proper(t, ctx, env) && !t.Percent? && !t.Dollar? ==>
      '%' !in Meaning(t, ctx, env) && '$' !in Meaning(t, ctx, env)
  }

  lemma {:induction false} NoSignsAreReadable(ts: seq<Token>, ctx: Context, env: map<string, string>)
    requires AllProper(ts, ctx, env) && NoSigns(ts, ctx, env)
    ensures Readable(ts, ctx, env)
    decreases |ts|
  {
    if ts != [] {
      hide Proper;
      var t, rest := ts[0], AfterFirst(ts[1..], ctx, env);
      NoSignsAreReadable(ts[1..], ctx, env);
      assert t in ts;
      if t.Char? {
        CharMeans(t, ctx, env);
      }
      if t.Template? {
        CharsAreRead(Meaning(t, ctx, env), rest);
      } else {
        assert ([t] + rest)[1..] == rest;
      }
    }
  }

  lemma CharMeans(t: Token, ctx: Context, env: map<string, string>)
    requires Proper(t, ctx, env) && t.Char?
    ensures Meaning(t, ctx, env) == [t.c] && t.c in Meaning(t, ctx, env)
  {}

  lemma {:induction false} CharsAreRead(s: string, rest: seq<Token>)
    requires '$' !in s && ReadSecond(rest, false)
    ensures ReadSecond(Chars(s) + rest, false)
  {
    if s == "" {
      assert Chars(s) + rest == rest;
    } else {
      var more := Chars(s[1..]) + rest;
      CharsAreRead(s[1..], rest);
      assert Chars(s) + rest == [Char(s[0])] + more && ([Char(s[0])] + more)[1..] == more;
    }
  }

  /** In particular if no sign stands for itself. */
  lemma {:induction false} ExpansionIsMeaning(ts: seq<Token>, ctx: Context, env: map<string, string>)
    requires AllProper(ts, ctx, env) && NoSigns(ts, ctx, env)
    ensures ExpandString(Render(ts), ctx, env) == Ok(Meanings(ts, ctx, env))
  {
    hide ExpandString, Render, Meanings, Proper, Meaning, RunsOk, Readable;
    NoSignsAreReadable(ts, ctx, env);
    ExpansionIsMeaningIff(ts, ctx, env);
    NoSignsAreSafe(ts, ctx, env, '%', false);
    NoSignsAreSafe(ts, ctx, env, '$', false);
  }

  lemma {:induction false} NoSignsAreSafe(ts: seq<Token>, ctx: Context, env: map<string, string>, c: char, used: bool)
    requires AllProper(ts, ctx, env) && (c == '%' || c == '$') && NoSigns(ts, ctx, env)
    ensures RunsOk(Units(ts, ctx, env), c, used)
    decreases |ts|
  {
    if ts != [] {
      var t, rest := ts[0], Units(ts[1..], ctx, env);
      NoSignsAreSafe(ts[1..], ctx, env, c, used);
      NoSignsAreSafe(ts[1..], ctx, env, c, false);
      if t.Percent? || t.Dollar? {
        assert (UnitsOf(t, ctx, env) + rest)[1..] == rest;
      } else {
        OnesPass(Meaning(t, ctx, env), rest, c, used);
      }
    }
  }

  lemma {:induction false} OnesPass(s: string, rest: seq<Unit>, c: char, used: bool)
    requires c !in s && RunsOk(rest, c, false) && RunsOk(rest, c, used)
    ensures RunsOk(Ones(s) + rest, c, used)
    decreases |s|
  {
    if s == "" {
      assert Ones(s) + rest == rest;
    } else {
      assert (Ones(s) + rest)[1..] == Ones(s[1..]) + rest;
      OnesPass(s[1..], rest, c, false);
    }
  }

  lemma WrittenIsNotEmpty(t: Token)
    ensures Written(t) != ""
  {}

  // ---------------------------------------------------------------------
  // Escaping
  // ---------------------------------------------------------------------

  /** Every % and every $ doubled. */
  function Escape(s: string): string {
    if s == "" then ""
    else (if s[0] == '%' then "%%" else if s[0] == '$' then "$$" else [s[0]]) + Escape(s[1..])
  }

  function Tokens(s: string): seq<Token> {
    if s == "" then []
    else [TokenOf(s[0])] + Tokens(s[1..])
  }

  function TokenOf(c: char): Token {
    if c == '%' then Percent else if c == '$' then Dollar else Char(c)
  }

  lemma {:induction false} EscapeIsRendered(s: string, ctx: Context, env: map<string, string>)
    ensures Escape(s) == Render(Tokens(s))
    ensures AllProper(Tokens(s), ctx, env) && Meanings(Tokens(s), ctx, env) == s
    ensures forall t :: t in Tokens(s) ==>
      t.Percent? || t.Dollar? || (t.Char? && t.c != '%' && t.c != '$')
  {
    if s != "" {
      hide Proper, Written, Meaning;
      var t, rest := TokenOf(s[0]), Tokens(s[1..]);
      assert Tokens(s) == [t] + rest && ([t] + rest)[1..] == rest;
      TokenOfMeans(s[0], ctx, env);
      EscapeIsRendered(s[1..], ctx, env);
      assert s == [s[0]] + s[1..];
    }
  }

  lemma TokenOfMeans(c: char, ctx: Context, env: map<string, string>)
    ensures var t := TokenOf(c);
      && Proper(t, ctx, env) && Meaning(t, ctx, env) == [c]
      && Written(t) == if c == '%' then "%%" else if c == '$' then "$$" else [c]
  {}

  /** Doubling every % and $ protects any string, whatever the context and the environment. */
  lemma EscapeRoundTrip(s: string, ctx: Context, env: map<string, string>)
    ensures ExpandString(Escape(s), ctx, env) == Ok(s)
  {
    hide ExpandString, Render, Meanings, Tokens, Escape, ResolveTemplateVar;
    EscapeIsRendered(s, ctx, env);
    ExpansionIsMeaning(Tokens(s), ctx, env);
  }

  // ---------------------------------------------------------------------
  // When the value of an environment variable survives
  // ---------------------------------------------------------------------

  predicate HasDouble(s: string, c: char) {
    exists i :: 0 <= i < |s| - 1 && s[i] == c && s[i + 1] == c
  }

  lemma {:induction false} UndoubleLength(s: string, c: char)
    ensures |Undouble(s, c)| <= |s|
    ensures HasDouble(s, c) ==> |Undouble(s, c)| < |s|
    ensures !HasDouble(s, c) ==> Undouble(s, c) == s
    decreases |s|
  {
    if |s| >= 2 && s[0] == c && s[1] == c {
      UndoubleLength(s[2..], c);
    } else if s != "" {
      UndoubleLength(s[1..], c);
      if HasDouble(s, c) {
        var i :| 0 <= i < |s| - 1 && s[i] == c && s[i + 1] == c;
        assert s[1..][i - 1] == c && s[1..][i - 1 + 1] == c;
      }
    }
  }

  /**
    A reference to an environment variable gives the variable's value exactly
    if the value contains neither %% nor $$: the third phase does not know
    where the text came from.
   */
  lemma EnvValueSurvivesIff(name: string, ctx: Context, env: map<string, string>)
    requires '}' !in name && '%' !in name && name in env
    ensures ExpandString("${" + name + "}", ctx, env) == Ok(env[name])
      <==> !HasDouble(env[name], '%') && !HasDouble(env[name], '$')
  {
    hide TemplateVars, EnvVars, Undouble, HasDouble;
    var s, v := "${" + name + "}", env[name];
    assert s + "" == s && s[0..] == s;
    PassText(s, "", ctx);
    EmptyTemplate("", ctx);
    EnvVarsAt(s, 0, env);
    var a := "${" + name;
    assert s == a + ("}" + "");
    IndexSkips(a, "}" + "", "}");
    IndexAtHead("}", "");
    assert s[2..2 + |name|] == name && s[2 + |name| + 1..] == "";
    EmptyEnv("", env);
    assert v + "" == v;
    UndoubleLength(v, '%');
    UndoubleLength(Undouble(v, '%'), '$');
  }

  /** Two values that survive on their own need not do so side by side: the two percent signs become one. */
  lemma AdjacentValuesMerge(name: string, ctx: Context, env: map<string, string>)
    requires '}' !in name && '%' !in name && name in env && env[name] == "%"
    ensures ExpandString(Render([Env(name)]), ctx, env) == Ok("%")
    ensures ExpandString(Render([Env(name), Env(name)]), ctx, env) != Ok("%%")
  {
    hide ExpandString, Render;
    var one, two := [Env(name)], [Env(name), Env(name)];
    assert one[1..] == [] && two[1..] == one && "%"[1..] == "";
    assert Ones("%") == [One('%')];
    assert Units(one, ctx, env) == [One('%')] && Units(two, ctx, env) == [One('%'), One('%')];
    assert [One('%'), One('%')][1..] == [One('%')] && [One('%')][1..] == [];
    assert RunsOk([One('%')], '%', false) && RunsOk([One('%')], '$', false);
    assert !RunsOk([One('%')], '%', true);
    assert !RunsOk([One('%'), One('%')], '%', false);
    assert one[0] == two[0] == Env(name);
    assert ReadFirst(one[1..], false) && ReadSecond(one[1..], false);
    assert ReadFirst(one, false) && ReadSecond(one, false);
    assert ReadFirst(two[1..], false) && ReadSecond(two[1..], false);
    assert ReadFirst(two, false) && ReadSecond(two, false);
    assert AfterFirst(one[1..], ctx, env) == [] && AfterFirst(one, ctx, env) == [Env(name)] + [];
    assert AfterFirst(two, ctx, env) == [Env(name)] + AfterFirst(two[1..], ctx, env);
    assert AfterFirst(one, ctx, env) == one && AfterFirst(two, ctx, env) == two;
    ExpansionIsMeaningIff(one, ctx, env);
    ExpansionIsMeaningIff(two, ctx, env);
    assert Meanings(one[1..], ctx, env) == "" && "%" + "" == "%" && "%" + "%" == "%%";
    assert Meanings(one, ctx, env) == "%";
    assert Meanings(two, ctx, env) == "%" + Meanings(two[1..], ctx, env);
  }

  /**
    Why the reading goes through the values of template variables: the second
    phase takes a reference in one for a reference.
   */
  lemma TemplateValueIsReadAgain(name: string, ctx: Context, env: map<string, string>)
    requires '}' !in name && '%' !in name && ctx.here == "${" + name + "}"
    ensures ExpandString(Render([Template("here", false)]), ctx, env) == ExpandString("${" + name + "}", ctx, env)
  {
    hide EnvVars, Undouble, TemplateVars;
    var value := ctx.here;
    var text := Render([Template("here", false)]);
    assert [Template("here", false)][1..] == [];
    assert text == Written(Template("here", false)) + "";
    TemplateVarsAt(text, 0, ctx);
    assert text[0..] == text;
    CloseOfTemplate("here", false, "");
    assert text[2..6] == "here" && text[8..] == "";
    EmptyTemplate("", ctx);
    assert value + "" == value;
    PassText(value, "", ctx);
  }

  // ---------------------------------------------------------------------
  // Errors
  // ---------------------------------------------------------------------

  // A text that begins with a reference that is not closed, or that names nothing, is refused.

  lemma UnclosedVariable(rest: string, ctx: Context, env: map<string, string>)
    requires Index("%(" + rest, ")s") < 0 && Index("%(" + rest, ")d") < 0
    ensures ExpandString("%(" + rest, ctx, env) == Err(UnclosedTemplate)
  {
    hide TemplateVars, EnvVars, Undouble, Index;
    var s := "%(" + rest;
    assert s[0..] == s;
    TemplateVarsAt(s, 0, ctx);
  }

  lemma UnclosedReference(rest: string, ctx: Context, env: map<string, string>)
    requires '%' !in rest && '}' !in rest
    ensures ExpandString("${" + rest, ctx, env) == Err(UnclosedEnv)
  {
    hide TemplateVars, EnvVars, Undouble, Index;
    var s := "${" + rest;
    assert s[0..] == s && s + "" == s;
    PassText(s, "", ctx);
    EmptyTemplate("", ctx);
    EnvVarsAt(s, 0, env);
    IndexOfAbsent(s, "}");
  }

  lemma UndefinedReference(name: string, rest: string, ctx: Context, env: map<string, string>)
    requires '%' !in name && '}' !in name && '%' !in rest && name !in env
    ensures ExpandString("${" + name + "}" + rest, ctx, env) == Err(UndefinedEnv(name))
  {
    hide TemplateVars, EnvVars, Undouble, Index;
    var s := "${" + name + "}" + rest;
    assert s[0..] == s && s + "" == s;
    PassText(s, "", ctx);
    EmptyTemplate("", ctx);
    EnvVarsAt(s, 0, env);
    assert s == ("${" + name) + ("}" + rest);
    IndexSkips("${" + name, "}" + rest, "}");
    IndexAtHead("}", rest);
    assert s[2..2 + |name|] == name;
  }

  lemma IndexOfAbsent(s: string, pattern: string)
    requires pattern != "" && pattern[0] !in s
    ensures Index(s, pattern) < 0
  {
    assert s + "" == s;
    IndexSkips(s, "", pattern);
  }

  // ---------------------------------------------------------------------
  // The variables
  // ---------------------------------------------------------------------

  /** A text no later phase changes. */
  predicate Settled(text: string) {
    '$' !in text && !HasDouble(text, '%')
  }

  function Reference(name: string, decimal: bool): string {
    "%(" + name + if decimal then ")d" else ")s"
  }

  lemma {:induction false} OneVariable(name: string, decimal: bool, ctx: Context, env: map<string, string>)
    requires ')' !in name
    ensures var r := ExpandString(Reference(name, decimal), ctx, env);
      match ResolveTemplateVar(name, ctx)
      case Ok(v) => Settled(v) ==> r == Ok(v)
      case Err(e) => r == Err(e)
  {
    hide TemplateVars, EnvVars, Undouble, HasDouble, ResolveTemplateVar;
    var text := Reference(name, decimal);
    assert text + "" == text == Written(Template(name, decimal)) && text[0..] == text;
    TemplateVarsAt(text, 0, ctx);
    CloseOfTemplate(name, decimal, "");
    assert text[2..2 + |name|] == name && text[2 + |name| + 2..] == "";
    EmptyTemplate("", ctx);
    if ResolveTemplateVar(name, ctx).Ok? {
      var v := ResolveTemplateVar(name, ctx).value;
      assert v + "" == v;
      if Settled(v) {
        PassEnvText(v, "", env);
        EmptyEnv("", env);
        UndoubleLength(v, '%');
        UndoubleLength(v, '$');
        NoSignNoDouble(v, '$');
      }
    }
  }

  lemma {:induction false} NoSignNoDouble(s: string, c: char)
    requires c !in s
    ensures !HasDouble(s, c)
  {}

  /**
    What the template variables stand for: the directory of the config file,
    the program's name for both the program and its group, the number of
    processes and the process's own number, which stays a placeholder where the
    instances have yet to put theirs in. There are no others.
   */
  lemma VariablesStandFor(decimal: bool, ctx: Context, env: map<string, string>)
    ensures Settled(ctx.here) ==> ExpandString(Reference("here", decimal), ctx, env) == Ok(ctx.here)
    ensures Settled(ctx.programName) ==>
      ExpandString(Reference("program_name", decimal), ctx, env) == Ok(ctx.programName)
    ensures Settled(ctx.groupName) ==> ExpandString(Reference("group_name", decimal), ctx, env) == Ok(ctx.groupName)
    ensures ExpandString(Reference("numprocs", decimal), ctx, env) == Ok(Decimal(ctx.numProcs))
    ensures ExpandString(Reference("process_num", decimal), ctx, env)
      == Ok(if ctx.keepProcessNum then "%(process_num)d" else Decimal(ctx.processNum))
    ensures forall name | ')' !in name && !Known(name) ::
      ExpandString(Reference(name, decimal), ctx, env) == Err(UnknownVariable(name))
  {
    hide ExpandString, Decimal, Settled, Reference, ResolveTemplateVar, Known;
    FiveVariables(ctx);
    OneVariable("here", decimal, ctx, env);
    OneVariable("program_name", decimal, ctx, env);
    OneVariable("group_name", decimal, ctx, env);
    OneVariable("numprocs", decimal, ctx, env);
    OneVariable("process_num", decimal, ctx, env);
    DecimalIsSettled(ctx.numProcs);
    DecimalIsSettled(ctx.processNum);
    PlaceholderIsSettled();
    forall name | ')' !in name && !Known(name)
      ensures ExpandString(Reference(name, decimal), ctx, env) == Err(UnknownVariable(name))
    {
      NoOtherVariable(name, ctx);
      OneVariable(name, decimal, ctx, env);
    }
  }

  predicate Known(name: string) {
    name == "here" || name == "program_name" || name == "group_name" || name == "numprocs" || name == "process_num"
  }

  lemma FiveVariables(ctx: Context)
    ensures ResolveTemplateVar("here", ctx) == Ok(ctx.here)
    ensures ResolveTemplateVar("program_name", ctx) == Ok(ctx.programName)
    ensures ResolveTemplateVar("group_name", ctx) == Ok(ctx.groupName)
    ensures ResolveTemplateVar("numprocs", ctx) == Ok(Decimal(ctx.numProcs))
    ensures ResolveTemplateVar("process_num", ctx)
      == Ok(if ctx.keepProcessNum then "%(process_num)d" else Decimal(ctx.processNum))
    ensures ')' !in "here" && ')' !in "program_name" && ')' !in "group_name" && ')' !in "numprocs"
    ensures ')' !in "process_num"
  {
    hide Decimal;
    Unequal("program_name", "here");
    Unequal("process_num", "here");
    Unequal("process_num", "program_name");
    Unequal("group_name", "here");
    Unequal("group_name", "program_name");
    Unequal("group_name", "process_num");
    Unequal("numprocs", "here");
    Unequal("numprocs", "program_name");
    Unequal("numprocs", "process_num");
    Unequal("numprocs", "group_name");
  }

  lemma Unequal(a: string, b: string)
    requires |a| != |b|
    ensures a != b
  {}

  lemma NoOtherVariable(name: string, ctx: Context)
    requires !Known(name)
    ensures ResolveTemplateVar(name, ctx) == Err(UnknownVariable(name))
  {}

  lemma {:induction false} DecimalIsSettled(n: int)
    ensures Settled(Decimal(n))
  {
    hide Decimal, Value;
    DecimalIsRead(n);
    if n < 0 {
      DecimalIsRead(-n);
      assert forall c :: c in Decimal(n) ==> c == '-' || IsDigit(c);
    }
    assert '$' !in Decimal(n) && '%' !in Decimal(n);
    NoSignNoDouble(Decimal(n), '%');
  }

  lemma PlaceholderIsSettled()
    ensures Settled("%(process_num)d")
  {}
}
