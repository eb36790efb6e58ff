/**
 The `${...}` expander: one scanner used as a full expander, as a secrets-only pass, and as the
 validation of a configuration. Strings are bytes; the scanner only looks at ASCII ones.
 */
module Expand {
  import opened Edge

  datatype Error =
    | Unterminated(rest: string)
    | UnknownReference(ref: string)
    | UnknownSecret(name: string)
    | NoPassword(dep: string)

  datatype Outcome = Ok(value: string) | Err(error: Error)

  /** What a resolver makes of a reference: a value, nothing (leave it as it is), or a failure. */
  datatype Found = Value(value: string) | Leave | Fail(error: Error)

  type Resolver = string -> Found

  // ----- scanning

  datatype Token = Lit(c: char) | Escape | Ref(name: string)

  /** The tokens of a string, up to an unterminated reference if there is one. */
  datatype Scanned = Scanned(tokens: seq<Token>, broken: Option<string>)

  function IndexOf(s: string, c: char): (i: Option<nat>)
    ensures i.Some? ==> i.value < |s| && s[i.value] == c && c !in s[..i.value]
    ensures i.None? ==> c !in s
  {
    if s == [] then None
    else if s[0] == c then Some(0)
    else match IndexOf(s[1..], c)
      case None => None
      case Some(i) =>
        assert s[..i + 1] == [s[0]] + s[1..][..i];
        Some(i + 1)
  }

  function Cons(t: Token, rest: Scanned): Scanned { rest.(tokens := [t] + rest.tokens) }

  function Tokenize(s: string): Scanned {
    if s == [] then Scanned([], None)
    else if s[0] != '$' then Cons(Lit(s[0]), Tokenize(s[1..]))
    else if |s| > 1 && s[1] == '$' then Cons(Escape, Tokenize(s[2..]))
    else if |s| > 1 && s[1] == '{' then
      match IndexOf(s[2..], '}')
      case None => Scanned([], Some(s))
      case Some(end) => Cons(Ref(s[2..2 + end]), Tokenize(s[end + 3..]))
    else Cons(Lit('$'), Tokenize(s[1..]))
  }

  /** What a token contributes to the output. */
  function Output(t: Token, f: Resolver): Outcome {
    match t
    case Lit(c) => Ok([c])
    case Escape => Ok("$")
    case Ref(name) =>
      match f(name)
      case Value(v) => Ok(v)
      case Leave => Ok("${" + name + "}")
      case Fail(e) => Err(e)
  }

  function Prepend(b: string, o: Outcome): Outcome {
    if o.Ok? then Ok(b + o.value) else o
  }

  /** Tokens in order, stopping at the first failure; an unterminated reference fails last. */
  function Run(tokens: seq<Token>, broken: Option<string>, f: Resolver): Outcome {
    if tokens == [] then if broken.Some? then Err(Unterminated(broken.value)) else Ok("")
    else
      match Output(tokens[0], f)
      case Err(e) => Err(e)
      case Ok(b) => Prepend(b, Run(tokens[1..], broken, f))
  }

  function Mapped(s: string, f: Resolver): Outcome {
    Run(Tokenize(s).tokens, Tokenize(s).broken, f)
  }

  lemma PrependTwice(a: string, b: string, o: Outcome)
    ensures Prepend(a, Prepend(b, o)) == Prepend(a + b, o)
  {
    if o.Ok? { assert a + (b + o.value) == a + b + o.value; }
  }

  /** A string without a dollar expands to itself. */
  lemma {:induction false} NoDollarIsItself(s: string, f: Resolver)
    requires '$' !in s
    ensures Mapped(s, f) == Ok(s)
  {
    if s != [] {
      NoDollarIsItself(s[1..], f);
      MappedStep(s, f);
    }
  }

  /** One turn of the scanner. */
  lemma MappedStep(s: string, f: Resolver)
    requires s != []
    ensures s[0] != '$' ==> Mapped(s, f) == Prepend([s[0]], Mapped(s[1..], f))
    ensures s[0] == '$' && |s| > 1 && s[1] == '$' ==> Mapped(s, f) == Prepend("$", Mapped(s[2..], f))
    ensures s[0] == '$' && !(|s| > 1 && s[1] in "${") ==> Mapped(s, f) == Prepend("$", Mapped(s[1..], f))
  {
    var rest := if s[0] == '$' && |s| > 1 && s[1] == '$' then s[2..] else s[1..];
    var t := Tokenize(rest);
    if !(s[0] == '$' && |s| > 1 && s[1] == '{') {
      assert Tokenize(s).tokens[1..] == t.tokens;
    }
  }

  lemma MappedRef(s: string, f: Resolver, end: nat, b: string)
    requires |s| > 1 && s[0] == '$' && s[1] == '{' && IndexOf(s[2..], '}') == Some(end)
    ensures match Output(Ref(s[2..2 + end]), f)
      case Err(e) => Prepend(b, Mapped(s, f)) == Err(e)
      case Ok(v) => Prepend(b, Mapped(s, f)) == Prepend(b + v, Mapped(s[end + 3..], f))
  {
    var t := Tokenize(s[end + 3..]);
    assert Tokenize(s) == Cons(Ref(s[2..2 + end]), t);
    assert Tokenize(s).tokens[1..] == t.tokens;
    var o := Output(Ref(s[2..2 + end]), f);
    if o.Ok? { PrependTwice(b, o.value, Mapped(s[end + 3..], f)); }
  }

  /** The index loop of the expander computes the token-by-token meaning. */
  method MapRefs(s: string, f: Resolver) returns (r: Outcome)
    ensures r == Mapped(s, f)
  {
    if '$' !in s {
      NoDollarIsItself(s, f);
      return Ok(s);
    }
    r := ScanRefs(s, f);
  }

  method ScanRefs(s: string, f: Resolver) returns (r: Outcome)
    ensures r == Mapped(s, f)
  {
    hide Mapped, Prepend;
    var b := "";
    var i := 0;
    PrependNothing(Mapped(s, f));
    assert s[0..] == s;
    while i < |s|
      invariant 0 <= i <= |s|
      invariant Mapped(s, f) == Prepend(b, Mapped(s[i..], f))
    {
      if s[i] != '$' {
        StepAt(s, i, b, f);
        b := b + [s[i]];
        i := i + 1;
      } else if i + 1 < |s| && s[i + 1] == '$' {
        StepAt(s, i, b, f);
        b := b + "$";
        i := i + 2;
      } else if i + 1 < |s| && s[i + 1] == '{' {
        var end := IndexOf(s[i + 2..], '}');
        if end.None? {
          BrokenAt(s, i, b, f);
          return Err(Unterminated(s[i..]));
        }
        RefAt(s, i, b, f, end.value);
        var found := f(s[i + 2..i + 2 + end.value]);
        if found.Fail? { return Err(found.error); }
        b := b + if found.Value? then found.value else s[i..i + end.value + 3];
        i := i + end.value + 3;
      } else {
        StepAt(s, i, b, f);
        b := b + "$";
        i := i + 1;
      }
    }
    MappedEnd(s[|s|..], f, b);
    return Ok(b);
  }

  lemma StepAt(s: string, i: nat, b: string, f: Resolver)
    requires i < |s|
    ensures s[i] != '$' ==> Prepend(b, Mapped(s[i..], f)) == Prepend(b + [s[i]], Mapped(s[i + 1..], f))
    ensures s[i] == '$' && i + 1 < |s| && s[i + 1] == '$' ==>
      Prepend(b, Mapped(s[i..], f)) == Prepend(b + "$", Mapped(s[i + 2..], f))
    ensures s[i] == '$' && !(i + 1 < |s| && s[i + 1] in "${") ==>
      Prepend(b, Mapped(s[i..], f)) == Prepend(b + "$", Mapped(s[i + 1..], f))
  {
    hide Mapped, Prepend;
    var t := s[i..];
    MappedStep(t, f);
    PrependTwice(b, [s[i]], Mapped(s[i + 1..], f));
    assert t[1..] == s[i + 1..];
    if i + 1 < |s| {
      PrependTwice(b, "$", Mapped(s[i + 2..], f));
      assert t[2..] == s[i + 2..];
    }
  }

  lemma BrokenAt(s: string, i: nat, b: string, f: Resolver)
    requires i + 1 < |s| && s[i] == '$' && s[i + 1] == '{' && IndexOf(s[i + 2..], '}').None?
    ensures Prepend(b, Mapped(s[i..], f)) == Err(Unterminated(s[i..]))
  {
    assert s[i..][2..] == s[i + 2..];
    MappedBroken(s[i..], f, b);
  }

  lemma RefAt(s: string, i: nat, b: string, f: Resolver, end: nat)
    requires i + 1 < |s| && s[i] == '$' && s[i + 1] == '{' && IndexOf(s[i + 2..], '}') == Some(end)
    ensures match f(s[i + 2..i + 2 + end])
      case Fail(e) => Prepend(b, Mapped(s[i..], f)) == Err(e)
      case Leave => Prepend(b, Mapped(s[i..], f)) == Prepend(b + s[i..i + end + 3], Mapped(s[i + end + 3..], f))
      case Value(v) => Prepend(b, Mapped(s[i..], f)) == Prepend(b + v, Mapped(s[i + end + 3..], f))
  {
    hide Mapped, Prepend;
    var t := s[i..];
    assert t[2..] == s[i + 2..] && t[2..2 + end] == s[i + 2..i + 2 + end] && t[end + 3..] == s[i + end + 3..];
    assert s[i..i + end + 3] == "${" + s[i + 2..i + 2 + end] + "}";
    MappedRef(t, f, end, b);
  }

  lemma PrependNothing(o: Outcome)
    ensures Prepend("", o) == o
  {
    if o.Ok? { assert "" + o.value == o.value; }
  }

  lemma MappedEnd(s: string, f: Resolver, b: string)
    requires s == []
    ensures Prepend(b, Mapped(s, f)) == Ok(b)
  {
    assert b + "" == b;
  }

  lemma MappedBroken(s: string, f: Resolver, b: string)
    requires |s| > 1 && s[0] == '$' && s[1] == '{' && IndexOf(s[2..], '}').None?
    ensures Prepend(b, Mapped(s, f)) == Err(Unterminated(s))
  {
  }

  // ----- lookups

  datatype Addr = Addr(host: string, port: int)

  /** A nil function of the source is None here. */
  datatype Secrets = Secrets(lookup: Option<string -> Option<string>>, password: Option<string -> Option<string>>) {
    predicate Empty() { lookup.None? && password.None? }
  }

  datatype Context = Context(app: string, env: string, port: int, deps: map<string, Addr>,
                             services: map<string, Addr>, secrets: Secrets)

  function Digits(n: nat): string {
    if n < 10 then ["0123456789"[n]] else Digits(n / 10) + ["0123456789"[n % 10]]
  }

  function Itoa(n: int): string { if n < 0 then "-" + Digits(-n) else Digits(n) }

  function CutPrefix(s: string, prefix: string): Option<string> {
    if prefix <= s then Some(s[|prefix|..]) else None
  }

  /** The parts of a string around its first dot. */
  function CutDot(s: string): Option<(string, string)> {
    match IndexOf(s, '.')
    case None => None
    case Some(i) => Some((s[..i], s[i + 1..]))
  }

  predicate Letter(c: char) { 'A' <= c <= 'Z' || 'a' <= c <= 'z' || c == '_' }

  predicate VarName(name: string) {
    name != "" && Letter(name[0]) && forall i :: 0 <= i < |name| ==> Letter(name[i]) || '0' <= name[i] <= '9'
  }

  function LookupAddr(addrs: map<string, Addr>, rest: string): Found {
    match CutDot(rest)
    case None => Leave
    case Some((name, field)) =>
      if name !in addrs then Leave
      else if field == "host" then Value(addrs[name].host)
      else if field == "port" then Value(Itoa(addrs[name].port))
      else Leave
  }

  function LookupSecret(c: Context, name: string): Found {
    if !VarName(name) then Leave
    else if c.secrets.lookup.None? then Value("")
    else match c.secrets.lookup.value(name)
      case None => Fail(UnknownSecret(name))
      case Some(v) => Value(v)
  }

  function LookupPassword(c: Context, dep: string): Found {
    if dep !in c.deps then Leave
    else if c.secrets.password.None? then Value("")
    else match c.secrets.password.value(dep)
      case None => Fail(NoPassword(dep))
      case Some(v) => Value(v)
  }

  function LookupDep(c: Context, rest: string): Found {
    match CutDot(rest)
    case Some((name, field)) => if field == "password" then LookupPassword(c, name) else LookupAddr(c.deps, rest)
    case None => LookupAddr(c.deps, rest)
  }

  /** A reference in a context; `Leave` here is an unknown reference. */
  function Lookup(c: Context, ref: string): Found {
    if ref == "port" then Value(Itoa(c.port))
    else if ref == "app.name" then Value(c.app)
    else if ref == "env.name" then Value(c.env)
    else if CutPrefix(ref, "secrets.").Some? then LookupSecret(c, CutPrefix(ref, "secrets.").value)
    else if CutPrefix(ref, "deps.").Some? then LookupDep(c, CutPrefix(ref, "deps.").value)
    else if CutPrefix(ref, "services.").Some? then LookupAddr(c.services, CutPrefix(ref, "services.").value)
    else Leave
  }

  function Resolve(c: Context, ref: string): Found {
    if Lookup(c, ref).Leave? then Fail(UnknownReference(ref)) else Lookup(c, ref)
  }

  function ExpandString(s: string, c: Context): Outcome { Mapped(s, ref => Resolve(c, ref)) }

  // ----- the secrets-only pass

  /** The secrets-only resolver: a secret or a declared dependency's password, if it is set. */
  function SecretRef(declared: set<string>, sec: Secrets, ref: string): Found {
    if CutPrefix(ref, "secrets.").Some? then
      var name := CutPrefix(ref, "secrets.").value;
      if !VarName(name) || sec.lookup.None? then Leave else Maybe(sec.lookup.value(name))
    else if CutPrefix(ref, "deps.").Some? then
      match CutDot(CutPrefix(ref, "deps.").value)
      case None => Leave
      case Some((name, field)) =>
        if field != "password" || name !in declared || sec.password.None? then Leave
        else Maybe(sec.password.value(name))
    else Leave
  }

  function Maybe(v: Option<string>): Found { if v.Some? then Value(v.value) else Leave }

  function ExpandSecretsOnly(s: string, declared: set<string>, sec: Secrets): string {
    if sec.Empty() then s
    else match Mapped(s, ref => SecretRef(declared, sec, ref))
      case Err(_) => s
      case Ok(out) => out
  }

  /** Whatever the secrets-only pass fills in, a full expansion would have filled in the same. */
  lemma SecretRefAgrees(c: Context, declared: set<string>, ref: string)
    requires declared <= c.deps.Keys && SecretRef(declared, c.secrets, ref).Value?
    ensures Resolve(c, ref) == SecretRef(declared, c.secrets, ref)
  {
    NotPrefix("port", "secrets.");
    NotPrefix("app.name", "secrets.");
    NotPrefix("env.name", "secrets.");
    NotPrefix("port", "deps.");
    NotPrefix("app.name", "deps.");
    NotPrefix("env.name", "deps.");
  }

  lemma NotPrefix(s: string, prefix: string)
    requires s != [] && prefix != [] && s[0] != prefix[0]
    ensures CutPrefix(s, prefix).None?
  {
  }

  // ----- expanding secrets first

  ghost predicate Follower(t: Token) { t.Lit? && t.c != '$' && t.c != '{' }

  /** A literal dollar, or an escape, whose output cannot join what comes after it. */
  ghost predicate Harmless(tokens: seq<Token>) {
    |tokens| > 1 ==> (tokens[0] == Lit('$') || tokens[0] == Escape ==> Follower(tokens[1])) && Harmless(tokens[1..])
  }

  function Render(t: Token): string {
    match t
    case Lit(c) => [c]
    case Escape => "$$"
    case Ref(name) => "${" + name + "}"
  }

  function RenderAll(tokens: seq<Token>): string {
    if tokens == [] then "" else Render(tokens[0]) + RenderAll(tokens[1..])
  }

  ghost predicate CleanNames(tokens: seq<Token>) {
    forall t :: t in tokens && t.Ref? ==> '}' !in t.name
  }

  /** No escapes, dollars that stand alone, names that end: the tokens of their own rendering. */
  ghost predicate Canonical(tokens: seq<Token>) {
    Harmless(tokens) && CleanNames(tokens) && Escape !in tokens
  }

  lemma {:induction false} IndexOfAfter(name: string, rest: string)
    requires '}' !in name
    ensures IndexOf(name + "}" + rest, '}') == Some(|name|)
  {
    if name != "" {
      IndexOfAfter(name[1..], rest);
      assert (name + "}" + rest)[1..] == name[1..] + "}" + rest;
    }
  }

  lemma TokenizeLit(c: char, r: string)
    requires c == '$' && r != [] ==> r[0] != '$' && r[0] != '{'
    ensures Tokenize([c] + r) == Cons(Lit(c), Tokenize(r))
  {
    assert ([c] + r)[1..] == r;
  }

  lemma TokenizeRef(name: string, r: string)
    requires '}' !in name
    ensures Tokenize("${" + name + "}" + r) == Cons(Ref(name), Tokenize(r))
  {
    var s := "${" + name + "}" + r;
    assert s[2..] == name + "}" + r;
    IndexOfAfter(name, r);
    assert s[2..2 + |name|] == name && s[|name| + 3..] == r;
  }

  lemma CanonicalTail(tokens: seq<Token>)
    requires Canonical(tokens) && tokens != []
    ensures Canonical(tokens[1..])
  {
    assert forall t :: t in tokens[1..] ==> t in tokens;
  }

  /** Scanning the rendering of canonical tokens gives them back. */
  lemma {:induction false} ScanRenders(tokens: seq<Token>)
    requires Canonical(tokens)
    ensures Tokenize(RenderAll(tokens)) == Scanned(tokens, None)
  {
    if tokens != [] {
      hide Tokenize;
      var rest := tokens[1..];
      CanonicalTail(tokens);
      ScanRenders(rest);
      assert tokens[0] in tokens && tokens == [tokens[0]] + rest;
      if tokens[0].Lit? {
        if tokens[0].c == '$' && rest != [] {
          assert Follower(tokens[1]);
          assert RenderAll(rest)[0] == tokens[1].c;
        }
        TokenizeLit(tokens[0].c, RenderAll(rest));
      } else {
        TokenizeRef(tokens[0].name, RenderAll(rest));
      }
    }
  }

  function Lits(s: string): (r: seq<Token>)
    ensures |r| == |s| && forall i :: 0 <= i < |s| ==> r[i] == Lit(s[i])
  {
    seq(|s|, i requires 0 <= i < |s| => Lit(s[i]))
  }

  /** What a token becomes in the output of a pass that leaves what it cannot resolve. */
  function Become(t: Token, f: Resolver): seq<Token> {
    match t
    case Lit(c) => [t]
    case Escape => [Lit('$')]
    case Ref(name) => if f(name).Value? then Lits(f(name).value) else [t]
  }

  function BecomeAll(tokens: seq<Token>, f: Resolver): seq<Token> {
    if tokens == [] then [] else Become(tokens[0], f) + BecomeAll(tokens[1..], f)
  }

  // Properties of the tokens of a string

  lemma {:induction false} TokensAreClean(s: string)
    ensures CleanNames(Tokenize(s).tokens)
  {
    if s != [] {
      if s[0] != '$' {
        TokensAreClean(s[1..]);
      } else if |s| > 1 && s[1] == '$' {
        TokensAreClean(s[2..]);
      } else if |s| > 1 && s[1] == '{' {
        var end := IndexOf(s[2..], '}');
        if end.Some? {
          TokensAreClean(s[end.value + 3..]);
          assert s[2..2 + end.value] == s[2..][..end.value];
        }
      } else {
        TokensAreClean(s[1..]);
      }
    }
  }

  /** Every escape of a string is at its end, or before a byte that is neither `$` nor `{`. */
  ghost predicate HarmlessEscapes(tokens: seq<Token>) {
    |tokens| > 1 ==> (tokens[0] == Escape ==> Follower(tokens[1])) && HarmlessEscapes(tokens[1..])
  }

  lemma FirstToken(s: string)
    requires s != [] && s[0] != '$' && s[0] != '{'
    ensures Tokenize(s).tokens != [] && Follower(Tokenize(s).tokens[0])
  {
  }

  /** What the scanner reads first, and the string it goes on with. */
  lemma FirstAndRest(s: string) returns (rest: string)
    requires Tokenize(s).tokens != []
    ensures |rest| < |s| && rest == s[|s| - |rest|..] && Tokenize(s) == Cons(Tokenize(s).tokens[0], Tokenize(rest))
    ensures Tokenize(s).tokens[0] == Escape ==> |s| > 1 && s[0] == '$' && s[1] == '$'
    ensures Tokenize(s).tokens[0] == Lit('$') && rest != [] ==> rest[0] != '$' && rest[0] != '{'
  {
    rest := if s[0] == '$' && |s| > 1 && s[1] == '$' then s[2..]
            else if s[0] == '$' && |s| > 1 && s[1] == '{' then s[IndexOf(s[2..], '}').value + 3..]
            else s[1..];
  }

  /** A lone dollar is followed by nothing it could join: that is what makes it lone. */
  lemma {:induction false} DollarsStandAlone(s: string)
    requires HarmlessEscapes(Tokenize(s).tokens)
    ensures Harmless(Tokenize(s).tokens)
    decreases |s|
  {
    hide Tokenize;
    var all := Tokenize(s).tokens;
    if all != [] {
      var rest := FirstAndRest(s);
      var r := Tokenize(rest).tokens;
      assert all[1..] == r;
      DollarsStandAlone(rest);
      if r != [] && all[0] == Lit('$') {
        TokensOfSome(rest);
        FirstToken(rest);
      }
    }
  }

  lemma TokensOfSome(s: string)
    requires Tokenize(s).tokens != []
    ensures s != []
  {
  }

  /** Two dollars in a row are how an escape is written, so a string without them has none. */
  lemma {:induction false} NoPairNoEscape(s: string)
    requires forall i :: 0 <= i < |s| - 1 ==> !(s[i] == '$' && s[i + 1] == '$')
    ensures Escape !in Tokenize(s).tokens && HarmlessEscapes(Tokenize(s).tokens)
    decreases |s|
  {
    hide Tokenize;
    if Tokenize(s).tokens != [] {
      var rest := FirstAndRest(s);
      assert forall i :: 0 <= i < |rest| ==> rest[i] == s[i + (|s| - |rest|)];
      NoPairNoEscape(rest);
      assert Tokenize(s).tokens[1..] == Tokenize(rest).tokens;
    }
  }

  // ----- the two passes

  /** A resolver that fills in values without a dollar, or leaves the reference alone. */
  ghost predicate Gentle(f: Resolver) {
    forall ref :: !f(ref).Fail? && (f(ref).Value? ==> '$' !in f(ref).value)
  }

  /** A gentle pass over terminated tokens writes the rendering of what they become. */
  lemma {:induction false} PassRenders(tokens: seq<Token>, f: Resolver)
    requires Gentle(f)
    ensures Run(tokens, None, f) == Ok(RenderAll(BecomeAll(tokens, f)))
  {
    if tokens != [] {
      PassRenders(tokens[1..], f);
      var first := Become(tokens[0], f);
      RenderConcat(first, BecomeAll(tokens[1..], f));
      if tokens[0].Ref? && f(tokens[0].name).Value? {
        RenderLits(f(tokens[0].name).value);
      } else {
        assert first == [first[0]];
        assert RenderAll(first) == Render(first[0]) + "";
      }
    }
  }

  lemma {:induction false} RenderConcat(a: seq<Token>, b: seq<Token>)
    ensures RenderAll(a + b) == RenderAll(a) + RenderAll(b)
  {
    if a == [] {
      assert a + b == b;
    } else {
      assert (a + b)[1..] == a[1..] + b;
      RenderConcat(a[1..], b);
    }
  }

  lemma {:induction false} RenderLits(s: string)
    ensures RenderAll(Lits(s)) == s
  {
    if s != [] {
      RenderLits(s[1..]);
      assert Lits(s)[1..] == Lits(s[1..]);
      assert s == [s[0]] + s[1..];
    }
  }

  lemma {:induction false} HarmlessLits(s: string, rest: seq<Token>)
    requires '$' !in s && Harmless(rest)
    ensures Harmless(Lits(s) + rest)
  {
    if s == [] {
      assert Lits(s) + rest == rest;
    } else {
      HarmlessLits(s[1..], rest);
      assert (Lits(s) + rest)[1..] == Lits(s[1..]) + rest;
      assert (Lits(s) + rest)[0] == Lit(s[0]);
    }
  }

  /** A gentle pass over harmless tokens leaves canonical ones: nothing joins up by accident. */
  lemma {:induction false} BecomesCanonical(tokens: seq<Token>, f: Resolver)
    requires Gentle(f) && Harmless(tokens) && CleanNames(tokens)
    ensures Canonical(BecomeAll(tokens, f))
    ensures tokens != [] && Follower(tokens[0]) ==>
      BecomeAll(tokens, f) != [] && BecomeAll(tokens, f)[0] == tokens[0]
  {
    if tokens != [] {
      var rest := tokens[1..];
      assert CleanNames(rest) by { assert forall t :: t in rest ==> t in tokens; }
      BecomesCanonical(rest, f);
      var r := BecomeAll(rest, f);
      var first := Become(tokens[0], f);
      assert tokens[0] in tokens;
      if tokens[0].Ref? && f(tokens[0].name).Value? {
        HarmlessLits(f(tokens[0].name).value, r);
      } else {
        assert first == [first[0]] && (first + r)[1..] == r;
        if first[0] == Lit('$') && rest != [] { assert Follower(tokens[1]); }
        if rest == [] { assert r == []; }
        assert Harmless(first + r);
      }
      assert forall t :: t in first + r ==> t in first || t in r;
    }
  }

  /** A full expansion reads the same out of tokens and out of what a gentle pass made of them. */
  lemma {:induction false} SameMeaning(tokens: seq<Token>, f: Resolver, full: Resolver)
    requires forall ref :: f(ref).Value? ==> full(ref) == f(ref)
    ensures Run(BecomeAll(tokens, f), None, full) == Run(tokens, None, full)
  {
    if tokens != [] {
      SameMeaning(tokens[1..], f, full);
      var r := BecomeAll(tokens[1..], f);
      if tokens[0].Ref? && f(tokens[0].name).Value? {
        RunLits(f(tokens[0].name).value, r, full);
      } else {
        var first := Become(tokens[0], f);
        assert first == [first[0]] && (first + r)[1..] == r;
        assert Output(first[0], full) == Output(tokens[0], full);
      }
    }
  }

  lemma {:induction false} RunLits(s: string, rest: seq<Token>, f: Resolver)
    ensures Run(Lits(s) + rest, None, f) == Prepend(s, Run(rest, None, f))
  {
    if s == [] {
      assert Lits(s) + rest == rest;
      PrependNothing(Run(rest, None, f));
    } else {
      RunLits(s[1..], rest, f);
      assert (Lits(s) + rest)[1..] == Lits(s[1..]) + rest;
      PrependTwice([s[0]], s[1..], Run(rest, None, f));
      assert s == [s[0]] + s[1..];
    }
  }

  /** Values without a dollar: what a vault holds must not itself look like a reference. */
  ghost predicate DollarFree(sec: Secrets) {
    && (sec.lookup.Some? ==> forall n :: sec.lookup.value(n).Some? ==> '$' !in sec.lookup.value(n).value)
    && (sec.password.Some? ==> forall d :: sec.password.value(d).Some? ==> '$' !in sec.password.value(d).value)
  }

  /**
   Expanding the secrets first and the rest later is expanding once, value or failure alike, for
   every string whose escapes are harmless, dollar-free secrets, and dependencies the context has.
   */
  lemma TwoPassesAreOne(s: string, declared: set<string>, c: Context)
    requires HarmlessEscapes(Tokenize(s).tokens) && DollarFree(c.secrets) && declared <= c.deps.Keys
    ensures ExpandString(ExpandSecretsOnly(s, declared, c.secrets), c) == ExpandString(s, c)
  {
    var f: Resolver := ref => SecretRef(declared, c.secrets, ref);
    var full: Resolver := ref => Resolve(c, ref);
    assert Gentle(f) by { GentleSecrets(declared, c.secrets); }
    var scanned := Tokenize(s);
    if !c.secrets.Empty() && scanned.broken.None? {
      forall ref | f(ref).Value? ensures full(ref) == f(ref) { SecretRefAgrees(c, declared, ref); }
      TwoPasses(s, f, full);
    } else if scanned.broken.Some? {
      BrokenFails(scanned.tokens, scanned.broken.value, f);
    }
  }

  lemma GentleSecrets(declared: set<string>, sec: Secrets)
    requires DollarFree(sec)
    ensures Gentle(ref => SecretRef(declared, sec, ref))
  {
  }

  lemma {:induction false} BrokenFails(tokens: seq<Token>, rest: string, f: Resolver)
    ensures Run(tokens, Some(rest), f).Err?
  {
    if tokens != [] { BrokenFails(tokens[1..], rest, f); }
  }

  lemma TwoPasses(s: string, f: Resolver, full: Resolver)
    requires Gentle(f) && Tokenize(s).broken.None? && HarmlessEscapes(Tokenize(s).tokens)
    requires forall ref :: f(ref).Value? ==> full(ref) == f(ref)
    ensures Mapped(s, f).Ok? && Mapped(Mapped(s, f).value, full) == Mapped(s, full)
  {
    var tokens := Tokenize(s).tokens;
    hide Tokenize, Run, RenderAll, BecomeAll;
    PassRenders(tokens, f);
    TokensAreClean(s);
    DollarsStandAlone(s);
    BecomesCanonical(tokens, f);
    ScanRenders(BecomeAll(tokens, f));
    SameMeaning(tokens, f, full);
  }

  /** In particular for every string in which no dollar follows a dollar. */
  lemma TwoPassesAreOneWithoutEscapes(s: string, declared: set<string>, c: Context)
    requires forall i :: 0 <= i < |s| - 1 ==> !(s[i] == '$' && s[i + 1] == '$')
    requires DollarFree(c.secrets) && declared <= c.deps.Keys
    ensures ExpandString(ExpandSecretsOnly(s, declared, c.secrets), c) == ExpandString(s, c)
  {
    NoPairNoEscape(s);
    TwoPassesAreOne(s, declared, c);
  }

  /**
   An escaped reference is where the passes part: once expanded it is the reference's text, but a
   secrets pass first unescapes it, so a later expansion reads the reference itself.
   */
  lemma EscapedReferenceIsUndone(ref: string, declared: set<string>, c: Context)
    requires '}' !in ref && '$' !in ref && !c.secrets.Empty()
    ensures ExpandString("$${" + ref + "}", c) == Ok("${" + ref + "}")
    ensures ExpandSecretsOnly("$${" + ref + "}", declared, c.secrets) == "${" + ref + "}"
    ensures ExpandString("${" + ref + "}", c) == Ok("${" + ref + "}") <==> Resolve(c, ref) == Value("${" + ref + "}")
  {
    var full: Resolver := r => Resolve(c, r);
    EscapedReference(ref, full);
    EscapedReference(ref, r => SecretRef(declared, c.secrets, r));
    TokenizeRef(ref, "");
    var t := "${" + ref + "}";
    assert t + "" == t;
    assert Tokenize(t).tokens == [Ref(ref)];
    assert Run([], None, full) == Ok("");
  }

  lemma EscapedReference(ref: string, f: Resolver)
    requires '}' !in ref && '$' !in ref
    ensures Mapped("$${" + ref + "}", f) == Ok("${" + ref + "}")
  {
    var s := "$${" + ref + "}";
    var rest := "{" + ref + "}";
    assert s[2..] == rest;
    MappedStep(s, f);
    NoDollarIsItself(rest, f);
    assert "$" + rest == "${" + ref + "}";
  }

  // ----- escaping

  /** The text that expands to `s` whatever the context: every dollar doubled. */
  function Escaped(s: string): string {
    if s == [] then "" else (if s[0] == '$' then "$$" else [s[0]]) + Escaped(s[1..])
  }

  /** Escaping and expanding is the identity on every string. */
  lemma {:induction false} EscapeRoundTrip(s: string, f: Resolver)
    ensures Mapped(Escaped(s), f) == Ok(s)
  {
    if s != [] {
      EscapeRoundTrip(s[1..], f);
      var e := Escaped(s);
      MappedStep(e, f);
      if s[0] == '$' {
        assert e[2..] == Escaped(s[1..]);
      } else {
        assert e[1..] == Escaped(s[1..]);
      }
      assert [s[0]] + s[1..] == s;
    }
  }

  // ----- validation

  function Named(names: set<string>): map<string, Addr> { map n | n in names :: Addr("", 0) }

  /** The context a configuration is validated in: names only, and no vault. */
  function ValidationContext(app: string, deps: set<string>, services: set<string>): Context {
    Context(app, "env", 0, Named(deps), Named(services), Secrets(None, None))
  }

  ghost predicate SecretMissing(e: Error) { e.UnknownSecret? || e.NoPassword? }

  /** A context with the same names, wherever its addresses and secrets come from. */
  ghost predicate Declares(c: Context, deps: set<string>, services: set<string>) {
    deps <= c.deps.Keys && services <= c.services.Keys
  }

  /** Validation and run time disagree on a reference only over a secret that is not set. */
  lemma ResolveAgrees(app: string, deps: set<string>, services: set<string>, c: Context, ref: string)
    requires Declares(c, deps, services)
    ensures var v := Resolve(ValidationContext(app, deps, services), ref);
      && (v.Value? ==> Resolve(c, ref).Value? || (Resolve(c, ref).Fail? && SecretMissing(Resolve(c, ref).error)))
      && (!v.Value? ==> v == Fail(UnknownReference(ref)))
      && (!v.Value? && deps == c.deps.Keys && services == c.services.Keys ==> Resolve(c, ref) == v)
  {
    hide Itoa, VarName, IndexOf;
  }

  /**
   An accepted text fails at run time only over a missing secret or password: never over an
   unknown reference, and never over one that does not end.
   */
  lemma ValidationIsSound(s: string, app: string, deps: set<string>, services: set<string>, c: Context)
    requires Declares(c, deps, services)
    requires ExpandString(s, ValidationContext(app, deps, services)).Ok?
    ensures ExpandString(s, c).Ok? || SecretMissing(ExpandString(s, c).error)
  {
    var v: Resolver := ref => Resolve(ValidationContext(app, deps, services), ref);
    var full: Resolver := ref => Resolve(c, ref);
    forall ref ensures v(ref).Value? ==> full(ref).Value? || (full(ref).Fail? && SecretMissing(full(ref).error))
      ensures !v(ref).Leave?
    {
      ResolveAgrees(app, deps, services, c, ref);
    }
    RunIsSound(Tokenize(s).tokens, Tokenize(s).broken, v, full);
  }

  lemma {:induction false} RunIsSound(tokens: seq<Token>, broken: Option<string>, v: Resolver, full: Resolver)
    requires forall ref :: !v(ref).Leave?
    requires forall ref ::
      v(ref).Value? ==> full(ref).Value? || (full(ref).Fail? && SecretMissing(full(ref).error))
    requires Run(tokens, broken, v).Ok?
    ensures Run(tokens, broken, full).Ok? || SecretMissing(Run(tokens, broken, full).error)
  {
    if tokens != [] {
      RunIsSound(tokens[1..], broken, v, full);
    }
  }

  /**
   And validation is exact: with every secret set and exactly the declared names, a text is
   accepted if and only if it expands.
   */
  lemma ValidationIsExact(s: string, app: string, deps: set<string>, services: set<string>, c: Context)
    requires deps == c.deps.Keys && services == c.services.Keys
    requires c.secrets.lookup.Some? ==> forall n :: c.secrets.lookup.value(n).Some?
    requires c.secrets.password.Some? ==> forall d :: c.secrets.password.value(d).Some?
    ensures ExpandString(s, ValidationContext(app, deps, services)).Ok? <==> ExpandString(s, c).Ok?
  {
    var v: Resolver := ref => Resolve(ValidationContext(app, deps, services), ref);
    var full: Resolver := ref => Resolve(c, ref);
    forall ref ensures v(ref).Value? <==> full(ref).Value?
      ensures !v(ref).Leave? && !full(ref).Leave?
    {
      ResolveAgrees(app, deps, services, c, ref);
      SecretsNeverMissing(c, ref);
    }
    RunIsExact(Tokenize(s).tokens, Tokenize(s).broken, v, full);
  }

  lemma SecretsNeverMissing(c: Context, ref: string)
    requires c.secrets.lookup.Some? ==> forall n :: c.secrets.lookup.value(n).Some?
    requires c.secrets.password.Some? ==> forall d :: c.secrets.password.value(d).Some?
    ensures !Resolve(c, ref).Leave?
    ensures Resolve(c, ref).Fail? ==> !SecretMissing(Resolve(c, ref).error)
  {
    hide Itoa, VarName, IndexOf;
  }

  lemma {:induction false} RunIsExact(tokens: seq<Token>, broken: Option<string>, v: Resolver, full: Resolver)
    requires forall ref :: !v(ref).Leave? && !full(ref).Leave? && (v(ref).Value? <==> full(ref).Value?)
    ensures Run(tokens, broken, v).Ok? <==> Run(tokens, broken, full).Ok?
  {
    if tokens != [] {
      RunIsExact(tokens[1..], broken, v, full);
    }
  }

  /** Accepts a set of variables exactly when every name is one and every value is accepted. */
  method ValidateVars(vars: map<string, string>, app: string, deps: set<string>, services: set<string>)
    returns (ok: bool)
    ensures ok <==> forall name :: name in vars ==>
      VarName(name) && ExpandString(vars[name], ValidationContext(app, deps, services)).Ok?
  {
    hide ExpandString, VarName;
    var names := vars.Keys;
    while names != {}
      invariant names <= vars.Keys
      invariant forall name :: name in vars && name !in names ==>
        VarName(name) && ExpandString(vars[name], ValidationContext(app, deps, services)).Ok?
    {
      var name :| name in names;
      if !VarName(name) { return false; }
      var r := Expanded(vars[name], ValidationContext(app, deps, services));
      if r.Err? { return false; }
      names := names - {name};
    }
    return true;
  }

  method Expanded(s: string, c: Context) returns (r: Outcome)
    ensures r == ExpandString(s, c)
  {
    r := MapRefs(s, ref => Resolve(c, ref));
  }
}
