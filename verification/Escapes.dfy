/** The other half of expanding twice: a text with a harmful escape is told apart by some context. */
module Escapes {
  import opened Edge
  import opened Expand

  /**
   A pass `f` and an expansion `full` under which no harmful escape goes unnoticed: what the pass fills
   in is an open brace, and nothing else opens with one; every value shows, and none has a dollar.
   */
  ghost predicate Telling(f: Resolver, full: Resolver) {
    && (forall ref :: !f(ref).Fail? && !full(ref).Leave?)
    && (forall ref :: f(ref).Value? ==> f(ref).value == "{" && full(ref) == f(ref))
    && (forall ref :: full(ref).Value? ==> Visible(full(ref).value))
    && (forall ref :: full(ref).Value? && !f(ref).Value? ==> full(ref).value[..1] != "{")
  }

  ghost predicate Visible(v: string) { v != "" && '$' !in v }

  /** Dollars that are not escapes are followed by nothing they could join. */
  ghost predicate LoneDollars(tokens: seq<Token>) {
    |tokens| > 1 ==> (tokens[0] == Lit('$') ==> Follower(tokens[1])) && LoneDollars(tokens[1..])
  }

  ghost predicate AllKnown(tokens: seq<Token>, full: Resolver) {
    forall t :: t in tokens && t.Ref? ==> full(t.name).Value? && '}' !in t.name
  }

  ghost predicate Dollar(t: Token) { t == Escape || t == Lit('$') }

  // ----- how many dollars come first

  ghost function DollarsIn(s: string): (n: nat)
    ensures n <= |s| && (n < |s| ==> s[n] != '$') && (n == 0 <==> s == "" || s[0] != '$')
  {
    if s == "" || s[0] != '$' then 0 else 1 + DollarsIn(s[1..])
  }

  ghost function LeadingDollars(tokens: seq<Token>): nat {
    if tokens == [] || !Dollar(tokens[0]) then 0 else 1 + LeadingDollars(tokens[1..])
  }

  /** The first dollars end at an open brace. */
  ghost predicate OpensBrace(s: string) { DollarsIn(s) < |s| && s[DollarsIn(s)] == '{' }

  lemma LeadingMore(s: string)
    ensures DollarsIn("$" + s) == 1 + DollarsIn(s) && (OpensBrace("$" + s) <==> OpensBrace(s))
  {
    assert ("$" + s)[1..] == s;
  }

  lemma LeadingNone(c: char, s: string)
    requires c != '$'
    ensures DollarsIn([c] + s) == 0 && (OpensBrace([c] + s) <==> c == '{')
  {
  }

  lemma KnownTail(tokens: seq<Token>, full: Resolver)
    requires AllKnown(tokens, full) && tokens != []
    ensures AllKnown(tokens[1..], full) && (tokens[0].Ref? ==> full(tokens[0].name).Value? && '}' !in tokens[0].name)
  {
    var t := tokens[0];
    assert t in tokens && forall u :: u in tokens[1..] ==> u in tokens;
  }

  /** Expanded once, as many dollars come first as there are first tokens that stand for one. */
  lemma {:induction false} OnceLeads(tokens: seq<Token>, f: Resolver, full: Resolver)
    requires Telling(f, full) && AllKnown(tokens, full)
    ensures Run(tokens, None, full).Ok? && DollarsIn(Run(tokens, None, full).value) == LeadingDollars(tokens)
  {
    if tokens != [] {
      KnownTail(tokens, full);
      OnceLeads(tokens[1..], f, full);
      var rest := Run(tokens[1..], None, full).value;
      if Dollar(tokens[0]) {
        LeadingMore(rest);
      } else if tokens[0].Ref? {
        var v := full(tokens[0].name).value;
        assert Visible(v) && (v + rest)[0] == v[0] && v[0] in v;
      }
    }
  }

  /** Scanned again, dollars join in pairs, and one before a brace opens a reference. */
  lemma {:induction false} AgainLeads(s: string, f: Resolver, full: Resolver)
    requires Telling(f, full) && Mapped(s, full).Ok?
    ensures DollarsIn(Mapped(s, full).value) == if OpensBrace(s) then DollarsIn(s) / 2 else (DollarsIn(s) + 1) / 2
    decreases |s|
  {
    hide Mapped, Telling;
    if s == "" {
      EmptyLeads(full);
    } else if s[0] == '$' && |s| > 1 && s[1] == '$' {
      MappedStep(s, full);
      AgainLeads(s[2..], f, full);
      LeadingMore(Mapped(s[2..], full).value);
      LeadingPair(s);
    } else if s[0] == '$' && |s| > 1 && s[1] == '{' {
      OpensReference(s, f, full);
      assert DollarsIn(s[1..]) == 0;
    } else {
      MappedStep(s, full);
      if s[0] == '$' {
        AgainLeads(s[1..], f, full);
        LeadingMore(Mapped(s[1..], full).value);
      }
    }
  }

  lemma EmptyLeads(full: Resolver)
    ensures Mapped("", full) == Ok("")
  {
  }

  lemma LeadingPair(s: string)
    requires |s| > 1 && s[0] == '$' && s[1] == '$'
    ensures DollarsIn(s) == DollarsIn(s[2..]) + 2 && (OpensBrace(s) <==> OpensBrace(s[2..]))
  {
    assert s[1..][1..] == s[2..];
  }

  /** A reference's value comes first, and it has no dollar. */
  lemma OpensReference(s: string, f: Resolver, full: Resolver)
    requires Telling(f, full) && Mapped(s, full).Ok? && |s| > 1 && s[0] == '$' && s[1] == '{'
    ensures DollarsIn(Mapped(s, full).value) == 0
  {
    var end := IndexOf(s[2..], '}');
    if end.None? {
      MappedBroken(s, full, "");
      assert false;
    } else {
      var name := s[2..2 + end.value];
      MappedRef(s, full, end.value, "");
      hide Mapped;
      PrependNothing(Mapped(s, full));
      var v := full(name).value;
      assert Visible(v);
      assert "" + v == v;
      var rest := Mapped(s[end.value + 3..], full).value;
      assert (v + rest)[0] == v[0] && v[0] in v;
    }
  }

  // ----- what the first pass writes

  ghost function Text(tokens: seq<Token>, f: Resolver): string { RenderAll(BecomeAll(tokens, f)) }

  /** The text of one token more. */
  lemma TextStep(tokens: seq<Token>, f: Resolver, full: Resolver)
    requires Telling(f, full) && tokens != []
    ensures var rest := Text(tokens[1..], f);
      match tokens[0]
      case Lit(c) => Text(tokens, f) == [c] + rest
      case Escape => Text(tokens, f) == "$" + rest
      case Ref(name) => Text(tokens, f) == (if f(name).Value? then "{" else "${" + name + "}") + rest
  {
    var first := Become(tokens[0], f);
    RenderConcat(first, BecomeAll(tokens[1..], f));
    if tokens[0].Ref? && f(tokens[0].name).Value? {
      RenderLits(f(tokens[0].name).value);
    } else {
      assert first == [first[0]];
      assert RenderAll(first) == Render(first[0]) + "";
    }
  }

  /**
   The dollars the first pass writes: one for each first token that stands for one, and one more if a
   reference it leaves comes next. Then comes a brace, if what comes next is a reference or a brace.
   */
  lemma {:induction false} TextLeads(tokens: seq<Token>, f: Resolver, full: Resolver)
    requires Telling(f, full)
    ensures var d, t := LeadingDollars(tokens), Text(tokens, f);
      && d <= |tokens|
      && DollarsIn(t) == d + (if d < |tokens| && Left(tokens[d], f) then 1 else 0)
      && (OpensBrace(t) <==> d < |tokens| && (tokens[d].Ref? || tokens[d] == Lit('{')))
  {
    hide Text, Telling, DollarsIn, OpensBrace;
    if tokens == [] {
      NoText(f);
    } else {
      TextStep(tokens, f, full);
      var rest := Text(tokens[1..], f);
      if Dollar(tokens[0]) {
        TextLeads(tokens[1..], f, full);
        LeadingMore(rest);
      } else if Left(tokens[0], f) {
        var more := tokens[0].name + "}" + rest;
        assert Text(tokens, f) == "$" + (['{'] + more);
        LeadingMore(['{'] + more);
        LeadingNone('{', more);
      } else if tokens[0].Ref? {
        LeadingNone('{', rest);
      } else {
        LeadingNone(tokens[0].c, rest);
      }
    }
  }

  /** A reference the first pass leaves. */
  ghost predicate Left(t: Token, f: Resolver) { t.Ref? && !f(t.name).Value? }

  lemma NoText(f: Resolver)
    ensures Text([], f) == "" && DollarsIn("") == 0 && !OpensBrace("")
  {
  }

  // ----- the difference

  lemma PrependDiffers(b: string, x: Outcome, y: Outcome)
    requires x != y
    ensures Prepend(b, x) != Prepend(b, y)
  {
    if x.Ok? && y.Ok? {
      assert (b + x.value)[|b|..] == x.value && (b + y.value)[|b|..] == y.value;
    }
  }

  /** At a harmful escape the number of dollars differs, or what follows the one there is. */
  lemma DiffersHere(tokens: seq<Token>, f: Resolver, full: Resolver)
    requires Telling(f, full) && AllKnown(tokens, full)
    requires |tokens| > 1 && tokens[0] == Escape && !Follower(tokens[1])
    ensures Mapped(Text(tokens, f), full) != Run(tokens, None, full)
  {
    var text, d := Text(tokens, f), LeadingDollars(tokens);
    var again := Mapped(text, full);
    OnceLeads(tokens, f, full);
    TextLeads(tokens, f, full);
    if again.Ok? {
      hide Mapped, Text;
      AgainLeads(text, f, full);
      assert LeadingDollars(tokens) == 1 + LeadingDollars(tokens[1..]);
      if d == 1 && Left(tokens[1], f) {
        LeftReference(tokens, f, full);
      }
    }
  }

  /** An escape before a reference the first pass leaves: it takes the reference's dollar. */
  lemma LeftReference(tokens: seq<Token>, f: Resolver, full: Resolver)
    requires Telling(f, full) && AllKnown(tokens, full)
    requires |tokens| > 1 && tokens[0] == Escape && Left(tokens[1], f)
    ensures Mapped(Text(tokens, f), full) != Run(tokens, None, full)
  {
    hide Text, Run, Telling, AllKnown, Mapped;
    var name, more := tokens[1].name, tokens[2..];
    var tail := name + "}" + Text(more, f);
    LeftText(tokens, f, full);
    LeftOnce(tokens, f, full);
    PairBeforeBrace(tail, full);
  }

  lemma LeftText(tokens: seq<Token>, f: Resolver, full: Resolver)
    requires Telling(f, full) && |tokens| > 1 && tokens[0] == Escape && Left(tokens[1], f)
    ensures Text(tokens, f) == "$$" + (['{'] + (tokens[1].name + "}" + Text(tokens[2..], f)))
  {
    hide Text, Telling;
    var rest := tokens[1..];
    assert rest[1..] == tokens[2..];
    TextStep(tokens, f, full);
    TextStep(rest, f, full);
    var name, t := tokens[1].name, Text(tokens[2..], f);
    assert "$" + (("${" + name + "}") + t) == "$$" + (['{'] + (name + "}" + t));
  }

  lemma PairBeforeBrace(tail: string, full: Resolver)
    ensures var again := Mapped("$$" + (['{'] + tail), full); again.Ok? ==> |again.value| > 1 && again.value[1] == '{'
  {
    hide Mapped;
    var s := "$$" + (['{'] + tail);
    MappedStep(s, full);
    assert s[2..] == ['{'] + tail;
    MappedStep(s[2..], full);
  }

  /** Expanded once: the dollar, and a value that does not open with a brace. */
  lemma LeftOnce(tokens: seq<Token>, f: Resolver, full: Resolver)
    requires Telling(f, full) && AllKnown(tokens, full)
    requires |tokens| > 1 && tokens[0] == Escape && Left(tokens[1], f)
    ensures var once := Run(tokens, None, full); once.Ok? && |once.value| > 1 && once.value[1] != '{'
  {
    KnownTail(tokens, full);
    var rest := tokens[1..];
    KnownTail(rest, full);
    OnceLeads(rest[1..], f, full);
    var v, after := full(rest[0].name).value, Run(rest[1..], None, full).value;
    assert Visible(v) && v[..1] != "{" && v[..1] == [v[0]];
    assert Run(rest, None, full) == Ok(v + after);
    assert Run(tokens, None, full) == Ok("$" + (v + after));
    assert ("$" + (v + after))[1] == v[0];
  }

  lemma {:induction false} Differs(tokens: seq<Token>, f: Resolver, full: Resolver)
    requires Telling(f, full) && AllKnown(tokens, full) && LoneDollars(tokens) && !HarmlessEscapes(tokens)
    ensures Mapped(Text(tokens, f), full) != Run(tokens, None, full)
  {
    if tokens[0] == Escape && !Follower(tokens[1]) {
      DiffersHere(tokens, f, full);
    } else {
      KnownTail(tokens, full);
      Differs(tokens[1..], f, full);
      InStep(tokens, f, full);
    }
  }

  /** Up to the harmful escape the second scan reads the tokens of the first. */
  lemma InStep(tokens: seq<Token>, f: Resolver, full: Resolver)
    requires Telling(f, full) && AllKnown(tokens, full) && |tokens| > 1
    requires Dollar(tokens[0]) ==> Follower(tokens[1])
    requires Mapped(Text(tokens[1..], f), full) != Run(tokens[1..], None, full)
    ensures Mapped(Text(tokens, f), full) != Run(tokens, None, full)
  {
    var rest, after := Text(tokens[1..], f), Run(tokens[1..], None, full);
    KnownTail(tokens, full);
    TextStep(tokens, f, full);
    if Dollar(tokens[0]) { TextStep(tokens[1..], f, full); }
    var b := Output(tokens[0], full).value;
    assert Run(tokens, None, full) == Prepend(b, after);
    hide Text, Mapped, Run;
    PrependDiffers(b, Mapped(rest, full), after);
    if Left(tokens[0], f) {
      ReadsReference(tokens[0].name, rest, full);
    } else {
      var c := Text(tokens, f)[0];
      assert Text(tokens, f) == [c] + rest && b == [c];
      MappedStep([c] + rest, full);
      assert ([c] + rest)[1..] == rest;
    }
  }

  lemma ReadsReference(name: string, rest: string, full: Resolver)
    requires '}' !in name && full(name).Value?
    ensures Mapped("${" + name + "}" + rest, full) == Prepend(full(name).value, Mapped(rest, full))
  {
    var s := "${" + name + "}" + rest;
    TokenizeRef(name, rest);
    assert Tokenize(s).tokens[1..] == Tokenize(rest).tokens;
  }

  // ----- the context that tells

  function Everywhere(names: set<string>): map<string, Addr> { map n | n in names :: Addr("a", 1) }

  /** Every address is `a:1`, every secret an open brace, every password `a`. */
  function TellingContext(deps: set<string>, services: set<string>): Context {
    Context("a", "a", 1, Everywhere(deps), Everywhere(services), Secrets(Some(_ => Some("{")), Some(_ => Some("a"))))
  }

  lemma ContextTells(deps: set<string>, services: set<string>)
    ensures var c := TellingContext(deps, services);
      Telling(ref => SecretRef({}, c.secrets, ref), ref => Resolve(c, ref)) && DollarFree(c.secrets)
  {
    var c := TellingContext(deps, services);
    forall ref
      ensures var f, r := SecretRef({}, c.secrets, ref), Resolve(c, ref);
        && !f.Fail? && !r.Leave? && (f.Value? ==> f.value == "{" && r == f) && (r.Value? ==> Visible(r.value))
        && (r.Value? && !f.Value? ==> r.value[..1] != "{")
    {
      ResolvesTo(c, deps, services, ref);
      if SecretRef({}, c.secrets, ref).Value? { SecretRefAgrees(c, {}, ref); }
    }
  }

  lemma ResolvesTo(c: Context, deps: set<string>, services: set<string>, ref: string)
    requires c == TellingContext(deps, services)
    ensures var r := Resolve(c, ref);
      && !r.Leave? && (r.Value? ==> r.value == "a" || r.value == "1" || r.value == "{")
      && (r.Value? && r.value == "{" ==> SecretRef({}, c.secrets, ref).Value?)
  {
    assert Itoa(1) == "1";
    hide Itoa, VarName, IndexOf;
  }

  // ----- the condition is exact

  lemma {:induction false} TokensStandAlone(s: string)
    ensures LoneDollars(Tokenize(s).tokens)
    decreases |s|
  {
    hide Tokenize;
    var all := Tokenize(s).tokens;
    if all != [] {
      var rest := FirstAndRest(s);
      var r := Tokenize(rest).tokens;
      assert all[1..] == r;
      TokensStandAlone(rest);
      if r != [] && all[0] == Lit('$') {
        TokensOfSome(rest);
        FirstToken(rest);
      }
    }
  }

  /** In an accepted text every reference is known and ends. */
  lemma {:induction false} AcceptedIsKnown(tokens: seq<Token>, broken: Option<string>, v: Resolver, full: Resolver)
    requires Run(tokens, broken, v).Ok? && CleanNames(tokens)
    requires forall ref :: !v(ref).Leave? && (v(ref).Value? ==> full(ref).Value?)
    ensures broken.None? && AllKnown(tokens, full)
  {
    if tokens != [] {
      assert forall t :: t in tokens[1..] ==> t in tokens;
      AcceptedIsKnown(tokens[1..], broken, v, full);
      assert tokens == [tokens[0]] + tokens[1..];
    }
  }

  ghost predicate SameInTwo(s: string, declared: set<string>, c: Context) {
    ExpandString(ExpandSecretsOnly(s, declared, c.secrets), c) == ExpandString(s, c)
  }

  /**
   Of a text that validation accepts: expanding its secrets first and the rest later is expanding it
   once, in every context that declares its names with dollar-free secrets, if and only if every
   escape is at its end or before a byte that is neither `$` nor `{`.
   */
  lemma TwoPassesAreOneIff(s: string, app: string, deps: set<string>, services: set<string>)
    requires ExpandString(s, ValidationContext(app, deps, services)).Ok?
    ensures (forall declared, c :: Declares(c, deps, services) && declared <= c.deps.Keys && DollarFree(c.secrets) ==>
               SameInTwo(s, declared, c))
            <==> HarmlessEscapes(Tokenize(s).tokens)
  {
    hide ExpandString, ExpandSecretsOnly, HarmlessEscapes, DollarFree;
    if HarmlessEscapes(Tokenize(s).tokens) {
      forall declared, c | Declares(c, deps, services) && declared <= c.deps.Keys && DollarFree(c.secrets)
        ensures SameInTwo(s, declared, c)
      {
        TwoPassesAreOne(s, declared, c);
      }
    } else {
      var c := TellingContext(deps, services);
      ToldApart(s, app, deps, services);
      ContextTells(deps, services);
      assert Declares(c, deps, services) && {} <= c.deps.Keys && !SameInTwo(s, {}, c);
    }
  }

  lemma ToldApart(s: string, app: string, deps: set<string>, services: set<string>)
    requires ExpandString(s, ValidationContext(app, deps, services)).Ok? && !HarmlessEscapes(Tokenize(s).tokens)
    ensures !SameInTwo(s, {}, TellingContext(deps, services))
  {
    var c := TellingContext(deps, services);
    var v: Resolver := ref => Resolve(ValidationContext(app, deps, services), ref);
    var full: Resolver := ref => Resolve(c, ref);
    var f: Resolver := ref => SecretRef({}, c.secrets, ref);
    var tokens := Tokenize(s).tokens;
    ContextTells(deps, services);
    forall ref ensures !v(ref).Leave? && (v(ref).Value? ==> full(ref).Value?) {
      ResolveAgrees(app, deps, services, c, ref);
      SecretsNeverMissing(c, ref);
    }
    TokensAreClean(s);
    TokensStandAlone(s);
    AcceptedIsKnown(tokens, Tokenize(s).broken, v, full);
    assert Gentle(f) by { GentleSecrets({}, c.secrets); }
    PassRenders(tokens, f);
    assert ExpandSecretsOnly(s, {}, c.secrets) == Text(tokens, f);
    hide Telling, AllKnown, LoneDollars, HarmlessEscapes, Run, Text, Tokenize;
    Differs(tokens, f, full);
  }
}
