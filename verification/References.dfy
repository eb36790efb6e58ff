/** What each reference of the expander stands for. */
module References {
  import opened Edge
  import opened Expand

  datatype Reference =
    | OwnPort | AppName | EnvName
    | DepHost(name: string) | DepPort(name: string) | DepPassword(name: string)
    | ServiceHost(name: string) | ServicePort(name: string) | Secret(name: string)

  function Dotted(prefix: string, name: string, field: string): string { prefix + (name + ("." + field)) }

  function Spelled(r: Reference): string {
    match r
    case OwnPort => "port"
    case AppName => "app.name"
    case EnvName => "env.name"
    case DepHost(n) => Dotted("deps.", n, "host")
    case DepPort(n) => Dotted("deps.", n, "port")
    case DepPassword(n) => Dotted("deps.", n, "password")
    case ServiceHost(n) => Dotted("services.", n, "host")
    case ServicePort(n) => Dotted("services.", n, "port")
    case Secret(n) => "secrets." + n
  }

  /** The name of a dependency or a service has no dot, and that of a secret is a variable's. */
  ghost predicate Nameable(r: Reference) {
    match r
    case OwnPort => true
    case AppName => true
    case EnvName => true
    case Secret(n) => IsVariable(n)
    case _ => '.' !in r.name
  }

  /** A letter or an underscore, and then letters, underscores and digits. */
  ghost predicate IsVariable(n: string) {
    && n != "" && !('0' <= n[0] <= '9')
    && forall c :: c in n ==> 'A' <= c <= 'Z' || 'a' <= c <= 'z' || c == '_' || '0' <= c <= '9'
  }

  lemma VariableIff(n: string)
    ensures VarName(n) <==> IsVariable(n)
  {
    if VarName(n) {
      forall c | c in n ensures 'A' <= c <= 'Z' || 'a' <= c <= 'z' || c == '_' || '0' <= c <= '9' {
        var i :| 0 <= i < |n| && n[i] == c;
      }
    }
    if IsVariable(n) {
      forall i | 0 <= i < |n| ensures Letter(n[i]) || '0' <= n[i] <= '9' { assert n[i] in n; }
      assert n[0] in n;
    }
  }

  /** What it stands for in a context: an address, a port, a secret; without a vault, nothing. */
  ghost function Meaning(r: Reference, c: Context): Found {
    var unknown := Fail(UnknownReference(Spelled(r)));
    match r
    case OwnPort => Value(Itoa(c.port))
    case AppName => Value(c.app)
    case EnvName => Value(c.env)
    case DepHost(n) => if n in c.deps then Value(c.deps[n].host) else unknown
    case DepPort(n) => if n in c.deps then Value(Itoa(c.deps[n].port)) else unknown
    case ServiceHost(n) => if n in c.services then Value(c.services[n].host) else unknown
    case ServicePort(n) => if n in c.services then Value(Itoa(c.services[n].port)) else unknown
    case DepPassword(n) =>
      if n !in c.deps then unknown
      else if c.secrets.password.None? then Value("")
      else if c.secrets.password.value(n).None? then Fail(NoPassword(n)) else Value(c.secrets.password.value(n).value)
    case Secret(n) =>
      if c.secrets.lookup.None? then Value("")
      else if c.secrets.lookup.value(n).None? then Fail(UnknownSecret(n)) else Value(c.secrets.lookup.value(n).value)
  }

  lemma {:induction false} IndexOfFirst(s: string, c: char, rest: string)
    requires c !in s
    ensures IndexOf(s + [c] + rest, c) == Some(|s|)
  {
    if s != "" {
      IndexOfFirst(s[1..], c, rest);
      assert (s + [c] + rest)[1..] == s[1..] + [c] + rest;
    }
  }

  lemma CutsName(n: string, field: string)
    requires '.' !in n
    ensures CutDot(n + ("." + field)) == Some((n, field))
  {
    IndexOfFirst(n, '.', field);
    var s := n + ("." + field);
    assert s == n + ['.'] + field;
    assert s[..|n|] == n && s[|n| + 1..] == field;
  }

  lemma Prefixed(prefix: string, s: string)
    ensures CutPrefix(prefix + s, prefix) == Some(s)
  {
    assert (prefix + s)[|prefix|..] == s && prefix <= prefix + s;
  }

  lemma ShortPrefix(ref: string, prefix: string, i: nat)
    requires i < |ref| && i < |prefix| && ref[i] != prefix[i]
    ensures CutPrefix(ref, prefix).None?
  {
  }

  lemma FieldsDiffer()
    ensures "host" != "port" && "host" != "password" && "port" != "password"
  {
    assert "host"[0] != "port"[0] && "host"[0] != "password"[0] && |"port"| != |"password"|;
  }

  /** The resolver gives every reference its meaning. */
  lemma ReferenceResolves(r: Reference, c: Context)
    requires Nameable(r)
    ensures Resolve(c, Spelled(r)) == Meaning(r, c)
  {
    hide Itoa, VarName, IndexOf, CutDot, CutPrefix, Dotted;
    match r
    case OwnPort =>
    case AppName => FirstDiffers("app.name", "port");
    case EnvName =>
      FirstDiffers("env.name", "port");
      FirstDiffers("env.name", "app.name");
    case Secret(n) =>
      VariableIff(n);
      SecretResolves(n, c);
    case DepHost(n) => DepResolves(n, c);
    case DepPort(n) => DepResolves(n, c);
    case DepPassword(n) => DepResolves(n, c);
    case ServiceHost(n) => ServiceResolves(n, c);
    case ServicePort(n) => ServiceResolves(n, c);
  }

  lemma FirstDiffers(s: string, t: string)
    requires s != "" && t != "" && s[0] != t[0]
    ensures s != t
  {
  }

  lemma SecretResolves(n: string, c: Context)
    requires VarName(n)
    ensures Resolve(c, "secrets." + n) == Meaning(Secret(n), c)
  {
    hide Itoa, VarName, IndexOf, CutDot;
    var ref := "secrets." + n;
    Prefixed("secrets.", n);
    assert ref[0] == 's';
    FirstDiffers(ref, "port");
    FirstDiffers(ref, "app.name");
    FirstDiffers(ref, "env.name");
  }

  lemma AddrResolves(addrs: map<string, Addr>, n: string, field: string)
    requires '.' !in n
    ensures LookupAddr(addrs, n + ("." + field)) ==
      if n !in addrs then Leave
      else if field == "host" then Value(addrs[n].host)
      else if field == "port" then Value(Itoa(addrs[n].port)) else Leave
  {
    CutsName(n, field);
    hide Itoa, IndexOf, CutDot;
    FieldsDiffer();
  }

  /** A dotted reference is none of the plain ones, and is looked up by its prefix. */
  lemma DottedLookup(n: string, field: string, c: Context)
    ensures Lookup(c, Dotted("deps.", n, field)) == LookupDep(c, n + ("." + field))
    ensures Lookup(c, Dotted("services.", n, field)) == LookupAddr(c.services, n + ("." + field))
  {
    var rest := n + ("." + field);
    var dep, svc := "deps." + rest, "services." + rest;
    Prefixed("deps.", rest);
    Prefixed("services.", rest);
    assert dep[0] == 'd' && svc[0] == 's' && svc[2] == 'r' && "secrets."[2] == 'c';
    ShortPrefix(dep, "secrets.", 0);
    ShortPrefix(svc, "secrets.", 2);
    ShortPrefix(svc, "deps.", 0);
    hide Itoa, VarName, IndexOf, CutDot, CutPrefix, LookupDep, LookupAddr, LookupSecret;
    NotPlain(dep);
    NotPlain(svc);
  }

  lemma NotPlain(ref: string)
    requires ref != "" && (ref[0] == 'd' || ref[0] == 's')
    ensures ref != "port" && ref != "app.name" && ref != "env.name"
  {
  }

  lemma DepLookup(n: string, field: string, c: Context)
    requires '.' !in n
    ensures LookupDep(c, n + ("." + field))
         == if field == "password" then LookupPassword(c, n) else LookupAddr(c.deps, n + ("." + field))
  {
    CutsName(n, field);
    hide CutDot, LookupAddr, LookupPassword;
  }

  lemma DepResolves(n: string, c: Context)
    requires '.' !in n
    ensures Resolve(c, Spelled(DepHost(n))) == Meaning(DepHost(n), c)
    ensures Resolve(c, Spelled(DepPort(n))) == Meaning(DepPort(n), c)
    ensures Resolve(c, Spelled(DepPassword(n))) == Meaning(DepPassword(n), c)
  {
    FieldsDiffer();
    hide Itoa, LookupAddr, Lookup, LookupDep, Dotted;
    DottedLookup(n, "host", c);
    DepLookup(n, "host", c);
    AddrResolves(c.deps, n, "host");
    DottedLookup(n, "port", c);
    DepLookup(n, "port", c);
    AddrResolves(c.deps, n, "port");
    DottedLookup(n, "password", c);
    DepLookup(n, "password", c);
  }

  lemma ServiceResolves(n: string, c: Context)
    requires '.' !in n
    ensures Resolve(c, Spelled(ServiceHost(n))) == Meaning(ServiceHost(n), c)
    ensures Resolve(c, Spelled(ServicePort(n))) == Meaning(ServicePort(n), c)
  {
    FieldsDiffer();
    hide Itoa, LookupAddr, Lookup, LookupDep, Dotted;
    DottedLookup(n, "host", c);
    AddrResolves(c.services, n, "host");
    DottedLookup(n, "port", c);
    AddrResolves(c.services, n, "port");
  }

  // ----- in a text

  /** Text before a reference is copied, the reference replaced by what the resolver gives, the rest copied. */
  lemma {:induction false} InText(a: string, ref: string, b: string, f: Resolver)
    requires '$' !in a && '$' !in b && '}' !in ref
    ensures Mapped(a + ("${" + ref + "}" + b), f) ==
      match f(ref)
      case Value(v) => Ok(a + (v + b))
      case Leave => Ok(a + ("${" + ref + "}" + b))
      case Fail(e) => Err(e)
  {
    var t := "${" + ref + "}" + b;
    if a == "" {
      assert a + t == t;
      TokenizeRef(ref, b);
      NoDollarIsItself(b, f);
      assert Tokenize(t).tokens[1..] == Tokenize(b).tokens;
      match f(ref)
      case Value(v) => assert a + (v + b) == v + b;
      case Leave => assert a + t == t;
      case Fail(e) =>
    } else {
      InText(a[1..], ref, b, f);
      assert (a + t)[1..] == a[1..] + t && a == [a[0]] + a[1..];
      MappedStep(a + t, f);
    }
  }

  /**
   Every reference, in every context and with any text around it that has no dollar of its own, is
   replaced by what it stands for; where it stands for nothing the expansion fails and says so.
   */
  lemma ReferenceExpands(a: string, r: Reference, b: string, c: Context)
    requires '$' !in a && '$' !in b && Nameable(r) && '}' !in Spelled(r)
    ensures ExpandString(a + ("${" + Spelled(r) + "}" + b), c) ==
      match Meaning(r, c)
      case Fail(e) => Err(e)
      case Value(v) => Ok(a + (v + b))
  {
    hide Resolve, Mapped, Meaning;
    ReferenceResolves(r, c);
    MeansSomething(r, c);
    InText(a, Spelled(r), b, ref => Resolve(c, ref));
  }

  lemma MeansSomething(r: Reference, c: Context)
    ensures !Meaning(r, c).Leave?
  {
  }

  /** Nothing else is a reference: whatever resolves is one of these. */
  lemma OnlyReferences(ref: string, c: Context) returns (r: Reference)
    requires Resolve(c, ref) != Fail(UnknownReference(ref))
    ensures Nameable(r) && Spelled(r) == ref
  {
    hide Itoa, VarName, LookupDep, LookupAddr;
    if ref == "port" {
      r := OwnPort;
    } else if ref == "app.name" {
      r := AppName;
    } else if ref == "env.name" {
      r := EnvName;
    } else if CutPrefix(ref, "secrets.").Some? {
      r := Secret(CutPrefix(ref, "secrets.").value);
      VariableIff(r.name);
      Uncut(ref, "secrets.");
    } else if CutPrefix(ref, "deps.").Some? {
      Uncut(ref, "deps.");
      r := DepParts(CutPrefix(ref, "deps.").value, c);
    } else {
      Uncut(ref, "services.");
      r := ServiceParts(CutPrefix(ref, "services.").value, c);
    }
  }

  lemma Uncut(ref: string, prefix: string)
    requires CutPrefix(ref, prefix).Some?
    ensures ref == prefix + CutPrefix(ref, prefix).value
  {
  }

  lemma DepParts(rest: string, c: Context) returns (r: Reference)
    requires !LookupDep(c, rest).Leave?
    ensures Nameable(r) && Spelled(r) == "deps." + rest
  {
    hide Itoa, IndexOf;
    var name, field := Parts(rest);
    r := if field == "host" then DepHost(name) else if field == "port" then DepPort(name) else DepPassword(name);
  }

  lemma ServiceParts(rest: string, c: Context) returns (r: Reference)
    requires !LookupAddr(c.services, rest).Leave?
    ensures Nameable(r) && Spelled(r) == "services." + rest
  {
    hide Itoa, IndexOf;
    var name, field := Parts(rest);
    r := if field == "host" then ServiceHost(name) else ServicePort(name);
  }

  lemma Parts(s: string) returns (name: string, field: string)
    requires CutDot(s).Some?
    ensures CutDot(s) == Some((name, field)) && '.' !in name && s == name + ("." + field)
  {
    var i := IndexOf(s, '.').value;
    name, field := s[..i], s[i + 1..];
    assert s == s[..i] + ([s[i]] + s[i + 1..]);
  }

  // ----- the secrets-only pass

  /** What the secrets-only pass fills in: a secret that is set, and the password of a declared dependency that is. */
  ghost function FilledIn(r: Reference, declared: set<string>, sec: Secrets): Option<string> {
    match r
    case Secret(n) => if sec.lookup.None? then None else sec.lookup.value(n)
    case DepPassword(n) => if n !in declared || sec.password.None? then None else sec.password.value(n)
    case _ => None
  }

  lemma FillsIn(r: Reference, declared: set<string>, sec: Secrets)
    requires Nameable(r)
    ensures SecretRef(declared, sec, Spelled(r)) == Maybe(FilledIn(r, declared, sec))
  {
    FieldsDiffer();
    hide VarName, IndexOf, CutDot, CutPrefix;
    var ref := Spelled(r);
    match r
    case Secret(n) =>
      VariableIff(n);
      Prefixed("secrets.", n);
    case DepHost(n) => NotASecret(n, "host", ref);
    case DepPort(n) => NotASecret(n, "port", ref);
    case DepPassword(n) => NotASecret(n, "password", ref);
    case _ =>
      NeitherPrefix(ref, r);
  }

  lemma NotASecret(n: string, field: string, ref: string)
    requires '.' !in n && ref == Dotted("deps.", n, field)
    ensures CutPrefix(ref, "secrets.").None? && CutPrefix(ref, "deps.") == Some(n + ("." + field))
    ensures CutDot(n + ("." + field)) == Some((n, field))
  {
    CutsName(n, field);
    Prefixed("deps.", n + ("." + field));
    assert ref[0] == 'd';
    ShortPrefix(ref, "secrets.", 0);
  }

  lemma NeitherPrefix(ref: string, r: Reference)
    requires ref == Spelled(r) && (r.OwnPort? || r.AppName? || r.EnvName? || r.ServiceHost? || r.ServicePort?)
    ensures CutPrefix(ref, "secrets.").None? && CutPrefix(ref, "deps.").None?
  {
    if r.ServiceHost? || r.ServicePort? {
      assert ref[0] == 's' && ref[2] == 'r' && "secrets."[2] == 'c';
      ShortPrefix(ref, "secrets.", 2);
    } else {
      ShortPrefix(ref, "secrets.", 0);
    }
    ShortPrefix(ref, "deps.", 0);
  }

  /** The secrets-only pass fills in exactly those and leaves every other reference as it is written. */
  lemma SecretFillsIn(a: string, r: Reference, b: string, declared: set<string>, sec: Secrets)
    requires '$' !in a && '$' !in b && Nameable(r) && '}' !in Spelled(r)
    ensures ExpandSecretsOnly(a + ("${" + Spelled(r) + "}" + b), declared, sec) ==
      match FilledIn(r, declared, sec)
      case None => a + ("${" + Spelled(r) + "}" + b)
      case Some(v) => a + (v + b)
  {
    hide SecretRef, Mapped;
    FillsIn(r, declared, sec);
    InText(a, Spelled(r), b, ref => SecretRef(declared, sec, ref));
  }

  // ----- ports

  /** The number a string of digits is. */
  ghost function Read(s: string): int {
    if s == "" then 0 else 10 * Read(s[..|s| - 1]) + (s[|s| - 1] as int - '0' as int)
  }

  ghost predicate AllDigits(s: string) { forall i :: 0 <= i < |s| ==> '0' <= s[i] <= '9' }

  lemma {:induction false} DigitsRead(n: nat)
    ensures var s := Digits(n); s != "" && AllDigits(s) && Read(s) == n && (n > 0 ==> s[0] != '0')
  {
    if n < 10 {
      var s := Digits(n);
      assert s[..0] == "" && s[0] == "0123456789"[n];
      assert "0123456789"[n] as int == '0' as int + n;
    } else {
      DigitsRead(n / 10);
      var s := Digits(n);
      assert s[..|s| - 1] == Digits(n / 10) && s[|s| - 1] == "0123456789"[n % 10];
      assert "0123456789"[n % 10] as int == '0' as int + n % 10;
    }
  }

  /** A port as it is written reads back as its number, in digits and without leading zeros. */
  lemma ItoaReads(n: int)
    ensures n >= 0 ==> AllDigits(Itoa(n)) && Read(Itoa(n)) == n && (n > 0 ==> Itoa(n)[0] != '0')
    ensures n < 0 ==> Itoa(n) != "" && Itoa(n)[0] == '-' && AllDigits(Itoa(n)[1..]) && Read(Itoa(n)[1..]) == -n
  {
    if n >= 0 {
      DigitsRead(n);
    } else {
      DigitsRead(-n);
      assert Itoa(n)[1..] == Digits(-n);
    }
  }
}
