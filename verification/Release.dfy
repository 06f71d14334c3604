/** What a release publishes, resolved from the artifacts a build produced. */
module Release {
  import opened Types

  datatype Kind = Agent | Hub | Desktop

  datatype Declared = Declared(bundles: Option<seq<string>>, hub: Option<seq<string>>, desktop: Option<seq<string>>)

  datatype Target = Target(
    triple: string, os: string, enabled: bool, agent: bool, hub: bool, desktop: bool, artifacts: Option<Declared>)

  datatype Asset = Asset(
    kind: Kind, triple: string, artifact: string, file: string, asset: string, members: Option<seq<string>>)

  datatype Candidate = Candidate(file: string, asset: string, members: Option<seq<string>>)

  datatype Error =
    | UnexpectedArtifact(name: string)
    | MissingArtifact(name: string)
    | WrongFiles(artifact: string)
    | Bracket(artifact: string, index: nat)
    | NothingDeclared(artifact: string)
    | NoMatch(artifact: string, index: nat)
    | SeveralMatches(artifact: string, index: nat)
    | ClaimedTwice(artifact: string, asset: string)
    | Undeclared(artifact: string, file: string)
    | SameName(asset: string)
    | ChecksumsName(asset: string)

  const HUB_ADDONS: seq<string> := ["lasterm_hub_lock.node", "lasterm_tls_identity.node"]

  function ChecksumsFile(version: string): string { "SHA256SUMS-" + version + ".txt" }

  function Extension(t: Target): string { if t.os == "windows" then ".exe" else "" }

  function ExecutableName(base: string, t: Target): string { if t.os == "windows" then base + ".exe" else base }

  /** An executable keeps its extension under its public name. */
  lemma SameExtension(base: string, t: Target)
    ensures ExecutableName(base, t) == base + Extension(t)
    ensures Extension(t) == ".exe" <==> t.os == "windows"
  {
  }

  // ----- Patterns -----

  /** `*` matches any run of characters and `?` exactly one. */
  predicate Matches(pattern: string, s: string)
    decreases |pattern| + |s|
  {
    if pattern == [] then s == []
    else if pattern[0] == '*' then Matches(pattern[1..], s) || (s != [] && Matches(pattern, s[1..]))
    else s != [] && (pattern[0] == '?' || pattern[0] == s[0]) && Matches(pattern[1..], s[1..])
  }

  /** A star stands for any run of characters. */
  lemma {:induction false} StarMatchesAnyRun(pattern: string, s: string)
    ensures Matches("*" + pattern, s) <==> exists k :: 0 <= k <= |s| && Matches(pattern, s[k..])
  {
    var p := "*" + pattern;
    assert p[1..] == pattern && s[0..] == s;
    if s != [] {
      StarMatchesAnyRun(pattern, s[1..]);
      forall k | 0 <= k < |s| ensures s[1..][k..] == s[k + 1..] { }
      if Matches(p, s[1..]) {
        var k :| 0 <= k <= |s[1..]| && Matches(pattern, s[1..][k..]);
        assert Matches(pattern, s[k + 1..]);
      }
      if k :| 0 < k <= |s| && Matches(pattern, s[k..]) {
        assert s[1..][k - 1..] == s[k..];
      }
    }
  }

  /** Without wildcards a pattern matches itself and nothing else. */
  lemma {:induction false} LiteralMatchesItself(pattern: string, s: string)
    requires '*' !in pattern && '?' !in pattern
    ensures Matches(pattern, s) <==> s == pattern
  {
    if pattern != [] && s != [] {
      LiteralMatchesItself(pattern[1..], s[1..]);
      assert pattern == [pattern[0]] + pattern[1..] && s == [s[0]] + s[1..];
    }
  }

  /** A question mark stands for any one character. */
  lemma QuestionMatchesOne(pattern: string, s: string)
    ensures Matches("?" + pattern, s) <==> s != [] && Matches(pattern, s[1..])
  {
    var p := "?" + pattern;
    assert p[0] == '?' && p[1..] == pattern;
  }

  /** Any other character stands for itself. */
  lemma CharacterMatchesItself(c: char, pattern: string, s: string)
    requires c != '*' && c != '?'
    ensures Matches([c] + pattern, s) <==> s != [] && s[0] == c && Matches(pattern, s[1..])
  {
    var p := [c] + pattern;
    assert p[0] == c && p[1..] == pattern;
  }

  /** What the patterns' documentation says, of any way to match them. */
  ghost predicate FollowsRules(m: (string, string) -> bool)
  {
    (forall s: string :: m([], s) <==> s == []) &&
    (forall p: string, s: string :: StarRule(m, p, s)) &&
    (forall c: char, p: string, s: string :: CharacterRule(m, c, p, s))
  }

  /** A star matches any run of characters. */
  ghost predicate StarRule(m: (string, string) -> bool, p: string, s: string)
  {
    m("*" + p, s) <==> exists k :: 0 <= k <= |s| && m(p, s[k..])
  }

  /** A question mark matches any one character, anything else itself. */
  predicate CharacterRule(m: (string, string) -> bool, c: char, p: string, s: string)
  {
    c == '*' || (m([c] + p, s) <==> s != [] && (c == '?' || s[0] == c) && m(p, s[1..]))
  }

  lemma MatchingFollowsRules()
    ensures FollowsRules((p, s) => Matches(p, s))
  {
    var m := (p, s) => Matches(p, s);
    forall s: string ensures m([], s) <==> s == [] { }
    forall p: string, s: string ensures StarRule(m, p, s) { StarMatchesAnyRun(p, s); }
    forall c: char, p: string, s: string ensures CharacterRule(m, c, p, s) {
      if c == '?' { QuestionMatchesOne(p, s); }
      if c != '?' && c != '*' { CharacterMatchesItself(c, p, s); }
    }
  }

  /** Any way to match that follows the rules is this one. */
  lemma {:induction false} RulesDetermine(m: (string, string) -> bool, p: string, s: string)
    requires FollowsRules(m)
    ensures m(p, s) <==> Matches(p, s)
    decreases |p|
  {
    if p != [] {
      assert p == [p[0]] + p[1..];
      if p[0] == '*' {
        assert StarRule(m, p[1..], s);
        StarMatchesAnyRun(p[1..], s);
        forall k | 0 <= k <= |s| ensures m(p[1..], s[k..]) <==> Matches(p[1..], s[k..]) { RulesDetermine(m, p[1..], s[k..]); }
      } else {
        assert CharacterRule(m, p[0], p[1..], s);
        if s != [] { RulesDetermine(m, p[1..], s[1..]); }
      }
    }
  }

  predicate HasBracket(pattern: string) { '[' in pattern || ']' in pattern }

  const VERSION_MARK: string := "{version}"

  /** Every `{version}` replaced by the version. */
  function WithVersion(pattern: string, version: string): string
  {
    if |pattern| < |VERSION_MARK| then pattern
    else if VERSION_MARK <= pattern then version + WithVersion(pattern[|VERSION_MARK|..], version)
    else [pattern[0]] + WithVersion(pattern[1..], version)
  }

  /** No version mark starts anywhere in the text. */
  ghost predicate NoMark(s: string)
  {
    forall i :: 0 <= i <= |s| ==> !(VERSION_MARK <= s[i..])
  }

  /** A pattern without a mark stays as it is. */
  lemma {:induction false} NoMarkStays(pattern: string, version: string)
    requires NoMark(pattern)
    ensures WithVersion(pattern, version) == pattern
  {
    if |pattern| >= |VERSION_MARK| {
      assert pattern[0..] == pattern;
      NoMarkTail(pattern);
      NoMarkStays(pattern[1..], version);
      assert pattern == [pattern[0]] + pattern[1..];
    }
  }

  lemma NoMarkTail(s: string)
    requires NoMark(s) && s != []
    ensures NoMark(s[1..])
  {
    forall i | 0 <= i <= |s[1..]| ensures !(VERSION_MARK <= s[1..][i..]) { assert s[1..][i..] == s[i + 1..]; }
  }

  lemma SkipsOne(s: string, version: string)
    requires s != [] && !(VERSION_MARK <= s)
    ensures WithVersion(s, version) == [s[0]] + WithVersion(s[1..], version)
  {
    assert s == [s[0]] + s[1..];
  }

  lemma LeadingMark(after: string, version: string)
    ensures WithVersion(VERSION_MARK + after, version) == version + WithVersion(after, version)
  {
    assert (VERSION_MARK + after)[|VERSION_MARK|..] == after;
  }

  /** What is copied character by character up to `n` stands before the rest. */
  lemma {:induction false} CopiesUpTo(f: string -> string, s: string, i: nat, n: nat)
    requires i <= n <= |s| && forall k :: i <= k < n ==> f(s[k..]) == [s[k]] + f(s[k + 1..])
    ensures f(s[i..]) == s[i..n] + f(s[n..])
    decreases n - i
  {
    if i < n {
      CopiesUpTo(f, s, i + 1, n);
      assert s[i..n] == [s[i]] + s[i + 1..n];
    }
  }

  lemma ReplacesFirst(f: string -> string, before: string, mark: string, after: string, version: string)
    requires f(mark + after) == version + f(after)
    requires var s := before + mark + after; forall k :: 0 <= k < |before| ==> f(s[k..]) == [s[k]] + f(s[k + 1..])
    ensures f(before + mark + after) == before + version + f(after)
  {
    var s, n := before + mark + after, |before|;
    CopiesUpTo(f, s, 0, n);
    assert s[0..] == s && s[0..n] == before && s[n..] == mark + after;
  }

  /** The first mark becomes the version, and so on with what follows it. */
  lemma MarkBecomesVersion(before: string, after: string, version: string)
    requires NoMark(before)
    ensures WithVersion(before + VERSION_MARK + after, version) == before + version + WithVersion(after, version)
  {
    var f, s, n := (x: string) => WithVersion(x, version), before + VERSION_MARK + after, |before|;
    forall k | 0 <= k < n ensures f(s[k..]) == [s[k]] + f(s[k + 1..]) { CopiedBefore(before, after, version, k); }
    LeadingMark(after, version);
    ReplacesFirst(f, before, VERSION_MARK, after, version);
  }

  lemma CopiedBefore(before: string, after: string, version: string, k: nat)
    requires NoMark(before) && k < |before|
    ensures var s := before + VERSION_MARK + after;
            WithVersion(s[k..], version) == [s[k]] + WithVersion(s[k + 1..], version)
  {
    var s := before + VERSION_MARK + after;
    assert s[k..] == before[k..] + VERSION_MARK + after;
    forall i | 0 <= i <= |before[k..]| ensures !(VERSION_MARK <= before[k..][i..]) { assert before[k..][i..] == before[k + i..]; }
    MarkIsLater(before[k..], after);
    SkipsOne(s[k..], version);
    assert s[k..][1..] == s[k + 1..];
  }

  /** No mark starts before the first one: only its first character is a brace that opens. */
  lemma MarkIsLater(before: string, after: string)
    requires NoMark(before) && before != []
    ensures !(VERSION_MARK <= before + VERSION_MARK + after)
  {
    var s := before + VERSION_MARK + after;
    assert before[0..] == before;
    assert s[|before|] == '{';
    if |before| >= |VERSION_MARK| {
      assert s[..|VERSION_MARK|] == before[..|VERSION_MARK|];
    } else {
      assert VERSION_MARK[|before|] != '{';
    }
  }

  function AllWithVersion(patterns: seq<string>, version: string): (r: seq<string>)
    ensures |r| == |patterns|
  {
    seq(|patterns|, i requires 0 <= i < |patterns| => WithVersion(patterns[i], version))
  }

  // ----- What is expected -----

  datatype Source = Source(kind: Kind, target: Target)

  function ArtifactName(kind: Kind, t: Target): string
  {
    (match kind case Agent => "agent-" case Hub => "hub-" case Desktop => "desktop-") + t.triple
  }

  predicate Produces(t: Target, kind: Kind)
  {
    t.enabled &&
    match kind
    case Agent => t.agent
    case Hub => t.hub
    case Desktop => t.desktop && t.artifacts.Some? && t.artifacts.value.bundles.Some? && t.artifacts.value.desktop.Some?
  }

  function WithSource(m: map<string, Source>, kind: Kind, t: Target): map<string, Source>
  {
    if Produces(t, kind) then m[ArtifactName(kind, t) := Source(kind, t)] else m
  }

  /** Each expected artifact, from the last target that produces it. */
  function Expected(targets: seq<Target>): map<string, Source>
  {
    if targets == [] then map[]
    else
      var t := targets[|targets| - 1];
      WithSource(WithSource(WithSource(Expected(targets[..|targets| - 1]), Agent, t), Hub, t), Desktop, t)
  }

  /** Some target of `targets` produces the artifact `name`. */
  ghost predicate Produced(targets: seq<Target>, name: string)
  {
    exists t, kind :: t in targets && Produces(t, kind) && ArtifactName(kind, t) == name
  }

  ghost predicate SourceOk(targets: seq<Target>, name: string, s: Source)
  {
    s.target in targets && Produces(s.target, s.kind) && ArtifactName(s.kind, s.target) == name
  }

  lemma WithSources(m: map<string, Source>, t: Target, name: string)
    ensures var r := WithSource(WithSource(WithSource(m, Agent, t), Hub, t), Desktop, t);
            (name in r <==> name in m || exists kind :: Produces(t, kind) && ArtifactName(kind, t) == name) &&
            (name in r ==> (name in m && r[name] == m[name]) ||
                           (r[name].target == t && Produces(t, r[name].kind) && ArtifactName(r[name].kind, t) == name))
  {
    var r := WithSource(WithSource(WithSource(m, Agent, t), Hub, t), Desktop, t);
    if exists kind :: Produces(t, kind) && ArtifactName(kind, t) == name {
      var kind :| Produces(t, kind) && ArtifactName(kind, t) == name;
      assert kind == Agent || kind == Hub || kind == Desktop;
    }
  }

  /** An artifact is expected exactly when an enabled target produces it. */
  lemma {:induction false} ExpectedExactly(targets: seq<Target>, name: string)
    ensures name in Expected(targets) <==> Produced(targets, name)
    ensures name in Expected(targets) ==> SourceOk(targets, name, Expected(targets)[name])
  {
    if targets != [] {
      var n := |targets| - 1;
      var t := targets[n];
      ExpectedExactly(targets[..n], name);
      WithSources(Expected(targets[..n]), t, name);
      if Produced(targets, name) {
        var u, kind :| u in targets && Produces(u, kind) && ArtifactName(kind, u) == name;
        assert u in targets[..n] || u == t;
      }
      if name in Expected(targets) {
        assert SourceOk(targets, name, Expected(targets)[name]);
      }
    }
  }

  /** What a target produces, from its own fields. */
  predicate Makes(t: Target, name: string)
  {
    t.enabled &&
    ((t.agent && name == "agent-" + t.triple) ||
     (t.hub && name == "hub-" + t.triple) ||
     (t.desktop && t.artifacts.Some? && t.artifacts.value.bundles.Some? && t.artifacts.value.desktop.Some? &&
      name == "desktop-" + t.triple))
  }

  /** Only enabled targets' artifacts are expected, and each that its fields ask for. */
  lemma ExpectedFromFields(targets: seq<Target>, name: string)
    ensures name in Expected(targets) <==> exists t :: t in targets && Makes(t, name)
  {
    ExpectedExactly(targets, name);
    forall t | t in targets ensures Makes(t, name) <==> exists kind :: Produces(t, kind) && ArtifactName(kind, t) == name {
      TargetMakes(t, name);
    }
    if exists t :: t in targets && Makes(t, name) {
      var t :| t in targets && Makes(t, name);
      var kind :| Produces(t, kind) && ArtifactName(kind, t) == name;
      assert Produced(targets, name);
    }
  }

  lemma TargetMakes(t: Target, name: string)
    ensures Makes(t, name) <==> exists kind :: Produces(t, kind) && ArtifactName(kind, t) == name
  {
    if Makes(t, name) {
      var kind := if t.agent && name == "agent-" + t.triple then Agent
                  else if t.hub && name == "hub-" + t.triple then Hub else Desktop;
      assert Produces(t, kind) && ArtifactName(kind, t) == name;
    }
  }

  /** No two producers share an artifact name. */
  lemma ArtifactNamesDiffer(k: Kind, t: Target, l: Kind, u: Target)
    requires ArtifactName(k, t) == ArtifactName(l, u)
    ensures k == l && t.triple == u.triple
  {
    var name := ArtifactName(k, t);
    assert name[0] == match k case Agent => 'a' case Hub => 'h' case Desktop => 'd';
    assert name[0] == match l case Agent => 'a' case Hub => 'h' case Desktop => 'd';
    var prefix := match k case Agent => |"agent-"| case Hub => |"hub-"| case Desktop => |"desktop-"|;
    assert name[prefix..] == t.triple && name[prefix..] == u.triple;
  }

  // ----- One artifact's assets -----

  function AssetOf(artifact: string, kind: Kind, triple: string, c: Candidate): Asset
  {
    Asset(kind, triple, artifact, c.file, c.asset, c.members)
  }

  /** `pattern` names candidate `j` and no other. */
  ghost predicate NamesOnly(cs: seq<Candidate>, pattern: string, j: nat)
  {
    j < |cs| && Matches(pattern, cs[j].asset) &&
    forall k :: 0 <= k < |cs| && k != j ==> !Matches(pattern, cs[k].asset)
  }

  ghost predicate Distinct(assets: seq<Asset>)
  {
    forall i, j :: 0 <= i < j < |assets| ==> assets[i].asset != assets[j].asset
  }

  /** `group[i]` is the one candidate `patterns[i]` names. */
  ghost predicate PatternOk(artifact: string, kind: Kind, triple: string, cs: seq<Candidate>, pattern: string, a: Asset)
  {
    exists j: nat :: NamesOnly(cs, pattern, j) && a == AssetOf(artifact, kind, triple, cs[j])
  }

  /** Every pattern names one candidate, no candidate is named twice, and every
      candidate is named. */
  ghost predicate DeclaredOk(
    artifact: string, kind: Kind, triple: string, cs: seq<Candidate>, patterns: seq<string>, group: seq<Asset>)
  {
    patterns != [] && |group| == |patterns| && Distinct(group) &&
    (forall i :: 0 <= i < |patterns| ==> PatternOk(artifact, kind, triple, cs, patterns[i], group[i])) &&
    (forall j: nat :: j < |cs| ==> Named(cs, patterns, j))
  }

  ghost predicate Named(cs: seq<Candidate>, patterns: seq<string>, j: nat)
  {
    exists i :: 0 <= i < |patterns| && NamesOnly(cs, patterns[i], j)
  }

  /** What the source's target declares for it. */
  function DeclaredFor(s: Source): seq<string>
  {
    var declared :=
      if s.target.artifacts.None? then None
      else if s.kind.Hub? then s.target.artifacts.value.hub
      else s.target.artifacts.value.desktop;
    if declared.None? then [] else declared.value
  }

  /** Each kind answers to its own declarations, and to none where there are none. */
  lemma DeclaredForItself(s: Source)
    requires !s.kind.Agent?
    ensures var a := s.target.artifacts;
            var own := if a.None? then None else if s.kind == Desktop then a.value.desktop else a.value.hub;
            DeclaredFor(s) == if own == None then [] else own.value
  {
  }

  function Patterns(s: Source, version: string): seq<string>
  {
    AllWithVersion(DeclaredFor(s), version)
  }

  predicate NoBrackets(patterns: seq<string>)
  {
    forall i :: 0 <= i < |patterns| ==> '[' !in patterns[i] && ']' !in patterns[i]
  }

  function HubFiles(t: Target): seq<string> { [ExecutableName("lasterm-hub", t)] + HUB_ADDONS }

  function HubCandidate(t: Target): Candidate
  {
    var zip := "lasterm-hub-" + t.triple + ".zip";
    Candidate(zip, zip, Some(HubFiles(t)))
  }

  function FileCandidates(files: seq<string>): (r: seq<Candidate>)
    ensures |r| == |files|
  {
    seq(|files|, i requires 0 <= i < |files| => Candidate(files[i], files[i], None))
  }

  /** The assets of one artifact are what its files and declarations call for. */
  ghost predicate ArtifactOk(artifact: string, s: Source, files: seq<string>, version: string, group: seq<Asset>)
  {
    match s.kind
    case Agent =>
      var exe := ExecutableName("lasterm-agent", s.target);
      files == [exe] &&
      group == [Asset(Agent, s.target.triple, artifact, exe,
                      "lasterm-agent-" + s.target.triple + "-" + version + Extension(s.target), None)]
    case Hub =>
      multiset(files) == multiset(HubFiles(s.target)) && NoBrackets(DeclaredFor(s)) &&
      DeclaredOk(artifact, Hub, s.target.triple, [HubCandidate(s.target)], Patterns(s, version), group)
    case Desktop =>
      NoBrackets(DeclaredFor(s)) &&
      DeclaredOk(artifact, Desktop, s.target.triple, FileCandidates(files), Patterns(s, version), group)
  }

  /** The artifact's files and declarations fit each other. */
  ghost predicate Resolvable(artifact: string, s: Source, files: seq<string>, version: string)
  {
    exists group :: ArtifactOk(artifact, s, files, version, group)
  }

  ghost predicate Declarable(
    artifact: string, kind: Kind, triple: string, cs: seq<Candidate>, declared: seq<string>, version: string)
  {
    NoBrackets(declared) &&
    exists group :: DeclaredOk(artifact, kind, triple, cs, AllWithVersion(declared, version), group)
  }

  // ----- Sorting, to compare file lists -----

  predicate Before(a: string, b: string)
  {
    a == [] || (b != [] && (a[0] < b[0] || (a[0] == b[0] && Before(a[1..], b[1..]))))
  }

  function Insert(x: string, s: seq<string>): (r: seq<string>)
    ensures multiset(r) == multiset(s) + multiset{x}
  {
    if s == [] || Before(x, s[0]) then [x] + s
    else
      assert s == [s[0]] + s[1..];
      [s[0]] + Insert(x, s[1..])
  }

  function Sorted(s: seq<string>): (r: seq<string>)
    ensures multiset(r) == multiset(s)
  {
    if s == [] then []
    else
      assert s == [s[0]] + s[1..];
      Insert(s[0], Sorted(s[1..]))
  }

  predicate Ordered(s: seq<string>)
  {
    |s| <= 1 || (Before(s[0], s[1]) && Ordered(s[1..]))
  }

  lemma {:induction false} BeforeOrder(a: string, b: string, c: string)
    ensures Before(a, b) || Before(b, a)
    ensures Before(a, b) && Before(b, a) ==> a == b
    ensures Before(a, b) && Before(b, c) ==> Before(a, c)
  {
    if a != [] && b != [] {
      BeforeOrder(a[1..], b[1..], if c == [] then [] else c[1..]);
      assert a == [a[0]] + a[1..] && b == [b[0]] + b[1..];
    }
  }

  lemma {:induction false} InsertOrders(x: string, s: seq<string>)
    requires Ordered(s)
    ensures Ordered(Insert(x, s))
  {
    if s != [] && !Before(x, s[0]) {
      BeforeOrder(x, s[0], x);
      InsertOrders(x, s[1..]);
      assert Insert(x, s)[1..] == Insert(x, s[1..]);
    } else {
      assert ([x] + s)[1..] == s;
    }
  }

  lemma {:induction false} SortedOrders(s: seq<string>)
    ensures Ordered(Sorted(s))
  {
    if s != [] {
      SortedOrders(s[1..]);
      InsertOrders(s[0], Sorted(s[1..]));
    }
  }

  /** The first of an ordered list comes before all of it. */
  lemma {:induction false} FirstIsBefore(s: seq<string>, x: string)
    requires Ordered(s) && s != [] && x in s
    ensures Before(s[0], x)
  {
    BeforeOrder(x, x, x);
    if x != s[0] {
      assert x in s[1..];
      FirstIsBefore(s[1..], x);
      BeforeOrder(s[0], s[1], x);
    }
  }

  lemma RestOf(s: seq<string>)
    requires s != []
    ensures multiset(s[1..]) == multiset(s) - multiset{s[0]}
  {
    assert s == [s[0]] + s[1..];
  }

  lemma {:induction false} OrderedUnique(s: seq<string>, t: seq<string>)
    requires Ordered(s) && Ordered(t) && multiset(s) == multiset(t)
    ensures s == t
  {
    assert |s| == |multiset(s)| == |t|;
    if s != [] {
      assert s[0] in multiset(t) && t[0] in multiset(s);
      FirstIsBefore(s, t[0]);
      FirstIsBefore(t, s[0]);
      BeforeOrder(s[0], t[0], s[0]);
      assert s == [s[0]] + s[1..] && t == [t[0]] + t[1..];
      RestOf(s);
      RestOf(t);
      OrderedUnique(s[1..], t[1..]);
    }
  }

  /** Sorting compares lists up to order. */
  lemma SortedCompares(s: seq<string>, t: seq<string>)
    ensures Sorted(s) == Sorted(t) <==> multiset(s) == multiset(t)
  {
    if multiset(s) == multiset(t) {
      SortedOrders(s);
      SortedOrders(t);
      OrderedUnique(Sorted(s), Sorted(t));
    }
  }

  // ----- The resolvers -----

  class Resolution {
    var assets: seq<Asset>
    var errors: seq<Error>

    constructor ()
      ensures assets == [] && errors == []
    {
      assets, errors := [], [];
    }
  }

  /** The candidates a pattern matches, by index, in order. */
  function MatchesOf(cs: seq<Candidate>, pattern: string): (r: seq<nat>)
    ensures forall i :: 0 <= i < |r| ==> r[i] < |cs|
  {
    if cs == [] then []
    else
      var n := |cs| - 1;
      if Matches(pattern, cs[n].asset) then MatchesOf(cs[..n], pattern) + [n] else MatchesOf(cs[..n], pattern)
  }

  lemma {:induction false} MatchesOfNone(cs: seq<Candidate>, pattern: string)
    requires MatchesOf(cs, pattern) == []
    ensures forall k :: 0 <= k < |cs| ==> !Matches(pattern, cs[k].asset)
  {
    if cs != [] { MatchesOfNone(cs[..|cs| - 1], pattern); }
  }

  lemma {:induction false} MatchesOfOne(cs: seq<Candidate>, pattern: string, j: nat)
    requires MatchesOf(cs, pattern) == [j]
    ensures NamesOnly(cs, pattern, j)
  {
    var n := |cs| - 1;
    if Matches(pattern, cs[n].asset) {
      assert MatchesOf(cs, pattern)[|MatchesOf(cs[..n], pattern)|] == n;
      assert |MatchesOf(cs[..n], pattern)| == 0;
      MatchesOfNone(cs[..n], pattern);
    } else {
      MatchesOfOne(cs[..n], pattern, j);
    }
  }

  lemma {:induction false} MatchesOfNamed(cs: seq<Candidate>, pattern: string, j: nat)
    requires NamesOnly(cs, pattern, j)
    ensures MatchesOf(cs, pattern) == [j]
  {
    var n := |cs| - 1;
    if j == n {
      if MatchesOf(cs[..n], pattern) != [] { MatchesOfMatch(cs[..n], pattern, 0); }
    } else {
      MatchesOfNamed(cs[..n], pattern, j);
    }
  }

  lemma {:induction false} MatchesOfMatch(cs: seq<Candidate>, pattern: string, i: nat)
    requires i < |MatchesOf(cs, pattern)|
    ensures Matches(pattern, cs[MatchesOf(cs, pattern)[i]].asset)
  {
    if cs != [] && i < |MatchesOf(cs[..|cs| - 1], pattern)| { MatchesOfMatch(cs[..|cs| - 1], pattern, i); }
  }

  /** Brackets are refused rather than half supported. */
  method RefuseBrackets(artifact: string, declared: seq<string>, out: Resolution) returns (refused: bool)
    modifies out`errors
    ensures old(out.errors) <= out.errors && (refused <==> out.errors != old(out.errors))
    ensures refused <==> !NoBrackets(declared)
  {
    refused := false;
    for i := 0 to |declared|
      invariant old(out.errors) <= out.errors && (refused <==> out.errors != old(out.errors))
      invariant refused <==> !forall k :: 0 <= k < i ==> '[' !in declared[k] && ']' !in declared[k]
    {
      if HasBracket(declared[i]) {
        out.errors := out.errors + [Bracket(artifact, i)];
        refused := true;
      }
    }
  }

  /** The assets claimed by the first patterns. */
  ghost predicate Claimed(
    artifact: string, kind: Kind, triple: string, cs: seq<Candidate>, patterns: seq<string>, group: seq<Asset>)
  {
    |group| == |patterns| && Distinct(group) &&
    forall i :: 0 <= i < |patterns| ==> PatternOk(artifact, kind, triple, cs, patterns[i], group[i])
  }

  lemma ClaimedOneMore(
    artifact: string, kind: Kind, triple: string, cs: seq<Candidate>, patterns: seq<string>, group: seq<Asset>, pattern: string, j: nat)
    requires Claimed(artifact, kind, triple, cs, patterns, group) && NamesOnly(cs, pattern, j)
    requires forall i :: 0 <= i < |group| ==> group[i].asset != cs[j].asset
    ensures Claimed(artifact, kind, triple, cs, patterns + [pattern], group + [AssetOf(artifact, kind, triple, cs[j])])
  {
    assert PatternOk(artifact, kind, triple, cs, pattern, AssetOf(artifact, kind, triple, cs[j]));
  }

  /** The one candidate a pattern names, unless it was claimed before. */
  method ClaimOne(artifact: string, index: nat, cs: seq<Candidate>, pattern: string, claimed: map<string, string>, out: Resolution)
    returns (j: Option<nat>)
    modifies out`errors
    ensures old(out.errors) <= out.errors && (j.Some? <==> out.errors == old(out.errors))
    ensures j.Some? ==> NamesOnly(cs, pattern, j.value) && cs[j.value].asset !in claimed
    ensures j.None? ==> forall k: nat :: NamesOnly(cs, pattern, k) ==> cs[k].asset in claimed
  {
    var found := MatchesOf(cs, pattern);
    forall k: nat | NamesOnly(cs, pattern, k) ensures found == [k] { MatchesOfNamed(cs, pattern, k); }
    if found == [] {
      out.errors := out.errors + [NoMatch(artifact, index)];
      return None;
    }
    if |found| > 1 {
      out.errors := out.errors + [SeveralMatches(artifact, index)];
      return None;
    }
    if cs[found[0]].asset in claimed {
      out.errors := out.errors + [ClaimedTwice(artifact, cs[found[0]].asset)];
      return None;
    }
    MatchesOfOne(cs, pattern, found[0]);
    return Some(found[0]);
  }

  ghost predicate Has(group: seq<Asset>, asset: string)
  {
    exists k :: 0 <= k < |group| && group[k].asset == asset
  }

  lemma HasSnoc(group: seq<Asset>, a: Asset)
    ensures forall x :: Has(group + [a], x) <==> Has(group, x) || x == a.asset
  {
    forall x ensures Has(group + [a], x) <==> Has(group, x) || x == a.asset {
      if x == a.asset { assert (group + [a])[|group|].asset == x; }
      if Has(group, x) {
        var k :| 0 <= k < |group| && group[k].asset == x;
        assert (group + [a])[k].asset == x;
      }
    }
  }

  /** If the patterns can be claimed for at all, the next claim is the only one. */
  lemma NextClaim(
    artifact: string, kind: Kind, triple: string, cs: seq<Candidate>, patterns: seq<string>, g: seq<Asset>, i: nat,
    claimed: map<string, string>, j: Option<nat>)
    requires Claimed(artifact, kind, triple, cs, patterns, g) && i < |g|
    requires forall a :: a in claimed <==> Has(g[..i], a)
    requires j.Some? ==> NamesOnly(cs, patterns[i], j.value)
    requires j.None? ==> forall k: nat :: NamesOnly(cs, patterns[i], k) ==> cs[k].asset in claimed
    ensures j.Some? && g[i] == AssetOf(artifact, kind, triple, cs[j.value])
  {
    assert PatternOk(artifact, kind, triple, cs, patterns[i], g[i]);
    var k: nat :| NamesOnly(cs, patterns[i], k) && g[i] == AssetOf(artifact, kind, triple, cs[k]);
    assert !Has(g[..i], g[i].asset);
  }

  /** Each pattern claims the one candidate it names. */
  method ClaimEach(artifact: string, kind: Kind, triple: string, cs: seq<Candidate>, patterns: seq<string>, out: Resolution)
    modifies out
    ensures old(out.errors) <= out.errors && old(out.assets) <= out.assets
    ensures out.errors == old(out.errors) ==>
              Claimed(artifact, kind, triple, cs, patterns, out.assets[|old(out.assets)|..])
    ensures forall g :: Claimed(artifact, kind, triple, cs, patterns, g) ==> out.errors == old(out.errors)
  {
    var claimed: map<string, string> := map[];
    ghost var group: seq<Asset> := [];
    for i := 0 to |patterns|
      invariant old(out.errors) <= out.errors && out.assets == old(out.assets) + group
      invariant forall a :: a in claimed <==> Has(group, a)
      invariant forall g :: Claimed(artifact, kind, triple, cs, patterns, g) ==> out.errors == old(out.errors) && group == g[..i]
      invariant out.errors == old(out.errors) ==> Claimed(artifact, kind, triple, cs, patterns[..i], group)
    {
      assert patterns[..i + 1] == patterns[..i] + [patterns[i]];
      ghost var errors := out.errors;
      var j := ClaimOne(artifact, i, cs, patterns[i], claimed, out);
      forall g | Claimed(artifact, kind, triple, cs, patterns, g)
        ensures j.Some? && g[i] == AssetOf(artifact, kind, triple, cs[j.value])
      {
        NextClaim(artifact, kind, triple, cs, patterns, g, i, claimed, j);
      }
      if j.Some? {
        var a := AssetOf(artifact, kind, triple, cs[j.value]);
        if errors == old(out.errors) {
          ClaimedOneMore(artifact, kind, triple, cs, patterns[..i], group, patterns[i], j.value);
        }
        HasSnoc(group, a);
        claimed := claimed[a.asset := patterns[i]];
        out.assets := out.assets + [a];
        group := group + [a];
      }
    }
    assert patterns[..|patterns|] == patterns;
    assert out.assets[|old(out.assets)|..] == group;
  }

  ghost predicate MatchedBySome(patterns: seq<string>, c: Candidate)
  {
    exists i :: 0 <= i < |patterns| && Matches(patterns[i], c.asset)
  }

  /** Candidates no pattern matches are reported. */
  method ReportUndeclared(artifact: string, cs: seq<Candidate>, patterns: seq<string>, out: Resolution)
    modifies out`errors
    ensures old(out.errors) <= out.errors
    ensures out.errors == old(out.errors) <==> forall j :: 0 <= j < |cs| ==> MatchedBySome(patterns, cs[j])
  {
    ghost var clean := true;
    for j := 0 to |cs|
      invariant old(out.errors) <= out.errors && (clean <==> out.errors == old(out.errors))
      invariant clean <==> forall k :: 0 <= k < j ==> MatchedBySome(patterns, cs[k])
    {
      var any := false;
      for i := 0 to |patterns|
        invariant any <==> exists k :: 0 <= k < i && Matches(patterns[k], cs[j].asset)
      {
        if Matches(patterns[i], cs[j].asset) { any := true; }
      }
      if !any {
        out.errors := out.errors + [Undeclared(artifact, cs[j].file)];
        clean := false;
      }
    }
  }

  lemma NamedAll(
    artifact: string, kind: Kind, triple: string, cs: seq<Candidate>, patterns: seq<string>, group: seq<Asset>, j: nat)
    requires |group| == |patterns| && j < |cs| && MatchedBySome(patterns, cs[j])
    requires forall i :: 0 <= i < |patterns| ==> PatternOk(artifact, kind, triple, cs, patterns[i], group[i])
    ensures Named(cs, patterns, j)
  {
    var i :| 0 <= i < |patterns| && Matches(patterns[i], cs[j].asset);
    assert PatternOk(artifact, kind, triple, cs, patterns[i], group[i]);
    var k: nat :| NamesOnly(cs, patterns[i], k) && group[i] == AssetOf(artifact, kind, triple, cs[k]);
    assert k == j;
  }

  /** Match candidates against declarations in both directions. */
  method ResolveDeclared(
    artifact: string, kind: Kind, triple: string, cs: seq<Candidate>, declared: seq<string>, version: string, out: Resolution)
    modifies out
    ensures old(out.errors) <= out.errors && old(out.assets) <= out.assets
    ensures out.errors == old(out.errors) ==>
              DeclaredOk(artifact, kind, triple, cs, AllWithVersion(declared, version), out.assets[|old(out.assets)|..])
    ensures out.errors == old(out.errors) <==> Declarable(artifact, kind, triple, cs, declared, version)
  {
    var refused := RefuseBrackets(artifact, declared, out);
    if refused {
      return;
    }
    if declared == [] {
      out.errors := out.errors + [NothingDeclared(artifact)];
      return;
    }
    var patterns := AllWithVersion(declared, version);
    ClaimEach(artifact, kind, triple, cs, patterns, out);
    ReportUndeclared(artifact, cs, patterns, out);
    ghost var group := out.assets[|old(out.assets)|..];
    if out.errors == old(out.errors) {
      forall j: nat | j < |cs| ensures Named(cs, patterns, j) {
        NamedAll(artifact, kind, triple, cs, patterns, group, j);
      }
    }
    assert out.errors == old(out.errors) ==> DeclaredOk(artifact, kind, triple, cs, patterns, group);
    forall g | DeclaredOk(artifact, kind, triple, cs, patterns, g) ensures out.errors == old(out.errors) {
      assert Claimed(artifact, kind, triple, cs, patterns, g);
      forall j: nat | j < |cs| ensures MatchedBySome(patterns, cs[j]) { assert Named(cs, patterns, j); }
    }
  }

  /** The agent is one executable, published under a name of its own. */
  method ResolveAgent(name: string, s: Source, files: seq<string>, version: string, out: Resolution)
    requires s.kind.Agent?
    modifies out
    ensures old(out.errors) <= out.errors && old(out.assets) <= out.assets
    ensures out.errors == old(out.errors) ==> ArtifactOk(name, s, files, version, out.assets[|old(out.assets)|..])
    ensures out.errors == old(out.errors) <==> files == [ExecutableName("lasterm-agent", s.target)]
  {
    var exe := ExecutableName("lasterm-agent", s.target);
    if |files| != 1 || files[0] != exe {
      out.errors := out.errors + [WrongFiles(name)];
    } else {
      var asset := "lasterm-agent-" + s.target.triple + "-" + version + Extension(s.target);
      out.assets := out.assets + [Asset(Agent, s.target.triple, name, exe, asset, None)];
    }
  }

  /** The hub is its executable and addons, published as one archive. */
  method ResolveHub(name: string, s: Source, files: seq<string>, version: string, out: Resolution)
    requires s.kind.Hub?
    modifies out
    ensures old(out.errors) <= out.errors && old(out.assets) <= out.assets
    ensures out.errors == old(out.errors) ==> ArtifactOk(name, s, files, version, out.assets[|old(out.assets)|..])
    ensures out.errors == old(out.errors) <==>
              multiset(files) == multiset(HubFiles(s.target)) &&
              Declarable(name, Hub, s.target.triple, [HubCandidate(s.target)], DeclaredFor(s), version)
  {
    var expected := HubFiles(s.target);
    SortedCompares(files, expected);
    if Sorted(files) != Sorted(expected) {
      out.errors := out.errors + [WrongFiles(name)];
    } else {
      ResolveDeclared(name, Hub, s.target.triple, [HubCandidate(s.target)], DeclaredFor(s), version, out);
    }
  }

  lemma AgentResolvable(name: string, s: Source, files: seq<string>, version: string)
    requires s.kind.Agent?
    ensures Resolvable(name, s, files, version) <==> files == [ExecutableName("lasterm-agent", s.target)]
  {
    var exe := ExecutableName("lasterm-agent", s.target);
    if files == [exe] {
      assert ArtifactOk(name, s, files, version,
                        [Asset(Agent, s.target.triple, name, exe,
                               "lasterm-agent-" + s.target.triple + "-" + version + Extension(s.target), None)]);
    }
  }

  lemma HubResolvable(name: string, s: Source, files: seq<string>, version: string)
    requires s.kind.Hub?
    ensures Resolvable(name, s, files, version) <==>
            multiset(files) == multiset(HubFiles(s.target)) &&
            Declarable(name, Hub, s.target.triple, [HubCandidate(s.target)], DeclaredFor(s), version)
  {
    var triple, cs, patterns := s.target.triple, [HubCandidate(s.target)], Patterns(s, version);
    if multiset(files) == multiset(HubFiles(s.target)) && Declarable(name, Hub, triple, cs, DeclaredFor(s), version) {
      var group :| DeclaredOk(name, Hub, triple, cs, patterns, group);
      assert ArtifactOk(name, s, files, version, group);
    }
  }

  lemma DesktopResolvable(name: string, s: Source, files: seq<string>, version: string)
    requires s.kind.Desktop?
    ensures Resolvable(name, s, files, version) <==>
            Declarable(name, Desktop, s.target.triple, FileCandidates(files), DeclaredFor(s), version)
  {
    var triple, cs, patterns := s.target.triple, FileCandidates(files), Patterns(s, version);
    if Declarable(name, Desktop, triple, cs, DeclaredFor(s), version) {
      var group :| DeclaredOk(name, Desktop, triple, cs, patterns, group);
      assert ArtifactOk(name, s, files, version, group);
    }
  }

  /** What one expected artifact gives. */
  method ResolveArtifact(name: string, s: Source, files: seq<string>, version: string, out: Resolution)
    modifies out
    ensures old(out.errors) <= out.errors && old(out.assets) <= out.assets
    ensures out.errors == old(out.errors) ==> ArtifactOk(name, s, files, version, out.assets[|old(out.assets)|..])
    ensures out.errors == old(out.errors) <==> Resolvable(name, s, files, version)
  {
    match s.kind
    case Agent =>
      AgentResolvable(name, s, files, version);
      ResolveAgent(name, s, files, version, out);
    case Hub =>
      HubResolvable(name, s, files, version);
      ResolveHub(name, s, files, version, out);
    case Desktop =>
      DesktopResolvable(name, s, files, version);
      ResolveDeclared(name, Desktop, s.target.triple, FileCandidates(files), DeclaredFor(s), version, out);
  }

  // ----- Complete releases -----

  /** How often `assets` publish `file` of `artifact`, alone or inside a zip. */
  function Published(assets: seq<Asset>, artifact: string, file: string): nat
  {
    if assets == [] then 0
    else
      var a := assets[|assets| - 1];
      Published(assets[..|assets| - 1], artifact, file) +
      if a.artifact != artifact then 0
      else if a.members.Some? then multiset(a.members.value)[file]
      else if a.file == file then 1 else 0
  }

  /** How many of `artifact`'s assets `pattern` names. */
  function NamedBy(assets: seq<Asset>, artifact: string, pattern: string): nat
  {
    if assets == [] then 0
    else
      var a := assets[|assets| - 1];
      NamedBy(assets[..|assets| - 1], artifact, pattern) +
      if a.artifact == artifact && Matches(pattern, a.asset) then 1 else 0
  }

  /** Each file of the artifact is published once, and nothing else under it. */
  ghost predicate PublishedOk(assets: seq<Asset>, name: string, files: seq<string>)
  {
    forall file :: Published(assets, name, file) == if file in files then 1 else 0
  }

  /** Each declaration of the artifact names one published asset. */
  ghost predicate NamedOk(assets: seq<Asset>, name: string, s: Source, version: string)
  {
    !s.kind.Agent? ==>
      forall i :: 0 <= i < |Patterns(s, version)| ==> NamedBy(assets, name, Patterns(s, version)[i]) == 1
  }

  /** A release nothing is missing from and nothing is added to. */
  ghost predicate Complete(targets: seq<Target>, version: string, contents: map<string, seq<string>>, assets: seq<Asset>)
  {
    contents.Keys == Expected(targets).Keys &&
    (forall name :: name in contents ==> PublishedOk(assets, name, contents[name])) &&
    (forall name :: name in contents ==> NamedOk(assets, name, Expected(targets)[name], version)) &&
    (forall i :: 0 <= i < |assets| ==> assets[i].artifact in contents) &&
    Distinct(assets) && NoneIs(assets, ChecksumsFile(version))
  }

  lemma {:induction false} CountsConcat(xs: seq<Asset>, ys: seq<Asset>, name: string, file: string, pattern: string)
    ensures Published(xs + ys, name, file) == Published(xs, name, file) + Published(ys, name, file)
    ensures NamedBy(xs + ys, name, pattern) == NamedBy(xs, name, pattern) + NamedBy(ys, name, pattern)
  {
    if ys == [] {
      assert xs + ys == xs;
    } else {
      var n := |ys| - 1;
      CountsConcat(xs, ys[..n], name, file, pattern);
      assert (xs + ys)[..|xs| + n] == xs + ys[..n];
    }
  }

  /** Another artifact's assets count for nothing. */
  lemma {:induction false} ForeignCounts(assets: seq<Asset>, name: string, file: string, pattern: string)
    requires forall i :: 0 <= i < |assets| ==> assets[i].artifact != name
    ensures Published(assets, name, file) == 0 && NamedBy(assets, name, pattern) == 0
  {
    if assets != [] { ForeignCounts(assets[..|assets| - 1], name, file, pattern); }
  }

  /** Exactly one asset of the group is what `i` is. */
  lemma {:induction false} CountOneNamed(group: seq<Asset>, name: string, pattern: string, i: nat)
    requires i < |group| && group[i].artifact == name && Matches(pattern, group[i].asset)
    requires forall k :: 0 <= k < |group| && k != i ==> !Matches(pattern, group[k].asset)
    ensures NamedBy(group, name, pattern) == 1
  {
    var n := |group| - 1;
    if i == n {
      CountNoneNamed(group[..n], name, pattern);
    } else {
      CountOneNamed(group[..n], name, pattern, i);
    }
  }

  lemma {:induction false} CountNoneNamed(group: seq<Asset>, name: string, pattern: string)
    requires forall k :: 0 <= k < |group| ==> !Matches(pattern, group[k].asset)
    ensures NamedBy(group, name, pattern) == 0
  {
    if group != [] { CountNoneNamed(group[..|group| - 1], name, pattern); }
  }

  lemma {:induction false} CountOneFile(group: seq<Asset>, name: string, file: string, i: nat)
    requires i < |group| && group[i].file == file
    requires forall k :: 0 <= k < |group| ==> group[k].artifact == name && group[k].members.None?
    requires forall k :: 0 <= k < |group| && k != i ==> group[k].file != file
    ensures Published(group, name, file) == 1
  {
    var n := |group| - 1;
    if i == n {
      CountNoFile(group[..n], name, file);
    } else {
      CountOneFile(group[..n], name, file, i);
    }
  }

  lemma {:induction false} CountNoFile(group: seq<Asset>, name: string, file: string)
    requires forall k :: 0 <= k < |group| ==> group[k].members.None? && group[k].file != file
    ensures Published(group, name, file) == 0
  {
    if group != [] { CountNoFile(group[..|group| - 1], name, file); }
  }

  /** Which candidate each asset of the group is. */
  lemma PickOf(artifact: string, kind: Kind, triple: string, cs: seq<Candidate>, patterns: seq<string>, group: seq<Asset>, i: nat)
    returns (j: nat)
    requires DeclaredOk(artifact, kind, triple, cs, patterns, group) && i < |group|
    ensures NamesOnly(cs, patterns[i], j) && group[i] == AssetOf(artifact, kind, triple, cs[j])
  {
    assert PatternOk(artifact, kind, triple, cs, patterns[i], group[i]);
    j :| NamesOnly(cs, patterns[i], j) && group[i] == AssetOf(artifact, kind, triple, cs[j]);
  }

  lemma GroupNamed(artifact: string, kind: Kind, triple: string, cs: seq<Candidate>, patterns: seq<string>, group: seq<Asset>, i: nat)
    requires DeclaredOk(artifact, kind, triple, cs, patterns, group) && i < |patterns|
    ensures NamedBy(group, artifact, patterns[i]) == 1
  {
    var j := PickOf(artifact, kind, triple, cs, patterns, group, i);
    forall k | 0 <= k < |group| && k != i ensures !Matches(patterns[i], group[k].asset) {
      var l := PickOf(artifact, kind, triple, cs, patterns, group, k);
      assert group[k].asset != group[i].asset;
    }
    CountOneNamed(group, artifact, patterns[i], i);
  }

  lemma DesktopPublished(artifact: string, triple: string, files: seq<string>, patterns: seq<string>, group: seq<Asset>, file: string)
    requires DeclaredOk(artifact, Desktop, triple, FileCandidates(files), patterns, group)
    ensures Published(group, artifact, file) == if file in files then 1 else 0
  {
    var cs := FileCandidates(files);
    forall k | 0 <= k < |group|
      ensures group[k].artifact == artifact && group[k].members.None? && group[k].file == group[k].asset && group[k].file in files
    {
      var l := PickOf(artifact, Desktop, triple, cs, patterns, group, k);
      assert group[k].file == files[l];
    }
    if file in files {
      var j: nat :| j < |files| && files[j] == file;
      assert Named(cs, patterns, j);
      var i: nat :| i < |patterns| && NamesOnly(cs, patterns[i], j);
      var l := PickOf(artifact, Desktop, triple, cs, patterns, group, i);
      assert group[i].file == file;
      CountOneFile(group, artifact, file, i);
    } else {
      CountNoFile(group, artifact, file);
    }
  }

  lemma HubPublished(artifact: string, t: Target, files: seq<string>, patterns: seq<string>, group: seq<Asset>, file: string)
    requires multiset(files) == multiset(HubFiles(t))
    requires DeclaredOk(artifact, Hub, t.triple, [HubCandidate(t)], patterns, group)
    ensures group == [AssetOf(artifact, Hub, t.triple, HubCandidate(t))]
    ensures Published(group, artifact, file) == if file in files then 1 else 0
  {
    var cs := [HubCandidate(t)];
    var l := PickOf(artifact, Hub, t.triple, cs, patterns, group, 0);
    if |group| > 1 {
      var m := PickOf(artifact, Hub, t.triple, cs, patterns, group, 1);
    }
    assert group == [group[0]];
    assert Published(group[..0], artifact, file) == 0;
    var members := HubFiles(t);
    assert |members[0]| <= 15 && |members[1]| == 21 && |members[2]| == 25;
    assert members == [members[0], members[1], members[2]];
    assert file in files <==> multiset(files)[file] > 0;
  }

  lemma GroupCounts(name: string, s: Source, files: seq<string>, version: string, group: seq<Asset>)
    requires ArtifactOk(name, s, files, version, group)
    ensures PublishedOk(group, name, files) && NamedOk(group, name, s, version)
    ensures forall k :: 0 <= k < |group| ==> group[k].artifact == name
  {
    match s.kind
    case Agent =>
      forall file ensures Published(group, name, file) == if file in files then 1 else 0 {
        assert Published(group[..0], name, file) == 0;
      }
    case Hub =>
      forall file ensures Published(group, name, file) == if file in files then 1 else 0 {
        HubPublished(name, s.target, files, Patterns(s, version), group, file);
      }
      HubPublished(name, s.target, files, Patterns(s, version), group, "");
      forall i | 0 <= i < |Patterns(s, version)| ensures NamedBy(group, name, Patterns(s, version)[i]) == 1 {
        GroupNamed(name, Hub, s.target.triple, [HubCandidate(s.target)], Patterns(s, version), group, i);
      }
    case Desktop =>
      forall file ensures Published(group, name, file) == if file in files then 1 else 0 {
        DesktopPublished(name, s.target.triple, files, Patterns(s, version), group, file);
      }
      forall i | 0 <= i < |Patterns(s, version)| ensures NamedBy(group, name, Patterns(s, version)[i]) == 1 {
        GroupNamed(name, Desktop, s.target.triple, FileCandidates(files), Patterns(s, version), group, i);
      }
      forall k | 0 <= k < |group| ensures group[k].artifact == name {
        var l := PickOf(name, Desktop, s.target.triple, FileCandidates(files), Patterns(s, version), group, k);
      }
  }

  /** The artifacts in `done` are resolved, and nothing else is. */
  ghost predicate Resolved(
    done: set<string>, expected: map<string, Source>, version: string, contents: map<string, seq<string>>, assets: seq<Asset>)
  {
    (forall i :: 0 <= i < |assets| ==> assets[i].artifact in done) &&
    forall name :: name in done ==>
      name in expected && name in contents &&
      PublishedOk(assets, name, contents[name]) && NamedOk(assets, name, expected[name], version)
  }

  lemma ResolvedOneMore(
    done: set<string>, expected: map<string, Source>, version: string, contents: map<string, seq<string>>,
    assets: seq<Asset>, name: string, group: seq<Asset>)
    requires Resolved(done, expected, version, contents, assets) && name !in done && name in expected && name in contents
    requires ArtifactOk(name, expected[name], contents[name], version, group)
    ensures Resolved(done + {name}, expected, version, contents, assets + group)
  {
    GroupCounts(name, expected[name], contents[name], version, group);
    forall n | n in done + {name}
      ensures PublishedOk(assets + group, n, contents[n]) && NamedOk(assets + group, n, expected[n], version)
    {
      forall file ensures Published(assets + group, n, file) == if file in contents[n] then 1 else 0 {
        CountsConcat(assets, group, n, file, "");
        if n == name { ForeignCounts(assets, n, file, ""); } else { ForeignCounts(group, n, file, ""); }
      }
      var patterns := Patterns(expected[n], version);
      if !expected[n].kind.Agent? {
        forall i | 0 <= i < |patterns| ensures NamedBy(assets + group, n, patterns[i]) == 1 {
          CountsConcat(assets, group, n, "", patterns[i]);
          if n == name { ForeignCounts(assets, n, "", patterns[i]); } else { ForeignCounts(group, n, "", patterns[i]); }
        }
      }
    }
  }

  ghost predicate NoneIs(assets: seq<Asset>, name: string)
  {
    forall i :: 0 <= i < |assets| ==> assets[i].asset != name
  }

  /** Public names must differ from each other and from the checksum file. */
  method CheckNames(version: string, out: Resolution)
    modifies out`errors
    ensures old(out.errors) <= out.errors
    ensures out.errors == old(out.errors) <==> Distinct(out.assets) && NoneIs(out.assets, ChecksumsFile(version))
  {
    var seen: set<string> := {};
    ghost var clean := true;
    for i := 0 to |out.assets|
      invariant old(out.errors) <= out.errors && (clean <==> out.errors == old(out.errors))
      invariant forall a :: a in seen <==> Has(out.assets[..i], a)
      invariant clean <==> Distinct(out.assets[..i]) && NoneIs(out.assets[..i], ChecksumsFile(version))
    {
      var name := out.assets[i].asset;
      if name in seen {
        out.errors := out.errors + [SameName(name)];
        clean := false;
      }
      seen := seen + {name};
      if name == ChecksumsFile(version) {
        out.errors := out.errors + [ChecksumsName(name)];
        clean := false;
      }
      assert out.assets[..i + 1] == out.assets[..i] + [out.assets[i]];
    }
    assert out.assets[..|out.assets|] == out.assets;
  }

  method ReportUnexpected(expected: map<string, Source>, contents: map<string, seq<string>>, out: Resolution)
    modifies out`errors
    ensures old(out.errors) <= out.errors
    ensures out.errors == old(out.errors) <==> contents.Keys <= expected.Keys
  {
    var rest := contents.Keys;
    ghost var clean := true;
    while rest != {}
      invariant rest <= contents.Keys && old(out.errors) <= out.errors && (clean <==> out.errors == old(out.errors))
      invariant clean <==> forall name :: name in contents && name !in rest ==> name in expected
    {
      var name :| name in rest;
      if name !in expected {
        out.errors := out.errors + [UnexpectedArtifact(name)];
        clean := false;
      }
      rest := rest - {name};
    }
  }

  /** The expected artifact is there, and its files and declarations fit. */
  ghost predicate Given(name: string, expected: map<string, Source>, version: string, contents: map<string, seq<string>>)
    requires name in expected
  {
    name in contents && Resolvable(name, expected[name], contents[name], version)
  }

  method ResolveExpected(
    expected: map<string, Source>, version: string, contents: map<string, seq<string>>, out: Resolution)
    requires out.assets == []
    modifies out
    ensures old(out.errors) <= out.errors
    ensures out.errors == old(out.errors) ==>
              expected.Keys <= contents.Keys && Resolved(expected.Keys, expected, version, contents, out.assets)
    ensures out.errors == old(out.errors) <==> forall name :: name in expected ==> Given(name, expected, version, contents)
  {
    var rest := expected.Keys;
    ghost var done: set<string> := {};
    ghost var clean := true;
    while rest != {}
      invariant rest + done == expected.Keys && rest !! done && old(out.errors) <= out.errors
      invariant clean <==> out.errors == old(out.errors)
      invariant clean ==> Resolved(done, expected, version, contents, out.assets)
      invariant clean <==> forall name :: name in done ==> Given(name, expected, version, contents)
    {
      var name :| name in rest;
      rest := rest - {name};
      if name !in contents {
        out.errors := out.errors + [MissingArtifact(name)];
        clean := false;
      } else {
        ghost var assets, errors := out.assets, out.errors;
        ResolveArtifact(name, expected[name], contents[name], version, out);
        if clean && out.errors == errors {
          ghost var group := out.assets[|assets|..];
          assert out.assets == assets + group;
          ResolvedOneMore(done, expected, version, contents, assets, name, group);
        } else {
          clean := false;
        }
      }
      done := done + {name};
    }
    assert done == expected.Keys;
  }

  /** If no error is reported the release is complete: the artifacts present are
      the expected ones, every file of every artifact is published exactly once,
      every declaration names one published asset, and public names differ.  And
      none is reported without cause. */
  method ResolveReleaseAssets(targets: seq<Target>, version: string, contents: map<string, seq<string>>)
    returns (assets: seq<Asset>, errors: seq<Error>)
    ensures errors == [] ==> Complete(targets, version, contents, assets)
    ensures errors == [] <==>
              contents.Keys == Expected(targets).Keys &&
              (forall name :: name in Expected(targets) ==> Given(name, Expected(targets), version, contents)) &&
              Distinct(assets) && NoneIs(assets, ChecksumsFile(version))
  {
    var out := new Resolution();
    var expected := Expected(targets);
    ReportUnexpected(expected, contents, out);
    ResolveExpected(expected, version, contents, out);
    CheckNames(version, out);
    assets, errors := out.assets, out.errors;
  }
}
