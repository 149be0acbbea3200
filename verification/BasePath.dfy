/**
 Where an agent answers: cleaning the path it mounts on, and resolving its configuration once
 so that what it advertises is where it is.
 */
module BasePath {
  import opened Results

  const DEFAULT_BASE_PATH := "/a2a"

  // ---------------------------------------------------------------- splitting and joining

  /** The segments of a path: what stands between its slashes, and there is always one. */
  function Split(path: string): (segments: seq<string>)
    ensures |segments| >= 1
  {
    if path == "" then [""]
    else
      var rest := Split(path[1..]);
      if path[0] == '/' then [""] + rest else [[path[0]] + rest[0]] + rest[1..]
  }

  /** Segments with a slash between each two. */
  function Join(segments: seq<string>): string {
    if segments == [] then ""
    else if |segments| == 1 then segments[0]
    else segments[0] + "/" + Join(segments[1..])
  }

  lemma {:induction false} SplitConcat(a: string, b: string)
    ensures Split(a + "/" + b) == Split(a) + Split(b)
    decreases |a|
  {
    if a == "" {
      assert a + "/" + b == "/" + b;
      assert ("/" + b)[1..] == b;
    } else {
      assert (a + "/" + b)[1..] == a[1..] + "/" + b;
      SplitConcat(a[1..], b);
    }
  }

  /** A segment: no slash in it. */
  predicate IsSegment(s: string) {
    '/' !in s
  }

  lemma {:induction false} SplitSegment(s: string)
    requires IsSegment(s)
    ensures Split(s) == [s]
    decreases |s|
  {
    if s != "" {
      assert s[0] in s;
      SplitSegment(s[1..]);
      assert s == [s[0]] + s[1..];
    }
  }

  lemma {:induction false} SplitsIntoSegments(path: string)
    ensures forall k | 0 <= k < |Split(path)| :: IsSegment(Split(path)[k])
    decreases |path|
  {
    if path != "" { SplitsIntoSegments(path[1..]); }
  }

  lemma {:induction false} SplitJoin(segments: seq<string>)
    requires segments != [] && forall k | 0 <= k < |segments| :: IsSegment(segments[k])
    ensures Split(Join(segments)) == segments
    decreases |segments|
  {
    SplitSegment(segments[0]);
    if |segments| > 1 {
      SplitJoin(segments[1..]);
      SplitConcat(segments[0], Join(segments[1..]));
      assert segments == [segments[0]] + segments[1..];
    }
  }

  // ---------------------------------------------------------------- cleaning

  /** A segment that names something. */
  predicate Named(segment: string) {
    IsSegment(segment) && segment != "" && segment != "." && segment != ".."
  }

  /** What one segment does to those before it. */
  function Step(stack: seq<string>, segment: string): seq<string> {
    if segment == "" || segment == "." then stack
    else if segment == ".." then (if stack == [] then [] else stack[..|stack| - 1])
    else stack + [segment]
  }

  /** The segments left after `segments`, begun on `stack`. */
  function Walk(stack: seq<string>, segments: seq<string>): seq<string>
    decreases |segments|
  {
    if segments == [] then stack else Walk(Step(stack, segments[0]), segments[1..])
  }

  function Segments(path: string): seq<string> {
    Walk([], Split(path))
  }

  function Clean(path: string): string {
    "/" + Join(Segments(path))
  }

  /** `clean_rooted`. */
  method CleanRooted(path: string) returns (cleaned: string)
    ensures cleaned == Clean(path)
  {
    var split := Split(path);
    var segments: seq<string> := [];
    for k := 0 to |split|
      invariant Walk(segments, split[k..]) == Segments(path)
    {
      assert split[k..][1..] == split[k + 1..];
      var segment := split[k];
      if segment == "" || segment == "." {
      } else if segment == ".." {
        if segments != [] { segments := segments[..|segments| - 1]; }
      } else {
        segments := segments + [segment];
      }
    }
    cleaned := "/" + Join(segments);
  }

  lemma {:induction false} WalkConcat(stack: seq<string>, a: seq<string>, b: seq<string>)
    ensures Walk(stack, a + b) == Walk(Walk(stack, a), b)
    decreases |a|
  {
    if a == [] {
      assert a + b == b;
    } else {
      assert (a + b)[1..] == a[1..] + b;
      WalkConcat(Step(stack, a[0]), a[1..], b);
    }
  }

  ghost predicate AllNamed(segments: seq<string>) {
    forall k | 0 <= k < |segments| :: Named(segments[k])
  }

  lemma {:induction false} WalkNames(stack: seq<string>, segments: seq<string>)
    requires AllNamed(stack) && forall k | 0 <= k < |segments| :: IsSegment(segments[k])
    ensures AllNamed(Walk(stack, segments))
    decreases |segments|
  {
    if segments != [] { WalkNames(Step(stack, segments[0]), segments[1..]); }
  }

  lemma {:induction false} WalkNamed(stack: seq<string>, segments: seq<string>)
    requires AllNamed(segments)
    ensures Walk(stack, segments) == stack + segments
    decreases |segments|
  {
    if segments != [] {
      assert Named(segments[0]);
      WalkNamed(stack + [segments[0]], segments[1..]);
      assert stack + [segments[0]] + segments[1..] == stack + segments;
    }
  }

  /** A cleaned path is a slash and named segments: nothing empty, no `.` and no `..` is left in it. */
  lemma CleanLeavesNames(path: string)
    ensures AllNamed(Segments(path))
    ensures Segments(Clean(path)) == Segments(path)
    ensures Split(Clean(path)) == [""] + (if Segments(path) == [] then [""] else Segments(path))
  {
    SplitsIntoSegments(path);
    WalkNames([], Split(path));
    SplitRooted(Segments(path));
    if Segments(path) == [] {
      assert ([""] + [""])[1..] == [""] && [""][1..] == [];
      assert Walk([], [""] + [""]) == Walk([], [""]) == Walk([], []);
    } else {
      assert ([""] + Segments(path))[1..] == Segments(path);
      WalkNamed([], Segments(path));
    }
  }

  lemma SplitRooted(segments: seq<string>)
    requires AllNamed(segments)
    ensures Split("/" + Join(segments)) == [""] + (if segments == [] then [""] else segments)
  {
    assert ("/" + Join(segments))[1..] == Join(segments);
    if segments != [] {
      assert forall k | 0 <= k < |segments| :: Named(segments[k]);
      SplitJoin(segments);
    }
  }

  /** What each kind of segment does at the end of a path: a name is added, `..` takes the last one back, the rest vanish. */
  lemma CleanMeans(path: string, name: string)
    requires Named(name)
    ensures Segments(path + "/" + name) == Segments(path) + [name]
    ensures Segments(path + "/" + name + "/" + "..") == Segments(path)
    ensures Segments(path + "/" + "") == Segments(path + "/" + ".") == Segments(path)
    ensures Segments(path) == [] ==> Segments(path + "/" + "..") == []
  {
    SegmentAdded(path, name);
    SegmentAdded(path + "/" + name, "..");
    SegmentAdded(path, "");
    SegmentAdded(path, ".");
    SegmentAdded(path, "..");
  }

  lemma SegmentAdded(path: string, segment: string)
    requires IsSegment(segment)
    ensures Segments(path + "/" + segment) == Step(Segments(path), segment)
  {
    SplitConcat(path, segment);
    SplitSegment(segment);
    WalkConcat([], Split(path), [segment]);
    assert [segment][1..] == [];
    assert Walk(Segments(path), [segment]) == Walk(Step(Segments(path), segment), []);
  }

  /** Cleaning twice is cleaning once. */
  lemma CleanIsIdempotent(path: string)
    ensures Clean(Clean(path)) == Clean(path)
  {
    CleanLeavesNames(path);
  }

  /** A path joined onto another may be joined onto its clean form: nothing above the join is lost. */
  lemma CleanThenJoin(a: string, b: string)
    ensures Clean(Clean(a) + "/" + b) == Clean(a + "/" + b)
  {
    SplitConcat(a, b);
    SplitConcat(Clean(a), b);
    WalkConcat([], Split(a), Split(b));
    WalkConcat([], Split(Clean(a)), Split(b));
    CleanLeavesNames(a);
  }

  /** Two paths clean to the same only when the same segments are left of them. */
  lemma CleanTellsSegmentsApart(a: string, b: string)
    ensures Clean(a) == Clean(b) <==> Segments(a) == Segments(b)
  {
    CleanLeavesNames(a);
    CleanLeavesNames(b);
  }

  // ---------------------------------------------------------------- trimming

  /** Which characters count as white space. */
  type Spaces = char -> bool

  /** Nothing in the default path does, a slash among it. */
  ghost predicate Sensible(space: Spaces) {
    forall c | c in DEFAULT_BASE_PATH :: !space(c)
  }

  lemma SlashesAreNotSpace(space: Spaces)
    requires Sensible(space)
    ensures !space('/')
    ensures !EndsInSpace(space, DEFAULT_BASE_PATH)
  {
    assert DEFAULT_BASE_PATH[0] == '/';
    assert DEFAULT_BASE_PATH[3] in DEFAULT_BASE_PATH;
  }

  function TrimStart(space: Spaces, s: string): string {
    if s != "" && space(s[0]) then TrimStart(space, s[1..]) else s
  }

  function TrimEnd(space: Spaces, s: string): string {
    if s != "" && space(s[|s| - 1]) then TrimEnd(space, s[..|s| - 1]) else s
  }

  function Trim(space: Spaces, s: string): string {
    TrimEnd(space, TrimStart(space, s))
  }

  /** `normalize_base_path`. */
  function Normalize(space: Spaces, path: string): string {
    var trimmed := Trim(space, path);
    if trimmed == "" then DEFAULT_BASE_PATH else Clean(trimmed)
  }

  predicate EndsInSpace(space: Spaces, s: string) {
    s != "" && space(s[|s| - 1])
  }

  lemma {:induction false} TrimEndShortens(space: Spaces, s: string)
    ensures TrimEnd(space, s) <= s
    ensures !EndsInSpace(space, TrimEnd(space, s))
    ensures EndsInSpace(space, s) <==> |TrimEnd(space, s)| < |s|
    decreases |s|
  {
    if EndsInSpace(space, s) { TrimEndShortens(space, s[..|s| - 1]); }
  }

  lemma {:induction false} TrimStartSettles(space: Spaces, s: string)
    ensures TrimStart(space, s) != "" ==> !space(TrimStart(space, s)[0])
    decreases |s|
  {
    if s != "" && space(s[0]) { TrimStartSettles(space, s[1..]); }
  }

  /** Trimming twice is trimming once. */
  lemma TrimIsIdempotent(space: Spaces, s: string)
    ensures Trim(space, Trim(space, s)) == Trim(space, s)
  {
    var t := TrimStart(space, s);
    TrimStartSettles(space, s);
    TrimEndShortens(space, t);
    var u := TrimEnd(space, t);
    if u != "" { assert u[0] == t[0]; }
    TrimEndShortens(space, u);
  }

  function Length(segments: seq<string>): nat {
    if segments == [] then 0 else |segments[0]| + 1 + Length(segments[1..])
  }

  lemma {:induction false} JoinLength(segments: seq<string>)
    ensures |Join(segments)| == if segments == [] then 0 else Length(segments) - 1
    decreases |segments|
  {
    if |segments| > 1 { JoinLength(segments[1..]); }
  }

  lemma {:induction false} SplitLength(path: string)
    ensures Length(Split(path)) == |path| + 1
    decreases |path|
  {
    if path != "" {
      SplitLength(path[1..]);
      var rest := Split(path[1..]);
      if path[0] != '/' { assert ([[path[0]] + rest[0]] + rest[1..])[1..] == rest[1..]; }
    }
  }

  lemma {:induction false} LengthConcat(a: seq<string>, b: seq<string>)
    ensures Length(a + b) == Length(a) + Length(b)
    decreases |a|
  {
    if a == [] {
      assert a + b == b;
    } else {
      assert (a + b)[1..] == a[1..] + b;
      LengthConcat(a[1..], b);
    }
  }

  lemma {:induction false} WalkShortens(stack: seq<string>, segments: seq<string>)
    ensures Length(Walk(stack, segments)) <= Length(stack) + Length(segments)
    decreases |segments|
  {
    if segments != [] {
      WalkShortens(Step(stack, segments[0]), segments[1..]);
      LengthConcat(stack, [segments[0]]);
      if stack != [] {
        LengthConcat(stack[..|stack| - 1], [stack[|stack| - 1]]);
        assert stack[..|stack| - 1] + [stack[|stack| - 1]] == stack;
      }
    }
  }

  /** Cleaning a rooted path never makes it longer. */
  lemma CleanShortens(path: string)
    requires path != "" && path[0] == '/'
    ensures |Clean(path)| <= |path|
  {
    var segments := Split(path[1..]);
    assert Split(path) == [""] + segments && ([""] + segments)[1..] == segments;
    assert Walk([], Split(path)) == Walk([], segments);
    WalkShortens([], segments);
    SplitLength(path[1..]);
    JoinLength(Segments(path));
  }

  lemma {:induction false} StartsWithSlash(space: Spaces, s: string)
    requires !space('/') && s != "" && s[0] == '/'
    ensures TrimEnd(space, s) != ""
    decreases |s|
  {
    if EndsInSpace(space, s) { StartsWithSlash(space, s[..|s| - 1]); }
  }

  lemma NormalizedIsClean(space: Spaces, path: string)
    ensures var once := Normalize(space, path); once != "" && once[0] == '/' && Clean(once) == once
  {
    var t := Trim(space, path);
    if t == "" {
      CleanOfDefault();
    } else {
      CleanIsIdempotent(t);
    }
  }

  lemma CleanOfDefault()
    ensures Clean(DEFAULT_BASE_PATH) == DEFAULT_BASE_PATH
  {
    SplitSegment("a2a");
    assert DEFAULT_BASE_PATH[1..] == "a2a";
    assert Split(DEFAULT_BASE_PATH) == [""] + ["a2a"];
    assert ([""] + ["a2a"])[1..] == ["a2a"];
    assert Walk([], ["a2a"]) == Walk(["a2a"], []) by { assert ["a2a"][1..] == []; }
  }

  lemma {:induction false} JoinEnds(segments: seq<string>)
    requires segments != [] && AllNamed(segments)
    ensures var last := segments[|segments| - 1];
      Join(segments) != "" && last != "" && Join(segments)[|Join(segments)| - 1] == last[|last| - 1]
    decreases |segments|
  {
    assert Named(segments[|segments| - 1]);
    if |segments| > 1 {
      var rest := segments[1..];
      assert rest[|rest| - 1] == segments[|segments| - 1];
      JoinEnds(rest);
    }
  }

  /** The last segment left of a path, if any is, ends in white space. */
  predicate LeavesSpace(space: Spaces, path: string) {
    var left := Segments(path);
    left != [] && EndsInSpace(space, left[|left| - 1])
  }

  /** A cleaned path ends as the last segment left of it does. */
  lemma EndsAsItsLastSegment(space: Spaces, path: string)
    requires !space('/')
    ensures EndsInSpace(space, Clean(path)) <==> LeavesSpace(space, path)
  {
    CleanLeavesNames(path);
    if Segments(path) != [] { JoinEnds(Segments(path)); }
  }

  /** A path that trimming leaves nothing of, or of whose segments the last one left does not end in white space. */
  predicate Settles(space: Spaces, path: string) {
    var trimmed := Trim(space, path);
    trimmed == "" || !LeavesSpace(space, trimmed)
  }

  /** What is trimmed and rooted settles exactly when there is nothing left to trim. */
  lemma RootedSettles(space: Spaces, path: string)
    requires !space('/') && path != "" && path[0] == '/' && Clean(path) == path
    ensures Normalize(space, path) == path <==> !EndsInSpace(space, path)
  {
    assert TrimStart(space, path) == path;
    TrimEndShortens(space, path);
    StartsWithSlash(space, path);
    if EndsInSpace(space, path) { CleanShortens(TrimEnd(space, path)); }
  }

  /**
   Normalizing twice is normalizing once exactly when the path settles. It is cleaning that can
   bring a space to the end, by dropping what stood after it.
   */
  lemma NormalizeSettlesExactly(space: Spaces, path: string)
    requires Sensible(space)
    ensures Normalize(space, Normalize(space, path)) == Normalize(space, path) <==> Settles(space, path)
  {
    SlashesAreNotSpace(space);
    NormalizedIsClean(space, path);
    RootedSettles(space, Normalize(space, path));
    EndsAsItsLastSegment(space, Trim(space, path));
  }

  lemma {:induction false} WalkKeepsSegments(stack: seq<string>, segments: seq<string>, s: string)
    requires s in Walk(stack, segments)
    ensures s in stack || s in segments
    decreases |segments|
  {
    if segments != [] { WalkKeepsSegments(Step(stack, segments[0]), segments[1..], s); }
  }

  lemma {:induction false} SplitKeepsCharacters(path: string, k: nat, c: char)
    requires k < |Split(path)| && c in Split(path)[k]
    ensures c in path
    decreases |path|
  {
    if path != "" {
      var rest := Split(path[1..]);
      if path[0] == '/' {
        if k > 0 { SplitKeepsCharacters(path[1..], k - 1, c); }
      } else if k > 0 {
        assert Split(path)[k] == rest[k];
        SplitKeepsCharacters(path[1..], k, c);
      } else if c != path[0] {
        assert c in rest[0];
        SplitKeepsCharacters(path[1..], 0, c);
      }
    }
  }

  lemma CleanKeepsCharacters(path: string, segment: string, c: char)
    requires segment in Segments(path) && c in segment
    ensures c in path
  {
    WalkKeepsSegments([], Split(path), segment);
    var k :| 0 <= k < |Split(path)| && Split(path)[k] == segment;
    SplitKeepsCharacters(path, k, c);
  }

  /** A path has no white space but at its ends. */
  ghost predicate NoSpaceWithin(space: Spaces, path: string) {
    forall c | c in Trim(space, path) :: !space(c)
  }

  /** Such a path settles. */
  lemma SettlesWithoutSpace(space: Spaces, path: string)
    requires NoSpaceWithin(space, path)
    ensures Settles(space, path)
  {
    var trimmed := Trim(space, path);
    if LeavesSpace(space, trimmed) {
      var last := Segments(trimmed)[|Segments(trimmed)| - 1];
      CleanKeepsCharacters(trimmed, last, last[|last| - 1]);
    }
  }

  lemma OneSegment(name: string)
    requires Named(name)
    ensures Segments(name) == [name] && Segments("/" + name) == [name]
  {
    SplitSegment(name);
    assert [name][1..] == [] && Walk([], [name]) == Walk([name], []);
    SegmentAdded("", name);
    assert "" + "/" + name == "/" + name;
    assert Split("") == [""] && [""][1..] == [] && Walk([], [""]) == Walk([], []);
  }

  /** A path whose last slash hides a space: what is left of it ends in white space, and does not settle. */
  lemma CleaningCanExposeSpace(space: Spaces)
    requires Sensible(space) && space(' ')
    ensures Normalize(space, "a /") == "/a " && Normalize(space, "/a ") == "/a" && !Settles(space, "a /")
  {
    SlashesAreNotSpace(space);
    assert DEFAULT_BASE_PATH[1] == 'a';
    OneSegment("a ");
    OneSegment("a");
    SegmentAdded("a ", "");
    assert "a " + "/" + "" == "a /" && "/" + "a" == "/a";
    assert "/a "[..2] == "/a" && TrimEnd(space, "/a ") == TrimEnd(space, "/a");
  }

  // ---------------------------------------------------------------- the configuration

  datatype Transport = JsonRpc | Rest | Grpc

  /** The fields a server's places are resolved from. `mux` is whether a host shares one. */
  datatype Config = Config(
    transport: Option<Transport>,
    transports: seq<Transport>,
    addr: string,
    basePath: string,
    generatedBasePath: string,
    publicUrl: string,
    mux: bool,
    serveAgentCard: bool)

  datatype Endpoint = Endpoint(transport: Transport, url: string, cardUrl: string)

  /**
   How addresses turn into URLs: what goes before and after a path, given the public URL and
   the listen address, and what a gRPC client dials. It is a matter of those two alone.
   `cardPath` is the one path an agent card is looked for at.
   */
  datatype Urls = Urls(
    before: (string, string) -> string,
    after: (string, string) -> string,
    dial: (string, string) -> string,
    cardPath: string)

  const DEFAULT_ADDR := "127.0.0.1:9000"

  function ResolvedTransports(cfg: Config): seq<Transport> {
    if cfg.transports != [] then cfg.transports
    else if cfg.transport.Some? then [cfg.transport.value]
    else [JsonRpc]
  }

  function ResolvedAddr(cfg: Config): string {
    if cfg.addr == "" then DEFAULT_ADDR else cfg.addr
  }

  /** The first candidate that is not blank. */
  function Pick(space: Spaces, candidates: seq<string>): Option<string> {
    if candidates == [] then None
    else if Trim(space, candidates[0]) != "" then Some(Trim(space, candidates[0]))
    else Pick(space, candidates[1..])
  }

  /** `resolve_base_path`. */
  function ResolveBasePath(space: Spaces, cfg: Config, generatedDefault: string): string {
    match Pick(space, [generatedDefault, cfg.generatedBasePath, cfg.basePath])
    case None => DEFAULT_BASE_PATH
    case Some(candidate) => Normalize(space, candidate)
  }

  /** The generated default wins over the generated path, that over the configured one, and blank ones never do. */
  lemma ResolvedInOrder(space: Spaces, cfg: Config, generatedDefault: string)
    ensures ResolveBasePath(space, cfg, generatedDefault) ==
            Normalize(space, if Trim(space, generatedDefault) != "" then generatedDefault
                             else if Trim(space, cfg.generatedBasePath) != "" then cfg.generatedBasePath
                             else cfg.basePath)
  {
    var candidates := [generatedDefault, cfg.generatedBasePath, cfg.basePath];
    var second, third := [cfg.generatedBasePath, cfg.basePath], [cfg.basePath];
    assert candidates[1..] == second && second[1..] == third && third[1..] == [];
    TrimIsIdempotent(space, generatedDefault);
    TrimIsIdempotent(space, cfg.generatedBasePath);
    TrimIsIdempotent(space, cfg.basePath);
    if Trim(space, generatedDefault) == "" {
      assert Pick(space, candidates) == Pick(space, second);
      if Trim(space, cfg.generatedBasePath) == "" {
        assert Pick(space, second) == Pick(space, third);
        assert Pick(space, []) == None;
        if Trim(space, cfg.basePath) == "" { assert Pick(space, third) == None; }
      }
    }
  }

  function ResolvedBasePath(space: Spaces, cfg: Config): string {
    ResolveBasePath(space, cfg, "")
  }

  function WithPath(urls: Urls, cfg: Config, path: string): string {
    urls.before(cfg.publicUrl, ResolvedAddr(cfg)) + path + urls.after(cfg.publicUrl, ResolvedAddr(cfg))
  }

  /** `public_url_for`. */
  function PublicUrl(space: Spaces, urls: Urls, cfg: Config, transport: Transport): string {
    if transport.Grpc? then urls.dial(cfg.publicUrl, ResolvedAddr(cfg))
    else WithPath(urls, cfg, ResolvedBasePath(space, cfg))
  }

  /** `card_url`. */
  function CardUrl(urls: Urls, cfg: Config): string {
    if !cfg.serveAgentCard && cfg.mux then "" else WithPath(urls, cfg, urls.cardPath)
  }

  /** `server_endpoints`. */
  function Endpoints(space: Spaces, urls: Urls, cfg: Config): (endpoints: seq<Endpoint>)
    ensures |endpoints| == |ResolvedTransports(cfg)|
  {
    var transports := ResolvedTransports(cfg);
    seq(|transports|, k requires 0 <= k < |transports| =>
      Endpoint(transports[k], PublicUrl(space, urls, cfg, transports[k]), CardUrl(urls, cfg)))
  }

  /** `cfg` is what resolving `given` comes to. */
  ghost predicate IsResolved(space: Spaces, given: Config, cfg: Config) {
    && cfg.transports == ResolvedTransports(given) != []
    && cfg.addr == ResolvedAddr(given) && cfg.publicUrl == given.publicUrl
    && cfg.basePath == ResolvedBasePath(space, given) && cfg.generatedBasePath == ""
    && cfg.mux == given.mux && (cfg.serveAgentCard <==> given.serveAgentCard || !given.mux)
  }

  /** What `start_server` makes of its configuration before it serves anything. */
  method Resolve(space: Spaces, given: Config) returns (cfg: Config)
    ensures IsResolved(space, given, cfg)
  {
    cfg := given;
    var transports := ResolvedTransports(cfg);
    cfg := cfg.(addr := ResolvedAddr(cfg));
    cfg := cfg.(basePath := ResolvedBasePath(space, cfg));
    cfg := cfg.(transports := transports);
    cfg := cfg.(generatedBasePath := "");
    if !cfg.mux { cfg := cfg.(serveAgentCard := true); }
  }

  /** The path a configuration names: the generated one, or else the one set by hand. */
  function Configured(space: Spaces, cfg: Config): string {
    if Trim(space, cfg.generatedBasePath) != "" then cfg.generatedBasePath else cfg.basePath
  }

  lemma ResolvesTheConfigured(space: Spaces, cfg: Config)
    ensures ResolvedBasePath(space, cfg) == Normalize(space, Configured(space, cfg))
  {
    ResolvedInOrder(space, cfg, "");
    assert Trim(space, "") == "";
  }

  /** Resolving the path over again normalizes it over again. */
  lemma ResolvingAgain(space: Spaces, given: Config, cfg: Config)
    requires IsResolved(space, given, cfg)
    ensures ResolvedBasePath(space, cfg) == Normalize(space, ResolvedBasePath(space, given))
  {
    ResolvesTheConfigured(space, cfg);
    assert Trim(space, "") == "";
  }

  /** A server that speaks anything but gRPC is reached by its path. */
  predicate HasPath(cfg: Config) {
    exists k | 0 <= k < |ResolvedTransports(cfg)| :: !ResolvedTransports(cfg)[k].Grpc?
  }

  /**
   What a server advertises before it resolves its configuration is what it advertises after,
   exactly when the path it was configured with settles or no transport uses the path.
   */
  lemma AdvertisedStaysExactly(space: Spaces, urls: Urls, given: Config, cfg: Config)
    requires Sensible(space) && IsResolved(space, given, cfg)
    ensures Endpoints(space, urls, cfg) == Endpoints(space, urls, given)
       <==> !HasPath(given) || Settles(space, Configured(space, given))
  {
    ResolvesTheConfigured(space, given);
    NormalizeSettlesExactly(space, Configured(space, given));
    ResolvingAgain(space, given, cfg);
    var once, twice := ResolvedBasePath(space, given), ResolvedBasePath(space, cfg);
    assert CardUrl(urls, cfg) == CardUrl(urls, given);
    var transports := ResolvedTransports(given);
    assert ResolvedTransports(cfg) == transports;
    forall k | 0 <= k < |transports|
      ensures Endpoints(space, urls, cfg)[k] == Endpoints(space, urls, given)[k] <==> transports[k].Grpc? || once == twice
    {
      PathsShow(urls, given, once, twice);
    }
  }

  /** Different paths make different URLs. */
  lemma PathsShow(urls: Urls, cfg: Config, a: string, b: string)
    ensures WithPath(urls, cfg, a) == WithPath(urls, cfg, b) <==> a == b
  {
    var before, after := urls.before(cfg.publicUrl, ResolvedAddr(cfg)), urls.after(cfg.publicUrl, ResolvedAddr(cfg));
    assert (before + a + after)[|before|..] == a + after;
    assert (before + b + after)[|before|..] == b + after;
    if a + after == b + after {
      assert (a + after)[..|a|] == a && (b + after)[..|b|] == b;
    }
  }

  /** What is advertised is where the server mounts exactly when the path it was configured with settles. */
  lemma AdvertisedIsMountedExactly(space: Spaces, given: Config, cfg: Config)
    requires Sensible(space) && IsResolved(space, given, cfg)
    ensures ResolvedBasePath(space, cfg) == cfg.basePath <==> Settles(space, Configured(space, given))
  {
    ResolvesTheConfigured(space, given);
    NormalizeSettlesExactly(space, Configured(space, given));
    ResolvingAgain(space, given, cfg);
  }

  /** A server configured with no white space inside its path advertises one thing throughout, and mounts there. */
  lemma AdvertisedWithoutSpace(space: Spaces, urls: Urls, given: Config, cfg: Config)
    requires Sensible(space) && IsResolved(space, given, cfg)
    requires NoSpaceWithin(space, Configured(space, given))
    ensures Endpoints(space, urls, cfg) == Endpoints(space, urls, given)
    ensures ResolvedBasePath(space, cfg) == cfg.basePath
  {
    SettlesWithoutSpace(space, Configured(space, given));
    AdvertisedStaysExactly(space, urls, given, cfg);
    AdvertisedIsMountedExactly(space, given, cfg);
  }
}
