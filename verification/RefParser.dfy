/** `parse_registry_ref`: the grammar of registry references, and its agreement with sink URIs. */
module RefParser {
  import opened Wrappers
  import opened Text
  import opened Oci

  datatype RefTarget = Tag(tag: string) | Digest(digest: string) {
    /** What `GET /v2/<repo>/manifests/<reference>` asks for. */
    function Reference(): string { if Tag? then tag else digest }
  }

  datatype RegistryRef = RegistryRef(host: string, repository: string, target: RefTarget, raw: string)

  datatype RefError =
    | EmptyReference | Whitespace | SchemePrefix
    | BadDigest(defect: DigestDefect)
    | NoSlash | MissingTag | EmptyTag | TagTooLong | TagIllegal
    | EmptyHost | EmptyRepository
    | StrayColon | HostIllegal | NotARegistry
    | RepoTooLong | RepoSlash | RepoIllegal

  // ── the grammar ──

  const MAX_TAG: nat := 128
  const MAX_REPO: nat := 256

  predicate TagChar(c: char) { IsAlnum(c) || c == '_' || c == '.' || c == '-' }
  predicate HostChar(c: char) { IsAlnum(c) || c == '.' || c == '-' || c == ':' }
  predicate RepoChar(c: char) { IsLower(c) || IsDigit(c) || c == '_' || c == '.' || c == '-' || c == '/' }

  predicate AllTag(s: string) { forall i :: 0 <= i < |s| ==> TagChar(s[i]) }
  predicate AllHost(s: string) { forall i :: 0 <= i < |s| ==> HostChar(s[i]) }
  predicate AllRepo(s: string) { forall i :: 0 <= i < |s| ==> RepoChar(s[i]) }

  predicate ValidTag(t: string) { 0 < |t| <= MAX_TAG && AllTag(t) }

  predicate ValidHost(h: string)
  {
    && h != "" && h[0] != ':' && h[|h| - 1] != ':' && AllHost(h)
    && ('.' in h || ':' in h)
  }

  predicate ValidRepository(r: string)
  {
    0 < |r| <= MAX_REPO && r[0] != '/' && r[|r| - 1] != '/' && AllRepo(r)
  }

  predicate ValidTarget(t: RefTarget)
  {
    match t
    case Tag(tag) => ValidTag(tag)
    case Digest(digest) => Addressable(digest)
  }

  /** host '/' repository (':' tag | '@' digest). */
  function Print(host: string, repository: string, target: RefTarget): string
  {
    host + ['/'] + repository + TargetText(target)
  }

  function TargetText(target: RefTarget): string { if target.Tag? then [':'] + target.tag else ['@'] + target.digest }

  predicate InGrammar(r: RegistryRef)
  {
    ValidHost(r.host) && ValidRepository(r.repository) && ValidTarget(r.target)
      && r.raw == Print(r.host, r.repository, r.target)
  }

  // ── the parser ──

  function ValidateTag(tag: string): Result<(), RefError>
  {
    if |tag| > MAX_TAG then Err(TagTooLong) else if !AllTag(tag) then Err(TagIllegal) else Ok(())
  }

  function ValidateHost(host: string): Result<(), RefError>
    requires host != ""
  {
    if host[0] == ':' || host[|host| - 1] == ':' then Err(StrayColon)
    else if !AllHost(host) then Err(HostIllegal)
    else if '.' !in host && ':' !in host then Err(NotARegistry)
    else Ok(())
  }

  function ValidateRepository(repo: string): Result<(), RefError>
    requires repo != ""
  {
    if |repo| > MAX_REPO then Err(RepoTooLong)
    else if repo[0] == '/' || repo[|repo| - 1] == '/' then Err(RepoSlash)
    else if !AllRepo(repo) then Err(RepoIllegal)
    else Ok(())
  }

  /** The tag is what follows the last ':' of the path. */
  function SplitTag(raw: string): (r: Result<(string, string), RefError>)
    ensures r.Ok? ==> raw == r.value.0 + [':'] + r.value.1
  {
    var slash := IndexOf(raw, '/');
    if slash == |raw| then Err(NoSlash)
    else
      var split := RSplitOnce(raw[slash..], ':');
      if split.None? then Err(MissingTag)
      else
        assert raw == raw[..slash] + raw[slash..];
        Ok((raw[..slash] + split.value.0, split.value.1))
  }

  /** A digest follows the last '@'; without one there must be a tag. */
  function SplitTarget(raw: string): Result<(string, RefTarget), RefError>
  {
    var at := RSplitOnce(raw, '@');
    if at.Some? then DigestTarget(at.value.0, at.value.1)
    else
      var split :- SplitTag(raw);
      TagTarget(split.0, split.1)
  }

  function DigestTarget(head: string, digest: string): Result<(string, RefTarget), RefError>
  {
    var hex := HexOf(digest);
    if hex.Err? then Err(BadDigest(hex.error)) else Ok((head, Digest(digest)))
  }

  function TagTarget(head: string, tag: string): Result<(string, RefTarget), RefError>
  {
    if tag == "" then Err(EmptyTag)
    else
      var _ :- ValidateTag(tag);
      Ok((head, Tag(tag)))
  }

  /** Host and repository around the first '/'. */
  function SplitHead(head: string): Result<(string, string), RefError>
  {
    var parts := SplitOnce(head, '/');
    if parts.None? then Err(NoSlash)
    else if parts.value.0 == "" then Err(EmptyHost)
    else if parts.value.1 == "" then Err(EmptyRepository)
    else
      var _ :- ValidateHost(parts.value.0);
      var _ :- ValidateRepository(parts.value.1);
      Ok(parts.value)
  }

  function ParseRegistryRef(raw: string): Result<RegistryRef, RefError>
  {
    if raw == "" then Err(EmptyReference)
    else if ' ' in raw then Err(Whitespace)
    else if StartsWith(raw, "http://") || StartsWith(raw, "https://") then Err(SchemePrefix)
    else
      var split :- SplitTarget(raw);
      var parts :- SplitHead(split.0);
      Ok(RegistryRef(parts.0, parts.1, split.1, raw))
  }

  // ── exactness ──

  lemma DigestParts(head: string, digest: string)
    requires DigestTarget(head, digest).Ok?
    ensures DigestTarget(head, digest) == Ok((head, Digest(digest))) && Addressable(digest)
  {
  }

  lemma TagParts(head: string, tag: string)
    requires TagTarget(head, tag).Ok?
    ensures TagTarget(head, tag) == Ok((head, Tag(tag))) && ValidTag(tag)
  {
  }

  /** What a split target says about the reference. */
  predicate TargetOf(raw: string, head: string, target: RefTarget)
  {
    ValidTarget(target) && raw == head + TargetText(target)
  }

  lemma TargetParts(raw: string)
    requires SplitTarget(raw).Ok?
    ensures TargetOf(raw, SplitTarget(raw).value.0, SplitTarget(raw).value.1)
  {
    var at := RSplitOnce(raw, '@');
    if at.Some? {
      DigestParts(at.value.0, at.value.1);
      Regroup(at.value.0, '@', at.value.1);
    } else {
      var split := SplitTag(raw).value;
      TagParts(split.0, split.1);
      Regroup(split.0, ':', split.1);
    }
  }

  lemma Regroup(a: string, c: char, b: string)
    ensures a + [c] + b == a + ([c] + b)
  {
  }

  lemma HeadParts(head: string)
    requires SplitHead(head).Ok?
    ensures var (host, repository) := SplitHead(head).value;
      ValidHost(host) && ValidRepository(repository) && head == host + ['/'] + repository
  {
  }

  lemma HeadInGrammar(raw: string, head: string, target: RefTarget, r: RegistryRef)
    requires TargetOf(raw, head, target) && SplitHead(head).Ok?
    requires r == RegistryRef(SplitHead(head).value.0, SplitHead(head).value.1, target, raw)
    ensures InGrammar(r)
  {
    HeadParts(head);
  }

  /** Whatever is accepted is in the grammar, and prints back to the input. */
  lemma AcceptedInGrammar(raw: string)
    requires ParseRegistryRef(raw).Ok?
    ensures InGrammar(ParseRegistryRef(raw).value) && ParseRegistryRef(raw).value.raw == raw
  {
    TargetParts(raw);
    var split := SplitTarget(raw).value;
    HeadInGrammar(raw, split.0, split.1, ParseRegistryRef(raw).value);
  }

  lemma HexHasNo(d: string, c: char)
    requires Addressable(d) && (c == '@' || c == ' ' || c == '/')
    ensures c !in d
  {
    var hex := HexOf(d).value;
    assert d == "sha256:" + hex;
  }

  lemma DigestSplits(head: string, d: string)
    requires Addressable(d)
    ensures SplitTarget(head + (['@'] + d)) == Ok((head, Digest(d)))
  {
    HexHasNo(d, '@');
    RSplitOnceUnique(head, '@', d);
    Regroup(head, '@', d);
  }

  lemma SlashFound(host: string, rest: string)
    requires '/' !in host
    ensures IndexOf(host + ['/'] + rest, '/') == |host|
  {
    var raw := host + ['/'] + rest;
    assert raw[|host|] == '/' && forall k :: 0 <= k < |host| ==> raw[k] == host[k];
  }

  lemma TagFound(host: string, repository: string, t: string)
    requires '/' !in host && ':' !in t
    ensures SplitTag(host + ['/'] + repository + ([':'] + t)) == Ok((host + ['/'] + repository, t))
  {
    var path := ['/'] + repository;
    var raw := host + ['/'] + repository + ([':'] + t);
    SlashFound(host, repository + ([':'] + t));
    assert raw == host + ['/'] + (repository + ([':'] + t));
    assert raw[|host|..] == path + [':'] + t && raw[..|host|] == host;
    RSplitOnceUnique(path, ':', t);
    assert host + path == host + ['/'] + repository;
  }

  lemma Lacks(a: string, b: string, c: char)
    requires c !in a && c !in b
    ensures c !in a + b
  {
  }

  lemma TagChosen(raw: string, head: string, t: string)
    requires '@' !in raw && SplitTag(raw) == Ok((head, t)) && ValidTag(t)
    ensures SplitTarget(raw) == Ok((head, Tag(t)))
  {
    assert TagTarget(head, t) == Ok((head, Tag(t)));
  }

  lemma TagSplits(host: string, repository: string, t: string)
    requires ValidHost(host) && ValidRepository(repository) && ValidTag(t)
    ensures SplitTarget(host + ['/'] + repository + ([':'] + t)) == Ok((host + ['/'] + repository, Tag(t)))
  {
    TagFound(host, repository, t);
    var raw := host + ['/'] + repository + ([':'] + t);
    Lacks(host, ['/'], '@');
    Lacks(host + ['/'], repository, '@');
    Lacks([':'], t, '@');
    Lacks(host + ['/'] + repository, [':'] + t, '@');
    TagChosen(raw, host + ['/'] + repository, t);
  }

  lemma HeadSplits(host: string, repository: string)
    requires ValidHost(host) && ValidRepository(repository)
    ensures SplitHead(host + ['/'] + repository) == Ok((host, repository))
  {
    SplitOnceUnique(host, '/', repository);
  }

  /** A host never makes the reference look like a URL. */
  lemma NotScheme(host: string, rest: string)
    requires ValidHost(host)
    ensures !("http://" <= host + ['/'] + rest) && !("https://" <= host + ['/'] + rest)
  {
    var raw := host + ['/'] + rest;
    assert raw[|host|] == '/' && forall i :: 0 <= i < |host| ==> raw[i] == host[i];
    assert "http://"[5] == '/' && "http://"[4] == ':' && "https://"[6] == '/' && "https://"[5] == ':';
    assert raw[|host| - 1] != ':' && forall i :: 0 <= i < |host| ==> raw[i] != '/';
  }

  lemma NoBlank(host: string, repository: string, target: RefTarget)
    requires ValidHost(host) && ValidRepository(repository) && ValidTarget(target)
    ensures ' ' !in Print(host, repository, target)
  {
    if target.Digest? { HexHasNo(target.digest, ' '); }
  }

  lemma Accepts(raw: string, head: string, host: string, repository: string, target: RefTarget)
    requires raw != "" && ' ' !in raw && !("http://" <= raw) && !("https://" <= raw)
    requires SplitTarget(raw) == Ok((head, target)) && SplitHead(head) == Ok((host, repository))
    ensures ParseRegistryRef(raw) == Ok(RegistryRef(host, repository, target, raw))
  {
  }

  /** Everything in the grammar is accepted, with exactly its own parts. */
  lemma GrammarAccepted(host: string, repository: string, target: RefTarget)
    requires ValidHost(host) && ValidRepository(repository) && ValidTarget(target)
    ensures ParseRegistryRef(Print(host, repository, target)) ==
      Ok(RegistryRef(host, repository, target, Print(host, repository, target)))
  {
    var raw, head := Print(host, repository, target), host + ['/'] + repository;
    PrintNoScheme(host, repository, TargetText(target));
    NoBlank(host, repository, target);
    HeadSplits(host, repository);
    TargetSplits(host, repository, target);
    Accepts(raw, head, host, repository, target);
  }

  lemma PrintNoScheme(host: string, repository: string, text: string)
    requires ValidHost(host)
    ensures var raw := host + ['/'] + repository + text;
      raw != "" && !("http://" <= raw) && !("https://" <= raw)
  {
    assert host + ['/'] + repository + text == host + ['/'] + (repository + text);
    NotScheme(host, repository + text);
  }

  lemma TargetSplits(host: string, repository: string, target: RefTarget)
    requires ValidHost(host) && ValidRepository(repository) && ValidTarget(target)
    ensures SplitTarget(Print(host, repository, target)) == Ok((host + ['/'] + repository, target))
  {
    if target.Tag? {
      TagSplits(host, repository, target.tag);
    } else {
      DigestSplits(host + ['/'] + repository, target.digest);
    }
  }

  /** The parser accepts exactly the grammar; what it returns is the one decomposition of its input. */
  lemma ParsesExactly(raw: string, r: RegistryRef)
    ensures ParseRegistryRef(raw) == Ok(r) <==> r.raw == raw && InGrammar(r)
  {
    if ParseRegistryRef(raw) == Ok(r) { AcceptedInGrammar(raw); }
    if r.raw == raw && InGrammar(r) { GrammarAccepted(r.host, r.repository, r.target); }
  }

  /** A reference decomposes in one way only. */
  lemma DecompositionUnique(a: RegistryRef, b: RegistryRef)
    requires InGrammar(a) && InGrammar(b) && a.raw == b.raw
    ensures a == b
  {
    ParsesExactly(a.raw, a);
    ParsesExactly(b.raw, b);
  }

  // ── sink URIs ──

  datatype ParsedSink = HttpSink(destDir: string) | RegistrySink(registry: string, repository: string, tag: string)

  datatype SinkError = EmptyPath | NoTag | TagEmpty | NoRepository | PartEmpty | UnknownScheme

  /** <host>/<repo>:<tag>, split at the last ':' and then at the first '/'. */
  function ParseRegistrySink(rest: string): Result<ParsedSink, SinkError>
  {
    var split := RSplitOnce(rest, ':');
    if split.None? then Err(NoTag)
    else if split.value.1 == "" then Err(TagEmpty)
    else
      var parts := SplitOnce(split.value.0, '/');
      if parts.None? then Err(NoRepository)
      else if parts.value.0 == "" || parts.value.1 == "" then Err(PartEmpty)
      else Ok(RegistrySink(parts.value.0, parts.value.1, split.value.1))
  }

  function ParseSinkUri(raw: string): Result<ParsedSink, SinkError>
  {
    if StartsWith(raw, "http:") then (if raw[5..] == "" then Err(EmptyPath) else Ok(HttpSink(raw[5..])))
    else if StartsWith(raw, "registry:") then ParseRegistrySink(raw[9..])
    else Err(UnknownScheme)
  }

  lemma SinkSplits(host: string, repository: string, tag: string)
    requires '/' !in host && ':' !in tag && host != "" && repository != "" && tag != ""
    ensures ParseRegistrySink(host + ['/'] + repository + ([':'] + tag)) == Ok(RegistrySink(host, repository, tag))
  {
    assert host + ['/'] + repository + ([':'] + tag) == (host + ['/'] + repository) + [':'] + tag;
    RSplitOnceUnique(host + ['/'] + repository, ':', tag);
    SplitOnceUnique(host, '/', repository);
  }

  lemma SinkScheme(rest: string)
    ensures ParseSinkUri("registry:" + rest) == ParseRegistrySink(rest)
  {
    var uri := "registry:" + rest;
    assert uri[9..] == rest && uri[..9] == "registry:" && uri[0] == 'r' && "http:"[0] == 'h';
  }

  /** A sink is written like this, in one way only. */
  ghost predicate SpellsSink(raw: string, s: ParsedSink)
  {
    match s
    case HttpSink(dir) => dir != "" && raw == "http:" + dir
    case RegistrySink(host, repository, tag) =>
      && host != "" && repository != "" && tag != "" && '/' !in host && ':' !in tag
      && raw == "registry:" + host + "/" + repository + ":" + tag
  }

  /** The URIs that are accepted, and the sinks they name, are exactly these. */
  lemma SinksExactly(raw: string, s: ParsedSink)
    ensures ParseSinkUri(raw) == Ok(s) <==> SpellsSink(raw, s)
  {
    if ParseSinkUri(raw) == Ok(s) { SinkSpelled(raw, s); }
    if SpellsSink(raw, s) {
      match s
      case HttpSink(dir) => HttpRouted(dir);
      case RegistrySink(host, repository, tag) =>
        Rejoin(host, repository, tag);
        SinkSplits(host, repository, tag);
        SinkRouted(host + ['/'] + repository + ([':'] + tag), s);
    }
  }

  lemma HttpRouted(dir: string)
    requires dir != ""
    ensures ParseSinkUri("http:" + dir) == Ok(HttpSink(dir))
  {
    assert ("http:" + dir)[..5] == "http:" && ("http:" + dir)[5..] == dir;
  }

  lemma Rejoin(host: string, repository: string, tag: string)
    ensures "registry:" + host + "/" + repository + ":" + tag ==
      "registry:" + (host + ['/'] + repository + ([':'] + tag))
  {
  }

  lemma SinkSpelled(raw: string, s: ParsedSink)
    requires ParseSinkUri(raw) == Ok(s)
    ensures SpellsSink(raw, s)
  {
    if s.HttpSink? {
      assert raw == raw[..5] + raw[5..] && raw[..5] == "http:";
    } else {
      assert raw == raw[..9] + raw[9..] && raw[..9] == "registry:";
      RegistrySpelled(raw[9..], s);
      SchemePut(raw, raw[9..], s.registry, s.repository, s.tag);
    }
  }

  lemma SchemePut(raw: string, rest: string, host: string, repository: string, tag: string)
    requires raw == "registry:" + rest && rest == host + "/" + repository + ":" + tag
    ensures raw == "registry:" + host + "/" + repository + ":" + tag
  {
  }

  lemma RegistrySpelled(rest: string, s: ParsedSink)
    requires ParseRegistrySink(rest) == Ok(s)
    ensures s.RegistrySink? && s.registry != "" && s.repository != "" && s.tag != ""
    ensures '/' !in s.registry && ':' !in s.tag && rest == s.registry + "/" + s.repository + ":" + s.tag
  {
  }

  /** A tag reference names the same place to a pull and, as a sink URI, to a publish. */
  lemma SinkAgrees(raw: string, r: RegistryRef)
    requires ParseRegistryRef(raw) == Ok(r) && r.target.Tag?
    ensures ParseSinkUri("registry:" + raw) == Ok(RegistrySink(r.host, r.repository, r.target.tag))
  {
    ParsesExactly(raw, r);
    SinkOfGrammar(r);
  }

  lemma SinkOfGrammar(r: RegistryRef)
    requires InGrammar(r) && r.target.Tag?
    ensures ParseSinkUri("registry:" + r.raw) == Ok(RegistrySink(r.host, r.repository, r.target.tag))
  {
    PartsApart(r.host, r.target.tag);
    SinkSplits(r.host, r.repository, r.target.tag);
    SinkRouted(r.raw, RegistrySink(r.host, r.repository, r.target.tag));
  }

  lemma PartsApart(host: string, tag: string)
    requires ValidHost(host) && ValidTag(tag)
    ensures '/' !in host && ':' !in tag
  {
  }

  lemma SinkRouted(rest: string, sink: ParsedSink)
    requires ParseRegistrySink(rest) == Ok(sink)
    ensures ParseSinkUri("registry:" + rest) == Ok(sink)
  {
    SinkScheme(rest);
  }
}
