/** Module specifier resolution of the script runtime
  * (`js_thread/module_loader.rs`): `npm:` specifiers go to the esm.sh CDN,
  * `jsr:` specifiers to the jsr.io registry, absolute http(s) URLs are taken
  * as they are, and anything else is resolved against the importing module.
  * URL parsing and relative resolution are the runtime's own and are passed
  * in as functions. */
module ModuleLoader {
  import opened Common

  datatype Result<T> = Ok(value: T) | Err(message: string)

  /** A parsed URL: its text, its scheme and its path. */
  datatype Url = Url(href: string, scheme: string, path: string)

  /** `ModuleSpecifier::parse`, and `resolve_import` of a specifier against
    * its referrer. */
  datatype UrlServices = UrlServices(parse: string -> Option<Url>, resolveImport: (string, string) -> Result<Url>)

  datatype MediaType = TypeScript | Tsx | JavaScript | Jsx | Json | Unknown

  // ----- jsr: -----

  /** `parse_package_version`: split at the first `@` into package and
    * version; without one, the version is empty. The path is passed
    * through. */
  function ParsePackageVersion(pkg: string, path: string): (r: (string, string, string))
    ensures '@' !in pkg ==> r == (pkg, "", path)
    ensures '@' in pkg ==> r.0 + "@" + r.1 == pkg && '@' !in r.0
    ensures r.2 == path
  {
    match Find(pkg, '@')
    case None => (pkg, "", path)
    case Some(at) =>
      assert pkg[..at] + "@" + pkg[at + 1..] == pkg;
      (pkg[..at], pkg[at + 1..], path)
  }

  /** A package name without `@` and any version are recovered from their
    * join. */
  lemma PackageVersionRoundTrip(package: string, version: string, path: string)
    requires '@' !in package
    ensures ParsePackageVersion(package + "@" + version, path) == (package, version, path)
  {
    FindAfterFree(package, '@', version);
    assert (package + "@" + version)[..|package|] == package;
    assert (package + "@" + version)[|package| + 1..] == version;
  }

  /** `splitn(3, '/')`: at most three pieces; the last keeps any further
    * slashes. */
  function SplitN3(s: string): (r: seq<string>)
    ensures 1 <= |r| <= 3
    ensures |r| == 1 <==> '/' !in s
    ensures |r| == 1 ==> r[0] == s
    ensures |r| >= 2 ==> '/' !in r[0] && '/' !in r[1]
  {
    match Find(s, '/')
    case None => [s]
    case Some(i) =>
      var tail := s[i + 1..];
      match Find(tail, '/')
      case None => [s[..i], tail]
      case Some(j) => [s[..i], tail[..j], tail[j + 1..]]
  }

  const JsrNotScoped := "jsr: specifier must start with @scope/package"
  const JsrNoPackage := "jsr: specifier must be @scope/package"

  /** The jsr.io URL of a package file: a non-empty version becomes a path
    * segment after the package, and the file defaults to `mod.ts`. */
  function JsrUrl(scope: string, package: string, version: string, path: string): string {
    "https://jsr.io/" + scope + "/" + package + (if version == [] then "" else "/" + version) + "/"
      + (if path == [] then "mod.ts" else path)
  }

  /** `resolve_jsr_specifier` up to URL parsing: the URL text for
    * `jsr:@scope/package[@version][/path]`, leading slashes after the
    * prefix ignored. */
  function JsrUrlText(specifier: string): (r: Result<string>)
    ensures !StartsWith(specifier, "jsr:") ==> r == Err("Not a jsr: specifier")
    ensures StartsWith(specifier, "jsr:") ==> r == ScopedUrlText(TrimStartChar(specifier[4..], '/'))
  {
    match StripPrefix(specifier, "jsr:")
    case None => Err("Not a jsr: specifier")
    case Some(rest) =>
      assert rest == specifier[4..];
      ScopedUrlText(TrimStartChar(rest, '/'))
  }

  /** The part after `jsr:`: a scope starting with `@`, a package with an
    * optional `@version`, and an optional path. */
  function ScopedUrlText(rest: string): (r: Result<string>)
    ensures !StartsWith(rest, "@") ==> r == Err(JsrNotScoped)
    ensures StartsWith(rest, "@") && '/' !in rest ==> r == Err(JsrNoPackage)
    ensures r.Ok? ==> StartsWith(r.value, "https://jsr.io/@")
  {
    if !StartsWith(rest, "@") then Err(JsrNotScoped)
    else
      var parts := SplitN3(rest);
      if |parts| < 2 then Err(JsrNoPackage)
      else
        var pv := ParsePackageVersion(parts[1], if |parts| == 2 then "" else parts[2]);
        ScopeKeepsAt(rest);
        var url := JsrUrl(parts[0], pv.0, pv.1, pv.2);
        assert url[..16] == "https://jsr.io/@";
        Ok(url)
  }

  /** The scope, as the first piece of a string starting with `@`, starts
    * with `@`. */
  lemma ScopeKeepsAt(rest: string)
    requires StartsWith(rest, "@") && '/' in rest
    ensures SplitN3(rest)[0][..1] == "@"
  {
    assert rest[0] == '@';
  }

  lemma SplitTwo(a: string, b: string)
    requires '/' !in a && '/' !in b
    ensures SplitN3(a + "/" + b) == [a, b]
  {
    FindAfterFree(a, '/', b);
    assert (a + "/" + b)[..|a|] == a;
    assert (a + "/" + b)[|a| + 1..] == b;
  }

  lemma SplitThree(a: string, b: string, c: string)
    requires '/' !in a && '/' !in b
    ensures SplitN3(a + "/" + b + "/" + c) == [a, b, c]
  {
    var s := a + "/" + (b + "/" + c);
    assert a + "/" + b + "/" + c == s;
    FindAfterFree(a, '/', b + "/" + c);
    assert s[..|a|] == a;
    assert s[|a| + 1..] == b + "/" + c;
    FindAfterFree(b, '/', c);
    assert (b + "/" + c)[..|b|] == b;
    assert (b + "/" + c)[|b| + 1..] == c;
  }

  /** A bare scoped package resolves to its `mod.ts`. */
  lemma JsrBarePackage(scope: string, package: string)
    requires '/' !in scope && '/' !in package && '@' !in package
    ensures JsrUrlText("jsr:@" + scope + "/" + package) == Ok("https://jsr.io/@" + scope + "/" + package + "/mod.ts")
  {
    var at := "@" + scope;
    var rest := at + "/" + package;
    assert "jsr:@" + scope + "/" + package == "jsr:" + rest;
    JsrOfScoped(rest);
    ScopedBare(at, package);
    BareUrl(scope, package);
  }

  lemma BareUrl(scope: string, package: string)
    ensures JsrUrl("@" + scope, package, "", "") == "https://jsr.io/@" + scope + "/" + package + "/mod.ts"
  {
    assert "https://jsr.io/" + ("@" + scope) == "https://jsr.io/@" + scope;
  }

  /** With a version and a path, both become path segments in that order. */
  lemma JsrVersionedPath(scope: string, package: string, version: string, path: string)
    requires '/' !in scope && '/' !in package && '@' !in package && '/' !in version
    requires version != [] && path != []
    ensures JsrUrlText("jsr:@" + scope + "/" + package + "@" + version + "/" + path)
            == Ok("https://jsr.io/@" + scope + "/" + package + "/" + version + "/" + path)
  {
    var at := "@" + scope;
    var rest := at + "/" + (package + "@" + version) + "/" + path;
    assert "jsr:@" + scope + "/" + package + "@" + version + "/" + path == "jsr:" + rest;
    JsrOfScoped(rest);
    ScopedVersionedPath(at, package, version, path);
    VersionedPathUrl(scope, package, version, path);
  }

  /** A path without a version names that file of the package directly. */
  lemma JsrUnversionedPath(scope: string, package: string, path: string)
    requires '/' !in scope && '/' !in package && '@' !in package
    requires path != []
    ensures JsrUrlText("jsr:@" + scope + "/" + package + "/" + path)
            == Ok("https://jsr.io/@" + scope + "/" + package + "/" + path)
  {
    var at := "@" + scope;
    var rest := at + "/" + package + "/" + path;
    assert "jsr:@" + scope + "/" + package + "/" + path == "jsr:" + rest;
    JsrOfScoped(rest);
    ScopedPath(at, package, path);
    UnversionedPathUrl(scope, package, path);
  }

  lemma UnversionedPathUrl(scope: string, package: string, path: string)
    requires path != []
    ensures JsrUrl("@" + scope, package, "", path) == "https://jsr.io/@" + scope + "/" + package + "/" + path
  {
    assert "https://jsr.io/" + ("@" + scope) == "https://jsr.io/@" + scope;
  }

  /** Scope, package and path are read back from their join. */
  lemma ScopedPath(scope: string, package: string, path: string)
    requires scope != [] && scope[0] == '@' && '/' !in scope
    requires '/' !in package && '@' !in package
    ensures ScopedUrlText(scope + "/" + package + "/" + path) == Ok(JsrUrl(scope, package, "", path))
  {
    var rest := scope + "/" + package + "/" + path;
    assert rest[0] == '@';
    assert StartsWith(rest, "@");
    SplitThree(scope, package, path);
  }

  lemma VersionedPathUrl(scope: string, package: string, version: string, path: string)
    requires version != [] && path != []
    ensures JsrUrl("@" + scope, package, version, path)
            == "https://jsr.io/@" + scope + "/" + package + "/" + version + "/" + path
  {
    assert "https://jsr.io/" + ("@" + scope) == "https://jsr.io/@" + scope;
  }

  /** A version without a path still defaults the file to `mod.ts`. */
  lemma JsrVersionedPackage(scope: string, package: string, version: string)
    requires '/' !in scope && '/' !in package && '@' !in package && '/' !in version
    requires version != []
    ensures JsrUrlText("jsr:@" + scope + "/" + package + "@" + version)
            == Ok("https://jsr.io/@" + scope + "/" + package + "/" + version + "/mod.ts")
  {
    var at := "@" + scope;
    var rest := at + "/" + (package + "@" + version);
    assert "jsr:@" + scope + "/" + package + "@" + version == "jsr:" + rest;
    JsrOfScoped(rest);
    ScopedVersioned(at, package, version);
    VersionedUrl(scope, package, version);
  }

  lemma VersionedUrl(scope: string, package: string, version: string)
    requires version != []
    ensures JsrUrl("@" + scope, package, version, "")
            == "https://jsr.io/@" + scope + "/" + package + "/" + version + "/mod.ts"
  {
    assert "https://jsr.io/" + ("@" + scope) == "https://jsr.io/@" + scope;
  }

  /** Scope, package and version are read back from their join. */
  lemma ScopedVersioned(scope: string, package: string, version: string)
    requires scope != [] && scope[0] == '@' && '/' !in scope
    requires '/' !in package && '@' !in package && '/' !in version
    ensures ScopedUrlText(scope + "/" + (package + "@" + version)) == Ok(JsrUrl(scope, package, version, ""))
  {
    var pv := package + "@" + version;
    var rest := scope + "/" + pv;
    assert rest[0] == '@';
    assert StartsWith(rest, "@");
    SplitTwo(scope, pv);
    PackageVersionRoundTrip(package, version, "");
  }

  /** After `jsr:`, a specifier starting with `@` is read as it stands. */
  lemma JsrOfScoped(rest: string)
    requires rest != [] && rest[0] == '@'
    ensures StartsWith(rest, "@")
    ensures JsrUrlText("jsr:" + rest) == ScopedUrlText(rest)
  {
    assert ("jsr:" + rest)[..4] == "jsr:";
    assert ("jsr:" + rest)[4..] == rest;
    assert TrimStartChar(rest, '/') == rest;
  }

  /** Scope and package are read back from their join. */
  lemma ScopedBare(scope: string, package: string)
    requires scope != [] && scope[0] == '@' && '/' !in scope
    requires '/' !in package && '@' !in package
    ensures ScopedUrlText(scope + "/" + package) == Ok(JsrUrl(scope, package, "", ""))
  {
    var rest := scope + "/" + package;
    assert rest[0] == '@';
    assert StartsWith(rest, "@");
    SplitTwo(scope, package);
  }

  /** Scope, package, version and path are read back from their join. */
  lemma ScopedVersionedPath(scope: string, package: string, version: string, path: string)
    requires scope != [] && scope[0] == '@' && '/' !in scope
    requires '/' !in package && '@' !in package && '/' !in version
    ensures ScopedUrlText(scope + "/" + (package + "@" + version) + "/" + path)
            == Ok(JsrUrl(scope, package, version, path))
  {
    var pv := package + "@" + version;
    var rest := scope + "/" + pv + "/" + path;
    assert rest[0] == '@';
    assert StartsWith(rest, "@");
    SplitThree(scope, pv, path);
    PackageVersionRoundTrip(package, version, path);
  }

  /** `resolve_jsr_specifier`. */
  function ResolveJsr(specifier: string, services: UrlServices): (r: Result<Url>)
    ensures JsrUrlText(specifier).Err? ==> r == Err(JsrUrlText(specifier).message)
    ensures r.Ok? ==> JsrUrlText(specifier).Ok? && services.parse(JsrUrlText(specifier).value) == Some(r.value)
  {
    match JsrUrlText(specifier)
    case Err(m) => Err(m)
    case Ok(text) =>
      match services.parse(text)
      case Some(url) => Ok(url)
      case None => Err("Failed to parse jsr URL '" + text + "'")
  }

  // ----- npm: -----

  /** `resolve_npm_specifier`: everything after `npm:` is appended to the CDN
    * origin verbatim. */
  function ResolveNpm(specifier: string, services: UrlServices): (r: Result<Url>)
    ensures !StartsWith(specifier, "npm:") ==> r == Err("Not an npm: specifier")
    ensures StartsWith(specifier, "npm:") ==>
              var text := "https://esm.sh/" + specifier[4..];
              r == (if services.parse(text).Some? then Ok(services.parse(text).value)
                    else Err("Failed to parse npm URL '" + text + "'"))
  {
    match StripPrefix(specifier, "npm:")
    case None => Err("Not an npm: specifier")
    case Some(rest) =>
      assert rest == specifier[4..];
      var text := "https://esm.sh/" + rest;
      match services.parse(text)
      case Some(url) => Ok(url)
      case None => Err("Failed to parse npm URL '" + text + "'")
  }

  // ----- Media types -----

  /** `rsplit('.').next()`: the text after the last dot, or all of it. This
    * always exists, so the source's fallback for a missing extension is
    * never taken. */
  function LastDotSegment(s: string): (r: string)
    ensures '.' !in r
    ensures |r| <= |s|
    decreases |s|
  {
    match Find(s, '.')
    case None => s
    case Some(i) => LastDotSegment(s[i + 1..])
  }

  /** The segment after the last dot is whatever follows a final `.ext`. */
  lemma {:induction false} ExtensionAfterLastDot(base: string, ext: string)
    requires '.' !in ext
    ensures LastDotSegment(base + "." + ext) == ext
    decreases |base|
  {
    var s := base + "." + ext;
    match Find(base, '.')
    case None =>
      FindAfterFree(base, '.', ext);
      assert s[|base| + 1..] == ext;
      assert Find(ext, '.').None?;
    case Some(i) =>
      assert s[..|base|] == base;
      assert Find(s, '.') == Some(i) by {
        FindPrefix(base, "." + ext, '.');
        assert s == base + ("." + ext);
      }
      assert s[i + 1..] == base[i + 1..] + "." + ext;
      ExtensionAfterLastDot(base[i + 1..], ext);
  }

  /** Searching a string whose prefix already holds the character finds it
    * in the prefix. */
  lemma {:induction false} FindPrefix(a: string, b: string, c: char)
    requires c in a
    ensures Find(a + b, c) == Find(a, c)
    decreases |a|
  {
    if a[0] != c {
      assert (a + b)[1..] == a[1..] + b;
      FindPrefix(a[1..], b, c);
    }
  }

  predicate IsHttp(url: Url) {
    url.scheme == "https" || url.scheme == "http"
  }

  /** The extensions `media_type_from_specifier` recognises. */
  const KnownExtensions: set<string> := {"ts", "mts", "cts", "tsx", "js", "mjs", "cjs", "jsx", "json"}

  /** The MIME types `media_type_from_content_type` recognises. */
  const KnownMimeTypes: set<string> := {
    "application/typescript", "text/typescript", "application/javascript", "text/javascript",
    "application/x-javascript", "application/json", "text/json", "text/tsx", "text/jsx"}

  /** `media_type_from_specifier`: by the extension of the path; an unknown
    * extension is TypeScript for http(s) and Unknown otherwise. */
  function MediaTypeFromSpecifier(url: Url): (r: MediaType)
    ensures r == Unknown ==> !IsHttp(url)
    ensures LastDotSegment(url.path) !in KnownExtensions ==> r == (if IsHttp(url) then TypeScript else Unknown)
    ensures LastDotSegment(url.path) in {"ts", "mts", "cts"} ==> r == TypeScript
    ensures r == Tsx <==> LastDotSegment(url.path) == "tsx"
    ensures r == JavaScript <==> LastDotSegment(url.path) in {"js", "mjs", "cjs"}
    ensures r == Jsx <==> LastDotSegment(url.path) == "jsx"
    ensures r == Json <==> LastDotSegment(url.path) == "json"
  {
    match LastDotSegment(url.path)
    case "ts" | "mts" | "cts" => TypeScript
    case "tsx" => Tsx
    case "js" | "mjs" | "cjs" => JavaScript
    case "jsx" => Jsx
    case "json" => Json
    case _ => if IsHttp(url) then TypeScript else Unknown
  }

  /** A path ending in `.tsx` is TSX whatever precedes it, dots included. */
  lemma TsxByExtension(url: Url, base: string)
    requires url.path == base + ".tsx"
    ensures MediaTypeFromSpecifier(url) == Tsx
  {
    assert base + ".tsx" == base + "." + "tsx";
    ExtensionAfterLastDot(base, "tsx");
  }

  /** A path without any dot is TypeScript over http(s) and Unknown
    * otherwise: the whole path is taken as the extension. */
  lemma NoDotPath(url: Url)
    requires '.' !in url.path
    requires url.path !in KnownExtensions
    ensures MediaTypeFromSpecifier(url) == (if IsHttp(url) then TypeScript else Unknown)
  {
  }

  /** `media_type_from_content_type`: the MIME type before any `;`
    * parameters, trimmed, decides; an unknown one defers to the URL. */
  function MediaTypeFromContentType(contentType: string, url: Url): (r: MediaType)
    ensures r == Unknown ==> !IsHttp(url)
    ensures Trim(SplitChar(contentType, ';')[0]) !in KnownMimeTypes ==> r == MediaTypeFromSpecifier(url)
    ensures Trim(SplitChar(contentType, ';')[0]) in {"application/typescript", "text/typescript"} ==> r == TypeScript
    ensures Trim(SplitChar(contentType, ';')[0]) in {"application/javascript", "text/javascript", "application/x-javascript"} ==>
              r == JavaScript
    ensures Trim(SplitChar(contentType, ';')[0]) in {"application/json", "text/json"} ==> r == Json
    ensures Trim(SplitChar(contentType, ';')[0]) == "text/tsx" ==> r == Tsx
    ensures Trim(SplitChar(contentType, ';')[0]) == "text/jsx" ==> r == Jsx
  {
    match Trim(SplitChar(contentType, ';')[0])
    case "application/typescript" | "text/typescript" => TypeScript
    case "application/javascript" | "text/javascript" | "application/x-javascript" => JavaScript
    case "application/json" | "text/json" => Json
    case "text/tsx" => Tsx
    case "text/jsx" => Jsx
    case _ => MediaTypeFromSpecifier(url)
  }

  /** Parameters after `;` never change the media type. */
  lemma ContentTypeParamsIgnored(mime: string, params: string, url: Url)
    requires ';' !in mime
    ensures MediaTypeFromContentType(mime + ";" + params, url) == MediaTypeFromContentType(mime, url)
  {
    SplitCharConcat(mime, ';', params);
    assert mime + ";" + params == mime + [';'] + params;
  }

  // ----- resolve -----

  /** An http(s) specifier is neither an `npm:` nor a `jsr:` one. */
  lemma SchemesExclusive(specifier: string)
    ensures StartsWith(specifier, "https://") || StartsWith(specifier, "http://") ==>
              !StartsWith(specifier, "npm:") && !StartsWith(specifier, "jsr:")
  {
    if StartsWith(specifier, "https://") || StartsWith(specifier, "http://") {
      assert specifier[0] == 'h';
    }
  }

  /** `ModuleLoader::resolve`: `npm:` first, then `jsr:`, then absolute
    * http(s) URLs; everything else through `resolve_import` against the
    * referrer, whatever the referrer's scheme. */
  function Resolve(specifier: string, referrer: string, services: UrlServices): (r: Result<Url>)
    ensures StartsWith(specifier, "npm:") ==> r == ResolveNpm(specifier, services)
    ensures !StartsWith(specifier, "npm:") && StartsWith(specifier, "jsr:") ==> r == ResolveJsr(specifier, services)
    ensures !StartsWith(specifier, "npm:") && !StartsWith(specifier, "jsr:")
            && !StartsWith(specifier, "https://") && !StartsWith(specifier, "http://") ==>
              r == services.resolveImport(specifier, referrer)
    ensures StartsWith(specifier, "https://") || StartsWith(specifier, "http://") ==>
              && (r.Ok? <==> services.parse(specifier).Some?)
              && (r.Ok? ==> r.value == services.parse(specifier).value)
              && (r.Err? ==> r.message == "Invalid URL '" + specifier + "'")
  {
    SchemesExclusive(specifier);
    if StartsWith(specifier, "npm:") then ResolveNpm(specifier, services)
    else if StartsWith(specifier, "jsr:") then ResolveJsr(specifier, services)
    else if StartsWith(specifier, "https://") || StartsWith(specifier, "http://") then
      match services.parse(specifier)
      case Some(url) => Ok(url)
      case None => Err("Invalid URL '" + specifier + "'")
    else if StartsWith(referrer, "https://") || StartsWith(referrer, "http://") then
      services.resolveImport(specifier, referrer)
    else services.resolveImport(specifier, referrer)
  }

  /** An absolute URL is parsed as it stands, never resolved against the
    * referrer. */
  lemma AbsoluteIgnoresReferrer(specifier: string, referrer1: string, referrer2: string, services: UrlServices)
    requires StartsWith(specifier, "https://") || StartsWith(specifier, "http://")
    ensures Resolve(specifier, referrer1, services) == Resolve(specifier, referrer2, services)
    ensures services.parse(specifier).Some? ==> Resolve(specifier, referrer1, services) == Ok(services.parse(specifier).value)
  {
    assert !StartsWith(specifier, "npm:") by {
      assert specifier[0] == 'h';
    }
    assert !StartsWith(specifier, "jsr:") by {
      assert specifier[0] == 'h';
    }
  }
}
