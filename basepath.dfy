/**
 * Public asset paths (src/lib/basePath.ts). The site may be served from the
 * domain root or from a sub-directory; `basePath` is that sub-directory, taken
 * from the build environment and "" when unset, and is a parameter here.
 */
module BasePath {
  import opened Wrappers

  /** `path.startsWith("/")`: "/" is a prefix of the path. */
  predicate StartsWithSlash(path: string): (b: bool)
    ensures b <==> "/" <= path
  {
    |path| > 0 && path[0] == '/'
  }

  /** `suffix` is the tail of `s`. */
  predicate EndsWith(s: string, suffix: string) {
    |suffix| <= |s| && s[|s| - |suffix|..] == suffix
  }

  /** The path made absolute: kept when it already starts with '/', otherwise given exactly one leading '/'. */
  function NormalizePath(path: string): (r: string)
    ensures StartsWithSlash(r)
    ensures r == path <==> StartsWithSlash(path)
    ensures !StartsWithSlash(path) ==> r[0] == '/' && r[1..] == path
  {
    if StartsWithSlash(path) then path else "/" + path
  }

  /** `getAssetPath`: the normalised path, prefixed with the base path when one is configured. */
  function GetAssetPath(basePath: string, path: string): (r: string)
    ensures basePath == "" ==> r == NormalizePath(path)
    ensures |r| == |basePath| + |NormalizePath(path)|
    ensures r[..|basePath|] == basePath
    ensures EndsWith(r, NormalizePath(path))
  {
    var normalizedPath := NormalizePath(path);
    if basePath == "" then normalizedPath else basePath + normalizedPath
  }

  /** Removes a configured base path from the front of a full asset path; the inverse of `GetAssetPath`. */
  function StripBasePath(basePath: string, full: string): (r: Option<string>)
    ensures r.Some? <==> |basePath| <= |full| && full[..|basePath|] == basePath
    ensures r.Some? ==> basePath + r.value == full
  {
    if |basePath| <= |full| && full[..|basePath|] == basePath then Some(full[|basePath|..]) else None
  }

  /** Normalising twice is normalising once. */
  lemma NormalizeIdempotent(path: string)
    ensures NormalizePath(NormalizePath(path)) == NormalizePath(path)
  {
  }

  /** The base path can always be taken off again, leaving the normalised path. */
  lemma StripUndoesPrefix(basePath: string, path: string)
    ensures StripBasePath(basePath, GetAssetPath(basePath, path)) == Some(NormalizePath(path))
  {
    var full := GetAssetPath(basePath, path);
    assert full[|basePath|..] == NormalizePath(path);
  }

  /** With no base path, or a base path that itself starts with '/', every asset path is absolute. */
  lemma AssetPathAbsolute(basePath: string, path: string)
    requires basePath == "" || StartsWithSlash(basePath)
    ensures StartsWithSlash(GetAssetPath(basePath, path))
  {
  }

  /** The two documented examples: served from the root, and from the `/bengreene.dev` sub-directory. */
  lemma DocumentedExamples()
    ensures GetAssetPath("", "/images/photo.png") == "/images/photo.png"
    ensures GetAssetPath("/bengreene.dev", "/images/photo.png") == "/bengreene.dev/images/photo.png"
    ensures GetAssetPath("", "images/photo.png") == "/images/photo.png"
  {
    var path := "/images/photo.png";
    assert path[0] == '/';
    assert StartsWithSlash(path);
    assert !StartsWithSlash("images/photo.png");
  }
}
