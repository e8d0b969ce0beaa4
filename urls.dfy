/**
 * The path of the client's base URL. NewClient forces it to end in '/', because
 * Do resolves every endpoint path against it as a relative reference, and a
 * relative reference replaces whatever follows the base path's last '/'.
 */
module Urls {
  import opened Text

  /** The parts of a url.URL the model keeps: scheme and host are carried, the path is rewritten. */
  datatype Url = Url(scheme: string, host: string, path: string)

  /** The trailing-slash normalisation NewClient applies to the parsed base path. */
  function Normalize(path: string): (r: string)
    ensures EndsWith(r, "/")
    ensures StartsWith(r, path) && |r| <= |path| + 1
    ensures EndsWith(path, "/") ==> r == path
  {
    if EndsWith(path, "/") then path else path + "/"
  }

  lemma NormalizeIdempotent(path: string)
    ensures Normalize(Normalize(path)) == Normalize(path)
  {
  }

  /**
   * Everything up to and including the right-most '/' of a path, or "" when it
   * has none: the part of a base path a relative reference is appended to
   * (section 5.2.3 of RFC 3986).
   */
  function Directory(path: string): (d: string)
    ensures StartsWith(path, d)
    ensures d == "" || EndsWith(d, "/")
    ensures '/' !in path[|d|..]
  {
    if path == [] then []
    else if path[|path| - 1] == '/' then path
    else
      var d := Directory(path[..|path| - 1]);
      assert path[|d|..] == path[..|path| - 1][|d|..] + [path[|path| - 1]];
      d
  }

  /**
   * The path of a reference that has no scheme, authority, query or fragment,
   * resolved against a base URL with an authority (sections 5.2.2 and 5.2.3 of
   * RFC 3986): an empty reference keeps the base path, an absolute one replaces
   * it, and a relative one is appended to the base's directory. Removal of "."
   * and ".." segments is not modelled.
   */
  function ResolvePath(base: string, ref: string): (r: string)
    ensures ref == [] ==> r == base
    ensures ref != [] ==> EndsWith(r, ref)
    ensures ref != [] && ref[0] == '/' ==> r == ref
    ensures ref != [] && ref[0] != '/' ==>
      var dir := r[..|r| - |ref|];
      (base == "" ==> dir == "/") &&
      (base != "" ==> StartsWith(base, dir) && (dir == "" || EndsWith(dir, "/")) && '/' !in base[|dir|..])
  {
    if ref == [] then base
    else if ref[0] == '/' then ref
    else if base == "" then "/" + ref
    else Directory(base) + ref
  }

  /** After normalisation every relative endpoint path lands under the base path. */
  lemma ResolveUnderNormalizedBase(path: string, ref: string)
    requires ref == [] || ref[0] != '/'
    ensures ResolvePath(Normalize(path), ref) == Normalize(path) + ref
  {
    var b := Normalize(path);
    assert b[|b| - 1] == '/';
  }

  /**
   * Without the trailing '/', the last segment of the base path is lost: a
   * non-empty relative path is appended to a strictly shorter directory. (An
   * empty reference keeps the base path whole.)
   */
  lemma UnnormalizedBaseLosesSegment(path: string, ref: string)
    requires path != "" && !EndsWith(path, "/")
    requires ref != [] && ref[0] != '/'
    ensures ResolvePath(path, ref) == Directory(path) + ref
    ensures |Directory(path)| < |path|
  {
  }
}
