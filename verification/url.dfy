/** The part of a parsed hierarchical URL (as the `url` crate represents
    an `http` or `https` URL) that the client touches: everything before
    the path, the path, and everything after it. Parsing and joining are
    library code and enter the model as parameters elsewhere. */
module UrlModel {
  import opened Common

  /** `origin` is scheme, credentials, host and port (`https://h:8080`);
      `path` starts with `/`; `rest` is the query and fragment. */
  datatype Url = Url(origin: string, path: string, rest: string)

  /** `Url::into_string()` / `as_str()`. */
  function Serialize(u: Url): string
  {
    u.origin + u.path + u.rest
  }

  /** `Url::set_path(p)` for a URL with a hierarchical path: the path is
      replaced, and a leading `/` is supplied when `p` lacks one;
      everything else is kept. */
  function SetPath(u: Url, p: string): (r: Url)
    ensures r.origin == u.origin && r.rest == u.rest
    ensures StartsWith(r.path, "/")
    ensures r.path == p || r.path == "/" + p
  {
    if StartsWith(p, "/") then u.(path := p) else u.(path := "/" + p)
  }
}
