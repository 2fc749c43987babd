/** The parts of Go's `net/url` that the core reads. */
module Net {
  import opened Wrappers
  import opened Strings

  /** A parsed `*url.URL`: its scheme, its `Host` (host and optional port) and its path. */
  datatype Url = Url(scheme: string, host: string, path: string)

  /** `url.Parse`, an oracle: a URL or the parse error's message. */
  type UrlParser = string -> Result<Url, string>

  /** `strings.Split(u.Host, ":")[0]`: the text before the first ':' of a `Host`. */
  function HostName(host: string): (name: string)
    ensures ':' !in name
    ensures name <= host
    ensures name == host || host[|name|] == ':'
  {
    var parts := Split(host, ':');
    JoinSplit(host, ':');
    assert host == Join(parts, [':']);
    JoinPrefix(parts, [':']);
    assert |parts| > 1 ==> host == parts[0] + ([':'] + Join(parts[1..], [':']));
    parts[0]
  }

  /** The first piece of a join is a prefix of the join. */
  lemma {:induction false} JoinPrefix(xs: seq<string>, sep: string)
    requires |xs| >= 1
    ensures xs[0] <= Join(xs, sep)
  {
    if |xs| > 1 {
      assert Join(xs, sep) == xs[0] + (sep + Join(xs[1..], sep));
    }
  }
}
