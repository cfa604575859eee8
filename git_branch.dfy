/** The remote-host symbol lookup of `GitBranchConfig` (src/configs/git_branch.rs). */
module GitBranch {
  import opened Wrappers

  /** `GitBranchConfig`. Only `remoteSymbols` is read by the lookup; the
      other fields are the configuration's remaining options. Its key order
      (an insertion-ordered map in the source) plays no part in a lookup
      by key, so the table is a plain map. */
  datatype GitBranchConfig = GitBranchConfig(
    format: string,
    symbol: string,
    style: string,
    truncationLength: int,
    truncationSymbol: string,
    onlyAttached: bool,
    alwaysShowRemote: bool,
    ignoreBranches: seq<string>,
    disabled: bool,
    remoteSymbols: map<string, string>)

  /** The built-in host table: whole-host entries and one domain-suffix
      entry, `.googlesource.com`. */
  function DefaultRemoteSymbols(): map<string, string>
  {
    map[
      "bitbucket.org" := "\U{f171}",
      "github.com" := "\U{f09b}",
      "gitlab.com" := "\U{f296}",
      "gitlab.gnome.org" := "\U{f02ac}",
      ".googlesource.com" := "\U{f1a0}",
      "kernel.org" := "\U{f17c}",
      "launchpad.net" := "\U{f13c}"]
  }

  /** The configuration's defaults (`i64::MAX` for the truncation length). */
  function DefaultConfig(): GitBranchConfig
  {
    GitBranchConfig(
      "on [$symbol$branch(:$remote_branch)]($style) ", "\U{e0a0} ", "bold purple",
      0x7fff_ffff_ffff_ffff, "…", false, false, [], false,
      DefaultRemoteSymbols())
  }

  /** `str::find` for a single character: the index of its first
      occurrence, or `None` when it does not occur. */
  function Find(s: string, c: char): (r: Option<nat>)
    ensures r.None? <==> c !in s
    ensures r.Some? ==> r.value < |s| && s[r.value] == c && forall j | 0 <= j < r.value :: s[j] != c
  {
    if s == [] then None
    else if s[0] == c then Some(0)
    else match Find(s[1..], c)
      case None => None
      case Some(i) => Some(i + 1)
  }

  /************************ specification ************************/

  /** Reference definition of the suffix search: the symbol of the longest
      suffix of `h` that starts with `.` and is a key of `table`, scanning
      `h` one character at a time. */
  function DotSuffixSymbol(table: map<string, string>, h: string): Option<string>
    decreases |h|
  {
    if h == [] then None
    else if h[0] == '.' && h in table then Some(table[h])
    else DotSuffixSymbol(table, h[1..])
  }

  /** What `get_remote_symbol` returns for a URL whose host is `host`
      (`None` when decoding, parsing or host extraction failed): the exact
      entry for the host if there is one, otherwise the entry of its longest
      domain suffix. */
  function RemoteSymbol(table: map<string, string>, host: Option<string>): Option<string>
  {
    match host
    case None => None
    case Some(h) => if h in table then Some(table[h]) else DotSuffixSymbol(table, h)
  }

  /************************ helper lemmas ************************/

  /** Skipping characters that are not `.` does not change the search. */
  lemma {:induction false} SkipNonDots(table: map<string, string>, x: string, k: nat)
    requires k <= |x|
    requires forall j | 0 <= j < k :: x[j] != '.'
    ensures DotSuffixSymbol(table, x[k..]) == DotSuffixSymbol(table, x)
  {
    if k > 0 {
      SkipNonDots(table, x[1..], k - 1);
      assert x[1..][k - 1..] == x[k..];
    }
  }

  /** A string without `.` has no domain suffix to find. */
  lemma {:induction false} NoDotNoSymbol(table: map<string, string>, x: string)
    requires '.' !in x
    ensures DotSuffixSymbol(table, x) == None
  {
    if x != [] {
      assert x[0] in x;
      assert forall c | c in x[1..] :: c in x;
      NoDotNoSymbol(table, x[1..]);
    }
  }

  /** `p` is a suffix of `h`. */
  ghost predicate IsSuffix(p: string, h: string)
    decreases |h|
  {
    p == h || (h != [] && IsSuffix(p, h[1..]))
  }

  /** What is left after dropping characters from a suffix is a suffix. */
  lemma {:induction false} DropFromSuffix(p: string, h: string, k: nat)
    requires IsSuffix(p, h) && k <= |p|
    ensures IsSuffix(p[k..], h)
    decreases |h|
  {
    if p == h {
      if k > 0 {
        DropFromSuffix(p[1..], h[1..], k - 1);
        assert p[1..][k - 1..] == p[k..];
      }
    } else {
      DropFromSuffix(p, h[1..], k);
    }
  }

  /************************ the lookup ************************/

  /** The loop of `get_remote_symbol` (src/configs/git_branch.rs:45-64):
      look up `host`, then skip its leading `.` and move on to the next `.`,
      until a lookup succeeds or no `.` is left. */
  method SearchDomainSuffixes(table: map<string, string>, host: string) returns (r: Option<string>)
    requires host != [] ==> host[0] == '.'
    ensures r == DotSuffixSymbol(table, host)
  {
    var rest := host;
    while rest != [] && '.' in rest
      // `rest`, the next string looked up, is a domain suffix of `host` ...
      invariant IsSuffix(rest, host)
      invariant rest != [] ==> rest[0] == '.'
      // ... and the longer domain suffixes that were skipped cannot change
      // the answer.
      invariant DotSuffixSymbol(table, rest) == DotSuffixSymbol(table, host)
      decreases |rest|
    {
      if rest in table {
        return Some(table[rest]);
      }

      // Skip the leading `.`, then move to the next `.`.
      var nextStart := 1;
      DropFromSuffix(rest, host, nextStart);
      rest := rest[nextStart..];
      var dot := Find(rest, '.');
      if dot.None? {
        NoDotNoSymbol(table, rest);
        return None;
      }
      SkipNonDots(table, rest, dot.value);
      DropFromSuffix(rest, host, dot.value);
      rest := rest[dot.value..];
    }
    NoDotNoSymbol(table, rest);
    return None;
  }

  /** `GitBranchConfig::get_remote_symbol`. `url` is the host of the
      decoded, parsed URL, or `None` when one of those steps failed. */
  method GetRemoteSymbol(config: GitBranchConfig, url: Option<string>) returns (r: Option<string>)
    ensures r == RemoteSymbol(config.remoteSymbols, url)
  {
    if url.None? {
      return None;
    }
    var table := config.remoteSymbols;
    var host := url.value;

    if host in table {
      return Some(table[host]);
    }

    // Start at the first `.`, so that only domain suffixes are matched.
    if !(|host| > 0 && host[0] == '.') {
      var dot := Find(host, '.');
      if dot.None? {
        NoDotNoSymbol(table, host);
        return None;
      }
      SkipNonDots(table, host, dot.value);
      host := host[dot.value..];
    }
    r := SearchDomainSuffixes(table, host);
  }
}
