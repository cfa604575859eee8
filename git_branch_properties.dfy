/** Properties of the remote-host symbol lookup of src/configs/git_branch.rs. */
module GitBranchProperties {
  import opened Wrappers
  import opened GitBranch

  /** The suffix of `h` at `k` is a domain suffix that is a key of `table`,
      and no longer domain suffix of `h` is. */
  ghost predicate LongestKeyAt(table: map<string, string>, h: string, k: nat)
  {
    && k < |h| && h[k] == '.' && h[k..] in table
    && forall j | 0 <= j < k :: h[j] == '.' ==> h[j..] !in table
  }

  /** The longest domain suffix that is a key decides the search. */
  lemma {:induction false} LongestKeyWins(table: map<string, string>, h: string, k: nat)
    requires LongestKeyAt(table, h, k)
    ensures DotSuffixSymbol(table, h) == Some(table[h[k..]])
  {
    if k > 0 {
      assert h[0] == '.' ==> h[0..] == h;
      forall j | 0 <= j < k - 1 && h[1..][j] == '.'
        ensures h[1..][j..] !in table
      {
        assert h[1..][j..] == h[j + 1..];
      }
      assert h[1..][k - 1..] == h[k..];
      LongestKeyWins(table, h[1..], k - 1);
    }
  }

  /** A symbol is found only through the longest domain suffix that is a
      key. */
  lemma {:induction false} FoundAtLongestKey(table: map<string, string>, h: string)
    requires DotSuffixSymbol(table, h).Some?
    ensures exists k: nat :: LongestKeyAt(table, h, k) && DotSuffixSymbol(table, h) == Some(table[h[k..]])
  {
    if h[0] == '.' && h in table {
      assert h[0..] == h;
      assert LongestKeyAt(table, h, 0);
    } else {
      FoundAtLongestKey(table, h[1..]);
      var k: nat :| LongestKeyAt(table, h[1..], k) && DotSuffixSymbol(table, h[1..]) == Some(table[h[1..][k..]]);
      assert h[1..][k..] == h[k + 1..];
      forall j | 0 <= j < k + 1 && h[j] == '.'
        ensures h[j..] !in table
      {
        if j > 0 {
          assert h[1..][j - 1..] == h[j..];
        } else {
          assert h[0..] == h;
        }
      }
      assert LongestKeyAt(table, h, k + 1);
    }
  }

  /** The search finds nothing exactly when no domain suffix of `h` is a key. */
  lemma {:induction false} NothingFound(table: map<string, string>, h: string)
    ensures DotSuffixSymbol(table, h) == None <==>
      forall k | 0 <= k < |h| :: h[k] == '.' ==> h[k..] !in table
  {
    if h != [] {
      NothingFound(table, h[1..]);
      assert h[0..] == h;
      assert forall k | 1 <= k < |h| :: h[1..][k - 1..] == h[k..];
      if DotSuffixSymbol(table, h) == None {
        forall k | 0 <= k < |h| && h[k] == '.'
          ensures h[k..] !in table
        {
          if k > 0 {
            assert h[1..][k - 1] == h[k];
          }
        }
      } else if forall k | 0 <= k < |h| :: h[k] == '.' ==> h[k..] !in table {
        forall k | 0 <= k < |h| - 1 && h[1..][k] == '.'
          ensures h[1..][k..] !in table
        {
          assert h[1..][k..] == h[k + 1..];
        }
      }
    }
  }

  /** An exact entry for the host wins, with no suffix search. */
  lemma ExactEntryWins(table: map<string, string>, h: string)
    requires h in table
    ensures RemoteSymbol(table, Some(h)) == Some(table[h])
  {
  }

  /** A host that is not a key and has no `.` gets no symbol. */
  lemma NoDotNoEntry(table: map<string, string>, h: string)
    requires h !in table && '.' !in h
    ensures RemoteSymbol(table, Some(h)) == None
  {
    NoDotNoSymbol(table, h);
  }

  /** A host that does not start with `.` is searched from its first `.`. */
  lemma SearchStartsAtFirstDot(table: map<string, string>, h: string, i: nat)
    requires h !in table && Find(h, '.') == Some(i)
    ensures RemoteSymbol(table, Some(h)) == DotSuffixSymbol(table, h[i..])
  {
    SkipNonDots(table, h, i);
  }

  /** Whatever is returned is one of the configured symbols. */
  lemma ResultIsConfiguredSymbol(table: map<string, string>, url: Option<string>)
    ensures RemoteSymbol(table, url).Some? ==> RemoteSymbol(table, url).value in table.Values
  {
    if url.Some? && url.value !in table && RemoteSymbol(table, url).Some? {
      FoundAtLongestKey(table, url.value);
    }
  }

  /** With the built-in table, `github.com` gets its exact entry. */
  lemma DefaultGithub()
    ensures RemoteSymbol(DefaultRemoteSymbols(), Some("github.com")) == Some("\U{f09b}")
  {
  }

  /** With the built-in table, `chromium.googlesource.com` gets the symbol
      of its domain suffix `.googlesource.com`. */
  lemma DefaultGoogleSource()
    ensures RemoteSymbol(DefaultRemoteSymbols(), Some("chromium.googlesource.com")) == Some("\U{f1a0}")
  {
    var table := DefaultRemoteSymbols();
    var h := "chromium" + ".googlesource.com";
    assert h == "chromium.googlesource.com";
    assert h !in table;
    SkipNonDots(table, h, 8);
    assert h[8..] == ".googlesource.com";
  }

  /** With the built-in table, `example.com` gets no symbol. */
  lemma DefaultExample()
    ensures RemoteSymbol(DefaultRemoteSymbols(), Some("example.com")) == None
  {
    var table := DefaultRemoteSymbols();
    var h := "example" + ".com";
    assert h == "example.com";
    assert h !in table;
    SkipNonDots(table, h, 7);
    assert h[7..] == ".com";
    assert ".com" !in table;
    assert ".com" == "." + "com";
    NoDotNoSymbol(table, "com");
  }

  /** The configuration's defaults: the truncation length is `i64::MAX`,
      the module is enabled for every branch, and its table is the built-in
      one, in which `.googlesource.com` is the only domain-suffix entry. */
  lemma DefaultConfigValues()
    ensures DefaultConfig().truncationLength == 0x8000_0000_0000_0000 - 1
    ensures !DefaultConfig().disabled && !DefaultConfig().onlyAttached && DefaultConfig().ignoreBranches == []
    ensures DefaultConfig().remoteSymbols == DefaultRemoteSymbols()
    ensures forall k | k in DefaultConfig().remoteSymbols :: (|k| > 0 && k[0] == '.') <==> k == ".googlesource.com"
  {
  }

  /** A URL that yields no host gets no symbol, whatever the table. */
  lemma NoHostNoSymbol(table: map<string, string>)
    ensures RemoteSymbol(table, None) == None
  {
  }
}
