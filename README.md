# Format-template variables and remote-host symbols

A Dafny model of two pieces of a configurable shell-prompt generator.

1. **The format-template tree** (`src/formatter/model.rs`). A parsed template
   is a sequence of `FormatElement`s: literal `Text`, a `Variable`, a `Link`
   (a label `format` and a target `url`), a `TextGroup` (content `format`
   and a `style`), or a `Conditional` group. Style and URL parts are
   `Text | Variable`. Two extractions collect names from a template:
   `get_variables` (content and link-target variables) and
   `get_style_variables` (text-group style variables).
2. **Remote-host symbol lookup** (`GitBranchConfig::get_remote_symbol` in
   `src/configs/git_branch.rs`). Given the host of a repository's remote
   URL, it returns the symbol configured for the host itself. If there is
   none, it returns the symbol of the longest domain suffix of the host
   (a suffix starting with `.`) that the table lists. Otherwise it returns
   nothing.

Files:

- `wrappers.dfy`: module `Wrappers`, the `Option` type.
- `formatter_model.dfy`: module `FormatterModel`. It holds the datatypes and
  every `get_variables` / `get_style_variables` implementation as a
  function. It also holds a reference definition: the set of elements
  reachable in a tree, and the names found in them.
- `formatter_properties.dfy`: module `FormatterProperties`. It proves the
  leaf cases and the asymmetries (a text group's style and a link's target
  are ignored by one extraction each). It proves that a sequence's result
  is the union of its elements' results, so order and repetition do not
  matter. It proves that both extractions return exactly the `Variable`
  payloads reachable in the tree.
- `git_branch.dfy`: module `GitBranch`. It holds the configuration record,
  the default table, and a reference function `DotSuffixSymbol` that scans
  the host one character at a time. The lookup itself is an imperative
  method whose loop is proved against that function.
- `git_branch_properties.dfy`: module `GitBranchProperties`. It proves that
  the longest listed domain suffix wins and that the search finds nothing
  exactly when no domain suffix is listed. It proves that every result is
  a configured symbol. It also checks the default table on `github.com`,
  `chromium.googlesource.com` and `example.com`, and states the default
  configuration's values.

Modelling decisions:

- Names are `string`. The source's `BTreeSet` becomes `set<string>`. The
  source's folds over an accumulator compute a set union, so the vector
  forms are written as structural unions. The slice forms are modelled as
  the left fold the source writes, over a window `base[lo..hi]` of a
  backing sequence. Their contracts state that they equal the vector form
  on the same elements.
- The Rust structs `Link` and `TextGroup` are datatypes of their own, as in
  the source. Their same-named `FormatElement` cases wrap them.
- URL percent-decoding, `Url::parse` and `host_str` are library calls. The
  lookup takes their outcome as `url: Option<string>`, which is `None` when
  any of the three steps fails.
- The lookup is split into `GetRemoteSymbol` (the exact lookup and the
  move to the first `.`, lines 27-43) and `SearchDomainSuffixes` (the
  `while` loop, lines 45-64). This keeps each proof small. The loop's
  invariants say that the string looked up next is a suffix of the
  searched host that starts with `.`. They also say that the skipped,
  longer suffixes cannot change the answer.
- One might expect `get_variables` to include a text group's style
  variables. It does not: on a `TextGroup` it reads only `format`
  (src/formatter/model.rs:60), and the model follows the code.
  `MixedTemplateExample` shows `$a[$b]($c)($d)` yielding `{a, b, d}`,
  with style variables `{c}`.

## Model

| member | source | states |
|---|---|---|
| `FormatterModel.FormatVariables` | src/formatter/model.rs:67-74 | every element's variables are included in the vector's variables |
| `FormatterModel.UrlVariables` | src/formatter/model.rs:85-92 | every URL element's variables are included in the vector's variables |
| `FormatterModel.FoldFormatSlice` | src/formatter/model.rs:76-83 | the slice fold from an accumulator yields the accumulator plus the vector-form variables of the remaining window |
| `FormatterModel.FormatSliceVariables` | src/formatter/model.rs:76-83 | the slice form gives exactly the vector form's result for the same elements |
| `FormatterModel.FoldUrlSlice` | src/formatter/model.rs:94-101 | the URL slice fold yields the accumulator plus the vector-form variables of the remaining window |
| `FormatterModel.UrlSliceVariables` | src/formatter/model.rs:94-101 | the URL slice form gives exactly the URL vector form's result |
| `FormatterModel.StyleSeqVariables` | src/formatter/model.rs:129-136 | every style element's variables are included in the style vector's variables |
| `FormatterModel.StyleVariables` | src/formatter/model.rs:138-157 | every element's style contribution is included in the template's style variables |
| `FormatterProperties.FormatLeafVariables` | src/formatter/model.rs:47-64 | `Variable(v)` yields exactly `{v}` and `Text` yields nothing |
| `FormatterProperties.UrlAndStyleLeafVariables` | src/formatter/model.rs:103-127 | URL and style `Variable(v)` yield exactly `{v}`, their `Text` nothing |
| `FormatterProperties.LinkVariables` | src/formatter/model.rs:55-59 | a link yields the union of its label's and its target's variables |
| `FormatterProperties.TextGroupIgnoresStyle` | src/formatter/model.rs:60 | a text group yields its content's variables, and the same set for any style |
| `FormatterProperties.FormatVariablesMembership` | src/formatter/model.rs:67-74 | a name is extracted from a sequence iff some element yields it |
| `FormatterProperties.FormatVariablesConcat` | src/formatter/model.rs:67-74 | the variables of a concatenation are the union of the parts' variables |
| `FormatterProperties.FormatVariablesIgnoreOrder` | src/formatter/model.rs:67-74 | sequences with the same elements, in any order or multiplicity, yield the same variables |
| `FormatterProperties.UrlVariablesAreNames` | src/formatter/model.rs:85-114 | a URL vector yields exactly the names of its `Variable` parts |
| `FormatterProperties.StyleSeqVariablesAreNames` | src/formatter/model.rs:116-136 | a style vector yields exactly the names of its `Variable` parts |
| `FormatterProperties.StyleVariablesOfElement` | src/formatter/model.rs:138-156 | a text group adds its style's variables plus its content's style variables; a link or conditional only its content's; text and variables nothing |
| `FormatterProperties.LinkStyleIgnoresUrl` | src/formatter/model.rs:141-144 | a link's style variables are its label's, the same for any target |
| `FormatterProperties.StyleVariablesMembership` | src/formatter/model.rs:138-156 | a name is a style variable of a sequence iff some element contributes it |
| `FormatterProperties.StyleVariablesConcat` | src/formatter/model.rs:138-156 | style variables of a concatenation are the union of the parts' |
| `FormatterProperties.StyleVariablesIgnoreOrder` | src/formatter/model.rs:138-156 | style variables do not depend on element order or repetition |
| `FormatterProperties.ElementVariablesAreReachableNames` | src/formatter/model.rs:47-64 | an element's variables are the reachable `Variable` names plus the reachable links' target variable names |
| `FormatterProperties.FormatVariablesAreReachableNames` | src/formatter/model.rs:67-74 | the same for a whole template |
| `FormatterProperties.StyleContributionIsReachableNames` | src/formatter/model.rs:140-155 | an element's style contribution is the style variable names of the text groups reachable from it |
| `FormatterProperties.StyleVariablesAreReachableNames` | src/formatter/model.rs:138-157 | a template's style variables are the style variable names of all reachable text groups |
| `FormatterProperties.ExtractionIsExact` | src/formatter/model.rs:47-157 | a name is extracted iff it is a `Variable` payload somewhere in the tree (content or link target; text-group style for style variables): nothing is invented or missed |
| `FormatterProperties.MixedTemplateExample` | src/formatter/model.rs:47-157 | `$a[$b]($c)($d)` yields variables `{a, b, d}` and style variables `{c}` |
| `GitBranch.Find` | src/configs/git_branch.rs:61 | `str::find` of one character: the first index holding it, `None` iff absent |
| `GitBranch.SkipNonDots` | src/configs/git_branch.rs:60-62 | jumping over characters other than `.` does not change the reference search |
| `GitBranch.NoDotNoSymbol` | src/configs/git_branch.rs:61 | a string without `.` has no domain suffix to find |
| `GitBranch.DropFromSuffix` | src/configs/git_branch.rs:53-62 | cutting a prefix off a suffix of the host leaves a suffix of the host |
| `GitBranch.SearchDomainSuffixes` | src/configs/git_branch.rs:45-64 | the loop returns the symbol of the longest domain suffix of its input that is a key, with invariant: the string looked up is a suffix starting with `.` |
| `GitBranch.GetRemoteSymbol` | src/configs/git_branch.rs:27-65 | the lookup returns the exact entry of the host, else the entry of its longest listed domain suffix, else `None`; `None` when no host was obtained |
| `GitBranchProperties.LongestKeyWins` | src/configs/git_branch.rs:45-62 | when the suffix at `k` is the longest listed domain suffix, its symbol is the result |
| `GitBranchProperties.FoundAtLongestKey` | src/configs/git_branch.rs:45-62 | any symbol found is that of the longest listed domain suffix |
| `GitBranchProperties.NothingFound` | src/configs/git_branch.rs:45-64 | the search finds nothing iff no domain suffix of the host is a key |
| `GitBranchProperties.ExactEntryWins` | src/configs/git_branch.rs:32-37 | a host that is a key gets its own entry, with no suffix search |
| `GitBranchProperties.NoDotNoEntry` | src/configs/git_branch.rs:41-42 | a host that is not a key and has no `.` gets `None` |
| `GitBranchProperties.SearchStartsAtFirstDot` | src/configs/git_branch.rs:39-43 | a host that is not a key is searched from its first `.` |
| `GitBranchProperties.ResultIsConfiguredSymbol` | src/configs/git_branch.rs:32-64 | any symbol returned is a value of the table |
| `GitBranchProperties.DefaultGithub` | src/configs/git_branch.rs:80-91 | with the default table, `github.com` gets its glyph by exact match |
| `GitBranchProperties.DefaultGoogleSource` | src/configs/git_branch.rs:80-91 | with the default table, `chromium.googlesource.com` gets the `.googlesource.com` glyph |
| `GitBranchProperties.DefaultExample` | src/configs/git_branch.rs:80-91 | with the default table, `example.com` gets `None` |
| `GitBranchProperties.DefaultConfigValues` | src/configs/git_branch.rs:68-94 | the default configuration has truncation length `i64::MAX`, is enabled for every branch, and uses the built-in table, whose only domain-suffix key is `.googlesource.com` |
| `GitBranchProperties.NoHostNoSymbol` | src/configs/git_branch.rs:28-30 | a failed decode, parse or host extraction gives `None` |

## Left out

- src/modules/terminal.rs (the title module): it only glues together calls
  into code that is not part of this model. These are the template parser
  and renderer, module dispatch, the disabled-module check, ANSI
  unstyling and logging. Its one local decision (dispatch a known,
  enabled module, else nothing) is too thin to model alone.
- src/configs/terminal.rs: a configuration record and its default string,
  with no logic.
- Template parsing and rendering (conditional suppression, style merging,
  link construction): that code is not part of this model.
- URL percent-decoding, `Url::parse` and `host_str`: library calls,
  abstracted as an optional host.
- The lexicographic iteration order of `BTreeSet`: sets are unordered here.
- The insertion order of the `IndexMap` table: only lookup by key matters.
- The `is_char_boundary` loop (src/configs/git_branch.rs:55-57): strings are
  sequences of characters, so skipping the leading `.` drops one character.
- `Cow` lifetimes, serde and schema derives.
- The non-`remote_symbols` fields of `GitBranchConfig` are recorded but
  not used by any modelled logic. `truncation_length` is an unbounded
  integer here; it is 64-bit in the source.
- GitBranch.SearchDomainSuffixes: its contract does not list the strings it
  looks up. Their order (strictly shorter each time, by the loop's
  `decreases |rest|`) and the fact that the longest listed suffix wins are
  proved about the reference function instead (`LongestKeyWins`,
  `FoundAtLongestKey`).
