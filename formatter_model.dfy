/** The syntax tree of a format template (src/formatter/model.rs) and the two
    extractions over it: the content/URL variables a template mentions
    (`get_variables`) and the style variables it mentions
    (`get_style_variables`). Sets of names are Dafny `set<string>`; the
    lexicographic iteration order of the source's `BTreeSet` is not modelled. */
module FormatterModel {

  /** A style string inside a styled group: a literal token or a variable. */
  datatype StyleElement = Text(text: string) | Variable(name: string)

  /** A piece of a link target: literal text or a variable. */
  datatype URLElement = Text(text: string) | Variable(name: string)

  /** `[format](style)`: a group whose style applies to all of `format`. */
  datatype TextGroup = TextGroup(format: seq<FormatElement>, style: seq<StyleElement>)

  /** A hyperlink whose label is `format` and whose target is built from `url`. */
  datatype Link = Link(format: seq<FormatElement>, url: seq<URLElement>)

  /** One node of a parsed template. */
  datatype FormatElement =
    | Text(text: string)
    | Variable(name: string)
    | Link(link: Link)
    | TextGroup(textgroup: TextGroup)
    | Conditional(format: seq<FormatElement>)

  /*************************** get_variables ***************************/

  /** `FormatElement::get_variables`: a variable names itself, a link gives
      the variables of its label and of its target, a text group only those
      of its content (its style is never consulted), a conditional those of
      its content, and literal text nothing. */
  function ElementVariables(e: FormatElement): set<string>
  {
    match e
    case Variable(v) => {v}
    case Link(l) => FormatVariables(l.format) + UrlVariables(l.url)
    case TextGroup(g) => FormatVariables(g.format)
    case Conditional(f) => FormatVariables(f)
    case Text(_) => {}
  }

  /** `Vec<FormatElement>::get_variables`: the union of the elements' sets,
      which is what the source's fold over an accumulator computes. */
  function FormatVariables(s: seq<FormatElement>): (r: set<string>)
    ensures forall i | 0 <= i < |s| :: ElementVariables(s[i]) <= r
  {
    if s == [] then {} else ElementVariables(s[0]) + FormatVariables(s[1..])
  }

  /** `URLElement::get_variables`. */
  function UrlElementVariables(u: URLElement): set<string>
  {
    match u
    case Variable(v) => {v}
    case Text(_) => {}
  }

  /** `Vec<URLElement>::get_variables`. */
  function UrlVariables(s: seq<URLElement>): (r: set<string>)
    ensures forall i | 0 <= i < |s| :: UrlElementVariables(s[i]) <= r
  {
    if s == [] then {} else UrlElementVariables(s[0]) + UrlVariables(s[1..])
  }

  /** The fold of the slice forms, written as the source writes it: a left
      fold over the window `base[i..hi]` that adds each element's variables
      to the accumulator `acc`. */
  function FoldFormatSlice(base: seq<FormatElement>, i: nat, hi: nat, acc: set<string>): (r: set<string>)
    requires i <= hi <= |base|
    ensures r == acc + FormatVariables(base[i..hi])
    decreases hi - i
  {
    if i == hi then acc
    else
      assert base[i..hi] == [base[i]] + base[i + 1..hi];
      FoldFormatSlice(base, i + 1, hi, acc + ElementVariables(base[i]))
  }

  /** `&[FormatElement]::get_variables` on the slice `base[lo..hi]` of a
      backing vector: it gives exactly what the vector form gives for the
      same elements. */
  function FormatSliceVariables(base: seq<FormatElement>, lo: nat, hi: nat): (r: set<string>)
    requires lo <= hi <= |base|
    ensures r == FormatVariables(base[lo..hi])
  {
    FoldFormatSlice(base, lo, hi, {})
  }

  /** The fold of `&[URLElement]::get_variables`, as for format slices. */
  function FoldUrlSlice(base: seq<URLElement>, i: nat, hi: nat, acc: set<string>): (r: set<string>)
    requires i <= hi <= |base|
    ensures r == acc + UrlVariables(base[i..hi])
    decreases hi - i
  {
    if i == hi then acc
    else
      assert base[i..hi] == [base[i]] + base[i + 1..hi];
      FoldUrlSlice(base, i + 1, hi, acc + UrlElementVariables(base[i]))
  }

  /** `&[URLElement]::get_variables` on the slice `base[lo..hi]`: the same
      as the vector form on the same elements. */
  function UrlSliceVariables(base: seq<URLElement>, lo: nat, hi: nat): (r: set<string>)
    requires lo <= hi <= |base|
    ensures r == UrlVariables(base[lo..hi])
  {
    FoldUrlSlice(base, lo, hi, {})
  }

  /************************ get_style_variables ************************/

  /** `StyleElement::get_style_variables`. */
  function StyleElementVariables(st: StyleElement): set<string>
  {
    match st
    case Variable(v) => {v}
    case Text(_) => {}
  }

  /** `Vec<StyleElement>::get_style_variables`. */
  function StyleSeqVariables(s: seq<StyleElement>): (r: set<string>)
    ensures forall i | 0 <= i < |s| :: StyleElementVariables(s[i]) <= r
  {
    if s == [] then {} else StyleElementVariables(s[0]) + StyleSeqVariables(s[1..])
  }

  /** What one element adds to the accumulator in the fold of
      `Vec<FormatElement>::get_style_variables`: a link only the style
      variables of its label (never its target), a text group its own style
      variables and those of its content, a conditional those of its
      content, text and variables nothing. */
  function StyleContribution(e: FormatElement): set<string>
  {
    match e
    case Link(l) => StyleVariables(l.format)
    case TextGroup(g) => StyleSeqVariables(g.style) + StyleVariables(g.format)
    case Conditional(f) => StyleVariables(f)
    case _ => {}
  }

  /** `Vec<FormatElement>::get_style_variables`. */
  function StyleVariables(s: seq<FormatElement>): (r: set<string>)
    ensures forall i | 0 <= i < |s| :: StyleContribution(s[i]) <= r
  {
    if s == [] then {} else StyleContribution(s[0]) + StyleVariables(s[1..])
  }

  /************** reference definition: reachable elements **************/

  /** Every element reachable from `e` by descending into the content of
      links, text groups and conditionals (`e` itself included). */
  ghost function ElementReachable(e: FormatElement): (r: set<FormatElement>)
    ensures e in r
  {
    {e} +
    match e
    case Link(l) => Reachable(l.format)
    case TextGroup(g) => Reachable(g.format)
    case Conditional(f) => Reachable(f)
    case _ => {}
  }

  /** Every element reachable from the template `s`. */
  ghost function Reachable(s: seq<FormatElement>): (r: set<FormatElement>)
    ensures forall i | 0 <= i < |s| :: s[i] in r
  {
    if s == [] then {} else ElementReachable(s[0]) + Reachable(s[1..])
  }

  /** Names of the `Variable` elements in `n`. */
  ghost function ContentNames(n: set<FormatElement>): set<string>
  {
    set e | e in n && e.Variable? :: e.name
  }

  /** Names of the variables in the targets of the links in `n`. */
  ghost function UrlNames(n: set<FormatElement>): set<string>
  {
    set e, u | e in n && e.Link? && u in e.link.url && u.Variable? :: u.name
  }

  /** Names of the variables in the styles of the text groups in `n`. */
  ghost function StyleNames(n: set<FormatElement>): set<string>
  {
    set e, st | e in n && e.TextGroup? && st in e.textgroup.style && st.Variable? :: st.name
  }
}
