/** Properties of the variable extractions of src/formatter/model.rs. */
module FormatterProperties {
  import opened FormatterModel

  /**************************** leaf cases ****************************/

  /** A variable yields exactly its own name, literal text nothing. */
  lemma FormatLeafVariables(v: string, t: string)
    ensures ElementVariables(FormatElement.Variable(v)) == {v}
    ensures ElementVariables(FormatElement.Text(t)) == {}
  {
  }

  /** The same holds of target and style elements. */
  lemma UrlAndStyleLeafVariables(v: string, t: string)
    ensures UrlElementVariables(URLElement.Variable(v)) == {v}
    ensures UrlElementVariables(URLElement.Text(t)) == {}
    ensures StyleElementVariables(StyleElement.Variable(v)) == {v}
    ensures StyleElementVariables(StyleElement.Text(t)) == {}
  {
  }

  /** A link yields the variables of its label together with those of its
      target. */
  lemma LinkVariables(l: Link)
    ensures ElementVariables(FormatElement.Link(l)) == FormatVariables(l.format) + UrlVariables(l.url)
  {
  }

  /** A text group yields only the variables of its content: whatever its
      style says, the result is the same. */
  lemma TextGroupIgnoresStyle(f: seq<FormatElement>, st1: seq<StyleElement>, st2: seq<StyleElement>)
    ensures ElementVariables(FormatElement.TextGroup(TextGroup.TextGroup(f, st1))) == FormatVariables(f)
    ensures ElementVariables(FormatElement.TextGroup(TextGroup.TextGroup(f, st1)))
         == ElementVariables(FormatElement.TextGroup(TextGroup.TextGroup(f, st2)))
  {
  }

  /******************** sequences are unions ********************/

  /** A name is among a template's variables exactly when some element of
      it yields that name. */
  lemma {:induction false} FormatVariablesMembership(s: seq<FormatElement>, v: string)
    ensures v in FormatVariables(s) <==> exists i :: 0 <= i < |s| && v in ElementVariables(s[i])
  {
    if s != [] {
      FormatVariablesMembership(s[1..], v);
      if v in FormatVariables(s[1..]) {
        var i :| 0 <= i < |s[1..]| && v in ElementVariables(s[1..][i]);
        assert v in ElementVariables(s[i + 1]);
      }
      if exists i :: 0 <= i < |s| && v in ElementVariables(s[i]) {
        var i :| 0 <= i < |s| && v in ElementVariables(s[i]);
        if i > 0 {
          assert s[1..][i - 1] == s[i];
        }
      }
    }
  }

  /** The variables of a concatenation are the union of the variables of
      its parts. */
  lemma {:induction false} FormatVariablesConcat(a: seq<FormatElement>, b: seq<FormatElement>)
    ensures FormatVariables(a + b) == FormatVariables(a) + FormatVariables(b)
  {
    if a != [] {
      assert (a + b)[1..] == a[1..] + b;
      FormatVariablesConcat(a[1..], b);
    } else {
      assert a + b == b;
    }
  }

  /** Two templates with the same elements, in whatever order and with
      whatever repetitions, yield the same variables. */
  lemma FormatVariablesIgnoreOrder(a: seq<FormatElement>, b: seq<FormatElement>)
    requires forall e :: e in a <==> e in b
    ensures FormatVariables(a) == FormatVariables(b)
  {
    forall v ensures v in FormatVariables(a) <==> v in FormatVariables(b) {
      FormatVariablesMembership(a, v);
      FormatVariablesMembership(b, v);
      if v in FormatVariables(a) {
        var i :| 0 <= i < |a| && v in ElementVariables(a[i]);
        assert a[i] in b;
        var j :| 0 <= j < |b| && b[j] == a[i];
      }
      if v in FormatVariables(b) {
        var i :| 0 <= i < |b| && v in ElementVariables(b[i]);
        assert b[i] in a;
        var j :| 0 <= j < |a| && a[j] == b[i];
      }
    }
  }

  /** The target variables of a link are the names of its `Variable` parts. */
  lemma {:induction false} UrlVariablesAreNames(s: seq<URLElement>)
    ensures UrlVariables(s) == set u | u in s && u.Variable? :: u.name
  {
    if s != [] {
      UrlVariablesAreNames(s[1..]);
      assert forall u :: u in s <==> u == s[0] || u in s[1..];
    }
  }

  /** The style variables of a style are the names of its `Variable` parts. */
  lemma {:induction false} StyleSeqVariablesAreNames(s: seq<StyleElement>)
    ensures StyleSeqVariables(s) == set st | st in s && st.Variable? :: st.name
  {
    if s != [] {
      StyleSeqVariablesAreNames(s[1..]);
      assert forall st :: st in s <==> st == s[0] || st in s[1..];
    }
  }

  /************************ style variables ************************/

  /** What each kind of element adds to the style variables of the
      template it starts: a text group its own style variables and those of
      its content, a link or conditional those of its content (never a
      link's target), text and variables nothing. */
  lemma StyleVariablesOfElement(e: FormatElement, rest: seq<FormatElement>)
    ensures e.TextGroup? ==>
      StyleVariables([e] + rest)
      == StyleSeqVariables(e.textgroup.style) + StyleVariables(e.textgroup.format) + StyleVariables(rest)
    ensures e.Link? ==> StyleVariables([e] + rest) == StyleVariables(e.link.format) + StyleVariables(rest)
    ensures e.Conditional? ==> StyleVariables([e] + rest) == StyleVariables(e.format) + StyleVariables(rest)
    ensures (e.Text? || e.Variable?) ==> StyleVariables([e] + rest) == StyleVariables(rest)
  {
    assert ([e] + rest)[1..] == rest;
  }

  /** A link's target never contributes style variables. */
  lemma LinkStyleIgnoresUrl(f: seq<FormatElement>, u1: seq<URLElement>, u2: seq<URLElement>)
    ensures StyleVariables([FormatElement.Link(Link.Link(f, u1))]) == StyleVariables(f)
    ensures StyleVariables([FormatElement.Link(Link.Link(f, u1))])
         == StyleVariables([FormatElement.Link(Link.Link(f, u2))])
  {
  }

  /** A name is among a template's style variables exactly when some
      element of it contributes that name. */
  lemma {:induction false} StyleVariablesMembership(s: seq<FormatElement>, v: string)
    ensures v in StyleVariables(s) <==> exists i :: 0 <= i < |s| && v in StyleContribution(s[i])
  {
    if s != [] {
      StyleVariablesMembership(s[1..], v);
      if v in StyleVariables(s[1..]) {
        var i :| 0 <= i < |s[1..]| && v in StyleContribution(s[1..][i]);
        assert v in StyleContribution(s[i + 1]);
      }
      if exists i :: 0 <= i < |s| && v in StyleContribution(s[i]) {
        var i :| 0 <= i < |s| && v in StyleContribution(s[i]);
        if i > 0 {
          assert s[1..][i - 1] == s[i];
        }
      }
    }
  }

  /** The style variables of a concatenation are the union of those of its
      parts. */
  lemma {:induction false} StyleVariablesConcat(a: seq<FormatElement>, b: seq<FormatElement>)
    ensures StyleVariables(a + b) == StyleVariables(a) + StyleVariables(b)
  {
    if a != [] {
      assert (a + b)[1..] == a[1..] + b;
      StyleVariablesConcat(a[1..], b);
    } else {
      assert a + b == b;
    }
  }

  /** Style variables do not depend on the order or repetition of elements. */
  lemma StyleVariablesIgnoreOrder(a: seq<FormatElement>, b: seq<FormatElement>)
    requires forall e :: e in a <==> e in b
    ensures StyleVariables(a) == StyleVariables(b)
  {
    forall v ensures v in StyleVariables(a) <==> v in StyleVariables(b) {
      StyleVariablesMembership(a, v);
      StyleVariablesMembership(b, v);
      if v in StyleVariables(a) {
        var i :| 0 <= i < |a| && v in StyleContribution(a[i]);
        assert a[i] in b;
        var j :| 0 <= j < |b| && b[j] == a[i];
      }
      if v in StyleVariables(b) {
        var i :| 0 <= i < |b| && v in StyleContribution(b[i]);
        assert b[i] in a;
        var j :| 0 <= j < |a| && a[j] == b[i];
      }
    }
  }

  /******************* agreement with the reference *******************/

  lemma NamesOfUnion(m: set<FormatElement>, n: set<FormatElement>)
    ensures ContentNames(m + n) == ContentNames(m) + ContentNames(n)
    ensures UrlNames(m + n) == UrlNames(m) + UrlNames(n)
    ensures StyleNames(m + n) == StyleNames(m) + StyleNames(n)
  {
  }

  /** The variables of an element are the names of the `Variable` elements
      reachable from it together with the names of the variables in the
      targets of the links reachable from it. */
  lemma {:induction false} ElementVariablesAreReachableNames(e: FormatElement)
    ensures ElementVariables(e) == ContentNames(ElementReachable(e)) + UrlNames(ElementReachable(e))
  {
    match e
    case Link(l) =>
      FormatVariablesAreReachableNames(l.format);
      NamesOfUnion({e}, Reachable(l.format));
      UrlVariablesAreNames(l.url);
    case TextGroup(g) =>
      FormatVariablesAreReachableNames(g.format);
      NamesOfUnion({e}, Reachable(g.format));
    case Conditional(f) =>
      FormatVariablesAreReachableNames(f);
      NamesOfUnion({e}, Reachable(f));
    case _ =>
  }

  /** The same for a whole template. */
  lemma {:induction false} FormatVariablesAreReachableNames(s: seq<FormatElement>)
    ensures FormatVariables(s) == ContentNames(Reachable(s)) + UrlNames(Reachable(s))
  {
    if s != [] {
      ElementVariablesAreReachableNames(s[0]);
      FormatVariablesAreReachableNames(s[1..]);
      NamesOfUnion(ElementReachable(s[0]), Reachable(s[1..]));
    }
  }

  /** What an element contributes to the style variables is the names of
      the style variables of the text groups reachable from it. */
  lemma {:induction false} StyleContributionIsReachableNames(e: FormatElement)
    ensures StyleContribution(e) == StyleNames(ElementReachable(e))
  {
    match e
    case Link(l) =>
      StyleVariablesAreReachableNames(l.format);
      NamesOfUnion({e}, Reachable(l.format));
    case TextGroup(g) =>
      StyleVariablesAreReachableNames(g.format);
      NamesOfUnion({e}, Reachable(g.format));
      StyleSeqVariablesAreNames(g.style);
    case Conditional(f) =>
      StyleVariablesAreReachableNames(f);
      NamesOfUnion({e}, Reachable(f));
    case _ =>
  }

  /** The style variables of a template are the names of the style
      variables of every text group reachable from it. */
  lemma {:induction false} StyleVariablesAreReachableNames(s: seq<FormatElement>)
    ensures StyleVariables(s) == StyleNames(Reachable(s))
  {
    if s != [] {
      StyleContributionIsReachableNames(s[0]);
      StyleVariablesAreReachableNames(s[1..]);
      NamesOfUnion(ElementReachable(s[0]), Reachable(s[1..]));
    }
  }

  /** Extraction never invents a name, and misses none: a name is
      extracted exactly when it is the payload of a `Variable` somewhere in
      the tree (a content variable or link-target variable for
      `get_variables`, a text-group style variable for
      `get_style_variables`). */
  lemma ExtractionIsExact(s: seq<FormatElement>, v: string)
    ensures v in FormatVariables(s) <==>
      exists e :: e in Reachable(s) &&
        (e == FormatElement.Variable(v) || (e.Link? && URLElement.Variable(v) in e.link.url))
    ensures v in StyleVariables(s) <==>
      exists e :: e in Reachable(s) && e.TextGroup? && StyleElement.Variable(v) in e.textgroup.style
  {
    FormatVariablesAreReachableNames(s);
    StyleVariablesAreReachableNames(s);
    if v in UrlNames(Reachable(s)) {
      var e, u :| e in Reachable(s) && e.Link? && u in e.link.url && u.Variable? && u.name == v;
      assert u == URLElement.Variable(v);
    }
    if v in StyleNames(Reachable(s)) {
      var e, st :| e in Reachable(s) && e.TextGroup? && st in e.textgroup.style && st.Variable? && st.name == v;
      assert st == StyleElement.Variable(v);
    }
  }

  /** The template `$a[$b]($c)($d)`: content variables are `a`, `b` and `d`
      (the style variable `c` of the text group is not among them), and the
      only style variable is `c`. */
  lemma MixedTemplateExample()
    ensures FormatVariables([
      FormatElement.Variable("a"),
      FormatElement.TextGroup(TextGroup.TextGroup([FormatElement.Variable("b")], [StyleElement.Variable("c")])),
      FormatElement.Conditional([FormatElement.Variable("d")])]) == {"a", "b", "d"}
    ensures StyleVariables([
      FormatElement.Variable("a"),
      FormatElement.TextGroup(TextGroup.TextGroup([FormatElement.Variable("b")], [StyleElement.Variable("c")])),
      FormatElement.Conditional([FormatElement.Variable("d")])]) == {"c"}
  {
    var s := [
      FormatElement.Variable("a"),
      FormatElement.TextGroup(TextGroup.TextGroup([FormatElement.Variable("b")], [StyleElement.Variable("c")])),
      FormatElement.Conditional([FormatElement.Variable("d")])];
    assert s[1..][1..][1..] == [];
  }
}
