/**
  The product button id parser of the test data module.

  A product button on the listing and cart pages carries a DOM id of the form
  `add-to-cart-<base>` or `remove-<base>`. The parser runs the anchored regular
  expression `^(?:(add-to-cart-)|(remove-))(\S+)` over the id, destructures the
  match into its three capture groups and returns the record
  `{canAdd, canRemove, btnCssId, baseCssId}`. When the expression does not
  match, `exec` yields `null` and the destructuring throws; that outcome is the
  `DestructuringTypeError` value here.
 */
module ProductButtonId {

  datatype Option<T> = None | Some(value: T)

  /** The record the parser returns. */
  datatype ButtonProps = ButtonProps(canAdd: bool, canRemove: bool, btnCssId: string, baseCssId: string)

  /** Either the record, or the TypeError thrown by destructuring a `null` match. */
  datatype ParseOutcome = Parsed(props: ButtonProps) | DestructuringTypeError

  const AddToCartPrefix: string := "add-to-cart-"
  const RemoveFromCartPrefix: string := "remove-"

  /** The characters JavaScript's `\s` matches: ECMAScript WhiteSpace and LineTerminator. */
  predicate IsWhitespace(c: char) {
    if c < '\U{00A0}' then
      c == ' ' || ('\t' <= c <= '\r')  // TAB, LF, VT, FF, CR and SPACE
    else
      || c == '\U{00A0}' || c == '\U{1680}' || ('\U{2000}' <= c <= '\U{200A}')
      || c == '\U{2028}' || c == '\U{2029}' || c == '\U{202F}' || c == '\U{205F}'
      || c == '\U{3000}' || c == '\U{FEFF}'
  }

  /** Every character of `s` is matched by `\S`. */
  predicate NoWhitespace(s: string) {
    forall i :: 0 <= i < |s| ==> !IsWhitespace(s[i])
  }

  predicate StartsWith(s: string, pre: string) {
    |pre| <= |s| && s[..|pre|] == pre
  }

  /**
    Greedy `\S+` at the start of `s`: the longest run of non-whitespace
    characters. Nothing follows `\S+` in the pattern, so the first (longest)
    attempt of the backtracking matcher is the one that succeeds.
   */
  function NonWhitespaceRun(s: string): (run: string)
    ensures StartsWith(s, run)
    ensures NoWhitespace(run)
    ensures |run| == |s| || IsWhitespace(s[|run|])
  {
    if s == [] || IsWhitespace(s[0]) then [] else [s[0]] + NonWhitespaceRun(s[1..])
  }

  /** The alternative with literal prefix `pre` can match: `pre` followed by at least one `\S`. */
  predicate AlternativeMatches(s: string, pre: string) {
    StartsWith(s, pre) && |pre| < |s| && !IsWhitespace(s[|pre|])
  }

  /** The array `exec` returns, groups 1 to 3; an undefined group is `None`. */
  datatype RegexMatch = RegexMatch(addPrefix: Option<string>, removePrefix: Option<string>, base: string)

  /** `/^(?:(add-to-cart-)|(remove-))(\S+)/.exec(s)`: alternatives are tried left to right. */
  function ExecButtonIdRegex(s: string): (m: Option<RegexMatch>)
    ensures m.None? <==> !AlternativeMatches(s, AddToCartPrefix) && !AlternativeMatches(s, RemoveFromCartPrefix)
    ensures m.Some? ==>
      var pre := if m.value.addPrefix.Some? then AddToCartPrefix else RemoveFromCartPrefix;
      && (m.value.addPrefix.Some? != m.value.removePrefix.Some?)
      && (m.value.addPrefix.Some? ==> m.value.addPrefix.value == AddToCartPrefix)
      && (m.value.removePrefix.Some? ==> m.value.removePrefix.value == RemoveFromCartPrefix)
      && StartsWith(s, pre + m.value.base)
      && |m.value.base| > 0 && NoWhitespace(m.value.base)
      && (|pre + m.value.base| == |s| || IsWhitespace(s[|pre + m.value.base|]))
  {
    var addRun := if StartsWith(s, AddToCartPrefix) then NonWhitespaceRun(s[|AddToCartPrefix|..]) else [];
    if addRun != [] then
      assert s[..|AddToCartPrefix + addRun|] == AddToCartPrefix + addRun;
      Some(RegexMatch(Some(AddToCartPrefix), None, addRun))
    else
      var removeRun := if StartsWith(s, RemoveFromCartPrefix) then NonWhitespaceRun(s[|RemoveFromCartPrefix|..]) else [];
      if removeRun != [] then
        assert s[..|RemoveFromCartPrefix + removeRun|] == RemoveFromCartPrefix + removeRun;
        Some(RegexMatch(None, Some(RemoveFromCartPrefix), removeRun))
      else
        None
  }

  /** `parseProductBtnId`: destructure the match and compare the groups with the prefix constants. */
  function ParseProductBtnId(btnCssId: string): (r: ParseOutcome)
    ensures r.Parsed? <==> AlternativeMatches(btnCssId, AddToCartPrefix) || AlternativeMatches(btnCssId, RemoveFromCartPrefix)
    ensures r.Parsed? ==> r.props.btnCssId == btnCssId && r.props.canAdd != r.props.canRemove
  {
    match ExecButtonIdRegex(btnCssId)
    case None => DestructuringTypeError
    case Some(m) =>
      Parsed(ButtonProps(
        canAdd := m.addPrefix == Some(AddToCartPrefix),
        canRemove := m.removePrefix == Some(RemoveFromCartPrefix),
        btnCssId := btnCssId,
        baseCssId := m.base))
  }

  /** The prefix a record's flag names. */
  function PrefixOf(p: ButtonProps): string {
    if p.canAdd then AddToCartPrefix else RemoveFromCartPrefix
  }

  /**
    Declarative reading of the regular expression: `p` describes `s` when `s`
    is the flagged prefix, then `p.baseCssId` (non-empty, no whitespace), then
    either nothing or a whitespace character and anything after it.
   */
  ghost predicate DescribesButtonId(s: string, p: ButtonProps) {
    var end := |PrefixOf(p)| + |p.baseCssId|;
    && p.btnCssId == s
    && p.canAdd != p.canRemove
    && |p.baseCssId| > 0 && NoWhitespace(p.baseCssId)
    && StartsWith(s, PrefixOf(p) + p.baseCssId)
    && (end == |s| || IsWhitespace(s[end]))
  }

  /** Every successful parse is described by the declarative reading. */
  lemma ParseSound(s: string)
    ensures ParseProductBtnId(s).Parsed? ==> DescribesButtonId(s, ParseProductBtnId(s).props)
  {
  }

  /** Two runs of `\S` that start at the same place and end at whitespace or at the end are equal. */
  lemma MaximalRunUnique(s: string, a: string, b: string)
    requires StartsWith(s, a) && NoWhitespace(a) && (|a| == |s| || IsWhitespace(s[|a|]))
    requires StartsWith(s, b) && NoWhitespace(b) && (|b| == |s| || IsWhitespace(s[|b|]))
    ensures a == b
  {
  }

  /**
    At most one record describes an id: the two prefixes differ in their first
    character, so only one alternative can match at position 0, and the base is
    the maximal run after it.
   */
  lemma DescriptionUnique(s: string, p: ButtonProps, q: ButtonProps)
    requires DescribesButtonId(s, p) && DescribesButtonId(s, q)
    ensures p == q
  {
    assert s[0] == (PrefixOf(p) + p.baseCssId)[0] == PrefixOf(p)[0];
    assert s[0] == (PrefixOf(q) + q.baseCssId)[0] == PrefixOf(q)[0];
    var pre := PrefixOf(p);
    assert PrefixOf(q) == pre;
    var rest := s[|pre|..];
    assert StartsWith(rest, p.baseCssId) by {
      assert s[..|pre + p.baseCssId|] == pre + p.baseCssId;
      assert rest[..|p.baseCssId|] == s[|pre|..|pre| + |p.baseCssId|];
    }
    assert StartsWith(rest, q.baseCssId) by {
      assert s[..|pre + q.baseCssId|] == pre + q.baseCssId;
      assert rest[..|q.baseCssId|] == s[|pre|..|pre| + |q.baseCssId|];
    }
    MaximalRunUnique(rest, p.baseCssId, q.baseCssId);
  }

  /** Every record the declarative reading allows is what the parser returns. */
  lemma ParseComplete(s: string, p: ButtonProps)
    requires DescribesButtonId(s, p)
    ensures ParseProductBtnId(s) == Parsed(p)
  {
    var pre := PrefixOf(p);
    assert s[..|pre + p.baseCssId|] == pre + p.baseCssId;
    assert s[..|pre|] == pre;
    assert s[|pre|] == p.baseCssId[0];
    assert AlternativeMatches(s, pre);
    ParseSound(s);
    DescriptionUnique(s, ParseProductBtnId(s).props, p);
  }

  /** The parser returns `Parsed(p)` exactly when `p` describes the id. */
  lemma ParseCharacterized(s: string, p: ButtonProps)
    ensures ParseProductBtnId(s) == Parsed(p) <==> DescribesButtonId(s, p)
  {
    if DescribesButtonId(s, p) {
      ParseComplete(s, p);
    }
  }

  /**
    An id made of a known prefix, a non-empty whitespace-free base and a rest
    that is empty or starts with whitespace parses to that prefix's flag and
    that base; the input comes back unchanged in `btnCssId` and the rest is dropped.
   */
  lemma ParsePrefixedId(pre: string, base: string, rest: string)
    requires pre == AddToCartPrefix || pre == RemoveFromCartPrefix
    requires |base| > 0 && NoWhitespace(base)
    requires rest == [] || IsWhitespace(rest[0])
    ensures ParseProductBtnId(pre + base + rest)
         == Parsed(ButtonProps(pre == AddToCartPrefix, pre == RemoveFromCartPrefix, pre + base + rest, base))
  {
    var s := pre + base + rest;
    var p := ButtonProps(pre == AddToCartPrefix, pre == RemoveFromCartPrefix, s, base);
    assert PrefixOf(p) == pre;
    assert s[..|pre + base|] == pre + base;
    assert |pre + base| < |s| ==> s[|pre + base|] == rest[0];
    ParseComplete(s, p);
  }

  /** `add-to-cart-<base>` parses to an add button for `<base>`. */
  lemma ParseAddToCartId(base: string)
    requires |base| > 0 && NoWhitespace(base)
    ensures ParseProductBtnId(AddToCartPrefix + base)
         == Parsed(ButtonProps(true, false, AddToCartPrefix + base, base))
  {
    ParsePrefixedId(AddToCartPrefix, base, []);
    assert AddToCartPrefix + base + [] == AddToCartPrefix + base;
  }

  /** `remove-<base>` parses to a remove button for `<base>`. */
  lemma ParseRemoveId(base: string)
    requires |base| > 0 && NoWhitespace(base)
    ensures ParseProductBtnId(RemoveFromCartPrefix + base)
         == Parsed(ButtonProps(false, true, RemoveFromCartPrefix + base, base))
  {
    ParsePrefixedId(RemoveFromCartPrefix, base, []);
    assert RemoveFromCartPrefix + base + [] == RemoveFromCartPrefix + base;
  }

  /**
    The parser throws in exactly three cases: the id starts with neither
    prefix, the id is only a prefix, or the prefix is directly followed by
    whitespace.
   */
  lemma ParseFailureCases(s: string)
    ensures ParseProductBtnId(s) == DestructuringTypeError <==>
      || (!StartsWith(s, AddToCartPrefix) && !StartsWith(s, RemoveFromCartPrefix))
      || s == AddToCartPrefix || s == RemoveFromCartPrefix
      || (StartsWith(s, AddToCartPrefix) && |s| > |AddToCartPrefix| && IsWhitespace(s[|AddToCartPrefix|]))
      || (StartsWith(s, RemoveFromCartPrefix) && |s| > |RemoveFromCartPrefix| && IsWhitespace(s[|RemoveFromCartPrefix|]))
  {
    assert StartsWith(s, AddToCartPrefix) ==> s[0] == 'a';
    assert StartsWith(s, RemoveFromCartPrefix) ==> s[0] == 'r';
    assert StartsWith(s, AddToCartPrefix) && |s| == |AddToCartPrefix| ==> s == AddToCartPrefix;
    assert StartsWith(s, RemoveFromCartPrefix) && |s| == |RemoveFromCartPrefix| ==> s == RemoveFromCartPrefix;
  }
}
