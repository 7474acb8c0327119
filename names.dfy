/**
  Tool-name mapping between the gateway form `@scope/trik-id:action` and the
  identifier-safe local form, and the trik id (session scope) of a gateway name.
*/
module ToolNames {
  import opened Strings

  /** `_to_tool_name`: drop `@`, then `/` and `-` become `_`, then `:` becomes `__`. */
  function ToToolName(gateway: string): (r: string)
  {
    ReplaceChar(ReplaceChar(ReplaceChar(ReplaceChar(gateway, '@', ""), '/', "_"), '-', "_"), ':', "__")
  }

  /**
    `_from_tool_name`: with exactly two `__`-separated parts, the first part's
    underscores become dashes and a `:` joins it to the untouched second part;
    otherwise every underscore becomes a dash.
  */
  function FromToolName(local: string): (r: string)
  {
    var parts := SplitDunder(local);
    if |parts| == 2 then ReplaceChar(parts[0], '_', "-") + ":" + parts[1]
    else ReplaceChar(local, '_', "-")
  }

  /** The trik id of a tool: the text before the first `:`, or the whole name when it has none. */
  function TrikIdOf(name: string): (r: string)
    ensures ':' !in r
    ensures |r| <= |name| && r == name[..|r|]
    ensures ':' in name ==> |r| < |name| && name[|r|] == ':'
    ensures ':' !in name ==> r == name
  {
    if ':' in name then BeforeFirst(name, ':') else name
  }

  /** None of the four characters the local form rewrites. */
  predicate Plain(s: string) {
    '@' !in s && '/' !in s && '-' !in s && ':' !in s
  }

  /** A local name holds none of the four rewritten characters, whatever the gateway name. */
  lemma ToToolNameIsPlain(gateway: string)
    ensures Plain(ToToolName(gateway))
  {
    var s1 := ReplaceChar(gateway, '@', "");
    var s2 := ReplaceChar(s1, '/', "_");
    var s3 := ReplaceChar(s2, '-', "_");
    var s4 := ReplaceChar(s3, ':', "__");
    ReplaceCharKeepsOut(s1, '/', "_", '@');
    ReplaceCharKeepsOut(s2, '-', "_", '@');
    ReplaceCharKeepsOut(s2, '-', "_", '/');
    ReplaceCharKeepsOut(s3, ':', "__", '@');
    ReplaceCharKeepsOut(s3, ':', "__", '/');
    ReplaceCharKeepsOut(s3, ':', "__", '-');
  }

  /** The local name of a concatenation is the concatenation of the local names. */
  lemma ToToolNameAppend(a: string, b: string)
    ensures ToToolName(a + b) == ToToolName(a) + ToToolName(b)
  {
    ReplaceCharAppend(a, b, '@', "");
    var a1, b1 := ReplaceChar(a, '@', ""), ReplaceChar(b, '@', "");
    ReplaceCharAppend(a1, b1, '/', "_");
    var a2, b2 := ReplaceChar(a1, '/', "_"), ReplaceChar(b1, '/', "_");
    ReplaceCharAppend(a2, b2, '-', "_");
    var a3, b3 := ReplaceChar(a2, '-', "_"), ReplaceChar(b2, '-', "_");
    ReplaceCharAppend(a3, b3, ':', "__");
  }

  /** Appending one more character to a name whose local form is known. */
  lemma ToToolNameSnoc(a: string, c: char, la: string, lc: string)
    requires ToToolName(a) == la && ToToolName([c]) == lc
    ensures ToToolName(a + [c]) == la + lc
  {
    ToToolNameAppend(a, [c]);
  }

  /** Appending a plain piece to a name whose local form is known. */
  lemma ToToolNamePlainSuffix(a: string, b: string, la: string)
    requires ToToolName(a) == la && Plain(b)
    ensures ToToolName(a + b) == la + b
  {
    ToToolNameAppend(a, b);
  }

  /** The local form of the trik part `@scope/w1-w2` of a scoped name. */
  lemma {:induction false} ScopedTrikLocal(scope: string, w1: string, w2: string)
    requires Plain(scope) && Plain(w1) && Plain(w2)
    ensures ToToolName(['@'] + scope + ['/'] + w1 + ['-'] + w2) == scope + ['_'] + w1 + ['_'] + w2
  {
    var p0 := ['@'];
    var p1 := p0 + scope; ToToolNamePlainSuffix(p0, scope, []);
    var p2 := p1 + ['/']; ToToolNameSnoc(p1, '/', scope, ['_']);
    var p3 := p2 + w1; ToToolNamePlainSuffix(p2, w1, scope + ['_']);
    var p4 := p3 + ['-']; ToToolNameSnoc(p3, '-', scope + ['_'] + w1, ['_']);
    ToToolNamePlainSuffix(p4, w2, scope + ['_'] + w1 + ['_']);
  }

  /**
    The documented conversion `@molefas/article-search:list` to
    `molefas_article_search__list`, for every scope, trik words and action
    made of plain characters: the example is the instance
    `ToToolNameShape("molefas", "article", "search", "list")`.
  */
  lemma ToToolNameShape(scope: string, w1: string, w2: string, action: string)
    requires Plain(scope) && Plain(w1) && Plain(w2) && Plain(action)
    ensures ToToolName(['@'] + scope + ['/'] + w1 + ['-'] + w2 + [':'] + action)
         == scope + ['_'] + w1 + ['_'] + w2 + ['_', '_'] + action
  {
    var trik := ['@'] + scope + ['/'] + w1 + ['-'] + w2;
    ScopedTrikLocal(scope, w1, w2);
    ToToolNameSnoc(trik, ':', scope + ['_'] + w1 + ['_'] + w2, ['_', '_']);
    ToToolNamePlainSuffix(trik + [':'], action, scope + ['_'] + w1 + ['_'] + w2 + ['_', '_']);
  }

  lemma {:induction false} NoUnderscoreNoDunder(s: string)
    requires '_' !in s
    ensures !HasDunder(s)
  {
    if |s| >= 2 {
      NoUnderscoreNoDunder(s[1..]);
    }
  }

  /** Joining two underscore-free pieces with a single `_` creates no `__`. */
  lemma {:induction false} SingleJoinNoDunder(a: string, b: string)
    requires '_' !in a && '_' !in b
    ensures !HasDunder(a + ['_'] + b)
  {
    if a == [] {
      assert a + ['_'] + b == ['_'] + b;
      NoUnderscoreNoDunder(b);
      if |b| >= 1 { assert (['_'] + b)[1] == b[0]; assert (['_'] + b)[1..] == b; }
    } else {
      assert (a + ['_'] + b)[1..] == a[1..] + ['_'] + b;
      SingleJoinNoDunder(a[1..], b);
      assert (a + ['_'] + b)[0] == a[0];
    }
  }

  /** Underscores to dashes, piece by piece. */
  lemma DashesAppend(a: string, b: string)
    ensures ReplaceChar(a + b, '_', "-") == ReplaceChar(a, '_', "-") + ReplaceChar(b, '_', "-")
  {
    ReplaceCharAppend(a, b, '_', "-");
  }

  /** Underscores to dashes across a single-underscore join. */
  lemma DashJoin(a: string, b: string)
    requires '_' !in a && '_' !in b
    ensures ReplaceChar(a + ['_'] + b, '_', "-") == a + ['-'] + b
  {
    DashesAppend(a + ['_'], b);
    DashesAppend(a, ['_']);
  }

  /**
    `_from_tool_name` keeps the scope: `molefas_article_search__list` maps back
    to `molefas-article-search:list`, not to the `article-search:list` its
    documentation claims; this is the shape with underscore-free words.
  */
  lemma {:induction false} FromToolNameShape(scope: string, trik: string, action: string)
    requires '_' !in scope && '_' !in trik && '_' !in action && trik != []
    ensures FromToolName(scope + ['_'] + trik + ['_', '_'] + action) == scope + ['-'] + trik + [':'] + action
  {
    var first := scope + ['_'] + trik;
    SingleJoinNoDunder(scope, trik);
    NoUnderscoreNoDunder(action);
    assert first[|first| - 1] == trik[|trik| - 1];
    assert scope + ['_'] + trik + ['_', '_'] + action == first + "__" + action;
    FromToolNameSplit(first, action);
    DashJoin(scope, trik);
  }

  /** The local form of a scoped name `@group/x:act`. */
  lemma {:induction false} ScopedLocal(group: string, x: string, act: string)
    requires Plain(group) && Plain(x) && Plain(act)
    ensures ToToolName(['@'] + group + ['/'] + x + [':'] + act) == group + ['_'] + x + ['_', '_'] + act
  {
    var p0 := ['@'];
    var p1 := p0 + group; ToToolNamePlainSuffix(p0, group, []);
    var p2 := p1 + ['/']; ToToolNameSnoc(p1, '/', group, ['_']);
    var p3 := p2 + x; ToToolNamePlainSuffix(p2, x, group + ['_']);
    var p4 := p3 + [':']; ToToolNameSnoc(p3, ':', group + ['_'] + x, ['_', '_']);
    ToToolNamePlainSuffix(p4, act, group + ['_'] + x + ['_', '_']);
  }

  /** The local form of the unscoped name `group-x:act`. */
  lemma {:induction false} UnscopedLocal(group: string, x: string, act: string)
    requires Plain(group) && Plain(x) && Plain(act)
    ensures ToToolName(group + ['-'] + x + [':'] + act) == group + ['_'] + x + ['_', '_'] + act
  {
    var q1 := group; ToToolNamePlainSuffix([], group, []); assert [] + group == group;
    var q2 := q1 + ['-']; ToToolNameSnoc(q1, '-', group, ['_']);
    var q3 := q2 + x; ToToolNamePlainSuffix(q2, x, group + ['_']);
    var q4 := q3 + [':']; ToToolNameSnoc(q3, ':', group + ['_'] + x, ['_', '_']);
    ToToolNamePlainSuffix(q4, act, group + ['_'] + x + ['_', '_']);
  }

  /**
    The documented lossy round trip `@group/x:act` to `group-x:act`, for all
    plain underscore-free pieces: the leading `@` is lost for good, and so is
    the `/`, which comes back as `-`.
  */
  lemma LossyRoundTrip(group: string, x: string, act: string)
    requires Plain(group) && Plain(x) && Plain(act)
    requires '_' !in group && '_' !in x && '_' !in act && x != []
    ensures FromToolName(ToToolName(['@'] + group + ['/'] + x + [':'] + act)) == group + ['-'] + x + [':'] + act
  {
    ScopedLocal(group, x, act);
    FromToolNameShape(group, x, act);
  }

  /**
    The mapping is not injective: a name with the `@` and `/` of a scope and
    the same name with neither map to one local name, so no inverse exists.
  */
  lemma ToToolNameNotInjective(group: string, x: string, act: string)
    requires Plain(group) && Plain(x) && Plain(act)
    ensures ['@'] + group + ['/'] + x + [':'] + act != group + ['-'] + x + [':'] + act
    ensures ToToolName(['@'] + group + ['/'] + x + [':'] + act) == ToToolName(group + ['-'] + x + [':'] + act)
  {
    ScopedLocal(group, x, act);
    UnscopedLocal(group, x, act);
    assert |['@'] + group + ['/'] + x + [':'] + act| == |group + ['-'] + x + [':'] + act| + 1;
  }

  /**
    The general shape of the round trip: when the local trik part holds no `__`
    and does not end in `_`, and the local action part holds no `__`, mapping
    back splits exactly at the converted `:` and turns the trik part's
    underscores into dashes.
  */
  lemma RoundTrip(trik: string, action: string)
    requires !HasDunder(ToToolName(trik)) && (ToToolName(trik) == [] || ToToolName(trik)[|ToToolName(trik)| - 1] != '_')
    requires !HasDunder(ToToolName(action))
    ensures FromToolName(ToToolName(trik + [':'] + action)) == ReplaceChar(ToToolName(trik), '_', "-") + ":" + ToToolName(action)
  {
    ColonJoin(trik, action);
    FromToolNameSplit(ToToolName(trik), ToToolName(action));
  }

  lemma ColonJoin(trik: string, action: string)
    ensures ToToolName(trik + [':'] + action) == ToToolName(trik) + ['_', '_'] + ToToolName(action)
  {
    ToToolNameSnoc(trik, ':', ToToolName(trik), ['_', '_']);
    ToToolNameAppend(trik + [':'], action);
  }

  lemma FromToolNameSplit(a: string, b: string)
    requires !HasDunder(a) && (a == [] || a[|a| - 1] != '_')
    requires !HasDunder(b)
    ensures FromToolName(a + "__" + b) == ReplaceChar(a, '_', "-") + ":" + b
  {
    SplitDunderAt(a, b);
  }
}
