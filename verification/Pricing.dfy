/** The Go and Python pricing engines: which rule prices a call, and what the
    call costs.  Amounts are exact, as decimals are. */
module Pricing {
  import opened Common

  datatype Tier = Tier(perTile: real, base: real)

  // One entry of the pricing file; a key that is absent is None.
  datatype Rule = Rule(
    provider: string,
    model: string,
    kind: Option<string>,
    input: Option<real>,
    cachedInput: Option<real>,
    output: Option<real>,
    reasoning: Option<real>,
    tool: Option<real>,
    audioPerSecond: Option<real>,
    perCharacter: Option<real>,
    image: Option<Tier>,
    batchDiscount: Option<real>,
    finetuneSurcharge: Option<real>)

  type Choice = Option<nat>

  // ------------------------------------------------------------ which rule wins

  predicate IsPrefixRule(r: Rule) {
    r.kind == Some("prefix")
  }

  // Go: everything that is not a prefix rule is exact, an absent kind included.
  predicate GoExact(r: Rule) {
    !IsPrefixRule(r)
  }

  // Python: an absent kind means "exact"; other kinds are never looked at.
  predicate PyExact(r: Rule) {
    r.kind == None || r.kind == Some("exact")
  }

  predicate Matches(r: Rule, provider: string, model: string) {
    r.provider == provider && if IsPrefixRule(r) then r.model <= model else r.model == model
  }

  predicate ExactHit(exact: Rule -> bool, r: Rule, provider: string, model: string) {
    exact(r) && Matches(r, provider, model)
  }

  predicate PrefixHit(r: Rule, provider: string, model: string) {
    IsPrefixRule(r) && Matches(r, provider, model)
  }

  // The documented choice: the first exact match, else the first of the longest
  // matching prefixes, else none.
  ghost predicate IsChoice(exact: Rule -> bool, rules: seq<Rule>, provider: string, model: string, c: Choice) {
    if c.None? then
      && (forall j :: 0 <= j < |rules| ==> !ExactHit(exact, rules[j], provider, model))
      && (forall j :: 0 <= j < |rules| ==> !PrefixHit(rules[j], provider, model))
    else
      && c.value < |rules|
      && (FirstExact(exact, rules, provider, model, c.value)
          || (&& (forall j :: 0 <= j < |rules| ==> !ExactHit(exact, rules[j], provider, model))
              && LongestPrefix(rules, provider, model, c.value, |rules|)))
  }

  ghost predicate FirstExact(exact: Rule -> bool, rules: seq<Rule>, provider: string, model: string, i: nat)
    requires i < |rules|
  {
    && ExactHit(exact, rules[i], provider, model)
    && forall j :: 0 <= j < i ==> !ExactHit(exact, rules[j], provider, model)
  }

  // Among the first n rules.
  ghost predicate LongestPrefix(rules: seq<Rule>, provider: string, model: string, i: nat, n: nat)
    requires i < n <= |rules|
  {
    && PrefixHit(rules[i], provider, model)
    && (forall j :: 0 <= j < n && PrefixHit(rules[j], provider, model) ==> |rules[j].model| <= |rules[i].model|)
    && (forall j :: 0 <= j < i && PrefixHit(rules[j], provider, model) ==> |rules[j].model| < |rules[i].model|)
  }

  /** The documented choice is unique. */
  lemma ChoiceIsUnique(exact: Rule -> bool, rules: seq<Rule>, provider: string, model: string,
        c: Choice, d: Choice)
    requires IsChoice(exact, rules, provider, model, c) && IsChoice(exact, rules, provider, model, d)
    ensures c == d
  {
  }

  function FindExact(exact: Rule -> bool, rules: seq<Rule>, provider: string, model: string, from: nat): (c: Choice)
    requires from <= |rules|
    ensures c.Some? ==> from <= c.value < |rules| && ExactHit(exact, rules[c.value], provider, model)
    ensures c.Some? ==> forall j :: from <= j < c.value ==> !ExactHit(exact, rules[j], provider, model)
    ensures c.None? ==> forall j :: from <= j < |rules| ==> !ExactHit(exact, rules[j], provider, model)
    decreases |rules| - from
  {
    if from == |rules| then None
    else if ExactHit(exact, rules[from], provider, model) then Some(from)
    else FindExact(exact, rules, provider, model, from + 1)
  }

  function FindPrefix(rules: seq<Rule>, provider: string, model: string, n: nat): (c: Choice)
    requires n <= |rules|
    ensures c.Some? ==> c.value < n && LongestPrefix(rules, provider, model, c.value, n)
    ensures c.None? ==> forall j :: 0 <= j < n ==> !PrefixHit(rules[j], provider, model)
  {
    if n == 0 then None
    else
      var best := FindPrefix(rules, provider, model, n - 1);
      if PrefixHit(rules[n - 1], provider, model)
         && (best.None? || |rules[n - 1].model| > |rules[best.value].model|)
      then Some(n - 1) else best
  }

  // The lookup without a cache.
  function Choose(exact: Rule -> bool, rules: seq<Rule>, provider: string, model: string): (c: Choice)
    ensures IsChoice(exact, rules, provider, model, c)
  {
    var hit := FindExact(exact, rules, provider, model, 0);
    if hit.Some? then hit else FindPrefix(rules, provider, model, |rules|)
  }

  // The rule is about this provider and names this model.
  predicate Names(r: Rule, provider: string, model: string) {
    r.provider == provider && r.model == model
  }

  // The rule is about this provider and names a beginning of this model.
  predicate Begins(r: Rule, provider: string, model: string) {
    && r.provider == provider
    && |r.model| <= |model| && forall i :: 0 <= i < |r.model| ==> r.model[i] == model[i]
  }

  lemma BeginsIsPrefix(r: Rule, provider: string, model: string)
    requires IsPrefixRule(r)
    ensures Matches(r, provider, model) <==> Begins(r, provider, model)
  {
    if Begins(r, provider, model) {
      assert r.model == model[..|r.model|];
    }
  }

  // Rule i is the answer, told on names alone: it is exact and no earlier exact
  // rule names the model, or no exact rule does and it is the first of the
  // longest prefixes that begin it.
  ghost predicate Wins(exact: Rule -> bool, rules: seq<Rule>, provider: string, model: string, i: nat) {
    && i < |rules|
    && if rules[i].kind != Some("prefix") then
         && exact(rules[i]) && Names(rules[i], provider, model)
         && forall j :: 0 <= j < i && exact(rules[j]) ==> !Names(rules[j], provider, model)
       else
         && Begins(rules[i], provider, model)
         && (forall j :: 0 <= j < |rules| && exact(rules[j]) ==> !Names(rules[j], provider, model))
         && (forall j :: 0 <= j < |rules| && rules[j].kind == Some("prefix") && Begins(rules[j], provider, model) ==>
               |rules[j].model| < |rules[i].model| || (|rules[j].model| == |rules[i].model| && i <= j))
  }

  lemma NamesWin(exact: Rule -> bool, rules: seq<Rule>, provider: string, model: string)
    requires forall r :: exact(r) ==> r.kind != Some("prefix")
    ensures var c := Choose(exact, rules, provider, model);
            && (forall i: nat :: c == Some(i) <==> Wins(exact, rules, provider, model, i))
            && (c == None ==>
                  forall j :: 0 <= j < |rules| ==>
                    !(exact(rules[j]) && Names(rules[j], provider, model))
                    && !(rules[j].kind == Some("prefix") && Begins(rules[j], provider, model)))
  {
    var c := Choose(exact, rules, provider, model);
    forall j | 0 <= j < |rules|
      ensures PrefixHit(rules[j], provider, model)
          <==> rules[j].kind == Some("prefix") && Begins(rules[j], provider, model)
      ensures ExactHit(exact, rules[j], provider, model) <==> exact(rules[j]) && Names(rules[j], provider, model)
    {
      if IsPrefixRule(rules[j]) {
        BeginsIsPrefix(rules[j], provider, model);
      }
    }
    forall i: nat
      ensures c == Some(i) <==> Wins(exact, rules, provider, model, i)
    {
      if Wins(exact, rules, provider, model, i) {
        assert IsChoice(exact, rules, provider, model, Some(i));
        ChoiceIsUnique(exact, rules, provider, model, c, Some(i));
      }
    }
  }

  /** What both engines look for, without a cache.  Go: the first rule of any kind
      but "prefix" that names provider and model; failing that, the first of the
      longest prefix rules that begin the model; and none only if there is neither.
      Python: the same with the kinds "exact" and none at all. */
  lemma ChoiceOfNames(rules: seq<Rule>, provider: string, model: string, i: nat)
    ensures Choose(GoExact, rules, provider, model) == Some(i)
        <==> Wins((r: Rule) => r.kind != Some("prefix"), rules, provider, model, i)
    ensures Choose(PyExact, rules, provider, model) == Some(i)
        <==> Wins((r: Rule) => r.kind == None || r.kind == Some("exact"), rules, provider, model, i)
  {
    NamesWin(GoExact, rules, provider, model);
    NamesWin(PyExact, rules, provider, model);
  }

  /** One prefix rule prices exactly the models that it begins, in both engines. */
  lemma PrefixRuleCovers(rule: Rule, provider: string, model: string)
    requires rule.kind == Some("prefix")
    ensures var c := if rule.provider == provider && |rule.model| <= |model| && model[..|rule.model|] == rule.model
                     then Some(0) else None;
            Choose(GoExact, [rule], provider, model) == c == Choose(PyExact, [rule], provider, model)
  {
  }

  predicate KnownKind(r: Rule) {
    IsPrefixRule(r) || PyExact(r)
  }

  /** Go and Python choose the same rule exactly when Go's choice is none or has
      a kind that both know. */
  lemma EnginesAgree(rules: seq<Rule>, provider: string, model: string)
    ensures var go := Choose(GoExact, rules, provider, model);
            Choose(PyExact, rules, provider, model) == go <==> (go.None? || KnownKind(rules[go.value]))
  {
  }

  // A rule of a kind that Go takes for exact and Python does not know matches.
  predicate UnknownHit(r: Rule, provider: string, model: string) {
    !KnownKind(r) && Matches(r, provider, model)
  }

  // Every such rule comes after an exact match that both see.
  ghost predicate UnknownComeLate(rules: seq<Rule>, provider: string, model: string) {
    forall j :: 0 <= j < |rules| && UnknownHit(rules[j], provider, model) ==>
      exists i :: 0 <= i < j && ExactHit(PyExact, rules[i], provider, model)
  }

  /** Told on the table: Go and Python choose the same rule if and only if every
      matching rule of a kind unknown to Python comes after an exact match. */
  lemma EnginesAgreeOnTable(rules: seq<Rule>, provider: string, model: string)
    ensures Choose(PyExact, rules, provider, model) == Choose(GoExact, rules, provider, model)
        <==> UnknownComeLate(rules, provider, model)
  {
    var go := Choose(GoExact, rules, provider, model);
    EnginesAgree(rules, provider, model);
    if !UnknownComeLate(rules, provider, model) {
      var j :| 0 <= j < |rules| && UnknownHit(rules[j], provider, model)
            && !exists i :: 0 <= i < j && ExactHit(PyExact, rules[i], provider, model);
      assert ExactHit(GoExact, rules[j], provider, model);
      assert go.Some? && ExactHit(GoExact, rules[go.value], provider, model) && go.value <= j;
    }
  }

  /** A table on which they do not: one rule, of any kind unknown to Python, that
      names the model.  Go uses it and Python finds no rule. */
  lemma EnginesCanDisagree(rule: Rule)
    requires !KnownKind(rule)
    ensures Choose(GoExact, [rule], rule.provider, rule.model) == Some(0)
    ensures Choose(PyExact, [rule], rule.provider, rule.model) == None
  {
    assert UnknownHit([rule][0], rule.provider, rule.model);
    EnginesAgreeOnTable([rule], rule.provider, rule.model);
  }

  /** So they agree on every table that only uses the two documented kinds. */
  lemma EnginesAgreeOnKnownTables(rules: seq<Rule>, provider: string, model: string)
    requires forall r :: r in rules ==> KnownKind(r)
    ensures Choose(PyExact, rules, provider, model) == Choose(GoExact, rules, provider, model)
  {
    EnginesAgree(rules, provider, model);
  }

  // ------------------------------------------------------------------ Go's cache

  function Key(provider: string, model: string): string {
    provider + "\0" + model
  }

  lemma KeyAt(provider: string, model: string)
    ensures |Key(provider, model)| == |provider| + 1 + |model|
    ensures Key(provider, model)[..|provider|] == provider
    ensures Key(provider, model)[..|provider| + 1] == provider + "\0"
    ensures Key(provider, model)[|provider| + 1..] == model
  {
  }

  // p, a NUL, and more.
  predicate ExtendsWithNul(p: string, q: string) {
    p + "\0" <= q
  }

  lemma SameKey(p: string, m: string, q: string, n: string)
    requires Key(p, m) == Key(q, n)
    ensures (p == q && m == n) || ExtendsWithNul(p, q) || ExtendsWithNul(q, p)
  {
    KeyAt(p, m);
    KeyAt(q, n);
    if |p| < |q| {
      assert q[..|p| + 1] == Key(q, n)[..|q|][..|p| + 1] == Key(q, n)[..|p| + 1];
    } else if |q| < |p| {
      assert p[..|q| + 1] == Key(p, m)[..|p|][..|q| + 1] == Key(p, m)[..|q| + 1];
    }
  }

  lemma Collision(p: string, q: string, n: string)
    requires ExtendsWithNul(p, q)
    ensures Key(p, q[|p| + 1..] + "\0" + n) == Key(q, n)
  {
  }

  ghost predicate CanCollide(p: string, q: string) {
    exists m, n :: Key(p, m) == Key(q, n)
  }

  /** Two different providers can share a cache key exactly when one is the other,
      a NUL, and more. */
  lemma CollisionsNeedNul(p: string, q: string)
    requires p != q
    ensures CanCollide(p, q) <==> ExtendsWithNul(p, q) || ExtendsWithNul(q, p)
  {
    if CanCollide(p, q) {
      var m, n :| Key(p, m) == Key(q, n);
      SameKey(p, m, q, n);
    }
    if ExtendsWithNul(p, q) {
      Collision(p, q, "");
    }
    if ExtendsWithNul(q, p) {
      Collision(q, p, "");
      assert Key(p, "") == Key(q, p[|q| + 1..] + "\0" + "");
    }
  }

  // The first lookup in the history that used the key.
  ghost function FirstWith(history: seq<(string, string)>, key: string): (first: Option<(string, string)>)
    ensures first.Some? ==> first.value in history && Key(first.value.0, first.value.1) == key
    ensures first.None? ==> forall h :: h in history ==> Key(h.0, h.1) != key
  {
    if history == [] then None
    else
      var n := |history| - 1;
      var earlier := FirstWith(history[..n], key);
      if earlier.Some? then earlier
      else if Key(history[n].0, history[n].1) == key then Some(history[n])
      else None
  }

  // No provider looked up is another one, a NUL, and more.
  ghost predicate Separate(history: seq<(string, string)>) {
    forall g, h :: g in history && h in history ==> !ExtendsWithNul(g.0, h.0)
  }

  /** With such providers a key stands for one provider and model only. */
  lemma KeysAreFaithful(history: seq<(string, string)>, provider: string, model: string)
    requires (provider, model) in history && Separate(history)
    ensures FirstWith(history, Key(provider, model)) == Some((provider, model))
  {
    var first := FirstWith(history, Key(provider, model)).value;
    SameKey(first.0, first.1, provider, model);
  }

  lemma ExtensionHasNul(p: string, q: string)
    requires ExtendsWithNul(p, q)
    ensures '\0' in q
  {
    assert q[|p|] == (p + "\0")[|p|];
  }

  lemma NulFreeExtendsNothing(p: string, q: string)
    requires '\0' !in q
    ensures !ExtendsWithNul(p, q)
  {
    if ExtendsWithNul(p, q) {
      ExtensionHasNul(p, q);
    }
  }

  /** Providers without a NUL are separate. */
  lemma NulFreeIsSeparate(history: seq<(string, string)>)
    requires forall h :: h in history ==> '\0' !in h.0
    ensures Separate(history)
  {
    forall g, h | g in history && h in history
      ensures !ExtendsWithNul(g.0, h.0)
    {
      NulFreeExtendsNothing(g.0, h.0);
    }
  }

  // The answer the cache gives after the history.
  ghost function Answer(rules: seq<Rule>, history: seq<(string, string)>, provider: string, model: string): (c: Choice)
    requires (provider, model) in history
  {
    var first := FirstWith(history, Key(provider, model)).value;
    Choose(GoExact, rules, first.0, first.1)
  }

  /** With separate providers the cached lookup answers what the uncached one
      does, whatever was looked up before. */
  lemma CacheIsInvisible(rules: seq<Rule>, history: seq<(string, string)>, provider: string,
        model: string)
    requires (provider, model) in history && Separate(history)
    ensures Answer(rules, history, provider, model) == Choose(GoExact, rules, provider, model)
  {
    KeysAreFaithful(history, provider, model);
  }

  // A rule for this provider and model only.
  function RuleFor(provider: string, model: string): Rule {
    Rule(provider, model, Some("exact"), None, None, None, None, None, None, None, None, None, None)
  }

  lemma OnlyItsOwn(provider: string, model: string, p: string, m: string)
    ensures Choose(GoExact, [RuleFor(provider, model)], p, m)
         == if p == provider && m == model then Some(0) else None
  {
  }

  /** Exactly: the cached lookup answers what the uncached one does on every table
      if and only if no earlier lookup with the same cache key was for another
      provider or model. */
  lemma CacheIsInvisibleExactly(history: seq<(string, string)>, provider: string, model: string)
    requires (provider, model) in history
    ensures (forall rules :: Answer(rules, history, provider, model) == Choose(GoExact, rules, provider, model))
        <==> FirstWith(history, Key(provider, model)) == Some((provider, model))
  {
    var first := FirstWith(history, Key(provider, model)).value;
    if first != (provider, model) {
      var rules := [RuleFor(provider, model)];
      OnlyItsOwn(provider, model, provider, model);
      OnlyItsOwn(provider, model, first.0, first.1);
      assert Answer(rules, history, provider, model) != Choose(GoExact, rules, provider, model);
    }
  }

  lemma {:induction false} HistoryGrows(history: seq<(string, string)>, h: (string, string), key: string)
    ensures FirstWith(history + [h], key)
         == if FirstWith(history, key).Some? then FirstWith(history, key)
            else if Key(h.0, h.1) == key then Some(h) else None
  {
  }

  class GoEngine {
    const rules: seq<Rule>
    var cache: map<string, Choice>
    ghost var history: seq<(string, string)>

    // Every cached answer is the right one for the first lookup with its key.
    ghost predicate Valid()
      reads this
    {
      && (forall key :: key in cache ==> CachedFor(key))
      && (forall key :: FirstWith(history, key).Some? ==> key in cache)
    }

    ghost predicate CachedFor(key: string)
      requires key in cache
      reads this
    {
      var first := FirstWith(history, key);
      first.Some? && cache[key] == Choose(GoExact, rules, first.value.0, first.value.1)
    }

    constructor (rules: seq<Rule>)
      ensures Valid() && this.rules == rules && history == []
    {
      this.rules := rules;
      cache := map[];
      history := [];
    }

    /** pricing.go find: read the cache, else search and remember. */
    method Find(provider: string, model: string) returns (found: Choice)
      requires Valid()
      modifies this
      ensures Valid() && history == old(history) + [(provider, model)]
      ensures found == Answer(rules, history, provider, model)
    {
      var key := Key(provider, model);
      if key in cache {
        found := cache[key];
        assert CachedFor(key);
      } else {
        found := SearchExact(provider, model);
        if found.None? {
          found := SearchPrefix(provider, model);
        }
        cache := cache[key := found];
      }
      history := history + [(provider, model)];
      forall k {
        HistoryGrows(old(history), (provider, model), k);
      }
      forall k | k in cache
        ensures CachedFor(k)
      {
        if k in old(cache) {
          assert old(CachedFor(k));
        }
      }
    }

    // The loop that stops at the first exact match.
    method SearchExact(provider: string, model: string) returns (found: Choice)
      ensures found == FindExact(GoExact, rules, provider, model, 0)
    {
      var i := 0;
      while i < |rules|
        invariant 0 <= i <= |rules|
        invariant FindExact(GoExact, rules, provider, model, 0) == FindExact(GoExact, rules, provider, model, i)
      {
        if GoExact(rules[i]) && Matches(rules[i], provider, model) {
          return Some(i);
        }
        i := i + 1;
      }
      found := None;
    }

    // The loop that keeps the longest prefix seen so far.
    method SearchPrefix(provider: string, model: string) returns (found: Choice)
      ensures found == FindPrefix(rules, provider, model, |rules|)
    {
      found := None;
      for i := 0 to |rules|
        invariant found == FindPrefix(rules, provider, model, i)
      {
        if IsPrefixRule(rules[i]) && Matches(rules[i], provider, model) {
          if found.None? || |rules[i].model| > |rules[found.value].model| {
            found := Some(i);
          }
        }
      }
    }
  }

  /** What a NUL can do: after a lookup of provider "a NUL b", model "c", Go
      answers for provider "a", model "b NUL c" that there is no rule, although
      there is an exact one. */
  lemma NulCanHideRule(rule: Rule)
    requires rule.provider == "a" && rule.model == "b\0c" && rule.kind == Some("exact")
    ensures var history := [("a\0b", "c"), ("a", "b\0c")];
            FirstWith(history, Key("a", "b\0c")) == Some(("a\0b", "c"))
            && Answer([rule], history, "a", "b\0c") == Choose(GoExact, [rule], "a\0b", "c") == None
            && Choose(GoExact, [rule], "a", "b\0c") == Some(0)
  {
    var history := [("a\0b", "c"), ("a", "b\0c")];
    assert history[1] == ("a", "b\0c");
    assert history[..1] == [("a\0b", "c")];
    assert history[..1][..0] == [];
    Collision("a", "a\0b", "c");
    assert FirstWith(history, Key("a", "b\0c")) == Some(("a\0b", "c"));
  }

  // ---------------------------------------------------------------- Python's cache

  // The places of the rules that hit, in order.
  function Where(rules: seq<Rule>, hit: Rule -> bool, n: nat): (places: seq<nat>)
    requires n <= |rules|
    ensures forall a :: 0 <= a < |places| ==> places[a] < n && hit(rules[places[a]])
    ensures forall a, b :: 0 <= a < b < |places| ==> places[a] < places[b]
  {
    if n == 0 then []
    else if hit(rules[n - 1]) then Where(rules, hit, n - 1) + [n - 1]
    else Where(rules, hit, n - 1)
  }

  lemma {:induction false} WhereFinds(rules: seq<Rule>, hit: Rule -> bool, n: nat, i: nat) returns (a: nat)
    requires i < n <= |rules| && hit(rules[i])
    ensures a < |Where(rules, hit, n)| && Where(rules, hit, n)[a] == i
  {
    if i == n - 1 {
      a := |Where(rules, hit, n - 1)|;
    } else {
      a := WhereFinds(rules, hit, n - 1, i);
    }
  }

  function ModelLengths(rules: seq<Rule>, places: seq<nat>): (lengths: seq<nat>)
    requires forall a :: 0 <= a < |places| ==> places[a] < |rules|
    ensures |lengths| == |places|
  {
    seq(|places|, a requires 0 <= a < |places| => |rules[places[a]].model|)
  }

  // Python's max: where the largest value stands first.
  function FirstMax(v: seq<nat>): (b: nat)
    requires v != []
    ensures b < |v| && forall a :: 0 <= a < |v| ==> v[a] <= v[b]
    ensures forall a :: 0 <= a < b ==> v[a] < v[b]
  {
    if |v| == 1 then 0
    else
      var n := |v| - 1;
      var b := FirstMax(v[..n]);
      assert v[..n][b] == v[b];
      assert forall a :: 0 <= a < n ==> v[..n][a] == v[a];
      if v[n] > v[b] then n else b
  }

  function PySearch(rules: seq<Rule>, provider: string, model: string): (found: Choice) {
    var exacts := Where(rules, (r: Rule) => ExactHit(PyExact, r, provider, model), |rules|);
    if exacts != [] then Some(exacts[0])
    else
      var prefixes := Where(rules, (r: Rule) => PrefixHit(r, provider, model), |rules|);
      if prefixes != [] then Some(prefixes[FirstMax(ModelLengths(rules, prefixes))]) else None
  }

  lemma FirstPlace(rules: seq<Rule>, hit: Rule -> bool, i: nat)
    requires i < |rules| && hit(rules[i])
    ensures var places := Where(rules, hit, |rules|);
            places != [] && places[0] <= i
  {
    var a := WhereFinds(rules, hit, |rules|, i);
    var places := Where(rules, hit, |rules|);
    if a > 0 {
      assert places[0] < places[a];
    }
  }

  lemma LongestPlace(rules: seq<Rule>, hit: Rule -> bool, i: nat)
    requires i < |rules| && hit(rules[i])
    ensures var places := Where(rules, hit, |rules|);
            places != [] &&
            var best := places[FirstMax(ModelLengths(rules, places))];
            |rules[i].model| <= |rules[best].model| && (i < best ==> |rules[i].model| < |rules[best].model|)
  {
    var a := WhereFinds(rules, hit, |rules|, i);
    var places := Where(rules, hit, |rules|);
    var lengths := ModelLengths(rules, places);
    var b := FirstMax(lengths);
    assert lengths[a] == |rules[i].model|;
    assert b < a ==> places[b] < places[a];
  }

  /** The list comprehensions and max of pricing.py compute the documented
      choice. */
  lemma PySearchIsChoice(rules: seq<Rule>, provider: string, model: string)
    ensures IsChoice(PyExact, rules, provider, model, PySearch(rules, provider, model))
  {
    var exact := (r: Rule) => ExactHit(PyExact, r, provider, model);
    var prefix := (r: Rule) => PrefixHit(r, provider, model);
    forall j | 0 <= j < |rules| && exact(rules[j])
      ensures Where(rules, exact, |rules|) != [] && Where(rules, exact, |rules|)[0] <= j
    {
      FirstPlace(rules, exact, j);
    }
    forall j | 0 <= j < |rules| && prefix(rules[j])
      ensures var places := Where(rules, prefix, |rules|);
              places != [] &&
              var best := places[FirstMax(ModelLengths(rules, places))];
              |rules[j].model| <= |rules[best].model| && (j < best ==> |rules[j].model| < |rules[best].model|)
    {
      LongestPlace(rules, prefix, j);
    }
  }

  class PyEngine {
    const rules: seq<Rule>
    var cache: map<(string, string), Choice>

    ghost predicate Valid()
      reads this
    {
      forall key :: key in cache ==> cache[key] == Choose(PyExact, rules, key.0, key.1)
    }

    constructor (rules: seq<Rule>)
      ensures Valid() && this.rules == rules
    {
      this.rules := rules;
      cache := map[];
    }

    /** pricing.py _find: whatever was looked up before, the answer is the
        uncached one. */
    method Find(provider: string, model: string) returns (found: Choice)
      requires Valid()
      modifies this
      ensures Valid()
      ensures found == Choose(PyExact, rules, provider, model)
    {
      var key := (provider, model);
      if key in cache {
        return cache[key];
      }
      found := PySearch(rules, provider, model);
      PySearchIsChoice(rules, provider, model);
      ChoiceIsUnique(PyExact, rules, provider, model, found, Choose(PyExact, rules, provider, model));
      cache := cache[key := found];
    }
  }
}
