/** What a call costs: the Go and the Python accumulation of one rule's charges,
    over exact decimals. */
module Cost {
  import opened Arith
  import opened Common
  import opened Pricing

  // Counters are signed in the sources; audio is a decimal number of seconds.
  datatype Usage = Usage(
    input: int,
    cached: int,
    output: int,
    reasoning: int,
    tool: int,
    audio: real,
    characters: int,
    images: int,
    tiles: int)

  predicate NonNegative(u: Usage) {
    && u.input >= 0 && u.cached >= 0 && u.output >= 0 && u.reasoning >= 0 && u.tool >= 0
    && u.audio >= 0.0 && u.characters >= 0 && u.images >= 0 && u.tiles >= 0
  }

  // ------------------------------------------------------------- the price list

  function Charge(rate: Option<real>, n: real): real {
    if rate.None? then 0.0 else rate.value * n
  }

  function Or(rate: Option<real>, other: Option<real>): Option<real> {
    if rate.Some? then rate else other
  }

  function PerTile(rule: Rule): Option<real> {
    if rule.image.None? then None else Some(rule.image.value.perTile)
  }

  function Base(rule: Rule): Option<real> {
    if rule.image.None? then None else Some(rule.image.value.base)
  }

  // Images are only billed for calls that report tiles.
  function BilledImages(u: Usage): int {
    if u.tiles == 0 then 0 else u.images
  }

  // The price of a call: every counter at its rate, the cached and reasoning
  // rates falling back to the input and output rates.
  function Price(rule: Rule, u: Usage): real {
    Charge(rule.input, u.input as real)
    + Charge(Or(rule.cachedInput, rule.input), u.cached as real)
    + Charge(rule.output, u.output as real)
    + Charge(Or(rule.reasoning, rule.output), u.reasoning as real)
    + Charge(rule.tool, u.tool as real)
    + Charge(rule.audioPerSecond, u.audio)
    + Charge(rule.perCharacter, u.characters as real)
    + Charge(PerTile(rule), u.tiles as real)
    + Charge(Base(rule), BilledImages(u) as real)
  }

  function Positive(n: int): int {
    if n > 0 then n else 0
  }

  // Go ignores these counters when they are negative.
  function GoView(u: Usage): Usage {
    u.(cached := Positive(u.cached), reasoning := Positive(u.reasoning),
       audio := if u.audio > 0.0 then u.audio else 0.0,
       images := Positive(u.images), tiles := Positive(u.tiles))
  }

  function Factor(on: bool, factor: Option<real>): real {
    if on && factor.Some? then factor.value else 1.0
  }

  lemma ChargeNothing(rate: Option<real>)
    ensures Charge(rate, 0.0) == 0.0
  {
  }

  // ------------------------------------------------------------- accumulating

  // Go's mulInt.
  method AddInt(total: real, rate: Option<real>, n: int) returns (sum: real)
    ensures sum == total + Charge(rate, n as real)
  {
    sum := total;
    if rate.Some? && n != 0 {
      sum := sum + rate.value * n as real;
    }
    ChargeNothing(rate);
  }

  /** pricing.go Cost, for the rule found. */
  method GoCost(rule: Rule, u: Usage) returns (total: real)
    ensures total == Price(rule, GoView(u))
  {
    total := 0.0;
    total := AddInt(total, rule.input, u.input);
    if u.cached > 0 {
      var rate := rule.cachedInput;
      if rate.None? {
        rate := rule.input;
      }
      total := AddInt(total, rate, u.cached);
    }
    total := AddInt(total, rule.output, u.output);
    if u.reasoning > 0 {
      var rate := rule.reasoning;
      if rate.None? {
        rate := rule.output;
      }
      total := AddInt(total, rate, u.reasoning);
    }
    total := AddInt(total, rule.tool, u.tool);
    if u.audio > 0.0 && rule.audioPerSecond.Some? {
      total := total + rule.audioPerSecond.value * u.audio;
    }
    total := AddInt(total, rule.perCharacter, u.characters);
    if u.tiles > 0 && rule.image.Some? {
      total := AddInt(total, PerTile(rule), u.tiles);
      if u.images > 0 {
        total := AddInt(total, Base(rule), u.images);
      }
    }
  }

  // One "if ... total += rate * counter" of pricing.py.
  method AddTerm(total: real, rate: Option<real>, n: real) returns (sum: real)
    ensures sum == total + Charge(rate, n)
  {
    sum := total;
    if n != 0.0 && rate.Some? {
      sum := sum + rate.value * n;
    }
    ChargeNothing(rate);
  }

  /** pricing.py cost, for the rule found. */
  method PyCost(rule: Rule, u: Usage, batch: bool, finetuned: bool) returns (total: real)
    ensures total == Price(rule, u) * Factor(batch, rule.batchDiscount) * Factor(finetuned, rule.finetuneSurcharge)
  {
    total := AddTerm(0.0, rule.input, u.input as real);
    var cachedRate := if rule.cachedInput.Some? then rule.cachedInput else rule.input;
    total := AddTerm(total, cachedRate, u.cached as real);
    total := AddTerm(total, rule.output, u.output as real);
    var reasoningRate := if rule.reasoning.Some? then rule.reasoning else rule.output;
    total := AddTerm(total, reasoningRate, u.reasoning as real);
    total := AddTerm(total, rule.tool, u.tool as real);
    total := AddTerm(total, rule.audioPerSecond, u.audio);
    total := AddTerm(total, rule.perCharacter, u.characters as real);
    if u.tiles != 0 && rule.image.Some? {
      total := AddTerm(total, PerTile(rule), u.tiles as real);
      total := AddTerm(total, Base(rule), u.images as real);
    }
    assert total == Price(rule, u);
    if batch && rule.batchDiscount.Some? {
      total := total * rule.batchDiscount.value;
    }
    assert total == Price(rule, u) * Factor(batch, rule.batchDiscount);
    if finetuned && rule.finetuneSurcharge.Some? {
      total := total * rule.finetuneSurcharge.value;
    }
  }

  // ------------------------------------------------------------------- laws

  /** On non-negative usage, with no multiplier on, both SDKs charge the same:
      the price list. */
  lemma SdksAgree(rule: Rule, u: Usage)
    requires NonNegative(u)
    ensures Price(rule, GoView(u)) == Price(rule, u)
         == Price(rule, u) * Factor(false, rule.batchDiscount) * Factor(false, rule.finetuneSurcharge)
  {
  }

  // What Python charges and Go does not: the counters below zero.
  function Unbilled(rule: Rule, u: Usage): real {
    Charge(Or(rule.cachedInput, rule.input), (u.cached - Positive(u.cached)) as real)
    + Charge(Or(rule.reasoning, rule.output), (u.reasoning - Positive(u.reasoning)) as real)
    + Charge(rule.audioPerSecond, if u.audio < 0.0 then u.audio else 0.0)
    + Charge(PerTile(rule), (u.tiles - Positive(u.tiles)) as real)
    + Charge(Base(rule), if u.tiles < 0 || (u.tiles > 0 && u.images < 0) then u.images as real else 0.0)
  }

  lemma ChargeAdds(rate: Option<real>, a: real, b: real)
    ensures Charge(rate, a + b) == Charge(rate, a) + Charge(rate, b)
  {
  }

  /** On any usage they differ by exactly the charges for negative counters. */
  lemma SdksDifferBy(rule: Rule, u: Usage)
    ensures Price(rule, u) == Price(rule, GoView(u)) + Unbilled(rule, u)
  {
    var g := GoView(u);
    ChargeAdds(Or(rule.cachedInput, rule.input), g.cached as real, (u.cached - g.cached) as real);
    ChargeAdds(Or(rule.reasoning, rule.output), g.reasoning as real, (u.reasoning - g.reasoning) as real);
    ChargeAdds(rule.audioPerSecond, g.audio, u.audio - g.audio);
    ChargeAdds(PerTile(rule), g.tiles as real, (u.tiles - g.tiles) as real);
    ChargeAdds(Base(rule), BilledImages(g) as real, (BilledImages(u) - BilledImages(g)) as real);
    ChargeNothing(Base(rule));
  }

  predicate FairRate(rate: Option<real>) {
    rate.Some? ==> rate.value >= 0.0
  }

  predicate Fair(rule: Rule) {
    && FairRate(rule.input) && FairRate(rule.cachedInput) && FairRate(rule.output) && FairRate(rule.reasoning)
    && FairRate(rule.tool) && FairRate(rule.audioPerSecond) && FairRate(rule.perCharacter)
    && FairRate(PerTile(rule)) && FairRate(Base(rule))
  }

  // Every counter of u is at most that of v.
  predicate Within(u: Usage, v: Usage) {
    && u.input <= v.input && u.cached <= v.cached && u.output <= v.output && u.reasoning <= v.reasoning
    && u.tool <= v.tool && u.audio <= v.audio && u.characters <= v.characters
    && u.images <= v.images && u.tiles <= v.tiles
  }

  lemma ChargeIsMonotone(rate: Option<real>, a: real, b: real)
    requires FairRate(rate) && a <= b
    ensures Charge(rate, a) <= Charge(rate, b)
  {
  }

  /** Using more never costs less. */
  lemma PriceIsMonotone(rule: Rule, u: Usage, v: Usage)
    requires Fair(rule) && NonNegative(u) && Within(u, v)
    ensures Price(rule, u) <= Price(rule, v)
  {
    ChargeIsMonotone(rule.input, u.input as real, v.input as real);
    ChargeIsMonotone(Or(rule.cachedInput, rule.input), u.cached as real, v.cached as real);
    ChargeIsMonotone(rule.output, u.output as real, v.output as real);
    ChargeIsMonotone(Or(rule.reasoning, rule.output), u.reasoning as real, v.reasoning as real);
    ChargeIsMonotone(rule.tool, u.tool as real, v.tool as real);
    ChargeIsMonotone(rule.audioPerSecond, u.audio, v.audio);
    ChargeIsMonotone(rule.perCharacter, u.characters as real, v.characters as real);
    ChargeIsMonotone(PerTile(rule), u.tiles as real, v.tiles as real);
    ChargeIsMonotone(Base(rule), BilledImages(u) as real, BilledImages(v) as real);
  }

  const NOTHING: Usage := Usage(0, 0, 0, 0, 0, 0.0, 0, 0, 0)

  lemma NothingIsFree(rule: Rule)
    ensures Price(rule, NOTHING) == 0.0
  {
  }

  /** No call has a negative price. */
  lemma PriceIsNonNegative(rule: Rule, u: Usage)
    requires Fair(rule) && NonNegative(u)
    ensures Price(rule, u) >= 0.0
  {
    NothingIsFree(rule);
    PriceIsMonotone(rule, NOTHING, u);
  }

  // What one of something costs.
  function Rate(rate: Option<real>): real {
    if rate.Some? then rate.value else 0.0
  }

  /** One of each counter costs the rule's own rate for it; cached input and reasoning
      fall back to the input and output rates, and images are free without a tile.
      With `PriceAdds` this is the whole price list. */
  lemma OneOfEach(rule: Rule)
    ensures Price(rule, NOTHING.(input := 1)) == Rate(rule.input)
    ensures Price(rule, NOTHING.(cached := 1)) == Rate(if rule.cachedInput.Some? then rule.cachedInput else rule.input)
    ensures Price(rule, NOTHING.(output := 1)) == Rate(rule.output)
    ensures Price(rule, NOTHING.(reasoning := 1)) == Rate(if rule.reasoning.Some? then rule.reasoning else rule.output)
    ensures Price(rule, NOTHING.(tool := 1)) == Rate(rule.tool)
    ensures Price(rule, NOTHING.(audio := 1.0)) == Rate(rule.audioPerSecond)
    ensures Price(rule, NOTHING.(characters := 1)) == Rate(rule.perCharacter)
    ensures Price(rule, NOTHING.(images := 1)) == 0.0
    ensures Price(rule, NOTHING.(tiles := 1)) == if rule.image.Some? then rule.image.value.perTile else 0.0
    ensures Price(rule, NOTHING.(images := 1, tiles := 1))
         == if rule.image.Some? then rule.image.value.perTile + rule.image.value.base else 0.0
  {
    NothingIsFree(rule);
  }

  function Sum(u: Usage, v: Usage): Usage {
    Usage(u.input + v.input, u.cached + v.cached, u.output + v.output, u.reasoning + v.reasoning,
          u.tool + v.tool, u.audio + v.audio, u.characters + v.characters, u.images + v.images, u.tiles + v.tiles)
  }

  // The images of one usage that only the other one's tiles make billable.
  function Correction(u: Usage, v: Usage): int {
    BilledImages(Sum(u, v)) - BilledImages(u) - BilledImages(v)
  }

  /** Prices add up, except for images that come without tiles of their own. */
  lemma PriceAdds(rule: Rule, u: Usage, v: Usage)
    ensures Price(rule, Sum(u, v)) == Price(rule, u) + Price(rule, v) + Charge(Base(rule), Correction(u, v) as real)
  {
    ChargeAdds(rule.input, u.input as real, v.input as real);
    ChargeAdds(Or(rule.cachedInput, rule.input), u.cached as real, v.cached as real);
    ChargeAdds(rule.output, u.output as real, v.output as real);
    ChargeAdds(Or(rule.reasoning, rule.output), u.reasoning as real, v.reasoning as real);
    ChargeAdds(rule.tool, u.tool as real, v.tool as real);
    ChargeAdds(rule.audioPerSecond, u.audio, v.audio);
    ChargeAdds(rule.perCharacter, u.characters as real, v.characters as real);
    ChargeAdds(PerTile(rule), u.tiles as real, v.tiles as real);
    ThreeCharges(Base(rule), BilledImages(u) as real, BilledImages(v) as real, Correction(u, v) as real);
  }

  lemma ThreeCharges(rate: Option<real>, a: real, b: real, c: real)
    ensures Charge(rate, a + b + c) == Charge(rate, a) + Charge(rate, b) + Charge(rate, c)
  {
  }

  // Each usage has tiles whenever it has images.
  predicate ImagesHaveTiles(u: Usage) {
    u.tiles == 0 ==> u.images == 0
  }

  /** Two calls cost what their sum costs exactly when the rule has no base price
      or no image is made billable by the other call's tiles; having images and
      tiles together is enough. */
  lemma PriceIsAdditive(rule: Rule, u: Usage, v: Usage)
    requires NonNegative(u) && NonNegative(v)
    ensures Price(rule, Sum(u, v)) == Price(rule, u) + Price(rule, v)
        <==> (Base(rule) == None || Base(rule).value == 0.0
              || (if u.tiles == 0 then v.tiles == 0 || u.images == 0 else v.tiles > 0 || v.images == 0))
    ensures ImagesHaveTiles(u) && ImagesHaveTiles(v) ==> Price(rule, Sum(u, v)) == Price(rule, u) + Price(rule, v)
  {
    PriceAdds(rule, u, v);
    ZeroCharge(Base(rule), Correction(u, v));
  }

  lemma ZeroCharge(rate: Option<real>, n: int)
    ensures Charge(rate, n as real) == 0.0 <==> rate.None? || rate.value == 0.0 || n == 0
  {
  }

  // ------------------------------------------------------------- whole calls

  // Calls that no rule prices are free.
  function CallPrice(rules: seq<Rule>, c: Choice, u: Usage): real
    requires c.Some? ==> c.value < |rules|
  {
    if c.None? then 0.0 else Price(rules[c.value], u)
  }

  /** Go's Cost: look the rule up, then charge. */
  method GoCall(engine: GoEngine, u: Usage, provider: string, model: string) returns (total: real)
    requires engine.Valid()
    modifies engine
    ensures engine.Valid() && engine.history == old(engine.history) + [(provider, model)]
    ensures total == CallPrice(engine.rules, Answer(engine.rules, engine.history, provider, model), GoView(u))
    ensures var c := Answer(engine.rules, engine.history, provider, model);
            if c.None? then total == 0.0 else total == Price(engine.rules[c.value], GoView(u))
  {
    var rule := engine.Find(provider, model);
    if rule.None? {
      return 0.0;
    }
    total := GoCost(engine.rules[rule.value], u);
  }

  /** Python's cost: the same, with the multipliers. */
  method PyCall(engine: PyEngine, u: Usage, provider: string, model: string, batch: bool, finetuned: bool)
      returns (total: real)
    requires engine.Valid()
    modifies engine
    ensures engine.Valid()
    ensures var c := Choose(PyExact, engine.rules, provider, model);
            total == if c.None? then 0.0
                     else Price(engine.rules[c.value], u)
                          * Factor(batch, engine.rules[c.value].batchDiscount)
                          * Factor(finetuned, engine.rules[c.value].finetuneSurcharge)
  {
    var rule := engine.Find(provider, model);
    if rule.None? {
      return 0.0;
    }
    total := PyCost(engine.rules[rule.value], u, batch, finetuned);
  }

  /** After any history of lookups, both SDKs report the same cost for the same
      call: on tables with the documented kinds and providers that no NUL
      confuses. */
  lemma CallsCostTheSame(rules: seq<Rule>, history: seq<(string, string)>,
                                            u: Usage, provider: string, model: string)
    requires (provider, model) in history && Separate(history)
    requires (forall r :: r in rules ==> KnownKind(r)) && NonNegative(u)
    ensures CallPrice(rules, Answer(rules, history, provider, model), GoView(u))
         == CallPrice(rules, Choose(PyExact, rules, provider, model), u)
  {
    CacheIsInvisible(rules, history, provider, model);
    EnginesAgreeOnKnownTables(rules, provider, model);
    assert GoView(u) == u;
  }
}
