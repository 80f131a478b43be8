/** The optimisation suggestions shown under the prediction: five
    independent threshold rules over the raw form values, checked in order
    with no early exit, and a single reassurance line when none fires. */
module Advisory {
  import opened Encoding
  import opened Form

  const SoilAdvice: string :=
    "Consider improving soil structure by adding organic matter or compost to enhance water retention."
  const EvaporationAdvice: string :=
    "High evapotranspiration detected. Use mulching to reduce evaporation and conserve soil moisture."
  const MoistureAdvice: string :=
    "Low soil moisture detected. Ensure proper irrigation scheduling to maintain adequate levels."
  const RetentionAdvice: string :=
    "Low water retention capacity. Incorporate soil amendments to improve retention."
  const DrainageAdvice: string :=
    "Poor drainage detected. Improve soil aeration or use soil conditioners to balance drainage."
  const WellBalanced: string :=
    "\U{2705} All parameters are well-balanced for optimal water usage!"

  datatype Rule = SandySoil | HighEvapotranspiration | LowSoilMoisture | LowWaterRetention | GoodDrainage

  /** The rules in the order they are checked. */
  const Rules: seq<Rule> := [SandySoil, HighEvapotranspiration, LowSoilMoisture, LowWaterRetention, GoodDrainage]

  /** Each rule's condition as written: strict comparisons, the soil rule
      against the capitalised "Sandy", the drainage rule on 'good'. */
  predicate Fires(r: Rule, inp: RawInput) {
    match r
    case SandySoil => inp.soilType == "Sandy"
    case HighEvapotranspiration => inp.evapotranspiration > 8.0
    case LowSoilMoisture => inp.soilMoistureLevels < 15.0
    case LowWaterRetention => inp.waterRetentionCapacity < 20.0
    case GoodDrainage => inp.drainageProperties == "good"
  }

  function Message(r: Rule): string {
    match r
    case SandySoil => SoilAdvice
    case HighEvapotranspiration => EvaporationAdvice
    case LowSoilMoisture => MoistureAdvice
    case LowWaterRetention => RetentionAdvice
    case GoodDrainage => DrainageAdvice
  }

  /** One rule's check: its message when it fires, otherwise nothing. */
  function Check(r: Rule, inp: RawInput): seq<string> {
    if Fires(r, inp) then [Message(r)] else []
  }

  /** The messages of the rules of `rs` that fire, in the order of `rs`:
      the reference the appending code is proved against. */
  function Advice(inp: RawInput, rs: seq<Rule>): seq<string> {
    if rs == [] then []
    else Check(rs[0], inp) + Advice(inp, rs[1..])
  }

  /** The advice of the five rules is the concatenation of their checks. */
  lemma AdviceOfRules(inp: RawInput)
    ensures Advice(inp, Rules) ==
      Check(SandySoil, inp) + Check(HighEvapotranspiration, inp) + Check(LowSoilMoisture, inp) +
      Check(LowWaterRetention, inp) + Check(GoodDrainage, inp)
  {
    var r1 := [HighEvapotranspiration, LowSoilMoisture, LowWaterRetention, GoodDrainage];
    var r2 := [LowSoilMoisture, LowWaterRetention, GoodDrainage];
    var r3 := [LowWaterRetention, GoodDrainage];
    var r4 := [GoodDrainage];
    assert Rules[1..] == r1 && r1[1..] == r2 && r2[1..] == r3 && r3[1..] == r4 && r4[1..] == [];
    assert Advice(inp, r4) == Check(GoodDrainage, inp);
    assert Advice(inp, r3) == Check(LowWaterRetention, inp) + Advice(inp, r4);
    assert Advice(inp, r2) == Check(LowSoilMoisture, inp) + Advice(inp, r3);
    assert Advice(inp, r1) == Check(HighEvapotranspiration, inp) + Advice(inp, r2);
    assert Advice(inp, Rules) == Check(SandySoil, inp) + Advice(inp, r1);
  }

  /** The five `if ...: suggestions.append(...)` blocks. */
  method Suggestions(inp: RawInput) returns (suggestions: seq<string>)
    ensures suggestions == Advice(inp, Rules)
  {
    suggestions := [];
    if inp.soilType == "Sandy" {
      suggestions := suggestions + [SoilAdvice];
    }
    assert suggestions == Check(SandySoil, inp);
    if inp.evapotranspiration > 8.0 {
      suggestions := suggestions + [EvaporationAdvice];
    }
    assert suggestions == Check(SandySoil, inp) + Check(HighEvapotranspiration, inp);
    if inp.soilMoistureLevels < 15.0 {
      suggestions := suggestions + [MoistureAdvice];
    }
    assert suggestions == Check(SandySoil, inp) + Check(HighEvapotranspiration, inp) +
      Check(LowSoilMoisture, inp);
    if inp.waterRetentionCapacity < 20.0 {
      suggestions := suggestions + [RetentionAdvice];
    }
    assert suggestions == Check(SandySoil, inp) + Check(HighEvapotranspiration, inp) +
      Check(LowSoilMoisture, inp) + Check(LowWaterRetention, inp);
    if inp.drainageProperties == "good" {
      suggestions := suggestions + [DrainageAdvice];
    }
    AdviceOfRules(inp);
  }

  /** No two rules share a message, and none says the parameters are fine. */
  lemma MessagesDistinct(r: Rule, q: Rule)
    ensures Message(r) == Message(q) ==> r == q
    ensures Message(r) != WellBalanced
  {
  }

  /** A rule's message is in the advice exactly when the rule is among those
      checked and its condition holds. */
  lemma {:induction false} AdviceMembership(inp: RawInput, rs: seq<Rule>, r: Rule)
    ensures Message(r) in Advice(inp, rs) <==> r in rs && Fires(r, inp)
  {
    if rs != [] {
      AdviceMembership(inp, rs[1..], r);
      MessagesDistinct(r, rs[0]);
      assert rs == [rs[0]] + rs[1..];
    }
  }

  /** Every line of the advice is the message of a rule that fired. */
  lemma {:induction false} AdviceFromFiredRules(inp: RawInput, rs: seq<Rule>, m: string)
    requires m in Advice(inp, rs)
    ensures exists r :: r in rs && Fires(r, inp) && Message(r) == m
  {
    if Fires(rs[0], inp) && m == Message(rs[0]) {
      assert rs[0] in rs;
    } else {
      AdviceFromFiredRules(inp, rs[1..], m);
      var r :| r in rs[1..] && Fires(r, inp) && Message(r) == m;
      assert r in rs;
    }
  }

  /** Rule order is kept: checking the rules of `a` and then those of `b`
      gives all of `a`'s messages before any of `b`'s. */
  lemma {:induction false} AdviceDistributes(inp: RawInput, a: seq<Rule>, b: seq<Rule>)
    ensures Advice(inp, a + b) == Advice(inp, a) + Advice(inp, b)
  {
    if a != [] {
      assert (a + b)[1..] == a[1..] + b;
      AdviceDistributes(inp, a[1..], b);
    } else {
      assert a + b == b;
    }
  }

  /** The drainage message (which speaks of poor drainage) appears exactly
      when the drainage label is 'good'. */
  lemma DrainageAdviceIffGood(inp: RawInput)
    ensures DrainageAdvice in Advice(inp, Rules) <==> inp.drainageProperties == "good"
  {
    AdviceMembership(inp, Rules, GoodDrainage);
  }

  /** The soil rule compares against "Sandy", which is not a label the soil
      selectbox offers, so for any form input its message never appears. */
  lemma SandyAdviceNeverShown(inp: RawInput)
    requires inp.soilType in SoilTypeMapping
    ensures !Fires(SandySoil, inp)
    ensures SoilAdvice !in Advice(inp, Rules)
  {
    assert "Sandy" !in SoilTypeMapping;
    AdviceMembership(inp, Rules, SandySoil);
  }

  /** The thresholds are strict: evapotranspiration of exactly 8.0, soil
      moisture of exactly 15.0 and retention of exactly 20.0 raise nothing. */
  lemma ThresholdsAreStrict(inp: RawInput)
    requires inp.evapotranspiration == 8.0
    requires inp.soilMoistureLevels == 15.0
    requires inp.waterRetentionCapacity == 20.0
    ensures !Fires(HighEvapotranspiration, inp) && !Fires(LowSoilMoisture, inp) && !Fires(LowWaterRetention, inp)
    ensures Advice(inp, Rules) == Check(SandySoil, inp) + Check(GoodDrainage, inp)
  {
    AdviceOfRules(inp);
  }

  /** Every rule but the soil rule can fire on some input the form offers. */
  lemma RuleCanFire(r: Rule)
    requires r != SandySoil
    ensures exists inp :: FromForm(inp) && Fires(r, inp)
  {
    var inp := RawInput(25.0, 50.0, 5.0, 3.0, 50.0, 60.0, 10.0,
                        "moderate", "loamy", "moderate", "rice", "seedling");
    assert "moderate" in RainfallMapping && "loamy" in SoilTypeMapping && "rice" in CropMapping;
    assert "moderate" in DrainageMapping && "good" in DrainageMapping && "seedling" in GrowthStageMapping;
    match r
    case HighEvapotranspiration =>
      assert FromForm(inp.(evapotranspiration := 9.0));
    case LowSoilMoisture =>
      assert FromForm(inp.(soilMoistureLevels := 10.0));
    case LowWaterRetention =>
      assert FromForm(inp.(waterRetentionCapacity := 10.0));
    case GoodDrainage =>
      assert FromForm(inp.(drainageProperties := "good"));
  }

  /** What is shown: the suggestions when there are any, otherwise the one
      reassurance line. */
  function Displayed(suggestions: seq<string>): (shown: seq<string>)
    ensures shown != []
    ensures shown == suggestions || shown == [WellBalanced]
  {
    if suggestions != [] then suggestions else [WellBalanced]
  }

  /** For the advice of any input, the display is either the non-empty
      suggestion list or the reassurance line alone, never both, never
      neither. */
  lemma DisplayedIsExclusive(inp: RawInput)
    ensures var s := Advice(inp, Rules); var shown := Displayed(s);
      (s != [] && shown == s && WellBalanced !in shown) ||
      (s == [] && shown == [WellBalanced])
  {
    var s := Advice(inp, Rules);
    if WellBalanced in s {
      AdviceFromFiredRules(inp, Rules, WellBalanced);
      var r :| r in Rules && Fires(r, inp) && Message(r) == WellBalanced;
      MessagesDistinct(r, r);
    }
  }

  /** The lines written to the page: one bullet per suggestion, in order,
      or the reassurance line alone. */
  method Render(suggestions: seq<string>) returns (lines: seq<string>)
    ensures |lines| == |Displayed(suggestions)|
    ensures suggestions != [] ==> forall i :: 0 <= i < |lines| ==> lines[i] == "- " + suggestions[i]
    ensures suggestions == [] ==> lines == [WellBalanced]
  {
    if suggestions != [] {
      lines := [];
      for i := 0 to |suggestions|
        invariant |lines| == i
        invariant forall k :: 0 <= k < i ==> lines[k] == "- " + suggestions[k]
      {
        lines := lines + ["- " + suggestions[i]];
      }
    } else {
      lines := [WellBalanced];
    }
  }

  /** Low soil moisture alone, on loamy soil with moderate drainage. */
  lemma ScenarioLowMoisture()
    ensures Advice(RawInput(25.0, 50.0, 5.0, 3.0, 10.0, 50.0, 10.0,
                            "moderate", "loamy", "moderate", "rice", "seedling"), Rules)
      == [MoistureAdvice]
  {
    AdviceOfRules(RawInput(25.0, 50.0, 5.0, 3.0, 10.0, 50.0, 10.0,
                           "moderate", "loamy", "moderate", "rice", "seedling"));
  }

  /** The form as it first appears: every slider at its default and every
      selectbox at its first option ('sandy' soil, 'poor' drainage). It is
      form input, and no rule fires: the lower-case default soil does not
      match the "Sandy" test. */
  lemma ScenarioWellBalanced()
    ensures var inp := RawInput(25.0, 50.0, 5.0, 3.0, 50.0, 60.0, 10.0,
                                "moderate", "sandy", "poor", "rice", "flowering");
      FromForm(inp) && Displayed(Advice(inp, Rules)) == [WellBalanced]
  {
    var inp := RawInput(25.0, 50.0, 5.0, 3.0, 50.0, 60.0, 10.0,
                        "moderate", "sandy", "poor", "rice", "flowering");
    assert "moderate" in RainfallMapping && "sandy" in SoilTypeMapping && "poor" in DrainageMapping;
    assert "rice" in CropMapping && "flowering" in GrowthStageMapping;
    AdviceOfRules(inp);
  }
}
