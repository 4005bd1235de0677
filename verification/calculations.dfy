/** The waste-to-energy conversion of `lib/calculations.ts`: four daily waste
    masses in, biogas, electricity, savings, CO2 and fertilizer figures out. */
module Calculations {
  import opened JsMath

  datatype Projection = Projection(biogas: real, electricity: real, savings: real, co2: real)

  datatype CalculationResult = CalculationResult(
    biogasLiters: real,
    electricityKwh: real,
    costSavingsInr: real,
    co2ReductionKg: real,
    fertilizerKg: real,
    monthlyProjection: Projection)

  /** Litres of biogas per day: 0.4 L per kg of kitchen waste, 0.3 L per kg of garden waste. */
  function Biogas(kitchenKg: real, gardenKg: real): real {
    kitchenKg * 0.4 + gardenKg * 0.3
  }

  /** kWh per month: 2 kWh per cubic metre of biogas, over 30 days. */
  function Electricity(biogasLiters: real): real {
    (biogasLiters / 1000.0) * 2.0 * 30.0
  }

  /** Rupees: 8 per kWh. */
  function CostSavings(electricityKwh: real): real {
    electricityKwh * 8.0
  }

  /** kg of CO2 per year: 0.3 kg per kg of organic waste per day. */
  function Co2Reduction(organicKg: real): real {
    organicKg * 0.3 * 365.0
  }

  /** kg of fertilizer per month: 0.15 kg per kg of organic waste per day. */
  function Fertilizer(organicKg: real): real {
    organicKg * 0.15 * 30.0
  }

  /** `performCalculations`. The contract gives every field in closed form in
      the two organic masses; plastic and paper appear nowhere in it. */
  function PerformCalculations(kitchenKg: real, plasticKg: real, paperKg: real, gardenKg: real): (r: CalculationResult)
    ensures r.biogasLiters == Round1(0.4 * kitchenKg + 0.3 * gardenKg)
    ensures r.electricityKwh == Round1(0.024 * kitchenKg + 0.018 * gardenKg)
    ensures r.costSavingsInr == Round(0.192 * kitchenKg + 0.144 * gardenKg) as real
    ensures r.co2ReductionKg == Round1(109.5 * (kitchenKg + gardenKg))
    ensures r.fertilizerKg == Round1(4.5 * (kitchenKg + gardenKg))
    ensures r.monthlyProjection.biogas == Round1(12.0 * kitchenKg + 9.0 * gardenKg)
    ensures r.monthlyProjection.electricity == 0.024 * kitchenKg + 0.018 * gardenKg
    ensures r.monthlyProjection.savings == r.costSavingsInr
    ensures r.monthlyProjection.co2 == Round1(9.0 * (kitchenKg + gardenKg))
  {
    var organicKg := kitchenKg + gardenKg;
    var biogasLiters := Biogas(kitchenKg, gardenKg);
    var electricityKwh := Electricity(biogasLiters);
    var costSavingsInr := CostSavings(electricityKwh);
    var co2ReductionKg := Co2Reduction(organicKg);
    var fertilizerKg := Fertilizer(organicKg);
    CalculationResult(
      Round1(biogasLiters),
      Round1(electricityKwh),
      Round(costSavingsInr) as real,
      Round1(co2ReductionKg),
      Round1(fertilizerKg),
      Projection(
        Round1(biogasLiters * 30.0),
        electricityKwh,
        Round(costSavingsInr) as real,
        Round1((co2ReductionKg / 365.0) * 30.0)))
  }

  /** Plastic and paper masses have no effect on any field of the result. */
  lemma PlasticAndPaperIgnored(kitchenKg: real, gardenKg: real, plastic1: real, paper1: real, plastic2: real, paper2: real)
    ensures PerformCalculations(kitchenKg, plastic1, paper1, gardenKg)
         == PerformCalculations(kitchenKg, plastic2, paper2, gardenKg)
  {
  }

  /** No waste in, nothing out. */
  lemma ZeroInZeroOut(plasticKg: real, paperKg: real)
    ensures PerformCalculations(0.0, plasticKg, paperKg, 0.0)
         == CalculationResult(0.0, 0.0, 0.0, 0.0, 0.0, Projection(0.0, 0.0, 0.0, 0.0))
  {
  }

  predicate AtMost(a: CalculationResult, b: CalculationResult) {
    && a.biogasLiters <= b.biogasLiters
    && a.electricityKwh <= b.electricityKwh
    && a.costSavingsInr <= b.costSavingsInr
    && a.co2ReductionKg <= b.co2ReductionKg
    && a.fertilizerKg <= b.fertilizerKg
    && a.monthlyProjection.biogas <= b.monthlyProjection.biogas
    && a.monthlyProjection.electricity <= b.monthlyProjection.electricity
    && a.monthlyProjection.savings <= b.monthlyProjection.savings
    && a.monthlyProjection.co2 <= b.monthlyProjection.co2
  }

  /** More kitchen or garden waste never lowers any field, rounded or not. */
  lemma Monotone(k1: real, g1: real, k2: real, g2: real, plasticKg: real, paperKg: real)
    requires k1 <= k2 && g1 <= g2
    ensures AtMost(PerformCalculations(k1, plasticKg, paperKg, g1), PerformCalculations(k2, plasticKg, paperKg, g2))
  {
    var a := PerformCalculations(k1, plasticKg, paperKg, g1);
    var b := PerformCalculations(k2, plasticKg, paperKg, g2);
    assert a.biogasLiters <= b.biogasLiters by {
      Round1Monotone(0.4 * k1 + 0.3 * g1, 0.4 * k2 + 0.3 * g2);
    }
    assert a.electricityKwh <= b.electricityKwh by {
      Round1Monotone(0.024 * k1 + 0.018 * g1, 0.024 * k2 + 0.018 * g2);
    }
    assert a.costSavingsInr <= b.costSavingsInr by {
      RoundMonotone(0.192 * k1 + 0.144 * g1, 0.192 * k2 + 0.144 * g2);
    }
    assert a.co2ReductionKg <= b.co2ReductionKg by {
      Round1Monotone(109.5 * (k1 + g1), 109.5 * (k2 + g2));
    }
    assert a.fertilizerKg <= b.fertilizerKg by {
      Round1Monotone(4.5 * (k1 + g1), 4.5 * (k2 + g2));
    }
    assert a.monthlyProjection.biogas <= b.monthlyProjection.biogas by {
      Round1Monotone(12.0 * k1 + 9.0 * g1, 12.0 * k2 + 9.0 * g2);
    }
    assert a.monthlyProjection.co2 <= b.monthlyProjection.co2 by {
      Round1Monotone(9.0 * (k1 + g1), 9.0 * (k2 + g2));
    }
  }

  /** Non-negative masses give non-negative figures. */
  lemma NonNegative(kitchenKg: real, plasticKg: real, paperKg: real, gardenKg: real)
    requires kitchenKg >= 0.0 && gardenKg >= 0.0
    ensures AtMost(PerformCalculations(0.0, plasticKg, paperKg, 0.0), PerformCalculations(kitchenKg, plasticKg, paperKg, gardenKg))
  {
    Monotone(0.0, 0.0, kitchenKg, gardenKg, plasticKg, paperKg);
  }

  /** 2 kg kitchen, 1 kg plastic, 0.5 kg paper, 1.5 kg garden: 1.25 L of biogas a
      day is 0.075 kWh a month (the figure is already monthly), worth Rs 0.6. */
  lemma WorkedExample()
    ensures PerformCalculations(2.0, 1.0, 0.5, 1.5)
         == CalculationResult(1.3, 0.1, 1.0, 383.3, 15.8, Projection(37.5, 0.075, 1.0, 31.5))
  {
    RoundUnique(12.5, 13);
    RoundUnique(0.75, 1);
    RoundUnique(0.6, 1);
    RoundUnique(3832.5, 3833);
    RoundUnique(157.5, 158);
    RoundUnique(375.0, 375);
    RoundUnique(315.0, 315);
  }
}
