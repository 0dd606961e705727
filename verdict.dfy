/** Turning one prediction into the record shown in the report (web_app/app.py, lines 47-56). */
module Verdict {

  const Risky: string := "RISKY"
  const Safe: string := "SAFE"
  const Danger: string := "danger"
  const Success: string := "success"

  /** One row of the report.  `probability` is the label-1 probability as a
      percentage rounded to two decimals, stored exactly as a whole number of
      hundredths of a percent (8734 stands for 87.34). */
  datatype Record = Record(filename: string, status: string, probability: int, cssClass: string)

  /** The status is one of the two values, and the css class is the one that goes with it. */
  predicate WellFormed(r: Record)
  {
    (r.status == Risky && r.cssClass == Danger) || (r.status == Safe && r.cssClass == Success)
  }

  /** The status shown for a predicted label. */
  function StatusOf(prediction: int): (status: string)
    ensures status == Risky || status == Safe
    ensures status == Risky <==> prediction == 1
    ensures status == Safe <==> prediction != 1
  {
    if prediction == 1 then Risky else Safe
  }

  /** The css class shown for a predicted label. */
  function CssClassOf(prediction: int): (css: string)
    ensures css == Danger || css == Success
    ensures css == Danger <==> prediction == 1
    ensures css == Success <==> prediction != 1
  {
    if prediction == 1 then Danger else Success
  }

  /** The integer nearest to `x`; a tie goes to the even neighbour, as Python's `round` does. */
  function RoundHalfEven(x: real): (n: int)
    ensures x - 0.5 <= n as real <= x + 0.5
    ensures (n as real - x == 0.5 || x - n as real == 0.5) ==> n % 2 == 0
  {
    var f := x.Floor;
    var frac := x - f as real;
    if frac < 0.5 then f
    else if frac > 0.5 then f + 1
    else if f % 2 == 0 then f
    else f + 1
  }

  /** The nearest-with-ties-to-even integer is the only one meeting RoundHalfEven's contract. */
  lemma RoundHalfEvenUnique(x: real, m: int)
    requires x - 0.5 <= m as real <= x + 0.5
    requires (m as real - x == 0.5 || x - m as real == 0.5) ==> m % 2 == 0
    ensures m == RoundHalfEven(x)
  {
  }

  /** `round(probability * 100, 2)` in hundredths of a percent. */
  function Percent(probability: real): (hundredths: int)
    ensures probability * 10000.0 - 0.5 <= hundredths as real <= probability * 10000.0 + 0.5
    ensures 0.0 <= probability <= 1.0 ==> 0 <= hundredths <= 10000
  {
    RoundHalfEven(probability * 10000.0)
  }

  /** A higher probability never shows as a lower percentage. */
  lemma PercentMonotone(p: real, q: real)
    requires p <= q
    ensures Percent(p) <= Percent(q)
  {
  }

  /** The record built for one successfully classified file. */
  function MakeRecord(filename: string, prediction: int, probability: real): (r: Record)
    ensures r.filename == filename
    ensures WellFormed(r)
    ensures r.status == Risky <==> prediction == 1
    ensures r.probability as real - 0.5 <= probability * 10000.0 <= r.probability as real + 0.5
    ensures 0.0 <= probability <= 1.0 ==> 0 <= r.probability <= 10000
  {
    Record(filename, StatusOf(prediction), Percent(probability), CssClassOf(prediction))
  }

  /** Label 1 with probability 0.8734 is shown as RISKY, 87.34, "danger". */
  lemma RiskyExample()
    ensures MakeRecord("a.py", 1, 0.8734) == Record("a.py", Risky, 8734, Danger)
  {
  }
}
