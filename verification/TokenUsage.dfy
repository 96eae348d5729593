/** Reported token usage and the two fields derived from it. */
module TokenUsage {
  datatype Usage = Usage(input: nat, cached: nat, output: nat) {
    function Gross(): nat { input }

    /** Uncached input is clamped at zero when more was reported cached than sent. */
    function Uncached(): nat { if input > cached then input - cached else 0 }

    function Plus(other: Usage): Usage {
      Usage(input + other.input, cached + other.cached, output + other.output)
    }

    predicate Split() { cached <= input }
  }

  const NoUsage := Usage(0, 0, 0)

  function Aggregate(usages: seq<Usage>): Usage {
    if usages == [] then NoUsage else usages[0].Plus(Aggregate(usages[1..]))
  }

  lemma {:induction false} AggregateSnoc(usages: seq<Usage>, u: Usage)
    ensures Aggregate(usages + [u]) == Aggregate(usages).Plus(u)
  {
    if usages == [] {
      assert Aggregate([u]) == u.Plus(Aggregate([u][1..]));
    } else {
      assert (usages + [u])[1..] == usages[1..] + [u];
      AggregateSnoc(usages[1..], u);
    }
  }

  /** When no call reports more cached input than input, neither does their sum. */
  lemma {:induction false} SplitAggregate(usages: seq<Usage>)
    requires forall i :: 0 <= i < |usages| ==> usages[i].Split()
    ensures Aggregate(usages).Split()
  {
    if usages != [] { SplitAggregate(usages[1..]); }
  }
}
