/** Sums over the values of a map, which has no order of its own. */
module Sums {
  ghost function Sum<V>(m: map<string, V>, part: V -> int): int
    decreases |m|
  {
    if m == map[] then 0 else
      var key :| key in m;
      Sum(m - {key}, part) + part(m[key])
  }

  /** The sum splits at any key, so it does not depend on the order in which the keys are visited. */
  lemma {:induction false} Split<V>(m: map<string, V>, part: V -> int, key: string)
    requires key in m
    ensures Sum(m, part) == Sum(m - {key}, part) + part(m[key])
    decreases |m|
  {
    var k :| k in m && Sum(m, part) == Sum(m - {k}, part) + part(m[k]);
    if k != key {
      Split(m - {k}, part, key);
      Split(m - {key}, part, k);
      assert (m - {k}) - {key} == (m - {key}) - {k};
    }
  }

  /** Leaving out values that count for nothing less than zero lowers the sum, if anything. */
  lemma {:induction false} Fewer<V>(fewer: map<string, V>, m: map<string, V>, part: V -> int)
    requires forall key :: key in m ==> 0 <= part(m[key])
    requires forall key :: key in fewer ==> key in m && fewer[key] == m[key]
    ensures 0 <= Sum(fewer, part) <= Sum(m, part)
    decreases |m|
  {
    if m == map[] {
      assert fewer == map[];
    } else {
      var key :| key in m;
      Split(m, part, key);
      Fewer(fewer - {key}, m - {key}, part);
      if key in fewer {
        Split(fewer, part, key);
      } else {
        assert fewer - {key} == fewer;
      }
    }
  }

  lemma {:induction false} OfZeros<V>(m: map<string, V>, part: V -> int)
    requires forall key :: key in m ==> part(m[key]) == 0
    ensures Sum(m, part) == 0
    decreases |m|
  {
    if m != map[] {
      var key :| key in m;
      Split(m, part, key);
      OfZeros(m - {key}, part);
    }
  }

  /** Leaving out values that count for nothing leaves the sum as it is. */
  lemma {:induction false} WithoutZeros<V>(fewer: map<string, V>, m: map<string, V>, part: V -> int)
    requires forall key :: key in fewer ==> key in m && fewer[key] == m[key]
    requires forall key :: key in m && key !in fewer ==> part(m[key]) == 0
    ensures Sum(fewer, part) == Sum(m, part)
    decreases |m|
  {
    if key :| key in m && key !in fewer {
      Split(m, part, key);
      WithoutZeros(fewer, m - {key}, part);
    } else {
      assert fewer == m;
    }
  }
}
