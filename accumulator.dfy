/** The gyroscope-integration rule: each angular-velocity reading is scaled
    by a fixed sensitivity and added to the three stored angles, without
    wrapping or clamping. */
module Accumulator {
  import opened Orientation

  /** The factor each gyroscope reading is multiplied by before it is added. */
  const Sensitivity: real := 1.5

  /** The angles after one more reading. */
  function Integrate(angles: Vec3, reading: Vec3): Vec3 {
    Vec3(angles.x + reading.x * Sensitivity,
         angles.y + reading.y * Sensitivity,
         angles.z + reading.z * Sensitivity)
  }

  /** The angles after integrating `readings`, oldest first, from zero. */
  function Integrated(readings: seq<Vec3>): Vec3
    decreases |readings|
  {
    if readings == [] then Zero
    else
      var n := |readings| - 1;
      Integrate(Integrated(readings[..n]), readings[n])
  }

  /** The per-axis sum of `readings`: the reference against which the
      integration rule is stated. */
  function Total(readings: seq<Vec3>): Vec3
    decreases |readings|
  {
    if readings == [] then Zero else Add(readings[0], Total(readings[1..]))
  }

  /** Integrating one more reading extends the history by that reading. */
  lemma IntegratedStep(readings: seq<Vec3>, r: Vec3)
    ensures Integrated(readings + [r]) == Integrate(Integrated(readings), r)
  {
    assert (readings + [r])[..|readings|] == readings;
  }

  /** The sum over a concatenation is the sum of the sums. */
  lemma {:induction false} TotalAppend(a: seq<Vec3>, b: seq<Vec3>)
    ensures Total(a + b) == Add(Total(a), Total(b))
    decreases |a|
  {
    if a == [] {
      assert a + b == b;
    } else {
      assert (a + b)[1..] == a[1..] + b;
      TotalAppend(a[1..], b);
    }
  }

  /** Each angle equals the sensitivity times the sum of that axis's
      readings since the last zeroing. */
  lemma {:induction false} IntegratedIsScaledTotal(readings: seq<Vec3>)
    ensures Integrated(readings) == Scale(Sensitivity, Total(readings))
    decreases |readings|
  {
    if readings != [] {
      var n := |readings| - 1;
      IntegratedIsScaledTotal(readings[..n]);
      assert readings == readings[..n] + [readings[n]];
      TotalAppend(readings[..n], [readings[n]]);
      assert Total([readings[n]]) == readings[n] by {
        assert [readings[n]][1..] == [];
      }
    }
  }

  /** Taking one reading out of the middle of a history takes exactly its
      contribution out of the sum. */
  lemma TotalRemove(b: seq<Vec3>, i: nat)
    requires i < |b|
    ensures Total(b) == Add(b[i], Total(b[..i] + b[i + 1..]))
  {
    assert b == b[..i] + ([b[i]] + b[i + 1..]);
    TotalAppend(b[..i], [b[i]] + b[i + 1..]);
    assert ([b[i]] + b[i + 1..])[1..] == b[i + 1..];
    TotalAppend(b[..i], b[i + 1..]);
  }

  /** Removing one occurrence of an element from a sequence removes it from
      the multiset of its elements. */
  lemma MultisetRemove(b: seq<Vec3>, i: nat)
    requires i < |b|
    ensures multiset(b[..i] + b[i + 1..]) == multiset(b) - multiset{b[i]}
  {
    assert b == b[..i] + [b[i]] + b[i + 1..];
    assert multiset(b) == multiset(b[..i]) + multiset{b[i]} + multiset(b[i + 1..]);
  }

  /** Summation does not depend on the order of the readings. */
  lemma {:induction false} TotalPermutation(a: seq<Vec3>, b: seq<Vec3>)
    requires multiset(a) == multiset(b)
    ensures Total(a) == Total(b)
    decreases |a|
  {
    if a != [] {
      assert a[0] in multiset(b);
      var i :| 0 <= i < |b| && b[i] == a[0];
      var rest := b[..i] + b[i + 1..];
      MultisetRemove(b, i);
      MultisetRemove(a, 0);
      assert a[..0] + a[1..] == a[1..];
      TotalPermutation(a[1..], rest);
      TotalRemove(b, i);
    }
  }

  /** The integrated angles depend only on which readings arrived, not on
      the order they arrived in. */
  lemma IntegratedOrderIndependent(a: seq<Vec3>, b: seq<Vec3>)
    requires multiset(a) == multiset(b)
    ensures Integrated(a) == Integrated(b)
  {
    IntegratedIsScaledTotal(a);
    IntegratedIsScaledTotal(b);
    TotalPermutation(a, b);
  }

  /** Three readings of (1, 0, 0) from zero give x = 4.5, y = z = 0. */
  lemma ThreeUnitReadings()
    ensures Integrated([Vec3(1.0, 0.0, 0.0), Vec3(1.0, 0.0, 0.0), Vec3(1.0, 0.0, 0.0)])
         == Vec3(4.5, 0.0, 0.0)
  {
    var r := Vec3(1.0, 0.0, 0.0);
    IntegratedStep([], r);
    IntegratedStep([r], r);
    IntegratedStep([r, r], r);
    assert [] + [r] == [r] && [r] + [r] == [r, r] && [r, r] + [r] == [r, r, r];
  }
}
