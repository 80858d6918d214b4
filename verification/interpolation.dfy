/**
 The module-level `map` helper of mathscapes: linear interpolation of a
 value from one range onto another.
 */
module Interpolation {

  import opened Wrappers

  /** Python's `/` raises ZeroDivisionError on a zero divisor. */
  datatype MathError = ZeroDivision

  /** `map(value, start1, stop1, start2, stop2)`. The result is the point of
      [start2, stop2] that sits in the same proportion as `value` sits in
      [start1, stop1]; the source divides by `stop1 - start1`, so an empty
      first range is an error. */
  function Map(value: real, start1: real, stop1: real, start2: real, stop2: real): (r: Result<real, MathError>)
    ensures r.Failure? <==> start1 == stop1
    ensures r.Success? ==>
      (r.value - start2) * (stop1 - start1) == (stop2 - start2) * (value - start1)
  {
    if stop1 == start1 then Failure(ZeroDivision)
    else Success(start2 + (stop2 - start2) * ((value - start1) / (stop1 - start1)))
  }

  /** The ends of the first range land on the ends of the second. */
  lemma MapEndpoints(start1: real, stop1: real, start2: real, stop2: real)
    requires start1 != stop1
    ensures Map(start1, start1, stop1, start2, stop2) == Success(start2)
    ensures Map(stop1, start1, stop1, start2, stop2) == Success(stop2)
  {
    assert (stop1 - start1) / (stop1 - start1) == 1.0;
    var r := Map(stop1, start1, stop1, start2, stop2);
    assert r.Success?;
    assert r.value == start2 + (stop2 - start2) * ((stop1 - start1) / (stop1 - start1));
    assert r.value == stop2;
  }

  /** Between two increasing ranges, `map` is strictly increasing. */
  lemma MapStrictlyIncreasing(v: real, v': real, start1: real, stop1: real, start2: real, stop2: real)
    requires start1 < stop1 && start2 < stop2
    ensures v < v' <==> Map(v, start1, stop1, start2, stop2).value < Map(v', start1, stop1, start2, stop2).value
  {
    var q, q' := (v - start1) / (stop1 - start1), (v' - start1) / (stop1 - start1);
    assert v < v' <==> q < q';
    assert q < q' <==> (stop2 - start2) * q < (stop2 - start2) * q';
    assert Map(v, start1, stop1, start2, stop2).value == start2 + (stop2 - start2) * q;
    assert Map(v', start1, stop1, start2, stop2).value == start2 + (stop2 - start2) * q';
  }

  /** Mapping back with the ranges swapped returns the original value. */
  lemma MapInverse(v: real, start1: real, stop1: real, start2: real, stop2: real)
    requires start1 != stop1 && start2 != stop2
    ensures Map(Map(v, start1, stop1, start2, stop2).value, start2, stop2, start1, stop1) == Success(v)
  {
    var w := Map(v, start1, stop1, start2, stop2).value;
    var u := Map(w, start2, stop2, start1, stop1).value;
    assert (w - start2) * (stop1 - start1) == (stop2 - start2) * (v - start1);
    assert (u - start1) * (stop2 - start2) == (stop1 - start1) * (w - start2);
    assert (u - start1) * (stop2 - start2) == (stop2 - start2) * (v - start1);
    assert u - start1 == v - start1;
  }
}
