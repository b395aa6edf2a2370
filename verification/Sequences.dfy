/** Facts about slices that the solver does not find quickly by itself. */
module Sequences {
  lemma SliceOfSlice<T>(s: seq<T>, a: nat, b: nat, i: nat, j: nat)
    requires i <= j <= b - a && b <= |s|
    ensures s[a..b][i..j] == s[a + i..a + j]
  {
    var whole := s[a..b];
    var part := whole[i..j];
    assert |part| == |s[a + i..a + j]|;
    forall k | 0 <= k < |part|
      ensures part[k] == s[a + i..a + j][k]
    {
      assert part[k] == whole[i + k] == s[a + (i + k)];
    }
  }

  /** The parts one after the other. */
  function Flatten<T>(parts: seq<seq<T>>): seq<T> {
    if parts == [] then [] else Flatten(parts[..|parts| - 1]) + parts[|parts| - 1]
  }

  lemma FlattenSnoc<T>(parts: seq<seq<T>>, part: seq<T>)
    ensures Flatten(parts + [part]) == Flatten(parts) + part
  {
    assert (parts + [part])[..|parts|] == parts;
  }
}
