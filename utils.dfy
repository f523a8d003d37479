/**
 * Model of `src/utils.py`: the lookup from a note-duration denominator
 * (1 for a whole note, 2 for a half note, ... 128) to the name of that
 * duration.
 */
module Utils {

  import opened Wrappers

  /** The dictionary literal of `get_duration_name`, key by key. */
  const DurationMapping: map<int, string> := map[
    1 := "whole",
    2 := "half",
    4 := "quarter",
    8 := "eighth",
    16 := "sixteenth",
    32 := "thirtySecond",
    64 := "sixtyFourth",
    128 := "hundredTwentyEighth"
  ]

  /**
   * `get_duration_name(value)`: `dict.get` on the mapping above, so any
   * value that is not a key gives `None` rather than an error.
   */
  function GetDurationName(value: int): (r: Option<string>)
    ensures r.Some? <==> value in DurationMapping.Keys
    ensures r.Some? ==> r.value in DurationNames
  {
    if value in DurationMapping then Some(DurationMapping[value]) else None
  }

  /*
   * Reference description of the same table: the k-th duration, counted
   * from the whole note and halving each time, has denominator 2^k and
   * the k-th name below.
   */

  /** The duration names, longest note first. */
  const DurationNames: seq<string> := [
    "whole", "half", "quarter", "eighth", "sixteenth",
    "thirtySecond", "sixtyFourth", "hundredTwentyEighth"
  ]

  function Pow2(k: nat): (r: nat)
    ensures r >= 1
  {
    if k == 0 then 1 else 2 * Pow2(k - 1)
  }

  /** 2^k grows strictly with k. */
  lemma {:induction false} Pow2StrictlyIncreasing(i: nat, j: nat)
    requires i < j
    ensures Pow2(i) < Pow2(j)
  {
    if i + 1 < j {
      Pow2StrictlyIncreasing(i, j - 1);
    }
  }

  /** The power 2^k with 0 <= k <= 7 is looked up as the k-th name. */
  lemma DurationNameOfPower(k: nat)
    requires k < |DurationNames|
    ensures GetDurationName(Pow2(k)) == Some(DurationNames[k])
  {
  }

  /**
   * The lookup has a name exactly for the powers 2^0 .. 2^7; every other
   * value gives `None`.
   */
  lemma DurationNameDomain(value: int)
    ensures GetDurationName(value).Some? <==>
              exists k :: 0 <= k < |DurationNames| && Pow2(k) == value
  {
    if GetDurationName(value).Some? {
      var k := DurationIndex(value);
      assert Pow2(k) == value;
    } else {
      forall k | 0 <= k < |DurationNames|
        ensures Pow2(k) != value
      {
        DurationNameOfPower(k);
      }
    }
  }

  /** The exponent of a value that has a name. */
  lemma DurationIndex(value: int) returns (k: nat)
    requires GetDurationName(value).Some?
    ensures k < |DurationNames| && Pow2(k) == value
    ensures GetDurationName(value) == Some(DurationNames[k])
  {
    if value == 1 { k := 0; }
    else if value == 2 { k := 1; }
    else if value == 4 { k := 2; }
    else if value == 8 { k := 3; }
    else if value == 16 { k := 4; }
    else if value == 32 { k := 5; }
    else if value == 64 { k := 6; }
    else { k := 7; }
    DurationNameOfPower(k);
  }

  /** Distinct values that both have a name have distinct names. */
  lemma DurationNameInjective(a: int, b: int)
    requires GetDurationName(a).Some? && GetDurationName(b).Some?
    requires a != b
    ensures GetDurationName(a) != GetDurationName(b)
  {
    var i := DurationIndex(a);
    var j := DurationIndex(b);
    assert i != j;
  }

  /**
   * A larger denominator is a shorter note: of two named values, the larger
   * one's name comes later in the list of names.
   */
  lemma DurationNameOrder(a: int, b: int)
    requires GetDurationName(a).Some? && GetDurationName(b).Some?
    requires a < b
    ensures exists i, j :: 0 <= i < j < |DurationNames| &&
              GetDurationName(a) == Some(DurationNames[i]) &&
              GetDurationName(b) == Some(DurationNames[j])
  {
    var i := DurationIndex(a);
    var j := DurationIndex(b);
    if j <= i {
      if j < i { Pow2StrictlyIncreasing(j, i); }
      assert false;
    }
  }
}
