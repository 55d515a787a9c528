/**
 * The participant's calibration record (CalibrationData) and the one piece of
 * string processing the calibration manager applies before storing it: the
 * removal of every '-' from a freshly generated participant id.
 */
module CalibrationRecord {

  datatype Option<+T> = None | Some(value: T)

  /** C#'s `int`: values the record and the manager only store and read back. */
  newtype Int32 = x: int | -0x8000_0000 <= x < 0x8000_0000

  /**
   * Unity's Vector3. The experiment-setup workflow only stores a vector and
   * reads it back, so no arithmetic on it is modelled.
   */
  datatype Vector3 = Vector3(x: real, y: real, z: real)

  const ZeroVector: Vector3 := Vector3(0.0, 0.0, 0.0)

  /**
   * The serialisable calibration record. The reference-typed string fields are
   * null in a record made by `new CalibrationData()`, hence `Option<string>`.
   * The double and float fields are only carried along and become `real`.
   */
  datatype CalibrationData = CalibrationData(
    ParticipantUuid: Option<string>,
    VRmode: bool,
    SteeringInputDevice: Option<string>,
    EyeValidationError: Vector3,
    SeatCalibrationOffset: Vector3,
    TrainingSuccessState: bool,
    NumberOfTrainingTrials: Int32,
    ExperimentDuration: real,
    ApplicationDuration: real,
    AverageExperimentFPS: real)

  /** The record `new CalibrationData()` yields: every field at its C# default. */
  function NewCalibrationData(): (d: CalibrationData)
    ensures d.ParticipantUuid.None? && d.SteeringInputDevice.None?
    ensures !d.VRmode && !d.TrainingSuccessState && d.NumberOfTrainingTrials == 0
  {
    CalibrationData(None, false, None, ZeroVector, ZeroVector, false, 0, 0.0, 0.0, 0.0)
  }

  /**
   * `id.Replace("-", "")`: the id with every dash dropped and every other
   * character kept, with its multiplicity.
   */
  function RemoveDashes(id: string): (r: string)
    ensures '-' !in r
    ensures |r| <= |id|
  {
    if id == [] then []
    else if id[0] == '-' then RemoveDashes(id[1..])
    else [id[0]] + RemoveDashes(id[1..])
  }

  /**
   * Every character other than a dash keeps its number of occurrences, so the
   * stored id is exactly as much shorter as the generated one has dashes.
   */
  lemma {:induction false} RemoveDashesKeepsOtherCharacters(id: string)
    ensures forall c | c != '-' :: multiset(RemoveDashes(id))[c] == multiset(id)[c]
    ensures |RemoveDashes(id)| == |id| - multiset(id)['-']
  {
    if id != [] {
      RemoveDashesKeepsOtherCharacters(id[1..]);
      assert id == [id[0]] + id[1..];
      assert multiset(id) == multiset{id[0]} + multiset(id[1..]);
    }
  }

  /** Removing dashes from a concatenation removes them from each part. */
  lemma {:induction false} RemoveDashesConcat(a: string, b: string)
    ensures RemoveDashes(a + b) == RemoveDashes(a) + RemoveDashes(b)
  {
    if a == [] {
      assert a + b == b;
    } else {
      assert (a + b)[0] == a[0];
      assert (a + b)[1..] == a[1..] + b;
      RemoveDashesConcat(a[1..], b);
    }
  }

  /** An id without dashes is stored as it is. */
  lemma {:induction false} RemoveDashesKeepsDashFree(id: string)
    requires '-' !in id
    ensures RemoveDashes(id) == id
  {
    if id != [] {
      assert id[0] in id;
      assert forall c | c in id[1..] :: c in id;
      RemoveDashesKeepsDashFree(id[1..]);
      assert id == [id[0]] + id[1..];
    }
  }

  /** Storing an already stored id again changes nothing. */
  lemma RemoveDashesIdempotent(id: string)
    ensures RemoveDashes(RemoveDashes(id)) == RemoveDashes(id)
  {
    RemoveDashesKeepsDashFree(RemoveDashes(id));
  }

  predicate IsLowerHexDigit(c: char) {
    '0' <= c <= '9' || 'a' <= c <= 'f'
  }

  /** The positions of the four dashes in `Guid.ToString()`'s "D" format. */
  predicate IsGuidDashPosition(i: int) {
    i == 8 || i == 13 || i == 18 || i == 23
  }

  /**
   * The text `System.Guid.NewGuid().ToString()` produces: 36 characters,
   * lower-case hexadecimal digits in groups of 8-4-4-4-12 separated by dashes.
   */
  predicate IsGuidText(s: string) {
    |s| == 36 &&
    forall i | 0 <= i < |s| ::
      if IsGuidDashPosition(i) then s[i] == '-' else IsLowerHexDigit(s[i])
  }

  lemma HexBlockIsKept(s: string, lo: int, hi: int)
    requires IsGuidText(s) && 0 <= lo <= hi <= 36
    requires forall i | lo <= i < hi :: !IsGuidDashPosition(i)
    ensures RemoveDashes(s[lo..hi]) == s[lo..hi]
  {
    forall c | c in s[lo..hi] ensures c != '-' {
      var k :| lo <= k < hi && s[k] == c;
    }
    RemoveDashesKeepsDashFree(s[lo..hi]);
  }

  /** A dash at position i of s[lo..] splits the stored id in two. */
  lemma SplitAtDash(s: string, lo: int, i: int)
    requires 0 <= lo <= i < |s| && s[i] == '-'
    ensures RemoveDashes(s[lo..]) == RemoveDashes(s[lo..i]) + RemoveDashes(s[i + 1..])
  {
    assert s[lo..] == s[lo..i] + ("-" + s[i + 1..]);
    RemoveDashesConcat(s[lo..i], "-" + s[i + 1..]);
    assert ("-" + s[i + 1..])[1..] == s[i + 1..];
  }

  /**
   * A generated id is stored as the 32 hexadecimal digits of the GUID, in
   * their original order.
   */
  lemma GuidStoredAsItsDigits(s: string)
    requires IsGuidText(s)
    ensures RemoveDashes(s) == s[..8] + s[9..13] + s[14..18] + s[19..23] + s[24..]
    ensures |RemoveDashes(s)| == 32
    ensures forall c | c in RemoveDashes(s) :: IsLowerHexDigit(c)
  {
    GuidGroupsInOrder(s);
    DigitsOfGuid(s);
  }

  lemma GuidGroupsInOrder(s: string)
    requires IsGuidText(s)
    ensures RemoveDashes(s) == s[..8] + s[9..13] + s[14..18] + s[19..23] + s[24..]
  {
    assert IsGuidDashPosition(8) && IsGuidDashPosition(13);
    assert IsGuidDashPosition(18) && IsGuidDashPosition(23);
    HexBlockIsKept(s, 0, 8);
    HexBlockIsKept(s, 9, 13);
    HexBlockIsKept(s, 14, 18);
    HexBlockIsKept(s, 19, 23);
    HexBlockIsKept(s, 24, 36);
    assert s[24..36] == s[24..];
    JoinGroups(s);
  }

  /** The dash-splitting steps of GuidGroupsInOrder, apart from the GUID's format. */
  lemma JoinGroups(s: string)
    requires |s| == 36 && s[8] == '-' && s[13] == '-' && s[18] == '-' && s[23] == '-'
    requires RemoveDashes(s[0..8]) == s[0..8] && RemoveDashes(s[9..13]) == s[9..13]
    requires RemoveDashes(s[14..18]) == s[14..18] && RemoveDashes(s[19..23]) == s[19..23]
    requires RemoveDashes(s[24..]) == s[24..]
    ensures RemoveDashes(s) == s[..8] + s[9..13] + s[14..18] + s[19..23] + s[24..]
  {
    SplitAtDash(s, 0, 8);
    SplitAtDash(s, 9, 13);
    SplitAtDash(s, 14, 18);
    SplitAtDash(s, 19, 23);
    assert s[0..] == s && s[0..8] == s[..8];
  }

  lemma DigitsOfGuid(s: string)
    requires IsGuidText(s)
    ensures forall c | c in RemoveDashes(s) :: IsLowerHexDigit(c)
  {
    var r := RemoveDashes(s);
    RemoveDashesKeepsOtherCharacters(s);
    forall c | c in r ensures IsLowerHexDigit(c) {
      assert multiset(r)[c] > 0;
      assert c in s;
      var k :| 0 <= k < |s| && s[k] == c;
    }
  }
}
