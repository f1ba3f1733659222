/** Value types shared by the player store: the catalog records it reads
    (tracks and releases), the enumerations it keeps in its state, and the
    forward linear search that `Array.prototype.indexOf` performs, and the
    insertion-ordered sets that JavaScript's `Set` provides. */
module PlayerTypes {

  datatype Option<+T> = None | Some(value: T)

  /** Repeat mode: `off`, `one` (restart the same track at its end) or
      `all` (wrap the queue to its start). */
  datatype RepeatMode = Off | One | All

  /** Where the current queue came from. */
  datatype QueueMode = Global | Collection | ReleaseQueue

  /** A catalog track. The store never changes a track; only `id` takes part
      in its decisions, the other fields are carried along as payload. */
  datatype Track = Track(
    id: string,
    title: string,
    artist: string,
    audioFile: string,
    duration: real,
    collectionId: string,
    firstAppearance: string)

  /** Release metadata, kept by the store only as display context. */
  datatype Release = Release(
    releaseNumber: int,
    releaseType: string,
    releaseDate: Option<string>,
    trackCount: nat,
    totalDuration: real,
    dataFile: string)

  /** The track catalog: track id to track. */
  type Catalog = map<string, Track>

  /** The index of the first occurrence of `x` in `s`, or -1 when `x` does not
      occur (the result of `s.indexOf(x)`). */
  function FirstIndex<T(==)>(s: seq<T>, x: T): (r: int)
    ensures r == -1 <==> x !in s
    ensures r != -1 ==> 0 <= r < |s| && s[r] == x
    ensures forall j :: 0 <= j < r ==> s[j] != x
  {
    if |s| == 0 then -1
    else if s[0] == x then 0
    else
      var k := FirstIndex(s[1..], x);
      if k == -1 then -1 else k + 1
  }

  /** No element occurs twice: the shape of a JavaScript `Set` listed in
      insertion order. */
  ghost predicate Distinct<T>(s: seq<T>)
  {
    forall i, j :: 0 <= i < j < |s| ==> s[i] != s[j]
  }

  /** `s` with `x` removed and the other elements in their order
      (`Set.prototype.delete`). */
  function Without(s: seq<string>, x: string): (r: seq<string>)
    ensures forall y :: y in r <==> y in s && y != x
    ensures x !in s ==> r == s
  {
    if |s| == 0 then []
    else if s[0] == x then Without(s[1..], x)
    else [s[0]] + Without(s[1..], x)
  }

  /** Removing an element keeps a distinct sequence distinct. */
  lemma {:induction false} WithoutKeepsDistinct(s: seq<string>, x: string)
    requires Distinct(s)
    ensures Distinct(Without(s, x))
  {
    if |s| > 0 {
      var tail := Without(s[1..], x);
      assert Distinct(s[1..]);
      WithoutKeepsDistinct(s[1..], x);
      if s[0] != x {
        var r := [s[0]] + tail;
        forall i, j | 0 <= i < j < |r|
          ensures r[i] != r[j]
        {
          if i == 0 {
            assert r[j] == tail[j - 1];
            assert s[0] !in s[1..];
          }
        }
      }
    }
  }

  /** In a distinct sequence, removing `x` closes the gap at its one position
      and leaves every other element where it was relative to the rest. */
  lemma {:induction false} WithoutClosesGap(s: seq<string>, x: string)
    requires Distinct(s) && x in s
    ensures var k := FirstIndex(s, x);
      Without(s, x) == s[..k] + s[k + 1..]
  {
    if s[0] == x {
      assert x !in s[1..];
    } else {
      assert Distinct(s[1..]);
      WithoutClosesGap(s[1..], x);
      var k := FirstIndex(s[1..], x);
      assert s[..k + 1] + s[k + 2..] == [s[0]] + (s[1..][..k] + s[1..][k + 1..]);
    }
  }

  /** Deleting an element that was just added at the end gives back the
      sequence from before the addition. */
  lemma {:induction false} WithoutLastAdded(p: seq<string>, x: string)
    requires x !in p
    ensures Without(p + [x], x) == p
  {
    if |p| > 0 {
      assert (p + [x])[1..] == p[1..] + [x];
      WithoutLastAdded(p[1..], x);
    }
  }

  /** The order in which the repeat button cycles through the modes. */
  const RepeatModes: seq<RepeatMode> := [Off, One, All]

  /** The mode after `m`: its position in `RepeatModes`, plus one, modulo the
      number of modes. */
  function NextRepeatMode(m: RepeatMode): (r: RepeatMode)
    ensures m == Off ==> r == One
    ensures m == One ==> r == All
    ensures m == All ==> r == Off
  {
    RepeatModes[(FirstIndex(RepeatModes, m) + 1) % |RepeatModes|]
  }

  lemma NextRepeatModeHasPeriodThree(m: RepeatMode)
    ensures NextRepeatMode(m) != m
    ensures NextRepeatMode(NextRepeatMode(m)) != m
    ensures NextRepeatMode(NextRepeatMode(NextRepeatMode(m))) == m
  {
  }
}
