/**
 * The trail a thrown snow bomb leaves: a bounded first-in first-out list of recorded positions,
 * filled at a fixed interval of accumulated frame time. Time is counted in whole milliseconds
 * (the source accumulates seconds as a float); drawing the list is not modelled.
 */
module ProjectilePhysics {

  import opened UnityTypes

  /** The serialized defaults of the component: 15 points, one every 0.05 s. */
  const DEFAULT_MAX_TRAIL_POINTS: int := 15
  const DEFAULT_RECORD_INTERVAL_MS: int := 50

  /** The last `k` elements of `s`, in order. */
  function LastN<T>(s: seq<T>, k: nat): (r: seq<T>)
    requires k <= |s|
    ensures |r| == k
    ensures forall i :: 0 <= i < k ==> r[i] == s[|s| - k + i]
  {
    s[|s| - k..]
  }

  /** The capacity a trail can actually reach: a non-positive maximum keeps it empty. */
  function Capacity(maxPoints: int): nat {
    if maxPoints < 0 then 0 else maxPoints
  }

  /**
   * One recording: the position goes to the back; if the list is then longer than the maximum,
   * the single oldest element is dropped.
   */
  function Recorded(trail: seq<Vector3>, p: Vector3, maxPoints: int): (r: seq<Vector3>)
    ensures |r| == if |trail| + 1 > maxPoints then |trail| else |trail| + 1
    ensures r == LastN(trail + [p], |r|)
    ensures r != [] ==> r[|r| - 1] == p
    ensures |trail| <= Capacity(maxPoints) ==> |r| <= Capacity(maxPoints)
  {
    var appended := trail + [p];
    if |appended| > maxPoints then
      assert appended[1..] == LastN(appended, |trail|);
      appended[1..]
    else
      assert appended == LastN(appended, |appended|);
      appended
  }

  /** A recording that fits keeps every earlier point; the new one is last. */
  lemma RecordedWithinBound(trail: seq<Vector3>, p: Vector3, maxPoints: int)
    requires |trail| < maxPoints
    ensures Recorded(trail, p, maxPoints) == trail + [p]
  {
  }

  /** On overflow exactly the element at index 0 goes, and the others keep their order. */
  lemma RecordedOverflowDropsOldest(trail: seq<Vector3>, p: Vector3, maxPoints: int)
    requires |trail| >= maxPoints && trail != []
    ensures Recorded(trail, p, maxPoints) == trail[1..] + [p]
  {
  }

  /** Recordings, oldest first. */
  function RecordAll(trail: seq<Vector3>, ps: seq<Vector3>, maxPoints: int): seq<Vector3>
    decreases |ps|
  {
    if ps == [] then trail else Recorded(RecordAll(trail, ps[..|ps| - 1], maxPoints), ps[|ps| - 1], maxPoints)
  }

  /** Recording into a trail that already holds the last points of a history extends it by one. */
  lemma RecordedKeepsLastN(h: seq<Vector3>, p: Vector3, maxPoints: int)
    ensures Recorded(LastN(h, Min(|h|, Capacity(maxPoints))), p, maxPoints)
         == LastN(h + [p], Min(|h| + 1, Capacity(maxPoints)))
  {
    var m := Capacity(maxPoints);
    var before := LastN(h, Min(|h|, m));
    var after := Recorded(before, p, maxPoints);
    var expected := LastN(h + [p], Min(|h| + 1, m));
    assert |after| == |expected|;
    assert after == LastN(before + [p], |after|);
    forall i | 0 <= i < |after|
      ensures after[i] == expected[i]
    {
      var n := |after|;
      if i < n - 1 {
        assert after[i] == before[|before| - n + 1 + i];
      }
    }
  }

  /**
   * From an empty trail, or from one holding the last points of what came before, the trail
   * after any number of recordings is the last `min(n, capacity)` positions, in recording order.
   */
  lemma {:induction false} RecordAllKeepsLastN(h: seq<Vector3>, ps: seq<Vector3>, maxPoints: int)
    ensures RecordAll(LastN(h, Min(|h|, Capacity(maxPoints))), ps, maxPoints)
         == LastN(h + ps, Min(|h| + |ps|, Capacity(maxPoints)))
    decreases |ps|
  {
    if ps == [] {
      assert h + ps == h;
    } else {
      var m := Capacity(maxPoints);
      var init := ps[..|ps| - 1];
      var p := ps[|ps| - 1];
      var start := LastN(h, Min(|h|, m));
      assert ps == init + [p];
      assert RecordAll(start, ps, maxPoints) == Recorded(RecordAll(start, init, maxPoints), p, maxPoints);
      RecordAllKeepsLastN(h, init, maxPoints);
      assert RecordAll(start, init, maxPoints) == LastN(h + init, Min(|h + init|, m));
      RecordedKeepsLastN(h + init, p, maxPoints);
      assert (h + init) + [p] == h + ps;
    }
  }

  /** The special case the component starts from: an empty trail. */
  lemma RecordAllFromEmpty(ps: seq<Vector3>, maxPoints: int)
    ensures RecordAll([], ps, maxPoints) == LastN(ps, Min(|ps|, Capacity(maxPoints)))
    ensures |RecordAll([], ps, maxPoints)| <= Capacity(maxPoints)
  {
    var empty: seq<Vector3> := [];
    RecordAllKeepsLastN(empty, ps, maxPoints);
    assert empty + ps == ps;
  }

  class ProjectileTrailRenderer {
    const maxTrailPoints: int
    /** Milliseconds of frame time between two recordings. */
    const recordInterval: int
    var trailPoints: seq<Vector3>
    var timeSinceLastRecord: int
    /** Every position recorded so far, oldest first. */
    ghost var history: seq<Vector3>

    /** The trail holds the last recorded positions, as many as fit, and the accumulator is never negative. */
    ghost predicate Valid()
      reads this
    {
      && 0 <= timeSinceLastRecord
      && trailPoints == LastN(history, Min(|history|, Capacity(maxTrailPoints)))
    }

    constructor (maxTrailPoints: int, recordInterval: int)
      ensures Valid()
      ensures this.maxTrailPoints == maxTrailPoints && this.recordInterval == recordInterval
      ensures trailPoints == [] && timeSinceLastRecord == 0 && history == []
    {
      this.maxTrailPoints := maxTrailPoints;
      this.recordInterval := recordInterval;
      trailPoints := [];
      timeSinceLastRecord := 0;
      history := [];
    }

    /** The component with its serialized defaults. */
    constructor Default()
      ensures Valid()
      ensures maxTrailPoints == DEFAULT_MAX_TRAIL_POINTS && recordInterval == DEFAULT_RECORD_INTERVAL_MS
      ensures trailPoints == [] && timeSinceLastRecord == 0 && history == []
    {
      maxTrailPoints := DEFAULT_MAX_TRAIL_POINTS;
      recordInterval := DEFAULT_RECORD_INTERVAL_MS;
      trailPoints := [];
      timeSinceLastRecord := 0;
      history := [];
    }

    /**
     * One frame: the elapsed time is added to the accumulator; once it reaches the interval the
     * current position is recorded and the accumulator restarts from zero.
     */
    method Update(deltaTime: nat, position: Vector3)
      requires Valid()
      modifies this
      ensures Valid()
      ensures old(timeSinceLastRecord) + deltaTime >= recordInterval ==>
        && trailPoints == Recorded(old(trailPoints), position, maxTrailPoints)
        && history == old(history) + [position]
        && timeSinceLastRecord == 0
      ensures old(timeSinceLastRecord) + deltaTime < recordInterval ==>
        && trailPoints == old(trailPoints)
        && history == old(history)
        && timeSinceLastRecord == old(timeSinceLastRecord) + deltaTime
      ensures recordInterval > 0 ==> timeSinceLastRecord < recordInterval
    {
      timeSinceLastRecord := timeSinceLastRecord + deltaTime;
      if timeSinceLastRecord >= recordInterval {
        RecordTrailPoint(position);
        timeSinceLastRecord := 0;
      }
    }

    /** Appends the position and trims the oldest point when the list outgrows the maximum. */
    method RecordTrailPoint(position: Vector3)
      requires Valid()
      modifies this`trailPoints, this`history
      ensures Valid()
      ensures trailPoints == Recorded(old(trailPoints), position, maxTrailPoints)
      ensures history == old(history) + [position]
      ensures |trailPoints| <= Capacity(maxTrailPoints)
      ensures Capacity(maxTrailPoints) > 0 ==> trailPoints != [] && trailPoints[|trailPoints| - 1] == position
    {
      RecordedKeepsLastN(history, position, maxTrailPoints);
      trailPoints := trailPoints + [position];
      if |trailPoints| > maxTrailPoints {
        trailPoints := trailPoints[1..];
      }
      history := history + [position];
    }
  }
}
