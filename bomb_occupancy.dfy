/**
 * The bookkeeping both snow-bomb colliders share, on values: a tracker maps each bomb seen
 * (a GameObject, here an integer id) to whether the tracked body is inside it, and the running
 * count the colliders keep must equal the number of bombs flagged inside.
 */
module BombOccupancy {

  type Tracker = map<int, bool>

  /** The bombs the tracker records the body as inside. */
  function Inside(t: Tracker): (s: set<int>)
    ensures forall b :: b in s <==> b in t && t[b]
  {
    set b | b in t && t[b]
  }

  /** The flag a bomb has before it is evaluated: its tracked flag, or false for a bomb seen for the first time. */
  predicate Flag(t: Tracker, b: int) {
    b in t && t[b]
  }

  /** Setting one flag moves the inside count by +1 on false to true, by -1 on true to false, and not at all otherwise. */
  lemma InsideAfterSet(t: Tracker, b: int, v: bool)
    ensures |Inside(t[b := v])| == |Inside(t)| + (if v && !Flag(t, b) then 1 else if !v && Flag(t, b) then -1 else 0)
  {
    var after := Inside(t[b := v]);
    if Flag(t, b) {
      if v {
        assert after == Inside(t);
      } else {
        assert Inside(t) == after + {b};
      }
    } else {
      if v {
        assert after == Inside(t) + {b};
      } else {
        assert after == Inside(t);
      }
    }
  }

  /** Dropping a bomb lowers the inside count by one exactly when the body was inside it. */
  lemma InsideAfterRemove(t: Tracker, b: int)
    ensures |Inside(t - {b})| == |Inside(t)| - (if Flag(t, b) then 1 else 0)
  {
    if Flag(t, b) {
      assert Inside(t) == Inside(t - {b}) + {b};
    } else {
      assert Inside(t - {b}) == Inside(t);
    }
  }

  /** The tracker once the bombs that are no longer in the scene are dropped. */
  function Retain(t: Tracker, present: seq<int>): (r: Tracker)
    ensures forall b :: b in r <==> b in t && b in present
    ensures forall b :: b in r ==> r[b] == t[b]
  {
    map b | b in t && b in present :: t[b]
  }

  /** The tracker after a full pass: exactly the bombs in the scene, each flagged by its distance test. */
  function Refreshed(present: seq<int>, inside: int -> bool): (r: Tracker)
    ensures forall b :: b in r <==> b in present
    ensures forall b :: b in r ==> r[b] == inside(b)
  {
    map b | b in present :: inside(b)
  }

  /** Whether the pass over `present` flips some bomb's flag, i.e. whether it writes the count to the game state. */
  predicate AnyTransition(t: Tracker, present: seq<int>, inside: int -> bool) {
    exists b :: b in present && Flag(t, b) != inside(b)
  }

  /** After a full pass, the bombs flagged inside are the bombs in the scene whose distance test holds. */
  lemma RefreshedInside(present: seq<int>, inside: int -> bool)
    ensures Inside(Refreshed(present, inside)) == set b | b in present && inside(b)
  {
  }

  /**
   * The tracker partway through the per-bomb pass, once the bombs of `done` (a prefix of
   * `present`) have been evaluated: the retained bombs not yet evaluated keep their flag, the
   * evaluated ones carry their distance test.
   */
  function Pass(t0: Tracker, done: seq<int>, present: seq<int>, inside: int -> bool): (r: Tracker)
    ensures forall b :: b in r <==> (b in t0 && b in present) || b in done
  {
    var keys := (set b | b in t0 && b in present) + (set b | b in done);
    map b | b in keys :: if b in done then inside(b) else t0[b]
  }

  /** The pass starts from the retained tracker. */
  lemma PassStart(t0: Tracker, present: seq<int>, inside: int -> bool)
    ensures Pass(t0, [], present, inside) == Retain(t0, present)
  {
  }

  /**
   * Evaluating the next bomb sets its flag to its distance test. It starts from its flag in the
   * frame's initial tracker the first time it is met, and from its distance test when it repeats.
   */
  lemma PassStep(t0: Tracker, present: seq<int>, i: int, inside: int -> bool)
    requires 0 <= i < |present|
    ensures Pass(t0, present[..i + 1], present, inside) == Pass(t0, present[..i], present, inside)[present[i] := inside(present[i])]
    ensures Flag(Pass(t0, present[..i], present, inside), present[i])
         == if present[i] in present[..i] then inside(present[i]) else Flag(t0, present[i])
  {
    assert present[..i + 1] == present[..i] + [present[i]];
    assert present[i] in present;
    var after := Pass(t0, present[..i + 1], present, inside);
    var before := Pass(t0, present[..i], present, inside)[present[i] := inside(present[i])];
    assert after.Keys == before.Keys;
  }

  /** At the end of the pass the tracker holds exactly the bombs in the scene, each with its distance test. */
  lemma PassEnd(t0: Tracker, present: seq<int>, inside: int -> bool)
    ensures Pass(t0, present, present, inside) == Refreshed(present, inside)
  {
    var a := Pass(t0, present, present, inside);
    assert a.Keys == Refreshed(present, inside).Keys;
  }

  /** Whether the first `i + 1` bombs flip a flag: the first `i` do, or bomb i is met for the first time and flips. */
  lemma AnyTransitionStep(t: Tracker, present: seq<int>, i: int, inside: int -> bool)
    requires 0 <= i < |present|
    ensures AnyTransition(t, present[..i + 1], inside)
        <==> AnyTransition(t, present[..i], inside) || (present[i] !in present[..i] && Flag(t, present[i]) != inside(present[i]))
  {
    assert present[..i + 1] == present[..i] + [present[i]];
    if AnyTransition(t, present[..i + 1], inside) {
      var b :| b in present[..i + 1] && Flag(t, b) != inside(b);
      assert b in present[..i] || b == present[i];
    }
    if Flag(t, present[i]) != inside(present[i]) {
      assert present[i] in present[..i + 1];
    }
  }
}
