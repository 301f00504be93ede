/**
 * The label follower: a two-state hysteresis machine (0 = inactive,
 * 1 = active) fed one detection value at a time. From 0 it enters 1 on a
 * value at or above `thresholdEnter`; from 1 it falls back to 0 on a value at
 * or below `thresholdExit`; every other value leaves the state alone. Each
 * feed reports 1 when the state changed and 0 when it did not.
 */
module LabelFollower {
  import opened Dsp

  /** The state after feeding `value` to a follower in `state`. */
  function NextState(state: U16, thresholdEnter: real, thresholdExit: real, value: real): (next: U16)
    requires state <= 1
    ensures next <= 1
    ensures next != state <==> (state == 0 && value >= thresholdEnter) || (state == 1 && value <= thresholdExit)
  {
    if state == 0 && value >= thresholdEnter then 1
    else if state == 1 && value <= thresholdExit then 0
    else state
  }

  /** What `feed` reports: 1 for a change of state, 0 otherwise. */
  function Edge(state: U16, next: U16): int
  {
    if next != state then 1 else 0
  }

  /** The state after feeding `values` in order. */
  function Run(state: U16, thresholdEnter: real, thresholdExit: real, values: seq<real>): (last: U16)
    requires state <= 1
    ensures last <= 1
    decreases |values|
  {
    if |values| == 0 then state
    else Run(NextState(state, thresholdEnter, thresholdExit, values[0]), thresholdEnter, thresholdExit, values[1..])
  }

  /** The sum of what `feed` reports over `values`: the number of edges. */
  function Edges(state: U16, thresholdEnter: real, thresholdExit: real, values: seq<real>): (n: nat)
    requires state <= 1
    ensures n <= |values|
    decreases |values|
  {
    if |values| == 0 then 0
    else
      var next := NextState(state, thresholdEnter, thresholdExit, values[0]);
      Edge(state, next) + Edges(next, thresholdEnter, thresholdExit, values[1..])
  }

  /** `label_follower_t`: the state and the two thresholds. */
  class Follower {
    var state: U16
    var thresholdEnter: real
    var thresholdExit: real

    /** The state is one of the two labels. */
    ghost predicate Valid()
      reads this
    {
      state <= 1
    }

    /** `label_follower_init`: stores the thresholds and starts inactive. */
    method Init(thresholdEnter: real, thresholdExit: real)
      modifies this
      ensures this.thresholdEnter == thresholdEnter && this.thresholdExit == thresholdExit
      ensures state == 0
      ensures Valid()
    {
      this.state := 0;
      this.thresholdEnter := thresholdEnter;
      this.thresholdExit := thresholdExit;
    }

    /**
     * `label_follower_feed`: moves to the next state and reports whether it
     * changed; the thresholds are left alone.
     */
    method Feed(value: real) returns (changed: int)
      requires Valid()
      modifies this`state
      ensures Valid()
      ensures state == NextState(old(state), thresholdEnter, thresholdExit, value)
      ensures changed == Edge(old(state), state)
      ensures changed == 0 || changed == 1
    {
      var previous := state;
      if state == 0 && value >= thresholdEnter {
        state := 1;
      } else if state == 1 && value <= thresholdExit {
        state := 0;
      }
      changed := if state != previous then 1 else 0;
    }
  }

  /**
   * With `thresholdExit < thresholdEnter` the state is decided by the value
   * alone outside the dead band, and kept inside it.
   */
  lemma Hysteresis(state: U16, thresholdEnter: real, thresholdExit: real, value: real)
    requires state <= 1 && thresholdExit < thresholdEnter
    ensures value >= thresholdEnter ==> NextState(state, thresholdEnter, thresholdExit, value) == 1
    ensures value <= thresholdExit ==> NextState(state, thresholdEnter, thresholdExit, value) == 0
    ensures thresholdExit < value < thresholdEnter ==> NextState(state, thresholdEnter, thresholdExit, value) == state
  {
  }

  /** With `thresholdExit < thresholdEnter`, feeding the same value twice reports no edge the second time. */
  lemma FeedTwiceNoEdge(state: U16, thresholdEnter: real, thresholdExit: real, value: real)
    requires state <= 1 && thresholdExit < thresholdEnter
    ensures var next := NextState(state, thresholdEnter, thresholdExit, value);
      NextState(next, thresholdEnter, thresholdExit, value) == next
  {
  }

  /**
   * Without the gap the dead band does not protect against chatter: with
   * `thresholdEnter <= thresholdExit`, a value between them toggles the state
   * on every feed.
   */
  lemma NoGapChatters(state: U16, thresholdEnter: real, thresholdExit: real, value: real)
    requires state <= 1 && thresholdEnter <= value <= thresholdExit
    ensures NextState(state, thresholdEnter, thresholdExit, value) == 1 - state
  {
  }

  /** Values strictly inside the dead band never move the state and report no edge. */
  lemma {:induction false} DeadBandSticks(state: U16, thresholdEnter: real, thresholdExit: real, values: seq<real>)
    requires state <= 1
    requires forall i :: 0 <= i < |values| ==> thresholdExit < values[i] < thresholdEnter
    ensures Run(state, thresholdEnter, thresholdExit, values) == state
    ensures Edges(state, thresholdEnter, thresholdExit, values) == 0
    decreases |values|
  {
    if |values| > 0 {
      DeadBandSticks(state, thresholdEnter, thresholdExit, values[1..]);
    }
  }

  /**
   * The reported edges alternate between entering and leaving, so their
   * number is even exactly when the follower ends where it started.
   */
  lemma {:induction false} EdgesParity(state: U16, thresholdEnter: real, thresholdExit: real, values: seq<real>)
    requires state <= 1
    ensures Edges(state, thresholdEnter, thresholdExit, values) % 2 == 0
      <==> Run(state, thresholdEnter, thresholdExit, values) == state
    decreases |values|
  {
    if |values| > 0 {
      var next := NextState(state, thresholdEnter, thresholdExit, values[0]);
      EdgesParity(next, thresholdEnter, thresholdExit, values[1..]);
    }
  }

  /**
   * A feeding that ends on a value at or above `thresholdEnter` leaves the
   * follower active, and one that ends at or below `thresholdExit` leaves it
   * inactive, whatever came before.
   */
  lemma {:induction false} LastValueDecides(state: U16, thresholdEnter: real, thresholdExit: real, values: seq<real>)
    requires state <= 1 && thresholdExit < thresholdEnter && |values| > 0
    ensures values[|values| - 1] >= thresholdEnter ==> Run(state, thresholdEnter, thresholdExit, values) == 1
    ensures values[|values| - 1] <= thresholdExit ==> Run(state, thresholdEnter, thresholdExit, values) == 0
    decreases |values|
  {
    if |values| > 1 {
      var next := NextState(state, thresholdEnter, thresholdExit, values[0]);
      LastValueDecides(next, thresholdEnter, thresholdExit, values[1..]);
      assert values[1..][|values[1..]| - 1] == values[|values| - 1];
    }
  }
}
