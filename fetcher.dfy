/**
 * The named sequence counter and the randomised pause of the scraper
 * (scrapper/fetcher.py). The `Sequence` collection is a map from name to the
 * next value; the random draw of `get_sleep_interval` is a parameter.
 */
module Fetcher {
  import opened Wrappers

  /** The default `value` of a new `Sequence` record. */
  const SEQUENCE_START: int := 1

  /** The value a call for `name` reads: the stored one, or the default of a record created on the spot. */
  function Current(values: map<string, int>, name: string): int {
    if name in values then values[name] else SEQUENCE_START
  }

  /** One `_get_sequence` call on the store: its result and the store it leaves behind. */
  function Next(values: map<string, int>, name: string): (r: (int, map<string, int>))
    ensures r.0 == Current(values, name)
    ensures r.1.Keys == values.Keys + {name}
    ensures r.1[name] == r.0 + 1
    ensures forall other :: other in values && other != name ==> r.1[other] == values[other]
  {
    var cur := Current(values, name);
    (cur, values[name := cur + 1])
  }

  /** The results of `_get_sequence` called for each name of `names` in turn. */
  function Draws(values: map<string, int>, names: seq<string>): (r: seq<int>)
    ensures |r| == |names|
    decreases |names|
  {
    if names == [] then []
    else
      var (cur, after) := Next(values, names[0]);
      [cur] + Draws(after, names[1..])
  }

  /** The number of times `name` occurs in `names`. */
  function Count(names: seq<string>, name: string): nat {
    if names == [] then 0 else (if names[0] == name then 1 else 0) + Count(names[1..], name)
  }

  /**
   * The `i`-th call returns the starting value of its name plus the number of
   * earlier calls for that same name: calls for other names do not matter.
   */
  lemma {:induction false} DrawsCount(values: map<string, int>, names: seq<string>, i: nat)
    requires i < |names|
    ensures Draws(values, names)[i] == Current(values, names[i]) + Count(names[..i], names[i])
    decreases |names|
  {
    var (cur, after) := Next(values, names[0]);
    if i > 0 {
      DrawsCount(after, names[1..], i - 1);
      assert names[..i][1..] == names[1..][..i - 1];
      assert Current(after, names[i]) == Current(values, names[i]) + (if names[0] == names[i] then 1 else 0);
    }
  }

  /** Successive calls for one new name return 1, 2, 3, ... */
  lemma ConsecutiveDraws(values: map<string, int>, names: seq<string>, name: string)
    requires name !in values
    requires forall i :: 0 <= i < |names| ==> names[i] == name
    ensures forall i :: 0 <= i < |names| ==> Draws(values, names)[i] == i + 1
  {
    forall i | 0 <= i < |names|
      ensures Draws(values, names)[i] == i + 1
    {
      DrawsCount(values, names, i);
      CountAll(names[..i], name);
    }
  }

  lemma {:induction false} CountAll(names: seq<string>, name: string)
    requires forall i :: 0 <= i < |names| ==> names[i] == name
    ensures Count(names, name) == |names|
    decreases |names|
  {
    if names != [] {
      CountAll(names[1..], name);
    }
  }

  /** The `Sequence` collection: one counter per name. */
  class SequenceStore {
    var values: map<string, int>

    constructor ()
      ensures values == map[]
    {
      values := map[];
    }

    /** `_get_sequence`: creates the record at 1 when missing, returns its value and stores the next one. */
    method GetSequence(name: string) returns (cur: int)
      modifies this
      ensures (cur, values) == Next(old(values), name)
    {
      if name !in values {
        values := values[name := SEQUENCE_START];
      }
      cur := values[name];
      values := values[name := cur + 1];
      assert values == old(values)[name := cur + 1];
    }
  }

  /** A fresh store answers 1 and then 2 for one name, and 1 for another name in between. */
  method SequenceScenario() returns (a: int, b: int, c: int)
    ensures a == 1 && b == 1 && c == 2
  {
    var store := new SequenceStore();
    a := store.GetSequence("catalog.product");
    b := store.GetSequence("other");
    c := store.GetSequence("catalog.product");
  }

  // ---------------------------------------------------------------------------
  // `get_sleep_interval`

  datatype SleepError = EmptyRange  // `randint(1, base_time)` raises ValueError when base_time < 1

  /** `base_time + random.randint(1, base_time)`, with the draw given as `draw`. */
  function SleepInterval(baseTime: int, draw: int): (r: Result<int, SleepError>)
    requires baseTime >= 1 ==> 1 <= draw <= baseTime
    ensures r.Ok? <==> baseTime >= 1
    ensures r.Ok? ==> baseTime + 1 <= r.value <= 2 * baseTime
  {
    if baseTime < 1 then Err(EmptyRange) else Ok(baseTime + draw)
  }

  /** Every value of `[base_time + 1, 2 * base_time]` is the pause for some draw. */
  lemma SleepIntervalCovers(baseTime: int, t: int)
    requires baseTime >= 1 && baseTime + 1 <= t <= 2 * baseTime
    ensures exists draw :: 1 <= draw <= baseTime && SleepInterval(baseTime, draw) == Ok(t)
  {
    assert SleepInterval(baseTime, t - baseTime) == Ok(t);
  }
}
