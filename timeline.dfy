/**
 The daily timeline of the analysis: one slot per calendar day from the first
 transaction date (inclusive) to the last (exclusive), as a half-open numpy
 range of days builds it. Calendar days are integer day numbers here.
 */
module Calendar {

  /** The days start, start + 1, ..., end - 1: empty when end <= start, and
      never containing end itself. */
  function Timeline(start: int, end: int): (t: seq<int>)
    ensures |t| == if start < end then end - start else 0
    ensures forall i :: 0 <= i < |t| ==> t[i] == start + i
    decreases end - start
  {
    if start < end then [start] + Timeline(start + 1, end) else []
  }

  /** The positions at which t holds the day d, in increasing order: the
      index array of a numpy elementwise comparison followed by a search for
      true entries. */
  function Where(t: seq<int>, d: int): (idx: seq<nat>)
    ensures forall k :: 0 <= k < |idx| ==> idx[k] < |t| && t[idx[k]] == d
    ensures forall i :: 0 <= i < |t| ==> (i in idx <==> t[i] == d)
    ensures forall j, k :: 0 <= j < k < |idx| ==> idx[j] < idx[k]
  {
    if t == [] then []
    else
      var n := |t| - 1;
      Where(t[..n], d) + if t[n] == d then [n] else []
  }

  /** On a timeline a day has exactly one slot, at its offset from the start,
      when it lies in [start, end), and no slot otherwise. */
  lemma WhereOnTimeline(start: int, end: int, d: int)
    ensures Where(Timeline(start, end), d) == if start <= d < end then [d - start] else []
  {
    WhereConsecutive(Timeline(start, end), start, d);
  }

  /** In any run of consecutive days from start, a day has one slot, at its
      offset from start, when the run covers it, and none otherwise. */
  lemma {:induction false} WhereConsecutive(t: seq<int>, start: int, d: int)
    requires forall i :: 0 <= i < |t| ==> t[i] == start + i
    ensures Where(t, d) == if start <= d < start + |t| then [d - start] else []
  {
    if t != [] {
      var n := |t| - 1;
      WhereConsecutive(t[..n], start, d);
    }
  }

  /** The timeline holds exactly the days of [start, end). */
  lemma TimelineDays(start: int, end: int, d: int)
    ensures d in Timeline(start, end) <==> start <= d < end
  {
    var t := Timeline(start, end);
    if start <= d < end {
      assert t[d - start] == d;
    }
  }

  /** In particular the last transaction date never has a slot. */
  lemma EndDayHasNoSlot(start: int, end: int)
    ensures end !in Timeline(start, end)
    ensures Where(Timeline(start, end), end) == []
  {
    TimelineDays(start, end, end);
    WhereOnTimeline(start, end, end);
  }
}
