/**
 * The list updates both pages make to their schedule state: the `map` that
 * toggles, the `filter` that deletes and the spread that appends.
 */
module ScheduleList {
  import opened AudioUtils

  /** `schedules.map(s => s.id === id ? { ...s, isActive } : s)`. */
  function Toggled(s: seq<AudioSchedule>, id: string, isActive: bool): (r: seq<AudioSchedule>)
    ensures |r| == |s|
  {
    seq(|s|, i requires 0 <= i < |s| => if s[i].id == id then s[i].(isActive := isActive) else s[i])
  }

  /** `schedules.filter(s => s.id !== id)`. */
  function Deleted(s: seq<AudioSchedule>, id: string): (r: seq<AudioSchedule>)
    ensures |r| <= |s|
  {
    if s == [] then []
    else if s[0].id == id then Deleted(s[1..], id)
    else [s[0]] + Deleted(s[1..], id)
  }

  predicate HasId(s: seq<AudioSchedule>, id: string)
  {
    exists i :: 0 <= i < |s| && s[i].id == id
  }

  /** How many schedules carry `id`. */
  function CountId(s: seq<AudioSchedule>, id: string): nat
  {
    if s == [] then 0 else (if s[0].id == id then 1 else 0) + CountId(s[1..], id)
  }

  /** The list with every active flag cleared: what toggling cannot change. */
  function FlagsErased(s: seq<AudioSchedule>): (r: seq<AudioSchedule>)
    ensures |r| == |s|
  {
    seq(|s|, i requires 0 <= i < |s| => s[i].(isActive := false))
  }

  /** Toggling sets the flag of exactly the schedules with that id; length,
      order, every other field and every other schedule stay as they were. */
  lemma ToggleChangesOnlyFlags(s: seq<AudioSchedule>, id: string, isActive: bool)
    ensures FlagsErased(Toggled(s, id, isActive)) == FlagsErased(s)
    ensures forall i :: 0 <= i < |s| ==>
      Toggled(s, id, isActive)[i].isActive == if s[i].id == id then isActive else s[i].isActive
    ensures forall i :: 0 <= i < |s| && s[i].id != id ==> Toggled(s, id, isActive)[i] == s[i]
  {
  }

  /** Switching a schedule off and then back to the flag it had restores the
      list exactly (when every schedule with that id had that flag). */
  lemma ToggleOffThenBackRestores(s: seq<AudioSchedule>, id: string, v: bool)
    requires forall i :: 0 <= i < |s| && s[i].id == id ==> s[i].isActive == v
    ensures Toggled(Toggled(s, id, false), id, v) == s
  {
  }

  /** Only the last of two toggles of one id matters. */
  lemma ToggleLastWins(s: seq<AudioSchedule>, id: string, a: bool, b: bool)
    ensures Toggled(Toggled(s, id, a), id, b) == Toggled(s, id, b)
  {
  }

  /** Deleting removes every schedule with the id and keeps every other one,
      as often as it occurred. */
  lemma DeleteRemovesExactlyId(s: seq<AudioSchedule>, id: string)
    ensures !HasId(Deleted(s, id), id)
    ensures forall x: AudioSchedule :: x.id != id ==> multiset(Deleted(s, id))[x] == multiset(s)[x]
    ensures |Deleted(s, id)| == |s| - CountId(s, id)
  {
    DeletedHasNoId(s, id);
    DeletedCounts(s, id);
    DeletedLength(s, id);
  }

  lemma {:induction false} DeletedHasNoId(s: seq<AudioSchedule>, id: string)
    ensures forall i :: 0 <= i < |Deleted(s, id)| ==> Deleted(s, id)[i].id != id
  {
    if s != [] {
      DeletedHasNoId(s[1..], id);
    }
  }

  lemma {:induction false} DeletedCounts(s: seq<AudioSchedule>, id: string)
    ensures forall x: AudioSchedule :: x.id != id ==> multiset(Deleted(s, id))[x] == multiset(s)[x]
  {
    if s != [] {
      DeletedCounts(s[1..], id);
      assert s == [s[0]] + s[1..];
    }
  }

  lemma {:induction false} DeletedLength(s: seq<AudioSchedule>, id: string)
    ensures |Deleted(s, id)| == |s| - CountId(s, id)
  {
    if s != [] {
      DeletedLength(s[1..], id);
    }
  }

  /** Deleting keeps the survivors in their original relative order: it
      works piece by piece over any split of the list. */
  lemma {:induction false} DeleteDistributes(a: seq<AudioSchedule>, b: seq<AudioSchedule>, id: string)
    ensures Deleted(a + b, id) == Deleted(a, id) + Deleted(b, id)
  {
    if a != [] {
      assert (a + b)[1..] == a[1..] + b;
      DeleteDistributes(a[1..], b, id);
    } else {
      assert a + b == b;
    }
  }

  /** Deleting leaves the list unchanged exactly when no schedule has the id. */
  lemma {:induction false} DeleteAbsentIsNoOp(s: seq<AudioSchedule>, id: string)
    ensures Deleted(s, id) == s <==> !HasId(s, id)
  {
    if s != [] {
      DeleteAbsentIsNoOp(s[1..], id);
      if s[0].id == id {
        assert HasId(s, id);
        assert |Deleted(s, id)| <= |s[1..]| < |s|;
      } else {
        assert HasId(s, id) <==> HasId(s[1..], id) by {
          if HasId(s, id) {
            var i :| 0 <= i < |s| && s[i].id == id;
            assert s[1..][i - 1].id == id;
          }
          if HasId(s[1..], id) {
            var i :| 0 <= i < |s[1..]| && s[1..][i].id == id;
            assert s[i + 1].id == id;
          }
        }
      }
    }
  }

  lemma {:induction false} CountIdAppend(s: seq<AudioSchedule>, x: AudioSchedule)
    ensures CountId(s + [x], x.id) == CountId(s, x.id) + 1
  {
    if s != [] {
      assert (s + [x])[1..] == s[1..] + [x];
      CountIdAppend(s[1..], x);
    }
  }

  /** Appending checks nothing: a schedule whose id is already present is
      added anyway, and the id then occurs once more. */
  lemma AppendKeepsDuplicates(s: seq<AudioSchedule>, x: AudioSchedule)
    ensures (s + [x])[..|s|] == s && (s + [x])[|s|] == x
    ensures CountId(s + [x], x.id) == CountId(s, x.id) + 1
  {
    CountIdAppend(s, x);
  }
}
