/** The speaker's event timeline: a growable array kept in order. */
module Timeline {
  /** A growable array. Elements past `count` are whatever the allocator left there. */
  class DArray<T(0)> {
    var m: array<T>
    var count: nat

    ghost predicate Valid()
      reads this
    {
      count <= m.Length
    }

    ghost function Contents(): seq<T>
      requires Valid()
      reads this, m
    {
      m[..count]
    }

    constructor ()
      ensures Valid() && Contents() == [] && fresh(m)
    {
      m := new T[0];
      count := 0;
    }

    /** Double the allocation until it is larger than the new count. */
    method Resize(extra: nat)
      requires Valid()
      modifies this`m
      ensures Valid() && Contents() == old(Contents()) && m.Length > count + extra
      ensures m == old(m) || fresh(m)
    {
      while count + extra >= m.Length
        invariant Valid() && Contents() == old(Contents()) && (m == old(m) || fresh(m))
        decreases count + extra - m.Length
      {
        var bigger := new T[if m.Length == 0 then 1 else m.Length * 2];
        forall i | 0 <= i < m.Length {
          bigger[i] := m[i];
        }
        assert bigger[..count] == m[..count];
        m := bigger;
      }
    }

    /** Drop the first `n` elements, or all there are. */
    method PopFront(n: nat)
      requires Valid()
      modifies this`count, m
      ensures Valid() && Contents() == old(Contents())[if n < old(count) then n else old(count)..]
    {
      if n == 0 {
        return;
      }
      if n >= count {
        count := 0;
        return;
      }
      ghost var was := m[..];
      var left := count - n;
      forall i | 0 <= i < left {
        m[i] := m[i + n];
      }
      count := left;
      assert m[..left] == was[n..n + left];
    }

    /** Open a gap at `index`. The move takes one element more than there are; the element it writes
        past the end still lies inside the allocation, which `Resize` made larger than `count + 1`. */
    method Insert(index: nat)
      requires Valid() && index <= count
      modifies this, m
      ensures Valid() && count == old(count) + 1
      ensures Contents()[..index] == old(Contents())[..index]
      ensures Contents()[index + 1..] == old(Contents())[index..]
      ensures m.Length > count && (m == old(m) || fresh(m))
    {
      Resize(1);
      ghost var was, old_ := m[..], count;
      count := count + 1;
      forall i | index <= i < count {
        m[i + 1] := m[i];
      }
      assert m[..index] == was[..index];
      assert m[index + 1..count] == was[index..old_];
    }
  }

  /** A time as a frame and a cycle within it. */
  datatype Time = Time(cycle: real, frame: int)

  predicate InFrame(t: Time, run: real) { 0.0 <= t.cycle < run }

  predicate AllInFrame(ts: seq<Time>, run: real) { forall i :: 0 <= i < |ts| ==> InFrame(ts[i], run) }

  /** The order of the timeline. */
  predicate Before(x: Time, y: Time) { x.frame < y.frame || (x.frame == y.frame && x.cycle < y.cycle) }

  /** The comparison as first written: frames, then cycles. */
  function LessThan(x: Time, y: Time): bool {
    if x.frame > y.frame then false
    else if x.frame < y.frame then true
    else x.cycle < y.cycle
  }

  /** x - y with the cycles brought back above zero by borrowing whole frames. */
  method Difference(x: Time, y: Time, run: real) returns (d: Time)
    requires run > 0.0
    ensures d.cycle >= 0.0
    ensures d.cycle + run * (d.frame as real) == x.cycle - y.cycle + run * ((x.frame - y.frame) as real)
    ensures InFrame(x, run) && InFrame(y, run) ==> (d.frame < 0 <==> Before(x, y))
  {
    d := Time(x.cycle - y.cycle, x.frame - y.frame);
    ghost var total := d.cycle + run * (d.frame as real);
    while d.cycle < 0.0
      invariant d.cycle + run * (d.frame as real) == total
      invariant InFrame(x, run) && InFrame(y, run) ==>
        d == Time(x.cycle - y.cycle, x.frame - y.frame)
        || (x.cycle < y.cycle && d == Time(x.cycle - y.cycle + run, x.frame - y.frame - 1))
      decreases Borrows(d.cycle, run)
    {
      ghost var f := d.frame;
      BorrowOne(d.cycle, run);
      d := Time(d.cycle + run, d.frame - 1);
      assert run * (d.frame as real) == run * (f as real) - run;
    }
  }

  /** How many frames must be borrowed. */
  ghost function Borrows(cycle: real, run: real): nat
    requires run > 0.0
  {
    if cycle >= 0.0 then 0 else (-cycle / run).Floor + 1
  }

  lemma BorrowOne(cycle: real, run: real)
    requires run > 0.0 && cycle < 0.0
    ensures Borrows(cycle + run, run) < Borrows(cycle, run)
  {
    var q := -cycle / run;
    Quotient(-(cycle + run), q - 1.0, run);
    assert q > 0.0 && (q - 1.0).Floor == q.Floor - 1;
  }

  lemma Quotient(a: real, q: real, run: real)
    requires run > 0.0 && a == q * run
    ensures a / run == q
  {
  }

  lemma OrdersAgree(x: Time, y: Time)
    ensures LessThan(x, y) == Before(x, y)
  {
  }

  predicate Sorted(ts: seq<Time>) { forall i, j :: 0 <= i < j < |ts| ==> !Before(ts[j], ts[i]) }

  class Speaker {
    const transitions: DArray<Time>
    var consumed: nat
    var hasStream: bool

    constructor (hasStream: bool)
      ensures this.hasStream == hasStream && consumed == 0 && fresh(transitions) && fresh(transitions.m)
      ensures transitions.Valid() && transitions.Contents() == []
    {
      transitions := new DArray<Time>();
      consumed := 0;
      this.hasStream := hasStream;
    }

    /** Search backwards for the place after the last event that is earlier than `t`. */
    method Place(t: Time, run: real) returns (i: nat)
      requires run > 0.0 && InFrame(t, run) && transitions.Valid()
      requires AllInFrame(transitions.Contents(), run)
      ensures Slot(transitions.Contents(), i, t)
    {
      i := transitions.count;
      ghost var ts := transitions.Contents();
      while i > 0
        invariant i <= |ts|
        invariant forall j :: i <= j < |ts| ==> !Before(ts[j], t)
      {
        assert transitions.m[i - 1] == ts[i - 1];
        var d := Difference(transitions.m[i - 1], t, run);
        if d.frame < 0 || d.cycle < 0.0 {
          break;
        }
        i := i - 1;
      }
    }

    /** Record a toggle: the events already played are dropped, and the new one goes in before the
        first event that is not earlier. Without a stream nothing happens. */
    method Toggle(t: Time, run: real)
      requires run > 0.0 && InFrame(t, run) && transitions.Valid()
      requires AllInFrame(transitions.Contents(), run)
      modifies this`consumed, transitions, transitions.m
      ensures transitions.Valid()
      ensures !hasStream ==> transitions.Contents() == old(transitions.Contents()) && consumed == old(consumed)
      ensures hasStream ==> consumed == 0
      ensures hasStream ==>
        Inserted(Unplayed(old(transitions.Contents()), old(consumed)), t, transitions.Contents())
      ensures AllInFrame(transitions.Contents(), run)
      ensures hasStream && Sorted(old(transitions.Contents())) ==> Sorted(transitions.Contents())
    {
      hide Sorted, Slot, AllInFrame, Unplayed, Inserted, InFrame, Before;
      if !hasStream {
        return;
      }
      ghost var was := transitions.Contents();
      transitions.PopFront(consumed);
      ghost var rest := transitions.Contents();
      UnplayedKeeps(was, consumed, rest, run);
      consumed := 0;
      transitions.Resize(1);
      var i := Place(t, run);
      Put(i, t);
      PutKeeps(rest, i, t, run);
    }

    /** Open the gap and fill it. */
    method Put(i: nat, t: Time)
      requires transitions.Valid() && i <= transitions.count
      modifies transitions, transitions.m
      ensures transitions.Valid()
      ensures transitions.Contents() == old(transitions.Contents()[..i]) + [t] + old(transitions.Contents()[i..])
    {
      ghost var rest := transitions.Contents();
      transitions.Insert(i);
      ghost var gap := transitions.m[..];
      transitions.m[i] := t;
      Filled(gap, transitions.m[..], |rest| + 1, i, t, rest);
    }
  }

  /** Writing `t` into the gap at `i` completes the insertion. */
  lemma Filled(gap: seq<Time>, full: seq<Time>, count: nat, i: nat, t: Time, rest: seq<Time>)
    requires i <= |rest| && count == |rest| + 1 && count <= |gap| && full == gap[i := t]
    requires gap[..count][..i] == rest[..i] && gap[..count][i + 1..] == rest[i..]
    ensures full[..count] == rest[..i] + [t] + rest[i..]
  {
    assert full[..count][..i] == gap[..count][..i];
    assert full[..count][i + 1..] == gap[..count][i + 1..];
    assert full[..count] == full[..count][..i] + [full[i]] + full[..count][i + 1..];
  }

  lemma PutKeeps(rest: seq<Time>, i: nat, t: Time, run: real)
    requires AllInFrame(rest, run) && InFrame(t, run) && Slot(rest, i, t)
    ensures var r := rest[..i] + [t] + rest[i..];
      Inserted(rest, t, r) && AllInFrame(r, run) && (Sorted(rest) ==> Sorted(r))
  {
    if Sorted(rest) {
      InsertSorted(rest, i, t);
    }
  }

  lemma UnplayedKeeps(was: seq<Time>, consumed: nat, rest: seq<Time>, run: real)
    requires AllInFrame(was, run) && rest == was[if consumed < |was| then consumed else |was|..]
    ensures rest == Unplayed(was, consumed) && AllInFrame(rest, run)
    ensures Sorted(was) ==> Sorted(rest)
  {
  }

  /** There is one place only. */
  lemma SlotUnique(ts: seq<Time>, i: nat, k: nat, t: Time)
    requires Slot(ts, i, t) && Slot(ts, k, t)
    ensures i == k
  {
  }

  function Unplayed(ts: seq<Time>, consumed: nat): seq<Time> {
    ts[if consumed < |ts| then consumed else |ts|..]
  }

  /** `r` is `rest` with `t` put in its place. */
  ghost predicate Inserted(rest: seq<Time>, t: Time, r: seq<Time>) {
    exists i: nat :: Slot(rest, i, t) && r == rest[..i] + [t] + rest[i..]
  }

  /** `i` is where `t` goes: right after an earlier event, or first, and before none. */
  predicate Slot(ts: seq<Time>, i: nat, t: Time) {
    i <= |ts| && (i > 0 ==> Before(ts[i - 1], t)) && forall j :: i <= j < |ts| ==> !Before(ts[j], t)
  }

  lemma InsertSorted(ts: seq<Time>, i: nat, t: Time)
    requires Sorted(ts) && Slot(ts, i, t)
    ensures Sorted(ts[..i] + [t] + ts[i..])
  {
    var r := ts[..i] + [t] + ts[i..];
    forall a, b | 0 <= a < b < |r|
      ensures !Before(r[b], r[a])
    {
      var x, y := r[a], r[b];
      if a < i && b == i {
        assert x == ts[a] && (a == i - 1 || !Before(ts[i - 1], ts[a]));
      } else if a < i && b > i {
        assert x == ts[a] && y == ts[b - 1];
      } else if a == i {
        assert y == ts[b - 1];
      } else if a > i {
        assert x == ts[a - 1] && y == ts[b - 1];
      }
    }
  }
}
