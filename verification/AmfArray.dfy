/**
 * AMFArray (brpc/brpc/amf.h, brpc/brpc/amf.cpp): the first four items live in the object, the
 * others in a deque.
 */
module AmfArrays {
  import opened AmfCodec

  const INLINE := 4

  /** What operator= leaves of `l` when `r` is not longer: the shrinking loop compares an index that
      grows with a size that falls, so it removes only every other surplus item. */
  function Assigned(l: seq<Value>, r: seq<Value>): seq<Value> {
    if |l| < |r| then r else r + l[|r|..|r| + (|l| - |r|) / 2]
  }

  lemma {:induction false} Trimmed(l: seq<Value>, r: seq<Value>)
    ensures |r| <= |l| ==> (r + l[|r|..])[..|r| + (|l| - |r|) / 2] == Assigned(l, r)
  {}

  /** The first i items of r, then those of l. */
  function Mixed(l: seq<Value>, r: seq<Value>, i: nat): seq<Value>
    requires i <= |r| <= |l|
  {
    r[..i] + l[i..]
  }

  lemma {:induction false} Overwrite(l: seq<Value>, r: seq<Value>, i: nat)
    requires i < |r| <= |l|
    ensures Mixed(l, r, i)[i := r[i]] == Mixed(l, r, i + 1)
  {}

  /** Assignment makes a copy iff the left side is at most one item longer. */
  lemma {:induction false} AssignmentCopies(l: seq<Value>, r: seq<Value>)
    ensures Assigned(l, r) == r <==> |l| <= |r| + 1
  {
    if |l| >= |r| {
      var surplus := l[|r|..|r| + (|l| - |r|) / 2];
      assert |Assigned(l, r)| == |r| + |surplus|;
      assert |surplus| == 0 ==> r + surplus == r;
    }
  }

  /** Two items too many: one of them survives the assignment. */
  lemma {:induction false} AssignmentKeepsSurplus()
    ensures Assigned([Null, Undefined], []) == [Null]
  {
    assert [Null, Undefined][0..1] == [Null];
  }

  class AMFArray {
    var size: nat
    const fields: array<Value>
    var more: seq<Value>

    ghost predicate Valid()
      reads this, fields
    {
      && fields.Length == INLINE
      && |more| == (if size > INLINE then size - INLINE else 0)
      && forall i :: size <= i < INLINE ==> fields[i] == Undefined
    }

    ghost function Items(): (s: seq<Value>)
      requires Valid()
      reads this, fields
      ensures |s| == size
    {
      if size <= INLINE then fields[..size] else fields[..] + more
    }

    constructor ()
      ensures Valid() && Items() == [] && fresh(fields)
    {
      size, more := 0, [];
      fields := new Value[INLINE](_ => Undefined);
    }

    /** The copy constructor. */
    constructor Copy(rhs: AMFArray)
      requires rhs.Valid()
      ensures Valid() && Items() == rhs.Items() && fresh(fields)
    {
      size, more := 0, [];
      fields := new Value[INLINE](_ => Undefined);
      new;
      Construct(rhs);
    }

    /** The body of the copy constructor, also used by assignment on a destroyed array. */
    method Construct(rhs: AMFArray)
      requires Valid() && size == 0 && rhs.Valid() && rhs != this && rhs.fields != fields
      modifies this, fields
      ensures Valid() && Items() == rhs.Items()
    {
      size := rhs.size;
      var n := if size < INLINE then size else INLINE;
      for i := 0 to n
        invariant size == rhs.size && more == [] && fields.Length == INLINE
        invariant fields[..i] == rhs.fields[..i]
        invariant forall j :: i <= j < INLINE ==> fields[j] == Undefined
      {
        fields[i] := rhs.fields[i];
      }
      if size > INLINE { more := rhs.more; }
      assert fields[..n] == rhs.fields[..n];
    }

    /** operator[] */
    method At(i: nat) returns (v: Value)
      requires Valid() && i < size
      ensures v == Items()[i]
    {
      v := if i < INLINE then fields[i] else more[i - INLINE];
    }

    method Set(i: nat, v: Value)
      requires Valid() && i < size
      modifies this`more, fields
      ensures Valid() && Items() == old(Items())[i := v]
    {
      if i < INLINE { fields[i] := v; } else { more := more[i - INLINE := v]; }
    }

    /** The new item is undefined, so that AddObject and AddArray start from an empty value. */
    method AddField()
      requires Valid()
      modifies this
      ensures Valid() && Items() == old(Items()) + [Undefined]
    {
      if size < INLINE {
        size := size + 1;
      } else {
        assert size - INLINE == |more|;
        more := more + [Undefined];
        size := size + 1;
      }
    }

    method RemoveLastField()
      requires Valid()
      modifies this, fields
      ensures Valid() && Items() == if old(size) == 0 then [] else old(Items())[..old(size) - 1]
    {
      if size == 0 { return; }
      if size <= INLINE {
        size := size - 1;
        fields[size] := Undefined;
        return;
      }
      more := more[..|more| - 1];
      size := size - 1;
    }

    method Clear()
      requires Valid()
      modifies this, fields
      ensures Valid() && Items() == []
    {
      var n := if size < INLINE then size else INLINE;
      for i := 0 to n
        invariant size == old(size) && more == old(more) && fields.Length == INLINE
        invariant forall j :: 0 <= j < i || n <= j < INLINE ==> fields[j] == Undefined
      {
        fields[i] := Undefined;
      }
      size, more := 0, [];
    }

    method CopyItem(rhs: AMFArray, i: nat)
      requires Valid() && rhs.Valid() && i < rhs.size <= size && (rhs == this || rhs.fields != fields)
      modifies this, fields
      ensures Valid() && rhs.Valid() && size == old(size) && rhs.Items() == old(rhs.Items())
      ensures Items() == old(Items())[i := old(rhs.Items())[i]]
    {
      var v := rhs.At(i);
      Set(i, v);
      assert rhs == this ==> old(Items())[i := v] == old(Items());
    }

    /** Overwrites the first items with those of rhs, which may be this array. */
    method CopyItems(rhs: AMFArray)
      requires Valid() && rhs.Valid() && rhs.size <= size && (rhs == this || rhs.fields != fields)
      modifies this, fields
      ensures Valid() && size == old(size) && Items() == old(rhs.Items()) + old(Items())[old(rhs.size)..]
    {
      ghost var l, r := Items(), rhs.Items();
      for i := 0 to rhs.size
        invariant Valid() && rhs.Valid() && size == |l| && rhs.size == |r|
        invariant rhs.Items() == r
        invariant Items() == Mixed(l, r, i)
      {
        Overwrite(l, r, i);
        CopyItem(rhs, i);
      }
    }

    /** The shrinking loop of operator=. */
    method Shrink(n: nat)
      requires Valid() && n <= size
      modifies this, fields
      ensures Valid() && Items() == old(Items())[..n + (old(size) - n) / 2]
    {
      ghost var l := Items();
      var i := n;
      while i < size
        invariant Valid() && n <= i && n <= size <= |l| && i - n == |l| - size && i <= size + 1
        invariant Items() == l[..size]
        decreases size - i
      {
        RemoveLastField();
        i := i + 1;
      }
    }

    /** operator= */
    method Assign(rhs: AMFArray)
      requires Valid() && rhs.Valid() && (rhs == this || rhs.fields != fields)
      modifies this, fields
      ensures Valid() && Items() == Assigned(old(Items()), old(rhs.Items()))
    {
      if size < rhs.size {
        Clear();
        Construct(rhs);
        return;
      }
      Trimmed(Items(), rhs.Items());
      var n := rhs.size;
      CopyItems(rhs);
      Shrink(n);
    }
  }
}
