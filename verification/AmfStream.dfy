/**
 * Streams of AMF bytes over blocks handed out by a zero-copy stream (brpc/brpc/amf_inl.h).
 * Both classes are proved to behave like flat byte strings, however the bytes are split.
 */
module AmfStream {
  import opened Bytes

  function Join(blocks: seq<bytes>): bytes {
    if blocks == [] then [] else blocks[0] + Join(blocks[1..])
  }

  function Min(a: nat, b: nat): nat { if a <= b then a else b }

  /** At most n bytes from the front. */
  function Take(s: bytes, n: nat): bytes { s[..Min(n, |s|)] }

  function Drop(s: bytes, n: nat): bytes { s[Min(n, |s|)..] }

  /** Zeros for the bytes a short read did not fill. */
  function Padded(s: bytes, n: nat): bytes
    decreases n - |s|
  {
    if |s| >= n then s else Padded(s + [0], n)
  }

  lemma {:induction false} Regroup(a: bytes, b: bytes, c: bytes)
    ensures (a + b) + c == a + (b + c)
  {}

  lemma {:induction false} CutHere(out: bytes, data: bytes, later: bytes, n: nat)
    requires n <= |data|
    ensures var rest := out + (data + later);
      Take(rest, |out| + n) == out + data[..n] && Drop(rest, |out| + n) == data[n..] + later
  {}

  lemma {:induction false} PutFurther(w: bytes, data: bytes, i: nat, j: nat)
    requires i <= j <= |data|
    ensures (w + data[..i]) + data[i..j] == w + data[..j]
  {}

  class AMFInputStream {
    var data: bytes            // unread part of the current block
    var blocks: seq<bytes>     // blocks Next() will hand out, possibly empty ones
    var popped: nat

    function Rest(): bytes
      reads this
    {
      data + Join(blocks)
    }

    constructor (blocks: seq<bytes>)
      ensures Rest() == Join(blocks) && popped == 0
    {
      this.data, this.blocks, this.popped := [], blocks, 0;
    }

    method Next() returns (ok: bool)
      modifies this`data, this`blocks
      ensures ok == (old(blocks) != [])
      ensures ok ==> data == old(blocks)[0] && blocks == old(blocks)[1..]
      ensures !ok ==> data == old(data) && blocks == []
    {
      ok := blocks != [];
      if ok { data, blocks := blocks[0], blocks[1..]; }
    }

    method CutN(want: nat) returns (out: bytes)
      modifies this
      ensures out == Take(old(Rest()), want)
      ensures Rest() == Drop(old(Rest()), want)
      ensures popped == old(popped) + |out|
    {
      out := [];
      var n: nat := want;
      ghost var rest := Rest();
      var more := true;
      while more
        invariant |out| + n == want && popped == old(popped)
        invariant more ==> out + Rest() == rest
        invariant !more ==> out == rest && n > 0 && blocks == []
        decreases |blocks| + if more then 1 else 0
      {
        if |data| >= n {
          CutHere(out, data, Join(blocks), n);
          out := out + data[..n];
          data := data[n..];
          popped := popped + want;
          return;
        }
        Regroup(out, data, Join(blocks));
        out := out + data;
        n := n - |data|;
        more := Next();
      }
      data := [];
      popped := popped + (want - n);
    }

    /** cut_u8 to cut_u64: the bytes of the current block if they suffice, otherwise cutn. */
    method CutUint(width: nat) returns (count: nat, val: nat)
      modifies this
      ensures count == Min(width, |old(Rest())|)
      ensures val == FromBigEndian(Padded(Take(old(Rest()), width), width))
      ensures Rest() == Drop(old(Rest()), width)
      ensures popped == old(popped) + count
    {
      if |data| >= width {
        assert Rest()[..width] == data[..width] && Rest()[width..] == data[width..] + Join(blocks);
        val := FromBigEndian(data[..width]);
        data := data[width..];
        popped := popped + width;
        return width, val;
      }
      var out := CutN(width);
      count := |out|;
      val := FromBigEndian(Padded(out, width));
    }

    method CheckEmptiness() returns (empty: bool)
      modifies this
      ensures Rest() == old(Rest()) && popped == old(popped)
      ensures empty == (old(data) == [] && old(blocks) == [])
    {
      empty := data == [];
      if empty {
        var more := Next();
        empty := !more;
      }
    }
  }

  class AMFOutputStream {
    var buf: bytes             // all memory handed out by the zero-copy stream
    var room: nat              // how much of its end is not written yet
    var blocks: seq<bytes>     // blocks Next() will hand out, with whatever they contain
    var good: bool
    var pushed: nat

    predicate Valid()
      reads this
    {
      room <= |buf|
    }

    function Written(): bytes
      requires Valid()
      reads this
    {
      buf[..|buf| - room]
    }

    function Space(): nat
      reads this
    {
      room + |Join(blocks)|
    }

    constructor (blocks: seq<bytes>)
      ensures Valid() && Written() == [] && Space() == |Join(blocks)| && good && pushed == 0
    {
      this.buf, this.room, this.blocks, this.good, this.pushed := [], 0, blocks, true, 0;
    }

    method Next() returns (ok: bool)
      requires Valid() && room == 0
      modifies this`buf, this`room, this`blocks
      ensures Valid() && Written() == old(Written()) && Space() == old(Space())
      ensures ok == (old(blocks) != []) && |blocks| == |old(blocks)| - if ok then 1 else 0
      ensures !ok ==> room == 0
    {
      ok := blocks != [];
      if ok {
        room := |blocks[0]|;
        buf, blocks := buf + blocks[0], blocks[1..];
      }
    }

    /** Copies into the front of the unwritten memory. */
    method Fill(data: bytes)
      requires Valid() && |data| <= room
      modifies this`buf, this`room
      ensures Valid() && Written() == old(Written()) + data
      ensures room == old(room) - |data|
    {
      var at := |buf| - room;
      buf := buf[..at] + data + buf[at + |data|..];
      room := room - |data|;
    }

    /** Copies the part of data from i to j behind what precedes it. */
    method FillPart(data: bytes, i: nat, j: nat, ghost w: bytes)
      requires Valid() && i <= j <= |data| && j - i <= room && Written() == w + data[..i]
      modifies this`buf, this`room
      ensures Valid() && Written() == w + data[..j] && room == old(room) - (j - i)
    {
      PutFurther(w, data, i, j);
      Fill(data[i..j]);
    }

    method PutN(data: bytes)
      requires Valid()
      modifies this
      ensures Valid()
      ensures Written() == old(Written()) + Take(data, old(Space()))
      ensures Space() == old(Space()) - Min(|data|, old(Space()))
      ensures pushed == old(pushed) + Min(|data|, old(Space()))
      ensures good == (old(good) && |data| <= old(Space()))
    {
      var n: nat := |data|;
      ghost var w := Written();
      var more := true;
      while more
        invariant Valid() && n <= |data| && pushed == old(pushed) && good == old(good)
        invariant Written() == w + data[..|data| - n]
        invariant Space() + |data| - n == old(Space())
        invariant !more ==> n > 0 && room == 0 && blocks == []
        decreases |blocks| + if more then 1 else 0
      {
        var k := |data| - n;
        if n <= room {
          FillPart(data, k, |data|, w);
          pushed := pushed + |data|;
          return;
        }
        n := n - room;
        FillPart(data, k, k + room, w);
        more := Next();
      }
      pushed := pushed + (|data| - n);
      if n != 0 { good := false; }
    }

    method PutU8(val: byte)
      requires Valid()
      modifies this
      ensures Valid()
      ensures Written() == old(Written()) + Take([val], old(Space()))
      ensures Space() == old(Space()) - Min(1, old(Space()))
      ensures pushed == old(pushed) + Min(1, old(Space()))
      ensures good == (old(good) && 1 <= old(Space()))
    {
      var more := true;
      while more
        invariant Valid() && pushed == old(pushed) && good == old(good)
        invariant Written() == old(Written()) && Space() == old(Space())
        invariant !more ==> room == 0 && blocks == []
        decreases |blocks| + if more then 1 else 0
      {
        if room > 0 {
          Fill([val]);
          pushed := pushed + 1;
          return;
        }
        more := Next();
      }
      good := false;
    }

    /** put_u16 to put_u64: the value is cut to the width and written most significant byte first. */
    method PutUint(val: nat, width: nat)
      requires Valid()
      modifies this
      ensures Valid()
      ensures Written() == old(Written()) + Take(BigEndian(val, width), old(Space()))
      ensures Space() == old(Space()) - Min(width, old(Space()))
      ensures pushed == old(pushed) + Min(width, old(Space()))
      ensures good == (old(good) && width <= old(Space()))
    {
      PutN(BigEndian(val, width));
    }

    /** The zero-copy stream then ends exactly after the bytes put. */
    method Done()
      requires Valid()
      modifies this`buf, this`room
      ensures Valid() && Written() == old(Written())
      ensures good ==> buf == Written()
    {
      if good && room > 0 {
        buf := buf[..|buf| - room];
        room := 0;
      }
    }
  }
}
