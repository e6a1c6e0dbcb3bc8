/** The hardware stack in page 1: a run of pushes followed by as many pops
    returns the pushed bytes in reverse order and restores SP, as long as no
    more than 256 bytes are pushed. JSR/RTS, BRK/RTI, PHA/PLA and PHP/PLP are
    all instances of this. */
module Stack {
  import opened Bytes
  import opened Semantics

  /** The address `0x0100 | s` of stack slot `s`. */
  function Slot(s: byte): word
  {
    StackBase + s as word
  }

  /** Slot `s` lies in page 1 at offset `s`. */
  lemma SlotBytes(s: byte)
    ensures Hi(Slot(s)) == 1 && Lo(Slot(s)) == s
  {
  }

  /** Whether `addr` is one of the `n` slots written by `n` pushes starting at
      SP = `sp`: the slots `sp`, `sp - 1`, ..., `sp - n + 1` modulo 256. */
  predicate Pushed(sp: byte, n: nat, addr: word)
  {
    Hi(addr) == 1 && Wrap8(sp as int - Lo(addr) as int) as int < n
  }

  /** `n` consecutive `push_stack` calls. SP moves down by `n` modulo 256 and
      no register changes; `PushAllSlots` and `PushAllFrame` say what memory holds. */
  function PushAll(m: Machine, vs: seq<byte>): (r: Machine)
    requires |vs| <= 0x100
    ensures r.sp == Wrap8(m.sp as int - |vs|)
    ensures r == m.(sp := r.sp, mem := r.mem)
    decreases |vs|
  {
    if |vs| == 0 then m
    else
      var r := PushAll(Push(m, vs[0]), vs[1..]);
      Wrap8Shift(m.sp, -1, -(|vs| - 1));
      r
  }

  /** After the pushes, the i-th pushed byte sits in slot SP - i. */
  lemma {:induction false} PushAllSlots(m: Machine, vs: seq<byte>, i: nat)
    requires |vs| <= 0x100 && i < |vs|
    ensures Read(PushAll(m, vs), Slot(Wrap8(m.sp as int - i))) == vs[i]
    decreases |vs|
  {
    if i == 0 {
      PushAllFirstSlot(m, vs);
    } else {
      var first := Push(m, vs[0]);
      assert first.sp == Wrap8(m.sp as int - 1);
      Wrap8Shift(m.sp, -1, -(i - 1));
      PushAllSlots(first, vs[1..], i - 1);
    }
  }

  /** The first byte pushed stays in slot SP: the later pushes, at most 255 of
      them, write the slots below it. */
  lemma PushAllFirstSlot(m: Machine, vs: seq<byte>)
    requires 0 < |vs| <= 0x100
    ensures Read(PushAll(m, vs), Slot(m.sp)) == vs[0]
  {
    var first := Push(m, vs[0]);
    var rest := PushAll(first, vs[1..]);
    assert Read(first, Slot(m.sp)) == vs[0];
    assert first.sp == Wrap8(m.sp as int - 1);
    SlotAboveNotPushed(m.sp, |vs| - 1);
    PushAllFrame(first, vs[1..], Slot(m.sp));
  }

  /** Slot `sp` is not among the (at most 255) slots pushed from `sp - 1` down. */
  lemma SlotAboveNotPushed(sp: byte, n: nat)
    requires n <= 0xFF
    ensures !Pushed(Wrap8(sp as int - 1), n, Slot(sp))
  {
    SlotBytes(sp);
    Wrap8Shift(sp, -1, -(sp as int));
    assert Wrap8(-1) == 0xFF;
  }

  /** The pushes change no memory outside the slots they write. */
  lemma {:induction false} PushAllFrame(m: Machine, vs: seq<byte>, addr: word)
    requires |vs| <= 0x100 && !Pushed(m.sp, |vs|, addr)
    ensures Read(PushAll(m, vs), addr) == Read(m, addr)
    decreases |vs|
  {
    if |vs| > 0 {
      var first := Push(m, vs[0]);
      assert first.sp == Wrap8(m.sp as int - 1);
      NotPushedBelow(m.sp, |vs|, addr);
      PushAllFrame(first, vs[1..], addr);
    }
  }

  /** An address outside the `n` slots pushed from `sp` is not slot `sp`, and
      is outside the `n - 1` slots pushed from `sp - 1`. */
  lemma NotPushedBelow(sp: byte, n: nat, addr: word)
    requires 0 < n && !Pushed(sp, n, addr)
    ensures addr != Slot(sp) && !Pushed(Wrap8(sp as int - 1), n - 1, addr)
  {
    SlotBytes(sp);
    Wrap8Shift(sp, -1, -(Lo(addr) as int));
  }

  datatype PoppedAll = PoppedAll(m: Machine, values: seq<byte>)

  /** `n` consecutive `pop_stack` calls: SP moves up by `n` modulo 256 and
      nothing else changes; `PopAllValues` says which bytes come back. */
  function PopAll(m: Machine, n: nat): (r: PoppedAll)
    requires n <= 0x100
    ensures |r.values| == n
    ensures r.m.sp == Wrap8(m.sp as int + n)
    ensures r.m == m.(sp := r.m.sp)
    decreases n
  {
    if n == 0 then PoppedAll(m, [])
    else
      var first := Pop(m);
      var rest := PopAll(first.m, n - 1);
      Wrap8Shift(m.sp, 1, n - 1);
      PoppedAll(rest.m, [first.value] + rest.values)
  }

  /** The j-th popped byte is the one in slot SP + 1 + j. */
  lemma {:induction false} PopAllValues(m: Machine, n: nat, j: nat)
    requires j < n <= 0x100
    ensures PopAll(m, n).values[j] == Read(m, Slot(Wrap8(m.sp as int + 1 + j)))
    decreases n
  {
    if j > 0 {
      var first := Pop(m);
      PopAllValues(first.m, n - 1, j - 1);
      Wrap8Shift(m.sp, 1, j);
    }
  }

  function Reverse(s: seq<byte>): (r: seq<byte>)
    ensures |r| == |s|
    ensures forall j :: 0 <= j < |s| ==> r[j] == s[|s| - 1 - j]
  {
    seq(|s|, j requires 0 <= j < |s| => s[|s| - 1 - j])
  }

  /** The j-th byte popped after pushing `vs` is the j-th from the end of `vs`. */
  lemma PushThenPopAt(m: Machine, vs: seq<byte>, j: nat)
    requires |vs| <= 0x100 && j < |vs|
    ensures PopAll(PushAll(m, vs), |vs|).values[j] == vs[|vs| - 1 - j]
  {
    var pushed := PushAll(m, vs);
    PopAllValues(pushed, |vs|, j);
    Wrap8Shift(m.sp, -|vs|, 1 + j);
    PushAllSlots(m, vs, |vs| - 1 - j);
  }

  /** Popping as many bytes as were pushed gives them back last-in first-out
      and restores SP, for up to 256 bytes (one full turn of the stack page);
      by `PopAll`'s contract nothing else changes. */
  lemma PushThenPopAll(m: Machine, vs: seq<byte>)
    requires |vs| <= 0x100
    ensures PopAll(PushAll(m, vs), |vs|).values == Reverse(vs)
    ensures PopAll(PushAll(m, vs), |vs|).m.sp == m.sp
  {
    var pushed := PushAll(m, vs);
    PushThenPopValues(m, vs);
    SpBack(m.sp, pushed.sp, |vs|);
  }

  lemma PushThenPopValues(m: Machine, vs: seq<byte>)
    requires |vs| <= 0x100
    ensures PopAll(PushAll(m, vs), |vs|).values == Reverse(vs)
  {
    var r := PopAll(PushAll(m, vs), |vs|);
    forall j | 0 <= j < |vs|
      ensures r.values[j] == Reverse(vs)[j]
    {
      PushThenPopAt(m, vs, j);
    }
  }

  lemma SpBack(sp: byte, down: byte, n: int)
    requires 0 <= n <= 0x100
    requires down == Wrap8(sp as int - n)
    ensures Wrap8(down as int + n) == sp
  {
    Wrap8Shift(sp, -n, n);
  }

  /** Three pushes in a row are `PushAll` of the three bytes, first pushed first. */
  lemma PushThree(m: Machine, a: byte, b: byte, c: byte)
    ensures PushAll(m, [a, b, c]) == Push(Push(Push(m, a), b), c)
  {
    var m1 := Push(m, a);
    var m2 := Push(m1, b);
    assert [a, b, c][1..] == [b, c];
    assert PushAll(m, [a, b, c]) == PushAll(m1, [b, c]);
    assert [b, c][1..] == [c];
    assert PushAll(m1, [b, c]) == PushAll(m2, [c]);
    assert [c][1..] == [];
    assert PushAll(m2, [c]) == PushAll(Push(m2, c), []);
  }

  /** A single push and pop. */
  lemma PushThenPop(m: Machine, v: byte)
    ensures Pop(Push(m, v)) == Popped(Push(m, v).(sp := m.sp), v)
  {
    assert Push(m, v).sp == Wrap8(m.sp as int - 1);
    Wrap8Shift(m.sp, -1, 1);
  }

  /** The push at SP = 0 writes 0x0100 and leaves SP = 0xFF, and the pop at
      SP = 0xFF reads 0x0100 and leaves SP = 0: the stack wraps inside page 1.
      These are the two points at which the Rust `sp -= 1` / `sp += 1` panic in
      a debug build, while the C++ `sp--` / `++sp` wrap. */
  lemma StackWrapsAtPageEdges(m: Machine, v: byte)
    ensures m.sp == 0 ==> Read(Push(m, v), 0x0100) == v && Push(m, v).sp == 0xFF
    ensures m.sp == 0xFF ==> Pop(m).value == Read(m, 0x0100) && Pop(m).m.sp == 0
  {
  }
}
