/** The record list of list.rs: fixed-size slots in the bytes of an account, behind an 8 byte
    discriminator, with the count kept elsewhere. Over those bytes it is a sequence with swap-remove. */
module RecordList {
  import opened Base
  import opened Calc
  import opened Model

  newtype byte = x: int | 0 <= x < 256

  const HEADER: nat := 8

  /** How records are written. A record is read back from the start of its slot, whatever follows. */
  datatype Codec<!T> = Codec(encode: T -> seq<byte>, decode: seq<byte> -> Option<T>)

  ghost predicate Lawful<T(!new)>(codec: Codec<T>) {
    forall t, tail {:trigger codec.decode(codec.encode(t) + tail)} :: codec.decode(codec.encode(t) + tail) == Some(t)
  }

  class List<T(!new)> {
    const codec: Codec<T>
    const itemSize: nat
    var count: nat
    var data: array<byte>
    ghost var items: seq<T>

    ghost predicate Valid()
      reads this, data
    {
      && Lawful(codec)
      && count <= U32_MAX
      && Start(count) <= data.Length
      && Start(count) <= HEADER + U32_MAX
      && |items| == count
      && forall i :: 0 <= i < count ==> Holds(data[..], i, items[i])
    }

    /** Where slot `i` starts: after the header and `i` slots. */
    ghost function Start(i: nat): (start: nat)
      ensures start >= HEADER
    {
      if i == 0 then HEADER else Start(i - 1) + itemSize
    }

    lemma {:induction false} StartIsProduct(i: nat)
      ensures Start(i) == HEADER + i * itemSize
    {
      if i > 0 {
        StartIsProduct(i - 1);
        Distribute(i, 1, itemSize);
      }
    }

    /** The slot at `i` begins with the bytes of `item`. */
    ghost predicate Holds(bytes: seq<byte>, i: nat, item: T) {
      && Start(i) + itemSize <= |bytes|
      && |codec.encode(item)| <= itemSize
      && bytes[Start(i)..Start(i) + |codec.encode(item)|] == codec.encode(item)
    }

    lemma SlotsAreApart(i: nat, j: nat)
      requires i != j
      ensures Start(i) + itemSize <= Start(j) || Start(j) + itemSize <= Start(i)
    {
      if i < j {
        SlotInside(i, j);
      } else {
        SlotInside(j, i);
      }
    }

    /** Slots outside the written one hold what they held. */
    lemma HoldsFrame(before: seq<byte>, after: seq<byte>, written: nat, i: nat, item: T)
      requires i != written && Holds(before, i, item) && |before| == |after|
      requires forall k :: 0 <= k < |before| && !(Start(written) <= k < Start(written) + itemSize) ==>
                 after[k] == before[k]
      ensures Holds(after, i, item)
    {
      SlotsAreApart(i, written);
    }

    /** Takes over an account that is long enough for the header and not in use yet. */
    constructor (codec: Codec<T>, itemSize: nat, data: array<byte>)
      requires Lawful(codec) && data.Length >= HEADER
      ensures Valid() && items == [] && this.data == data && this.itemSize == itemSize && this.codec == codec
    {
      this.codec, this.itemSize, this.data := codec, itemSize, data;
      count := 0;
      items := [];
    }

    /** A list of `n` records ends inside the account. */
    ghost predicate Fits(n: nat)
      reads this`data
    {
      Start(n) <= data.Length
    }

    /** How many slots the account has; None when it is shorter than its header or its size does not
        fit u32. A record of no bytes fits any number of times. */
    method Capacity() returns (r: Option<nat>)
      ensures r.Some? <==> HEADER <= data.Length <= HEADER + U32_MAX
      ensures r.Some? ==> r.value <= U32_MAX
      ensures r.Some? ==> forall n: nat :: n <= U32_MAX ==> (n <= r.value <==> Fits(n))
    {
      if data.Length < HEADER || data.Length - HEADER > U32_MAX {
        return None;
      }
      if itemSize == 0 {
        r := Some(U32_MAX);
      } else {
        r := Some((data.Length - HEADER) / itemSize);
        SlotsBelow(data.Length - HEADER);
      }
      forall n: nat | n <= U32_MAX ensures n <= r.value <==> Fits(n) {
        SlotsFit(data.Length - HEADER, n);
      }
    }

    lemma SlotsBelow(room: nat)
      requires itemSize > 0
      ensures room / itemSize <= room
    {
      var q := room / itemSize;
      Floor(room, itemSize);
      MulMono(1, itemSize, q);
    }

    lemma SlotsFit(room: nat, n: nat)
      ensures itemSize > 0 ==> (n <= room / itemSize <==> Start(n) <= HEADER + room)
      ensures itemSize == 0 ==> Start(n) == HEADER
    {
      StartIsProduct(n);
      if itemSize > 0 {
        FloorIsGreatest(room, itemSize, n);
      }
    }

    method Get(index: nat) returns (r: Option<T>)
      requires Valid()
      ensures r == if index < count then Some(items[index]) else None
    {
      if index >= count {
        return None;
      }
      var start := HEADER + index * itemSize;
      StartIsProduct(index);
      assert Holds(data[..], index, items[index]);
      var slot := data[start..start + itemSize];
      ghost var bytes := codec.encode(items[index]);
      assert slot == bytes + slot[|bytes|..];
      r := codec.decode(slot);
    }

    /** Overwrites one slot and no byte outside it. */
    method Set(index: nat, item: T) returns (ok: bool)
      requires Valid()
      modifies this`items, data
      ensures Valid() && data == old(data)
      ensures ok <==> index < count && |codec.encode(item)| <= itemSize
      ensures items == if ok then old(items)[index := item] else old(items)
      ensures forall k :: 0 <= k < data.Length && !(ok && Start(index) <= k < Start(index) + itemSize) ==>
                data[k] == old(data[k])
    {
      var bytes := codec.encode(item);
      if index >= count || |bytes| > itemSize {
        return false;
      }
      SlotInside(index, count);
      Write(index, item);
      return true;
    }

    lemma {:induction false} SlotInside(i: nat, n: nat)
      requires i < n
      ensures Start(i) + itemSize <= Start(n)
      decreases n
    {
      if i < n - 1 {
        SlotInside(i, n - 1);
      }
    }

    /** Writes a record at the start of slot `index`, one past the last included. */
    method Write(index: nat, item: T)
      requires Valid() && index <= count
      requires Start(index) + itemSize <= data.Length && |codec.encode(item)| <= itemSize
      modifies this`items, data
      ensures data == old(data) && count == old(count)
      ensures items == if index < count then old(items)[index := item] else old(items)
      ensures Holds(data[..], index, item) && (index < count ==> Valid())
      ensures forall i :: 0 <= i < count && i != index ==> Holds(data[..], i, old(items)[i])
      ensures forall k :: 0 <= k < data.Length && !(Start(index) <= k < Start(index) + itemSize) ==>
                data[k] == old(data[k])
    {
      ghost var before := data[..];
      var bytes := codec.encode(item);
      var start := HEADER + index * itemSize;
      StartIsProduct(index);
      forall k | 0 <= k < |bytes| {
        data[start + k] := bytes[k];
      }
      assert data[..][start..start + |bytes|] == bytes;
      forall i | 0 <= i < count && i != index ensures Holds(data[..], i, items[i]) {
        HoldsFrame(before, data[..], index, i, items[i]);
      }
      if index < count {
        items := items[index := item];
      }
    }

    /** Appends a record, an error when the account is full. */
    method Push(item: T) returns (ok: bool)
      requires Valid()
      modifies this`count, this`items, data
      ensures Valid() && data == old(data)
      ensures ok <==> && HEADER <= data.Length <= HEADER + U32_MAX && old(count) + 1 <= U32_MAX
                      && Start(old(count) + 1) <= data.Length
                      && |codec.encode(item)| <= itemSize
      ensures items == if ok then old(items) + [item] else old(items)
      ensures forall k :: 0 <= k < data.Length && !(ok && Start(old(count)) <= k < Start(old(count)) + itemSize) ==>
                data[k] == old(data[k])
    {
      var capacity := Capacity();
      var bytes := codec.encode(item);
      if capacity.None? || count >= capacity.value || |bytes| > itemSize {
        assert capacity.Some? && count + 1 <= U32_MAX ==> (count + 1 <= capacity.value <==> Fits(count + 1));
        return false;
      }
      assert Fits(count + 1);
      SlotInside(count, count + 1);
      Write(count, item);
      items := items + [item];
      count := count + 1;
      return true;
    }

    /** Slot `to` of `after` has the bytes of slot `from` of `before`; the other bytes stayed. */
    ghost predicate Copied(before: seq<byte>, after: seq<byte>, from: nat, to: nat) {
      && |before| == |after| && Start(from) + itemSize <= |before| && Start(to) + itemSize <= |after|
      && after[Start(to)..Start(to) + itemSize] == before[Start(from)..Start(from) + itemSize]
      && (forall k :: 0 <= k < |before| && !(Start(to) <= k < Start(to) + itemSize) ==> after[k] == before[k])
    }

    /** A copied slot holds what its original held. */
    lemma HoldsCopy(before: seq<byte>, after: seq<byte>, from: nat, to: nat, item: T)
      requires Copied(before, after, from, to) && Holds(before, from, item)
      ensures Holds(after, to, item)
    {
      var bytes := codec.encode(item);
      forall k | 0 <= k < |bytes| ensures after[Start(to) + k] == bytes[k] {
        assert after[Start(to) + k] == after[Start(to)..Start(to) + itemSize][k];
        assert before[Start(from) + k] == before[Start(from)..Start(from) + itemSize][k];
        assert before[Start(from) + k] == before[Start(from)..Start(from) + |bytes|][k];
      }
      assert after[Start(to)..Start(to) + |bytes|] == bytes;
    }

    /** With the last slot copied onto slot `index` all but the last hold a swap-removed sequence. */
    lemma CopiedLast(before: seq<byte>, after: seq<byte>, items: seq<T>, index: nat)
      requires index + 1 < |items| && Copied(before, after, |items| - 1, index)
      requires forall i :: 0 <= i < |items| ==> Holds(before, i, items[i])
      ensures forall i :: 0 <= i < |items| - 1 ==> Holds(after, i, SwapRemove(items, index)[i])
    {
      var left := SwapRemove(items, index);
      forall i | 0 <= i < |items| - 1 ensures Holds(after, i, left[i]) {
        if i == index {
          HoldsCopy(before, after, |items| - 1, index, items[|items| - 1]);
        } else {
          HoldsFrame(before, after, index, i, items[i]);
        }
      }
    }

    /** copy_within of a range onto one that does not overlap it. */
    method CopyWithin(from: nat, to: nat, n: nat)
      requires from + n <= data.Length && to + n <= data.Length && (from + n <= to || to + n <= from)
      modifies data
      ensures data[..][to..to + n] == old(data[..])[from..from + n]
      ensures forall k :: 0 <= k < data.Length && !(to <= k < to + n) ==> data[..][k] == old(data[..])[k]
    {
      forall k | 0 <= k < n {
        data[to + k] := data[from + k];
      }
    }

    method CopySlot(from: nat, to: nat)
      requires Start(from) + itemSize <= data.Length && Start(to) + itemSize <= data.Length
      requires Start(from) + itemSize <= Start(to) || Start(to) + itemSize <= Start(from)
      modifies data
      ensures Copied(old(data[..]), data[..], from, to)
    {
      StartIsProduct(from);
      StartIsProduct(to);
      CopyWithin(HEADER + from * itemSize, HEADER + to * itemSize, itemSize);
    }

    /** The last record takes the place of another one. */
    method CopyLast(index: nat)
      requires Valid() && index + 1 < count
      modifies data
      ensures forall i :: 0 <= i < count - 1 ==> Holds(data[..], i, SwapRemove(items, index)[i])
      ensures forall k :: 0 <= k < data.Length && !(Start(index) <= k < Start(index) + itemSize) ==>
                data[k] == old(data[k])
    {
      SlotInside(index, count);
      SlotInside(count - 1, count);
      SlotsAreApart(index, count - 1);
      ghost var before := data[..];
      CopySlot(count - 1, index);
      CopiedLast(before, data[..], items, index);
      assert forall k :: 0 <= k < data.Length ==> data[..][k] == data[k];
    }

    /** Removes a record: the last one takes its slot. */
    method Remove(index: nat) returns (ok: bool)
      requires Valid()
      modifies this`count, this`items, data
      ensures Valid() && data == old(data)
      ensures ok <==> index < old(count)
      ensures items == if ok then SwapRemove(old(items), index) else old(items)
      ensures forall k :: 0 <= k < data.Length && !(ok && Start(index) <= k < Start(index) + itemSize) ==>
                data[k] == old(data[k])
    {
      if index >= count {
        return false;
      }
      if index != count - 1 {
        CopyLast(index);
      } else {
        forall i | 0 <= i < count - 1 ensures Holds(data[..], i, SwapRemove(items, index)[i]) {
          assert SwapRemove(items, index)[i] == items[i];
        }
      }
      SlotInside(count - 1, count);
      items := SwapRemove(items, index);
      count := count - 1;
      return true;
    }

    lemma StartGrows(i: nat, n: nat)
      requires i <= n
      ensures Start(i) <= Start(n)
    {
      if i < n {
        SlotInside(i, n);
      }
    }

    /** Reallocation to `capacity` slots, an error below the count. The bytes of new slots are
        whatever the runtime leaves there. */
    method Realloc(capacity: nat, fill: seq<byte>) returns (ok: bool)
      requires Valid() && |fill| == capacity * itemSize && capacity * itemSize <= U32_MAX
      modifies this`data
      ensures Valid() && items == old(items) && count == old(count)
      ensures ok <==> capacity >= count
      ensures if ok then fresh(data) && data.Length == HEADER + capacity * itemSize else data == old(data)
    {
      if capacity < count {
        return false;
      }
      var bytes := new byte[HEADER + capacity * itemSize];
      StartIsProduct(capacity);
      StartGrows(count, capacity);
      forall k | 0 <= k < bytes.Length {
        bytes[k] := if k < data.Length then data[k] else fill[k - HEADER];
      }
      forall i | 0 <= i < count ensures Holds(bytes[..], i, items[i]) {
        SlotInside(i, count);
        assert Holds(data[..], i, items[i]);
      }
      data := bytes;
      return true;
    }
  }
}
