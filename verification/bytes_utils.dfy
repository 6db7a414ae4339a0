/** Writing a value into a byte vector and reading it back: the bytes of the value
    go in reversed, lengths are 32-bit numbers, and the vector grows as needed. */
module BytesUtils {
  import opened Common
  import opened StorageEngine

  const TWO_32: nat := 0x1_0000_0000

  // ---- What a write and a read are ----

  function Resized(data: Bytes, len: nat): Bytes {
    if len <= |data| then data[..len] else data + seq(len - |data|, _ => 0)
  }

  function Reversed(val: Bytes): (r: Bytes)
    ensures |r| == |val| && forall i :: 0 <= i < |val| ==> r[i] == val[|val| - 1 - i]
  {
    seq(|val|, i requires 0 <= i < |val| => val[|val| - 1 - i])
  }

  function PutNumOp(data: Bytes, val: Bytes, offset: nat): Bytes {
    var len := |val| + offset;
    var roomy := if len > |data| then Resized(data, len) else data;
    roomy[..offset] + Reversed(val) + roomy[len..]
  }

  /** The size of the vector is cut to 32 bits before it is compared. */
  function GetNumOp(data: Bytes, offset: nat, valLen: nat): (Status, Bytes)
    requires offset + valLen < TWO_32
  {
    if |data| % TWO_32 < offset + valLen then (ERR_DATA_LEN, [])
    else (SUCCESS, Reversed(data[offset..offset + valLen]))
  }

  lemma PutNumIs(data: Bytes, roomy: Bytes, val: Bytes, offset: nat)
    requires roomy == if |val| + offset > |data| then Resized(data, |val| + offset) else data
    ensures |val| + offset <= |roomy|
    ensures PutNumOp(data, val, offset) == roomy[..offset] + Reversed(val) + roomy[offset + |val|..]
  {
  }

  lemma Overwritten(data: Bytes, roomy: Bytes, val: Bytes, offset: nat)
    requires offset + |val| <= |data| == |roomy|
    requires forall j :: 0 <= j < |data| ==>
      data[j] == if offset <= j < offset + |val| then val[|val| - 1 - (j - offset)] else roomy[j]
    ensures data == roomy[..offset] + Reversed(val) + roomy[offset + |val|..]
  {
    hide Reversed;
  }

  // ---- What they promise together ----

  lemma ReversedTwice(val: Bytes)
    ensures Reversed(Reversed(val)) == val
  {
  }

  /** A write touches nothing outside its range, where the value goes from its last byte to
      its first; a gap before it is filled with zeros. */
  lemma PutNumFrame(data: Bytes, val: Bytes, offset: nat, i: nat)
    ensures var after := PutNumOp(data, val, offset);
            && |after| == (if |val| + offset > |data| then |val| + offset else |data|)
            && (i < |after| && !(offset <= i < offset + |val|) ==> after[i] == if i < |data| then data[i] else 0)
            && (offset <= i < offset + |val| ==> after[i] == val[|val| - 1 - (i - offset)])
  {
  }

  /** A read gives the bytes of its range from the last to the first. */
  lemma GetNumBytes(data: Bytes, offset: nat, valLen: nat, i: nat)
    requires offset + valLen < TWO_32 && i < valLen
    ensures var (status, val) := GetNumOp(data, offset, valLen);
            && (status == SUCCESS <==> |data| % TWO_32 >= offset + valLen)
            && (status == SUCCESS ==> |val| == valLen && val[i] == data[offset + valLen - 1 - i])
            && (status != SUCCESS ==> status == ERR_DATA_LEN)
  {
  }

  /** Reading what was written gives it back, as long as the size fits 32 bits. */
  lemma PutThenGet(data: Bytes, val: Bytes, offset: nat)
    requires offset + |val| < TWO_32
    ensures var after := PutNumOp(data, val, offset);
            GetNumOp(after, offset, |val|)
            == if |after| % TWO_32 < offset + |val| then (ERR_DATA_LEN, []) else (SUCCESS, val)
  {
    var after := PutNumOp(data, val, offset);
    assert after[offset..offset + |val|] == Reversed(val);
    ReversedTwice(val);
  }

  /** Two writes to ranges apart do not disturb each other. */
  lemma PutApart(data: Bytes, val: Bytes, offset: nat, other: Bytes, at: nat)
    requires at + |other| <= offset || offset + |val| <= at
    requires at + |other| <= |data| && at + |other| < TWO_32
    requires |PutNumOp(data, val, offset)| < TWO_32
    ensures GetNumOp(PutNumOp(data, val, offset), at, |other|) == GetNumOp(data, at, |other|)
  {
    hide PutNumOp;
    var after := PutNumOp(data, val, offset);
    PutNumFrame(data, val, offset, 0);
    forall i | at <= i < at + |other| ensures after[i] == data[i] {
      PutNumFrame(data, val, offset, i);
    }
    assert after[at..at + |other|] == data[at..at + |other|];
  }

  // ---- The loops ----

  /** A byte vector, changed in place. */
  class Buffer {
    var data: Bytes

    constructor ()
      ensures data == []
    {
      data := [];
    }

    constructor Of(data: Bytes)
      ensures this.data == data
    {
      this.data := data;
    }

    /** The sum of offset and length must not wrap, or the loop would leave the vector. */
    method PutNum(val: Bytes, offset: nat)
      requires offset + |val| < TWO_32
      modifies this
      ensures data == PutNumOp(old(data), val, offset)
    {
      var len := (|val| + offset) % TWO_32;
      if len > |data| {
        data := Resized(data, len);
      }
      ghost var roomy := data;
      hide Resized, Reversed, PutNumOp;
      var i := 0;
      while i < |val|
        invariant 0 <= i <= |val| && |data| == |roomy|
        invariant forall j :: 0 <= j < |data| ==>
          data[j] == if offset <= j < offset + i then val[|val| - 1 - (j - offset)] else roomy[j]
      {
        data := data[offset + i := val[|val| - i - 1]];
        i := i + 1;
      }
      Overwritten(data, roomy, val, offset);
      PutNumIs(old(data), roomy, val, offset);
    }

    /** Writes through `value` on success and not at all otherwise. */
    method GetNum(offset: nat, value: array<byte>) returns (status: Status)
      requires offset + value.Length < TWO_32
      modifies value
      ensures var r := GetNumOp(data, offset, value.Length);
              status == r.0 && value[..] == if status == SUCCESS then r.1 else old(value[..])
    {
      var len := (offset + value.Length) % TWO_32;
      var dataLen := |data| % TWO_32;
      if dataLen < len {
        return ERR_DATA_LEN;
      }
      assert |data| >= dataLen;
      for i := 0 to value.Length
        invariant forall j :: 0 <= j < i ==> value[j] == data[len - 1 - j]
      {
        value[i] := data[len - 1 - i];
      }
      assert value[..] == Reversed(data[offset..len]);
      return SUCCESS;
    }

    method Append(tail: Bytes)
      modifies this
      ensures data == old(data) + tail
    {
      data := data + tail;
    }
  }
}
