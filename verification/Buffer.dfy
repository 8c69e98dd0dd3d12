/** The read/write-pointer byte buffer of the message server, as a plain byte queue. */
module ByteBuffer {
  import opened Bytes

  const INIT_BUFFER_SIZE: nat := 4096

  class Buffer {
    var data: array<byte>
    var readPos: nat
    var writePos: nat
    /** Every byte ever written, and how many of them have been consumed. */
    ghost var written: seq<byte>
    ghost var consumed: nat

    ghost predicate Valid()
      reads this, data
    {
      && readPos <= writePos <= data.Length
      && consumed <= |written|
      && data[readPos..writePos] == written[consumed..]
    }

    /** The unread region. */
    ghost function Contents(): (s: seq<byte>)
      requires Valid()
      reads this, data
      ensures s == written[consumed..]
    {
      data[readPos..writePos]
    }

    constructor (size: nat := INIT_BUFFER_SIZE)
      ensures Valid() && fresh(data)
      ensures data.Length == size && written == [] && consumed == 0
    {
      data := new byte[size](_ => 0);
      readPos, writePos := 0, 0;
      written, consumed := [], 0;
    }

    function ReadableSize(): nat
      requires Valid()
      reads this, data
    {
      writePos - readPos
    }

    function WritableSize(): nat
      requires Valid()
      reads this, data
    {
      data.Length - writePos
    }

    method MoveReadPos(size: nat)
      requires Valid() && size <= ReadableSize()
      modifies this`readPos, this`consumed
      ensures Valid() && written == old(written) && consumed == old(consumed) + size
      ensures Contents() == old(Contents())[size..]
    {
      readPos := readPos + size;
      consumed := consumed + size;
    }

    /** Moves the unread bytes to the front; source and target may overlap. */
    method Normalize()
      requires Valid()
      modifies this`readPos, this`writePos, data
      ensures Valid() && Contents() == old(Contents())
      ensures readPos == 0
    {
      if readPos != 0 {
        if readPos != writePos {
          forall i | 0 <= i < writePos - readPos {
            data[i] := data[readPos + i];
          }
        }
        writePos := writePos - readPos;
        readPos := 0;
      }
    }

    method ExpandIfNeed(size: nat)
      requires Valid()
      modifies this`data, this`readPos, this`writePos, data
      ensures Valid() && Contents() == old(Contents())
      ensures WritableSize() >= size
      ensures data == old(data) || fresh(data)
      ensures data.Length >= old(data.Length)
    {
      if WritableSize() < size {
        Normalize();
        if WritableSize() < size {
          var old' := data;
          var capacity := if 2 * old'.Length > writePos + size then 2 * old'.Length else writePos + size;
          data := new byte[capacity](i requires 0 <= i < capacity reads old' => if i < old'.Length then old'[i] else 0);
          assert data[readPos..writePos] == old'[readPos..writePos];
        }
      }
    }

    /** Appends bytes behind the unread region, compacting or growing the store as needed. */
    method Write(bytes: seq<byte>)
      requires Valid()
      modifies this, data
      ensures Valid() && (data == old(data) || fresh(data))
      ensures written == old(written) + bytes && consumed == old(consumed)
      ensures Contents() == old(Contents()) + bytes
    {
      if |bytes| == 0 {
        assert written + bytes == written && Contents() + bytes == Contents();
        return;
      }
      ExpandIfNeed(|bytes|);
      ghost var unread := Contents();
      forall i | 0 <= i < |bytes| {
        data[writePos + i] := bytes[i];
      }
      writePos := writePos + |bytes|;
      written := written + bytes;
      assert data[readPos..writePos] == unread + bytes;
    }
  }
}
