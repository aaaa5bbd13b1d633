// Files as the services read and write them: bytes and a position.

module ByteFiles {
  newtype Byte = x: int | 0 <= x < 256
  type Bytes = seq<Byte>

  function Take(b: Bytes, n: nat): Bytes { if n <= |b| then b[..n] else b }

  function Drop(b: Bytes, n: nat): Bytes { if n <= |b| then b[n..] else [] }

  // A file opened for reading.
  class Source {
    const data: Bytes
    var pos: nat

    ghost function Rest(): Bytes
      reads this
    {
      Drop(data, pos)
    }

    constructor (bytes: Bytes)
      ensures data == bytes && Rest() == bytes
    {
      data, pos := bytes, 0;
    }

    method Seek(to: nat)
      modifies this
      ensures Rest() == Drop(data, to)
    {
      pos := to;
    }

    // Up to n bytes; none at the end of the file.
    method Read(n: nat) returns (b: Bytes)
      modifies this
      ensures b == Take(old(Rest()), n) && Rest() == Drop(old(Rest()), n)
    {
      b := [];
      if pos < |data| {
        var end := if pos + n <= |data| then pos + n else |data|;
        b := data[pos..end];
        pos := end;
      }
    }
  }

  // A file opened for writing.
  class Sink {
    var data: Bytes

    constructor ()
      ensures data == []
    {
      data := [];
    }

    method Write(b: Bytes)
      modifies this
      ensures data == old(data) + b
    {
      data := data + b;
    }
  }
}
