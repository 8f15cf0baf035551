/** `loadFile`: reading a local file into a byte array of its declared
    length through an `InputStream`. The file system is an input: a file is
    missing, or present with the length `File.length()` reports and the
    bytes a stream opened on it delivers (the two may disagree when the file
    changes underneath, or for special files). */
module FileLoad {
  import opened Java

  datatype LocalFile = Missing | Present(length: nat, content: seq<byte>)

  /** The exceptions `loadFile` can end with. */
  datatype IOException =
    | FileNotFound     // thrown by the `FileInputStream` constructor
    | IncompleteRead   // "Could not completely read file ..."

  /** How `loadFile` ends: the filled array, `null` for a file too long for
      a Java array, or an exception. */
  datatype Loaded = Bytes(buffer: array<byte>) | Null | Thrown(error: IOException)

  /** A `FileInputStream` over the content of a file. How many bytes one
      `read` delivers is up to the platform: any number from one to what was
      asked for and is left; at the end of the stream it is -1. */
  class FileInputStream {
    const content: seq<byte>
    var pos: nat
    var open: bool

    ghost predicate Valid()
      reads this
    {
      pos <= |content|
    }

    constructor (content: seq<byte>)
      ensures Valid() && open
      ensures this.content == content && pos == 0
    {
      this.content := content;
      pos := 0;
      open := true;
    }

    /** `read(b, off, len)`: copies the next bytes of the stream into
        `b[off..]` and returns their number, or -1 at the end of the stream;
        nothing else of `b` changes. */
    method Read(b: array<byte>, off: nat, len: nat) returns (n: int)
      requires Valid() && open
      requires off + len <= b.Length
      modifies this, b
      ensures Valid() && open
      ensures len == 0 ==> n == 0 && pos == old(pos) && b[..] == old(b[..])
      ensures len > 0 && old(pos) == |content| ==> n == -1 && pos == old(pos) && b[..] == old(b[..])
      ensures len > 0 && old(pos) < |content| ==>
                1 <= n <= len && pos == old(pos) + n &&
                b[..] == old(b[..off]) + content[old(pos)..pos] + old(b[off + n..])
    {
      if len == 0 {
        n := 0;
      } else if pos == |content| {
        n := -1;
      } else {
        var available := if len < |content| - pos then len else |content| - pos;
        n :| 1 <= n <= available;
        ghost var before := b[..];
        forall i | off <= i < off + n {
          b[i] := content[pos + (i - off)];
        }
        assert b[..] == before[..off] + content[pos..pos + n] + before[off + n..];
        pos := pos + n;
      }
    }

    method Close()
      modifies this
      ensures !open && pos == old(pos)
    {
      open := false;
    }
  }

  /** `loadFile`: on a normal return the array has exactly `file.length()`
      elements and they are the first that many bytes of the file; `null`
      when that length is over `Integer.MAX_VALUE`; an `IOException` when
      the file is missing or its stream ends before the array is full, so
      that a partial buffer never escapes. */
  method LoadFile(file: LocalFile) returns (r: Loaded)
    ensures file.Missing? ==> r == Thrown(FileNotFound)
    ensures file.Present? && file.length > INTEGER_MAX_VALUE ==> r == Null
    ensures file.Present? && file.length <= INTEGER_MAX_VALUE && |file.content| < file.length ==>
              r == Thrown(IncompleteRead)
    ensures file.Present? && file.length <= INTEGER_MAX_VALUE && file.length <= |file.content| ==>
              r.Bytes? && r.buffer.Length == file.length && r.buffer[..] == file.content[..file.length]
  {
    if file.Missing? {
      return Thrown(FileNotFound);
    }
    var stream := new FileInputStream(file.content);
    var length := file.length;
    if length > INTEGER_MAX_VALUE {
      return Null;
    }
    var bytes := new byte[length];
    var offset := 0;
    var numRead := 0;
    var endOfStream := false;
    while offset < bytes.Length && !endOfStream
      invariant 0 <= offset <= bytes.Length
      invariant stream.Valid() && stream.open && stream.content == file.content
      invariant stream.pos == offset
      invariant bytes[..offset] == file.content[..offset]
      invariant endOfStream ==> offset == |file.content|
      decreases bytes.Length - offset, !endOfStream
    {
      numRead := stream.Read(bytes, offset, bytes.Length - offset);
      if numRead >= 0 {
        offset := offset + numRead;
      } else {
        endOfStream := true;
      }
    }
    if offset < bytes.Length {
      return Thrown(IncompleteRead);
    }
    stream.Close();
    assert bytes[..] == bytes[..offset];
    return Bytes(bytes);
  }
}
