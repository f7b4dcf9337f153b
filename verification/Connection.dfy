/** The receiving side of a connection: what the peer sent and was not read yet. */
module Connection {
  import opened Bytes

  /** `input` is everything that will ever arrive before the connection ends. */
  class Conn {
    var input: seq<byte>

    constructor (input: seq<byte>)
      ensures this.input == input
    {
      this.input := input;
    }

    /** io.ReadFull into a buffer of n bytes: all of them, or an error with whatever was there. */
    method ReadFull(n: nat) returns (data: seq<byte>, ok: bool)
      modifies this
      ensures ok <==> n <= |old(input)|
      ensures ok ==> data == old(input)[..n] && input == old(input)[n..]
      ensures !ok ==> data == old(input) && input == []
    {
      ok := n <= |input|;
      if ok {
        data, input := input[..n], input[n..];
      } else {
        data, input := input, [];
      }
    }

    /** Reading one byte; false at the end of the connection. */
    method ReadByte() returns (b: byte, ok: bool)
      modifies this
      ensures ok <==> old(input) != []
      ensures ok ==> b == old(input)[0] && input == old(input)[1..]
      ensures !ok ==> input == []
    {
      ok := input != [];
      if ok {
        b, input := input[0], input[1..];
      } else {
        b := 0;
      }
    }
  }
}
