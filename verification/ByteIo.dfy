/**
 * The Writer and Reader of include/rdmabuffer/bytes.hpp. Each operation changes
 * the buffer or the cursor in place.
 */
module ByteIo {
  import opened Bytes
  import opened Records
  import opened Layouts

  class Writer {
    var buf: seq<byte>

    constructor ()
      ensures buf == []
    {
      buf := [];
    }

    method U8(b: byte)
      modifies this
      ensures buf == old(buf) + [b]
    {
      buf := buf + [b];
    }

    method U32(v: nat)
      modifies this
      ensures buf == old(buf) + LE(v, 4)
    {
      for i := 0 to 4
        invariant buf == old(buf) + LE(v, 4)[..i]
      {
        LEByte(v, 4, i);
        buf := buf + [v / Pow256(i) % 256];
      }
    }

    method U64(v: nat)
      modifies this
      ensures buf == old(buf) + LE(v, 8)
    {
      for i := 0 to 8
        invariant buf == old(buf) + LE(v, 8)[..i]
      {
        LEByte(v, 8, i);
        buf := buf + [v / Pow256(i) % 256];
      }
    }

    method Str(s: Text)
      modifies this
      ensures buf == old(buf) + EncodeValue(T(s))
    {
      hide LE;
      U64(|s|);
      Raw(s);
    }

    method Raw(s: seq<byte>)
      modifies this
      ensures buf == old(buf) + s
    {
      for i := 0 to |s|
        invariant buf == old(buf) + s[..i]
      {
        buf := buf + [s[i]];
      }
    }
  }

  class Reader {
    const data: seq<byte>
    var pos: nat
    var error: bool

    ghost predicate Valid()
      reads this
    {
      pos <= |data|
    }

    function Rest(): seq<byte>
      requires pos <= |data|
      reads this
    {
      data[pos..]
    }

    /** The outcome of a read: the expected value with the cursor just past it, or nothing. */
    ghost predicate Yields<A>(v: Option<A>, expected: Parsed<A>)
      reads this
    {
      && Valid()
      && match expected
         case None => v == None
         case Some((x, rest)) => v == Some(x) && Rest() == rest
    }

    constructor (bytes: seq<byte>)
      ensures Valid() && !error && data == bytes && Rest() == bytes
    {
      data, pos, error := bytes, 0, false;
    }

    method Remaining() returns (n: nat)
      requires Valid()
      ensures n == |Rest()|
    {
      n := |data| - pos;
    }

    method U8() returns (v: Option<byte>)
      requires Valid()
      modifies this
      ensures Yields(v, if old(Rest()) == [] then None else Some((old(Rest())[0], old(Rest())[1..])))
      ensures error == (old(error) || v.None?)
    {
      if |data| - pos < 1 {
        error := true;
        return None;
      }
      pos := pos + 1;
      v := Some(data[pos - 1]);
    }

    method U32() returns (v: Option<nat>)
      requires Valid()
      modifies this
      ensures Yields(v, if |old(Rest())| < 4 then None else Some((FromLE(old(Rest())[..4]), old(Rest())[4..])))
      ensures error == (old(error) || v.None?)
    {
      if |data| - pos < 4 {
        error := true;
        return None;
      }
      var n := Gather(4);
      v := Some(n);
    }

    method U64() returns (v: Option<nat>)
      requires Valid()
      modifies this
      ensures Yields(v, DecodeWord(old(Rest())))
      ensures error == (old(error) || v.None?)
    {
      if |data| - pos < 8 {
        error := true;
        return None;
      }
      var n := Gather(8);
      v := Some(n);
    }

    /** The shift loop: byte `i` enters at bit `8 * i`. */
    method Gather(count: nat) returns (n: nat)
      requires Valid() && |data| - pos >= count
      modifies this`pos
      ensures Valid() && pos == old(pos) + count && n == FromLE(old(Rest())[..count]) && Rest() == old(Rest())[count..]
    {
      n := 0;
      ghost var from := Rest();
      for i := 0 to count
        invariant pos == old(pos) + i && n == FromLE(from[..i])
      {
        FromLEAppend(from[..i], data[pos]);
        assert from[..i + 1] == from[..i] + [data[pos]];
        n := n + data[pos] * Pow256(i);
        pos := pos + 1;
      }
    }

    method Str(limit: nat) returns (v: Option<Text>)
      requires Valid()
      modifies this
      ensures Yields(v, match DecodeField(Field.Str(limit), old(Rest()))
                        case None => None
                        case Some((t, rest)) => Some((t.s, rest)))
      ensures error == (old(error) || v.None?)
    {
      var n :- U64();
      ghost var mid := Rest();
      if n > limit || n > |data| - pos {
        error := true;
        return None;
      }
      var text := data[pos..pos + n];
      pos := pos + n;
      assert mid[..n] == text && mid[n..] == Rest();
      v := Some(text);
    }
  }
}
