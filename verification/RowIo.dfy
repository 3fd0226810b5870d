/**
 * Rows written with a Writer and read with a Reader, one field after the other:
 * the loop shape every encode and decode routine of the formats shares.
 */
module RowIo {
  import opened Bytes
  import opened Records
  import opened Layouts
  import opened ByteIo

  method WriteValue(w: Writer, v: Value)
    modifies w
    ensures w.buf == old(w.buf) + EncodeValue(v)
    decreases v, 0
  {
    hide LE;
    match v
    case C(b) => w.U8(b);
    case W(n) => w.U64(n);
    case T(s) => w.Str(s);
    case L(rows) => WriteRows(w, rows);
  }

  method WriteRow(w: Writer, vs: seq<Value>)
    modifies w
    ensures w.buf == old(w.buf) + Encode(vs)
    decreases vs, 0
  {
    hide EncodeValue;
    for i := 0 to |vs|
      invariant w.buf == old(w.buf) + Encode(vs[..i])
    {
      assert vs[..i + 1] == vs[..i] + [vs[i]];
      EncodeSnoc(vs[..i], vs[i]);
      WriteValue(w, vs[i]);
    }
    assert vs[..|vs|] == vs;
  }

  /** A count, then the items. */
  method WriteRows(w: Writer, rows: seq<Row>)
    modifies w
    ensures w.buf == old(w.buf) + EncodeValue(L(rows))
    decreases rows, 1
  {
    hide LE, Encode;
    w.U64(|rows|);
    ghost var mid := w.buf;
    for i := 0 to |rows|
      invariant w.buf == mid + EncodeRows(rows[..i])
    {
      assert rows[..i + 1] == rows[..i] + [rows[i]];
      EncodeRowsSnoc(rows[..i], rows[i]);
      WriteRow(w, rows[i].values);
    }
    assert rows[..|rows|] == rows;
  }

  method ReadValue(r: Reader, f: Field) returns (v: Option<Value>)
    requires r.Valid()
    modifies r
    ensures r.Yields(v, DecodeField(f, old(r.Rest())))
    decreases f, 0, 0
  {
    hide Decode;
    match f
    case Code(limit) =>
      var b :- r.U8();
      v := if b > limit then None else Some(C(b));
    case Word64 =>
      var n :- r.U64();
      v := Some(W(n));
    case Str(limit) =>
      var t :- r.Str(limit);
      v := Some(T(t));
    case List(limit, item) =>
      var n :- r.U64();
      if n > limit {
        return None;
      }
      var rows :- ReadRows(r, n, item);
      v := Some(L(rows));
  }

  method ReadRow(r: Reader, fs: Layout) returns (row: Option<seq<Value>>)
    requires r.Valid()
    modifies r
    ensures r.Yields(row, Decode(fs, old(r.Rest())))
    decreases fs, 0, 0
  {
    hide DecodeField;
    ghost var from := r.Rest();
    var vs: seq<Value> := [];
    for i := 0 to |fs|
      invariant r.Valid()
      invariant Decode(fs[..i], from) == Some((vs, r.Rest()))
    {
      assert fs[..i + 1] == fs[..i] + [fs[i]];
      DecodeSnoc(fs[..i], fs[i], from);
      if DecodeField(fs[i], r.Rest()).None? {
        FailingPrefix(fs[..i + 1], fs, from);
      }
      var v :- ReadValue(r, fs[i]);
      vs := vs + [v];
    }
    assert fs[..|fs|] == fs;
    row := Some(vs);
  }

  /** `n` items read in a loop. */
  method ReadRows(r: Reader, n: nat, item: Layout) returns (rows: Option<seq<Row>>)
    requires r.Valid()
    modifies r
    ensures r.Yields(rows, DecodeRows(n, item, old(r.Rest())))
    decreases item, 1, n
  {
    hide Decode;
    ghost var from := r.Rest();
    var done: seq<Row> := [];
    PrecededEmpty(DecodeRows(n, item, from));
    for i := 0 to n
      invariant r.Valid()
      invariant DecodeRows(n, item, from) == Preceded(done, DecodeRows(n - i, item, r.Rest()))
    {
      ghost var before := r.Rest();
      var vs :- ReadRow(r, item);
      PrecededSnoc(done, Row(vs), DecodeRows(n - i - 1, item, r.Rest()));
      done := done + [Row(vs)];
    }
    assert done + [] == done;
    rows := Some(done);
  }

  /** `rows` put in front of what was decoded afterwards. */
  ghost function Preceded(rows: seq<Row>, p: Parsed<seq<Row>>): Parsed<seq<Row>> {
    match p
    case None => None
    case Some((more, rest)) => Some((rows + more, rest))
  }

  lemma PrecededEmpty(p: Parsed<seq<Row>>)
    ensures Preceded([], p) == p
  {
    if p.Some? {
      assert [] + p.value.0 == p.value.0;
    }
  }

  lemma PrecededSnoc(rows: seq<Row>, r: Row, p: Parsed<seq<Row>>)
    ensures Preceded(rows + [r], p) == Preceded(rows, Preceded([r], p))
  {
    if p.Some? {
      assert (rows + [r]) + p.value.0 == rows + ([r] + p.value.0);
    }
  }
}
