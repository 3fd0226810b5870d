/**
 * The byte formats as data. A record is written as a row of fields; a `Layout`
 * says which fields a decoder asks for and within which bounds. Everything the
 * codecs promise is proved here once: decoding is the exact inverse of encoding.
 */
module Layouts {
  import opened Bytes
  import opened Records

  datatype Field =
    | Code(limit: nat)
    | Word64
    | Str(limit: nat)
    | List(limit: nat, item: Layout)

  type Layout = seq<Field>

  datatype Value =
    | C(b: byte)
    | W(n: nat)
    | T(s: Text)
    | L(rows: seq<Row>)

  datatype Row = Row(values: seq<Value>)

  // ---- encoding -------------------------------------------------------------

  function EncodeValue(v: Value): seq<byte>
    decreases v, 0
  {
    match v
    case C(b) => [b]
    case W(n) => LE(n, 8)
    case T(s) => LE(|s|, 8) + s
    case L(rows) => LE(|rows|, 8) + EncodeRows(rows)
  }

  function Encode(vs: seq<Value>): seq<byte>
    decreases vs, 0
  {
    if vs == [] then [] else EncodeValue(vs[0]) + Encode(vs[1..])
  }

  function EncodeRows(rows: seq<Row>): seq<byte>
    decreases rows, 0
  {
    if rows == [] then [] else Encode(rows[0].values) + EncodeRows(rows[1..])
  }

  // ---- decoding -------------------------------------------------------------

  type Parsed<+A> = Option<(A, seq<byte>)>

  function DecodeWord(s: seq<byte>): (r: Parsed<nat>)
    ensures r.Some? ==> r.value.0 < WORD_LIMIT && s == LE(r.value.0, 8) + r.value.1
  {
    if |s| < 8 then None else
      LEOfFromLE(s[..8]);
      EightBytes();
      Some((FromLE(s[..8]), s[8..]))
  }

  function DecodeField(f: Field, s: seq<byte>): Parsed<Value>
    decreases f, 0, 0
  {
    match f
    case Code(limit) =>
      if |s| < 1 || s[0] > limit then None else Some((C(s[0]), s[1..]))
    case Word64 =>
      (match DecodeWord(s)
       case None => None
       case Some((n, rest)) => Some((W(n), rest)))
    case Str(limit) =>
      (match DecodeWord(s)
       case None => None
       case Some((n, rest)) => if n > limit || n > |rest| then None else Some((T(rest[..n]), rest[n..])))
    case List(limit, item) =>
      (match DecodeWord(s)
       case None => None
       case Some((n, rest)) =>
         if n > limit then None else
           match DecodeRows(n, item, rest)
           case None => None
           case Some((rows, rest')) => Some((L(rows), rest')))
  }

  function Decode(fs: Layout, s: seq<byte>): (r: Parsed<seq<Value>>)
    ensures r.Some? ==> |r.value.0| == |fs|
    decreases fs, 0, 0
  {
    if fs == [] then Some(([], s)) else
      match DecodeField(fs[0], s)
      case None => None
      case Some((v, rest)) =>
        match Decode(fs[1..], rest)
        case None => None
        case Some((vs, rest')) => Some(([v] + vs, rest'))
  }

  function DecodeRows(n: nat, item: Layout, s: seq<byte>): (r: Parsed<seq<Row>>)
    ensures r.Some? ==> |r.value.0| == n && forall row :: row in r.value.0 ==> |row.values| == |item|
    decreases item, 1, n
  {
    if n == 0 then Some(([], s)) else
      match Decode(item, s)
      case None => None
      case Some((vs, rest)) =>
        match DecodeRows(n - 1, item, rest)
        case None => None
        case Some((rows, rest')) => Some(([Row(vs)] + rows, rest'))
  }

  // ---- which values a layout carries ------------------------------------------

  /** `v` has the field's kind and fits the width it is written in. */
  ghost predicate Representable(f: Field, v: Value)
    decreases f, 0
  {
    match f
    case Code(limit) => v.C? && v.b <= limit
    case Word64 => v.W? && v.n < WORD_LIMIT
    case Str(_) => v.T? && |v.s| < WORD_LIMIT
    case List(_, item) =>
      v.L? && |v.rows| < WORD_LIMIT && RepresentableRows(item, v.rows)
  }

  ghost predicate RepresentableRow(fs: Layout, vs: seq<Value>)
    decreases fs, 0
  {
    |vs| == |fs| && forall i :: 0 <= i < |fs| ==> Representable(fs[i], vs[i])
  }

  ghost predicate RepresentableRows(item: Layout, rows: seq<Row>)
    decreases item, 1
  {
    forall i :: 0 <= i < |rows| ==> RepresentableRow(item, rows[i].values)
  }

  /** Every string and every list inside `v` is within the bound the decoder enforces. */
  ghost predicate Bounded(f: Field, v: Value)
    decreases f, 0
  {
    match f
    case Code(_) => true
    case Word64 => true
    case Str(limit) => v.T? ==> |v.s| <= limit
    case List(limit, item) =>
      v.L? ==> |v.rows| <= limit && BoundedRows(item, v.rows)
  }

  ghost predicate BoundedRow(fs: Layout, vs: seq<Value>)
    decreases fs, 0
  {
    forall i :: 0 <= i < |fs| && i < |vs| ==> Bounded(fs[i], vs[i])
  }

  ghost predicate BoundedRows(item: Layout, rows: seq<Row>)
    decreases item, 1
  {
    forall i :: 0 <= i < |rows| ==> BoundedRow(item, rows[i].values)
  }

  // ---- decoding inverts encoding ----------------------------------------------

  lemma DecodeWordOfLE(n: nat, rest: seq<byte>)
    requires n < WORD_LIMIT
    ensures DecodeWord(LE(n, 8) + rest) == Some((n, rest))
  {
    EightBytes();
    FromLEOfLE(n, 8);
    assert (LE(n, 8) + rest)[..8] == LE(n, 8);
    assert (LE(n, 8) + rest)[8..] == rest;
  }

  /** A representable value decodes exactly when it is bounded, and to itself. */
  lemma {:induction false} FieldRoundTrip(f: Field, v: Value, rest: seq<byte>)
    requires Representable(f, v)
    ensures DecodeField(f, EncodeValue(v) + rest) == if Bounded(f, v) then Some((v, rest)) else None
    decreases f, 0, 0
  {
    hide LE, FromLE, DecodeWord;
    match f
    case Code(_) =>
      assert ([v.b] + rest)[1..] == rest;
    case Word64 =>
      DecodeWordOfLE(v.n, rest);
    case Str(_) =>
      assert EncodeValue(v) + rest == LE(|v.s|, 8) + (v.s + rest);
      DecodeWordOfLE(|v.s|, v.s + rest);
      assert (v.s + rest)[..|v.s|] == v.s && (v.s + rest)[|v.s|..] == rest;
    case List(_, item) =>
      assert EncodeValue(v) + rest == LE(|v.rows|, 8) + (EncodeRows(v.rows) + rest);
      DecodeWordOfLE(|v.rows|, EncodeRows(v.rows) + rest);
      RowsRoundTrip(item, v.rows, rest);
  }

  lemma {:induction false} RoundTrip(fs: Layout, vs: seq<Value>, rest: seq<byte>)
    requires RepresentableRow(fs, vs)
    ensures Decode(fs, Encode(vs) + rest) == if BoundedRow(fs, vs) then Some((vs, rest)) else None
    decreases fs, 0, 0
  {
    hide LE, FromLE, EncodeValue, DecodeField;
    if fs == [] {
      assert Encode(vs) + rest == rest;
    } else {
      assert Encode(vs) + rest == EncodeValue(vs[0]) + (Encode(vs[1..]) + rest);
      FieldRoundTrip(fs[0], vs[0], Encode(vs[1..]) + rest);
      assert forall i :: 0 <= i < |fs| - 1 ==> fs[1..][i] == fs[i + 1] && vs[1..][i] == vs[i + 1];
      RoundTrip(fs[1..], vs[1..], rest);
      assert vs == [vs[0]] + vs[1..];
      BoundedCons(fs, vs);
    }
  }

  lemma BoundedCons(fs: Layout, vs: seq<Value>)
    requires |fs| == |vs| > 0
    ensures BoundedRow(fs, vs) <==> Bounded(fs[0], vs[0]) && BoundedRow(fs[1..], vs[1..])
  {
    if Bounded(fs[0], vs[0]) && BoundedRow(fs[1..], vs[1..]) {
      forall i | 0 <= i < |fs| ensures Bounded(fs[i], vs[i]) {
        if i > 0 {
          assert Bounded(fs[1..][i - 1], vs[1..][i - 1]);
        }
      }
    }
  }

  lemma {:induction false} RowsRoundTrip(item: Layout, rows: seq<Row>, rest: seq<byte>)
    requires RepresentableRows(item, rows)
    ensures DecodeRows(|rows|, item, EncodeRows(rows) + rest)
         == if BoundedRows(item, rows) then Some((rows, rest)) else None
    decreases item, 1, |rows|
  {
    hide Decode, Encode, RepresentableRow, BoundedRow;
    if rows == [] {
      assert EncodeRows(rows) + rest == rest;
    } else {
      var tail := rows[1..];
      assert EncodeRows(rows) + rest == Encode(rows[0].values) + (EncodeRows(tail) + rest);
      RoundTrip(item, rows[0].values, EncodeRows(tail) + rest);
      RowsCons(item, rows);
      RowsRoundTrip(item, tail, rest);
      assert rows == [Row(rows[0].values)] + tail;
    }
  }

  lemma RowsCons(item: Layout, rows: seq<Row>)
    requires rows != []
    ensures BoundedRows(item, rows) <==> BoundedRow(item, rows[0].values) && BoundedRows(item, rows[1..])
    ensures RepresentableRows(item, rows)
       <==> RepresentableRow(item, rows[0].values) && RepresentableRows(item, rows[1..])
  {
    hide RepresentableRow, BoundedRow;
    var tail := rows[1..];
    assert forall i :: 1 <= i < |rows| ==> rows[i] == tail[i - 1];
    assert forall i :: 0 <= i < |tail| ==> tail[i] == rows[i + 1];
  }

  // ---- encoding inverts decoding ----------------------------------------------

  /** What a field accepts is representable, bounded, and consumed byte for byte. */
  lemma {:induction false} FieldSound(f: Field, s: seq<byte>)
    requires DecodeField(f, s).Some?
    ensures var (v, rest) := DecodeField(f, s).value;
            Representable(f, v) && Bounded(f, v) && s == EncodeValue(v) + rest
    decreases f, 0, 0
  {
    hide LE, FromLE, DecodeWord;
    var (v, rest) := DecodeField(f, s).value;
    match f
    case Code(_) =>
      assert s == [s[0]] + s[1..];
    case Word64 =>
    case Str(_) =>
      var (n, tail) := DecodeWord(s).value;
      assert tail == tail[..n] + tail[n..];
    case List(_, item) =>
      var (n, tail) := DecodeWord(s).value;
      RowsSound(n, item, tail);
      assert s == LE(n, 8) + (EncodeRows(v.rows) + rest);
  }

  lemma {:induction false} Sound(fs: Layout, s: seq<byte>)
    requires Decode(fs, s).Some?
    ensures var (vs, rest) := Decode(fs, s).value;
            RepresentableRow(fs, vs) && BoundedRow(fs, vs) && s == Encode(vs) + rest
    decreases fs, 0, 0
  {
    hide LE, FromLE, EncodeValue, DecodeField;
    if fs != [] {
      var (v, tail) := DecodeField(fs[0], s).value;
      var (vs, rest) := Decode(fs[1..], tail).value;
      FieldSound(fs[0], s);
      Sound(fs[1..], tail);
      var all := [v] + vs;
      assert all[1..] == vs;
      assert s == EncodeValue(v) + (Encode(vs) + rest);
      forall i | 0 <= i < |fs| ensures Representable(fs[i], all[i]) && Bounded(fs[i], all[i]) {
        if i > 0 {
          assert fs[i] == fs[1..][i - 1] && all[i] == vs[i - 1];
        }
      }
    }
  }

  lemma {:induction false} RowsSound(n: nat, item: Layout, s: seq<byte>)
    requires DecodeRows(n, item, s).Some?
    ensures var (rows, rest) := DecodeRows(n, item, s).value;
            RepresentableRows(item, rows) && BoundedRows(item, rows) && s == EncodeRows(rows) + rest
    decreases item, 1, n
  {
    hide Decode, Encode, RepresentableRow, BoundedRow;
    if n > 0 {
      var (vs, tail) := Decode(item, s).value;
      var (rows, rest) := DecodeRows(n - 1, item, tail).value;
      Sound(item, s);
      RowsSound(n - 1, item, tail);
      var all := [Row(vs)] + rows;
      assert all[1..] == rows;
      RowsCons(item, all);
      assert s == Encode(vs) + (EncodeRows(rows) + rest);
    }
  }

  /** Further input is left untouched: what is accepted does not depend on what follows. */
  lemma Extend(fs: Layout, s: seq<byte>, more: seq<byte>)
    requires Decode(fs, s).Some?
    ensures Decode(fs, s + more) == Some((Decode(fs, s).value.0, Decode(fs, s).value.1 + more))
  {
    Sound(fs, s);
    var (vs, rest) := Decode(fs, s).value;
    RoundTrip(fs, vs, rest + more);
    assert s + more == Encode(vs) + (rest + more);
  }

  lemma ExtendRows(n: nat, item: Layout, s: seq<byte>, more: seq<byte>)
    requires DecodeRows(n, item, s).Some?
    ensures DecodeRows(n, item, s + more)
         == Some((DecodeRows(n, item, s).value.0, DecodeRows(n, item, s).value.1 + more))
  {
    RowsSound(n, item, s);
    var (rows, rest) := DecodeRows(n, item, s).value;
    RowsRoundTrip(item, rows, rest + more);
    assert s + more == EncodeRows(rows) + (rest + more);
  }

  // ---- layouts read or written piece by piece ---------------------------------

  lemma {:induction false} EncodeConcat(a: seq<Value>, b: seq<Value>)
    ensures Encode(a + b) == Encode(a) + Encode(b)
  {
    if a == [] {
      assert a + b == b;
    } else {
      assert (a + b)[1..] == a[1..] + b;
      EncodeConcat(a[1..], b);
    }
  }

  lemma EncodeSnoc(a: seq<Value>, v: Value)
    ensures Encode(a + [v]) == Encode(a) + EncodeValue(v)
  {
    EncodeConcat(a, [v]);
    assert [v][1..] == [];
  }

  lemma {:induction false} EncodeRowsSnoc(rows: seq<Row>, r: Row)
    ensures EncodeRows(rows + [r]) == EncodeRows(rows) + Encode(r.values)
  {
    if rows == [] {
      assert [r][1..] == [];
    } else {
      assert (rows + [r])[1..] == rows[1..] + [r];
      EncodeRowsSnoc(rows[1..], r);
    }
  }

  /** Reading one more field after a layout. */
  lemma {:induction false} DecodeSnoc(fs: Layout, f: Field, s: seq<byte>)
    ensures Decode(fs + [f], s)
         == match Decode(fs, s)
            case None => None
            case Some((vs, rest)) =>
              match DecodeField(f, rest)
              case None => None
              case Some((v, rest')) => Some((vs + [v], rest'))
  {
    if fs == [] {
      assert [f][1..] == [];
      assert fs + [f] == [f];
      match DecodeField(f, s)
      case None =>
      case Some((w, _)) =>
        assert [w] + [] == [] + [w];
    } else {
      assert (fs + [f])[1..] == fs[1..] + [f];
      match DecodeField(fs[0], s)
      case None =>
      case Some((v, rest)) =>
        DecodeSnoc(fs[1..], f, rest);
        match Decode(fs[1..], rest)
        case None =>
        case Some((vs, rest')) =>
          match DecodeField(f, rest')
          case None =>
          case Some((w, _)) =>
            assert [v] + (vs + [w]) == ([v] + vs) + [w];
    }
  }

  /** A layout whose beginning is refused is refused. */
  lemma {:induction false} FailingPrefix(fs: Layout, all: Layout, s: seq<byte>)
    requires fs <= all && Decode(fs, s).None?
    ensures Decode(all, s).None?
  {
    if fs != [] {
      match DecodeField(fs[0], s)
      case None =>
      case Some((v, rest)) =>
        FailingPrefix(fs[1..], all[1..], rest);
    }
  }
}
