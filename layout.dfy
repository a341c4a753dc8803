/**
 * The Borsh encoding of the program's accounts: an 8-byte discriminator followed by the
 * fields in declaration order, integers little-endian in their own width, `bool` as one byte,
 * enums as a one-byte tag, `String` as a u32 byte count and the bytes, and `Vec<String>` as a
 * u32 item count and the strings. The lemmas relate each account's encoding to the `LEN`
 * budget the program reserves for it, and show that decoding inverts encoding.
 */
module Layout {
  import opened Types
  import opened State

  datatype FieldType =
    | Int(width: nat, signed: bool)
    | Bool
    | Str(maxLen: nat)
    | StrVec(maxItems: nat, maxLen: nat)

  datatype Value = IntV(n: int) | BoolV(b: bool) | StrV(s: Bytes) | StrVecV(items: seq<Bytes>)

  const KEY: FieldType := Int(32, false)
  const U8F: FieldType := Int(1, false)
  const U16F: FieldType := Int(2, false)
  const U32F: FieldType := Int(4, false)
  const U64F: FieldType := Int(8, false)
  const I64F: FieldType := Int(8, true)
  /** A fieldless enum is encoded as its one-byte variant tag. */
  const ENUM: FieldType := Int(1, false)

  function Pow256(w: nat): (p: nat)
    ensures p >= 1
  {
    if w == 0 then 1 else 256 * Pow256(w - 1)
  }

  lemma {:induction false} Pow256Add(a: nat, b: nat)
    ensures Pow256(a + b) == Pow256(a) * Pow256(b)
  {
    if a > 0 {
      Pow256Add(a - 1, b);
    }
  }

  /** The ranges of the widths the program uses: u8, u16, u32, u64 and 32-byte keys. */
  lemma Pow256Facts()
    ensures Pow256(1) == U8_MAX + 1 && Pow256(2) == U16_MAX + 1
    ensures Pow256(4) == U32_MAX + 1 && Pow256(8) == U64_MAX + 1
    ensures Pow256(32) == KEY_SPACE
  {
    Pow256Add(8, 8);
    Pow256Add(16, 16);
  }

  /** The largest number of bytes a field of this type can occupy. */
  function MaxSize(t: FieldType): nat
  {
    match t
    case Int(w, _) => w
    case Bool => 1
    case Str(m) => 4 + m
    case StrVec(k, m) => 4 + k * (4 + m)
  }

  function SchemaSize(ts: seq<FieldType>): nat
  {
    if |ts| == 0 then 0 else MaxSize(ts[0]) + SchemaSize(ts[1..])
  }

  lemma {:induction false} SchemaSizeAppend(a: seq<FieldType>, b: seq<FieldType>)
    ensures SchemaSize(a + b) == SchemaSize(a) + SchemaSize(b)
  {
    if |a| > 0 {
      assert (a + b)[1..] == a[1..] + b;
      SchemaSizeAppend(a[1..], b);
    } else {
      assert a + b == b;
    }
  }

  predicate IsFixed(t: FieldType)
  {
    t.Int? || t.Bool?
  }

  /** `256^w`, read off a table for the widths the program stores. */
  function Modulus(w: nat): nat
  {
    if w == 1 then U8_MAX + 1
    else if w == 2 then U16_MAX + 1
    else if w == 4 then U32_MAX + 1
    else if w == 8 then U64_MAX + 1
    else if w == 32 then KEY_SPACE
    else Pow256(w)
  }

  lemma ModulusIsPow256(w: nat)
    ensures Modulus(w) == Pow256(w)
  {
    Pow256Facts();
  }

  predicate IntInRange(n: int, w: nat, signed: bool)
  {
    if signed then -(Modulus(w) / 2) <= n < Modulus(w) / 2 else 0 <= n < Modulus(w)
  }

  predicate StrEncodable(s: Bytes)
  {
    |s| <= U32_MAX
  }

  /** A value of the right shape whose numbers and lengths fit the wire widths. */
  predicate Encodable(t: FieldType, v: Value)
  {
    match t
    case Int(w, signed) => v.IntV? && IntInRange(v.n, w, signed)
    case Bool => v.BoolV?
    case Str(_) => v.StrV? && StrEncodable(v.s)
    case StrVec(_, _) => v.StrVecV? && |v.items| <= U32_MAX && forall i :: 0 <= i < |v.items| ==> StrEncodable(v.items[i])
  }

  /** The program's own `MAX_*` bounds on string lengths and item counts. */
  predicate WithinBounds(t: FieldType, v: Value)
  {
    match t
    case Str(m) => v.StrV? && |v.s| <= m
    case StrVec(k, m) => v.StrVecV? && |v.items| <= k && forall i :: 0 <= i < |v.items| ==> |v.items[i]| <= m
    case _ => true
  }

  predicate RecordEncodable(ts: seq<FieldType>, vs: seq<Value>)
  {
    |ts| == |vs| && forall i :: 0 <= i < |ts| ==> Encodable(ts[i], vs[i])
  }

  /** Two encodable records side by side form an encodable record of the joined schema. */
  lemma RecordEncodableAppend(ts1: seq<FieldType>, vs1: seq<Value>, ts2: seq<FieldType>, vs2: seq<Value>)
    requires RecordEncodable(ts1, vs1) && RecordEncodable(ts2, vs2)
    ensures RecordEncodable(ts1 + ts2, vs1 + vs2)
  {
    forall i | 0 <= i < |ts1 + ts2|
      ensures Encodable((ts1 + ts2)[i], (vs1 + vs2)[i])
    {
      if i >= |ts1| {
        assert (ts1 + ts2)[i] == ts2[i - |ts1|] && (vs1 + vs2)[i] == vs2[i - |ts1|];
      }
    }
  }

  predicate RecordWithinBounds(ts: seq<FieldType>, vs: seq<Value>)
  {
    |ts| == |vs| && forall i :: 0 <= i < |ts| ==> WithinBounds(ts[i], vs[i])
  }

  // ---------------------------------------------------------------- little-endian integers

  function EncodeLE(x: nat, w: nat): (r: Bytes)
    requires x < Pow256(w)
    ensures |r| == w
  {
    if w == 0 then [] else [x % 256] + EncodeLE(x / 256, w - 1)
  }

  function DecodeLE(b: Bytes): (x: nat)
    ensures x < Pow256(|b|)
  {
    if |b| == 0 then 0
    else
      var rest := DecodeLE(b[1..]);
      assert rest <= Pow256(|b| - 1) - 1;
      assert 256 * rest <= 256 * Pow256(|b| - 1) - 256;
      b[0] + 256 * rest
  }

  lemma {:induction false} DecodeEncodeLE(x: nat, w: nat)
    requires x < Pow256(w)
    ensures DecodeLE(EncodeLE(x, w)) == x
  {
    if w > 0 {
      var tail := EncodeLE(x / 256, w - 1);
      assert EncodeLE(x, w)[1..] == tail;
      DecodeEncodeLE(x / 256, w - 1);
    }
  }

  /** The unsigned bit pattern of a (possibly signed) integer: two's complement for negatives. */
  function ToRaw(n: int, w: nat, signed: bool): (raw: nat)
    requires IntInRange(n, w, signed)
    ensures raw < Pow256(w)
    ensures signed ==> (raw < Pow256(w) / 2 <==> n >= 0)
  {
    ModulusIsPow256(w);
    if signed && n < 0 then n + Pow256(w) else n
  }

  function FromRaw(raw: nat, w: nat, signed: bool): int
  {
    if signed && raw >= Pow256(w) / 2 then raw - Pow256(w) else raw
  }

  // ---------------------------------------------------------------- fields

  function EncodeStr(s: Bytes): (r: Bytes)
    requires StrEncodable(s)
    ensures |r| == 4 + |s|
  {
    EncodeLE(|s|, 4) + s
  }

  function EncodeStrs(items: seq<Bytes>): (r: Bytes)
    requires forall i :: 0 <= i < |items| ==> StrEncodable(items[i])
  {
    if |items| == 0 then [] else EncodeStr(items[0]) + EncodeStrs(items[1..])
  }

  function EncodeField(t: FieldType, v: Value): Bytes
    requires Encodable(t, v)
  {
    match t
    case Int(w, signed) => EncodeLE(ToRaw(v.n, w, signed), w)
    case Bool => [if v.b then 1 else 0]
    case Str(_) => EncodeStr(v.s)
    case StrVec(_, _) => EncodeLE(|v.items|, 4) + EncodeStrs(v.items)
  }

  function EncodeFields(ts: seq<FieldType>, vs: seq<Value>): Bytes
    requires RecordEncodable(ts, vs)
  {
    if |ts| == 0 then [] else EncodeField(ts[0], vs[0]) + EncodeFields(ts[1..], vs[1..])
  }

  /** The bytes Anchor writes into an account: its discriminator, then the record. */
  function EncodeAccount(disc: Bytes, ts: seq<FieldType>, vs: seq<Value>): Bytes
    requires |disc| == DISCRIMINATOR_LEN
    requires RecordEncodable(ts, vs)
  {
    disc + EncodeFields(ts, vs)
  }

  function DecodeStr(b: Bytes): Option<(Bytes, Bytes)>
  {
    if |b| < 4 then None
    else
      var n := DecodeLE(b[..4]);
      if |b| - 4 < n then None else Some((b[4..4 + n], b[4 + n..]))
  }

  function DecodeStrs(count: nat, b: Bytes): Option<(seq<Bytes>, Bytes)>
  {
    if count == 0 then Some(([], b))
    else
      match DecodeStr(b)
      case None => None
      case Some((s, rest)) =>
        match DecodeStrs(count - 1, rest)
        case None => None
        case Some((ss, rest')) => Some(([s] + ss, rest'))
  }

  /** Reads one field from the front of `b`, returning it and the bytes after it. */
  function DecodeField(t: FieldType, b: Bytes): Option<(Value, Bytes)>
  {
    match t
    case Int(w, signed) =>
      if |b| < w then None else Some((IntV(FromRaw(DecodeLE(b[..w]), w, signed)), b[w..]))
    case Bool =>
      if |b| < 1 || b[0] > 1 then None else Some((BoolV(b[0] == 1), b[1..]))
    case Str(_) =>
      (match DecodeStr(b)
       case None => None
       case Some((s, rest)) => Some((StrV(s), rest)))
    case StrVec(_, _) =>
      if |b| < 4 then None
      else
        match DecodeStrs(DecodeLE(b[..4]), b[4..])
        case None => None
        case Some((ss, rest)) => Some((StrVecV(ss), rest))
  }

  function DecodeFields(ts: seq<FieldType>, b: Bytes): Option<(seq<Value>, Bytes)>
  {
    if |ts| == 0 then Some(([], b))
    else
      match DecodeField(ts[0], b)
      case None => None
      case Some((v, rest)) =>
        match DecodeFields(ts[1..], rest)
        case None => None
        case Some((vs, rest')) => Some(([v] + vs, rest'))
  }

  /**
   * Anchor's account deserialisation: the discriminator must match, the record is read from
   * the front, and whatever unused space follows it is ignored.
   */
  function DecodeAccount(disc: Bytes, ts: seq<FieldType>, data: Bytes): Option<seq<Value>>
    requires |disc| == DISCRIMINATOR_LEN
  {
    if |data| < DISCRIMINATOR_LEN || data[..DISCRIMINATOR_LEN] != disc then None
    else
      match DecodeFields(ts, data[DISCRIMINATOR_LEN..])
      case None => None
      case Some((vs, _)) => Some(vs)
  }

  // ---------------------------------------------------------------- round trip

  lemma {:induction false} StrRoundTrip(s: Bytes, rest: Bytes)
    requires StrEncodable(s)
    ensures DecodeStr(EncodeStr(s) + rest) == Some((s, rest))
  {
    var b := EncodeStr(s) + rest;
    assert b[..4] == EncodeLE(|s|, 4);
    DecodeEncodeLE(|s|, 4);
    assert b[4..4 + |s|] == s;
    assert b[4 + |s|..] == rest;
  }

  lemma {:induction false} StrsRoundTrip(items: seq<Bytes>, rest: Bytes)
    requires forall i :: 0 <= i < |items| ==> StrEncodable(items[i])
    ensures DecodeStrs(|items|, EncodeStrs(items) + rest) == Some((items, rest))
  {
    if |items| > 0 {
      var tail := EncodeStrs(items[1..]) + rest;
      assert EncodeStrs(items) + rest == EncodeStr(items[0]) + tail;
      StrRoundTrip(items[0], tail);
      StrsRoundTrip(items[1..], rest);
      assert |items[1..]| == |items| - 1;
      assert DecodeStrs(|items|, EncodeStrs(items) + rest) == Some(([items[0]] + items[1..], rest));
      assert [items[0]] + items[1..] == items;
    } else {
      assert EncodeStrs(items) + rest == rest;
    }
  }

  lemma FromRawToRaw(n: int, w: nat, signed: bool)
    requires IntInRange(n, w, signed)
    ensures FromRaw(ToRaw(n, w, signed), w, signed) == n
  {
    ModulusIsPow256(w);
  }

  lemma {:induction false} FieldRoundTrip(t: FieldType, v: Value, rest: Bytes)
    requires Encodable(t, v)
    ensures DecodeField(t, EncodeField(t, v) + rest) == Some((v, rest))
  {
    var b := EncodeField(t, v) + rest;
    match t
    case Int(w, signed) =>
      assert DecodeLE(b[..w]) == ToRaw(v.n, w, signed) by {
        assert b[..w] == EncodeField(t, v);
        DecodeEncodeLE(ToRaw(v.n, w, signed), w);
      }
      assert b[w..] == rest;
      FromRawToRaw(v.n, w, signed);
    case Bool =>
      assert b[1..] == rest;
    case Str(_) =>
      StrRoundTrip(v.s, rest);
    case StrVec(_, _) =>
      var body := EncodeStrs(v.items) + rest;
      assert b == EncodeLE(|v.items|, 4) + body;
      assert b[..4] == EncodeLE(|v.items|, 4);
      assert b[4..] == body;
      DecodeEncodeLE(|v.items|, 4);
      StrsRoundTrip(v.items, rest);
  }

  lemma RecordEncodableTail(ts: seq<FieldType>, vs: seq<Value>)
    requires RecordEncodable(ts, vs) && |ts| > 0
    ensures RecordEncodable(ts[1..], vs[1..])
  {
    forall i | 0 <= i < |ts[1..]|
      ensures Encodable(ts[1..][i], vs[1..][i])
    {
      assert ts[1..][i] == ts[i + 1] && vs[1..][i] == vs[i + 1];
    }
  }

  lemma {:induction false} FieldsRoundTrip(ts: seq<FieldType>, vs: seq<Value>, rest: Bytes)
    requires RecordEncodable(ts, vs)
    ensures DecodeFields(ts, EncodeFields(ts, vs) + rest) == Some((vs, rest))
  {
    if |ts| > 0 {
      var tail := EncodeFields(ts[1..], vs[1..]) + rest;
      assert DecodeField(ts[0], EncodeFields(ts, vs) + rest) == Some((vs[0], tail)) by {
        assert EncodeFields(ts, vs) + rest == EncodeField(ts[0], vs[0]) + tail;
        FieldRoundTrip(ts[0], vs[0], tail);
      }
      assert DecodeFields(ts[1..], tail) == Some((vs[1..], rest)) by {
        RecordEncodableTail(ts, vs);
        FieldsRoundTrip(ts[1..], vs[1..], rest);
      }
      assert [vs[0]] + vs[1..] == vs;
    } else {
      assert EncodeFields(ts, vs) + rest == rest;
    }
  }

  /**
   * Reading back an account written with the same discriminator yields the written record,
   * whatever unused bytes follow it in the account's allocation.
   */
  lemma AccountRoundTrip(disc: Bytes, ts: seq<FieldType>, vs: seq<Value>, padding: Bytes)
    requires |disc| == DISCRIMINATOR_LEN
    requires RecordEncodable(ts, vs)
    ensures DecodeAccount(disc, ts, EncodeAccount(disc, ts, vs) + padding) == Some(vs)
  {
    var body := EncodeFields(ts, vs) + padding;
    var data := EncodeAccount(disc, ts, vs) + padding;
    assert data == disc + body;
    assert data[..DISCRIMINATOR_LEN] == disc;
    assert data[DISCRIMINATOR_LEN..] == body;
    FieldsRoundTrip(ts, vs, padding);
  }

  /** An account of another type (another discriminator) is refused rather than misread. */
  lemma WrongDiscriminatorRejected(disc: Bytes, other: Bytes, ts: seq<FieldType>, vs: seq<Value>, padding: Bytes)
    requires |disc| == DISCRIMINATOR_LEN && |other| == DISCRIMINATOR_LEN && disc != other
    requires RecordEncodable(ts, vs)
    ensures DecodeAccount(other, ts, EncodeAccount(disc, ts, vs) + padding) == None
  {
    var data := EncodeAccount(disc, ts, vs) + padding;
    assert data[..DISCRIMINATOR_LEN] == disc;
  }

  // ---------------------------------------------------------------- sizes

  lemma {:induction false} StrsSize(items: seq<Bytes>, k: nat, m: nat)
    requires forall i :: 0 <= i < |items| ==> StrEncodable(items[i])
    requires |items| <= k && forall i :: 0 <= i < |items| ==> |items[i]| <= m
    ensures |EncodeStrs(items)| <= k * (4 + m)
  {
    if |items| > 0 {
      StrsSize(items[1..], k - 1, m);
      assert (k - 1) * (4 + m) + (4 + m) == k * (4 + m);
    }
  }

  lemma FieldSize(t: FieldType, v: Value)
    requires Encodable(t, v) && WithinBounds(t, v)
    ensures |EncodeField(t, v)| <= MaxSize(t)
    ensures IsFixed(t) ==> |EncodeField(t, v)| == MaxSize(t)
  {
    if t.StrVec? {
      StrsSize(v.items, t.maxItems, t.maxLen);
    }
  }

  /** A record within the program's bounds never needs more than the schema's maximum size. */
  lemma {:induction false} FieldsSize(ts: seq<FieldType>, vs: seq<Value>)
    requires RecordEncodable(ts, vs) && RecordWithinBounds(ts, vs)
    ensures |EncodeFields(ts, vs)| <= SchemaSize(ts)
    ensures (forall i :: 0 <= i < |ts| ==> IsFixed(ts[i])) ==> |EncodeFields(ts, vs)| == SchemaSize(ts)
  {
    if |ts| > 0 {
      FieldSize(ts[0], vs[0]);
      assert RecordEncodable(ts[1..], vs[1..]) && RecordWithinBounds(ts[1..], vs[1..]) by {
        forall i | 0 <= i < |ts[1..]|
          ensures Encodable(ts[1..][i], vs[1..][i]) && WithinBounds(ts[1..][i], vs[1..][i])
        {
          assert ts[1..][i] == ts[i + 1] && vs[1..][i] == vs[i + 1];
        }
      }
      FieldsSize(ts[1..], vs[1..]);
      if forall i :: 0 <= i < |ts| ==> IsFixed(ts[i]) {
        assert forall i :: 0 <= i < |ts[1..]| ==> IsFixed(ts[1..][i]) by {
          forall i | 0 <= i < |ts[1..]|
            ensures IsFixed(ts[1..][i])
          {
            assert ts[1..][i] == ts[i + 1];
          }
        }
      }
    }
  }

  lemma AccountSize(disc: Bytes, ts: seq<FieldType>, vs: seq<Value>)
    requires |disc| == DISCRIMINATOR_LEN
    requires RecordEncodable(ts, vs) && RecordWithinBounds(ts, vs)
    ensures |EncodeAccount(disc, ts, vs)| <= DISCRIMINATOR_LEN + SchemaSize(ts)
    ensures (forall i :: 0 <= i < |ts| ==> IsFixed(ts[i])) ==> |EncodeAccount(disc, ts, vs)| == DISCRIMINATOR_LEN + SchemaSize(ts)
  {
    FieldsSize(ts, vs);
  }
}
