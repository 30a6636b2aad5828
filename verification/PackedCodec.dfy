/** Little-endian packed layouts, as `encoding/binary.Read` walks them.

    A layout is a tree of fixed-width fields, arrays and structs. `Walk` reads a buffer
    field by field with a running cursor and fails where the bytes run out; `Decode` is the
    value at an offset. The lemmas relate the walk to that value, to an encoder (the round
    trips) and to reading at an offset computed from the layout. */
module PackedCodec {
  import opened Products

  newtype byte = b: int | 0 <= b < 256

  /** The byte widths of the fixed-size integers (and of float32, carried as its bits). */
  type Width = w: int | 1 <= w <= 8 witness 1

  datatype Layout =
    | Uint(width: Width)
    | Sint(width: Width)
    | Repeat(count: nat, elem: Layout)
    | Struct(first: Layout, rest: Layout)
    | End

  datatype Value =
    | Num(n: int)
    | Items(items: seq<Value>)
    | Fields(first: Value, rest: Value)
    | Nil

  /** What `binary.Size` reports: no padding between fields. */
  function Size(l: Layout): nat {
    match l
    case Uint(w) => w
    case Sint(w) => w
    case Repeat(n, e) => Times(n, Size(e))
    case Struct(a, b) => Size(a) + Size(b)
    case End => 0
  }

  // ---- integers ------------------------------------------------------------

  function Pow256(w: nat): (p: int)
    ensures p > 0
  {
    if w == 0 then 1 else 256 * Pow256(w - 1)
  }

  /** The unsigned value of the w little-endian bytes at offset o. */
  function LittleEndian(buf: seq<byte>, o: nat, w: nat): (n: int)
    requires o + w <= |buf|
    ensures 0 <= n < Pow256(w)
    decreases |buf| - o
  {
    if w == 0 then 0 else buf[o] as int + 256 * LittleEndian(buf, o + 1, w - 1)
  }

  function ToLittleEndian(n: int, w: nat): (bs: seq<byte>)
    requires 0 <= n < Pow256(w)
    ensures |bs| == w
  {
    if w == 0 then [] else [(n % 256) as byte] + ToLittleEndian(n / 256, w - 1)
  }

  /** Two's complement: the upper half of the unsigned range is negative. */
  function Signed(u: int, w: Width): int {
    if 2 * u < Pow256(w) then u else u - Pow256(w)
  }

  function Unsigned(n: int, w: Width): int {
    if n < 0 then n + Pow256(w) else n
  }

  /** The bytes bs stand in the buffer at offset o. */
  predicate StandsAt(bs: seq<byte>, buf: seq<byte>, o: nat) {
    o + |bs| <= |buf| && forall i | 0 <= i < |bs| :: buf[o + i] == bs[i]
  }

  lemma StandsApart(x: seq<byte>, y: seq<byte>, buf: seq<byte>, o: nat)
    requires StandsAt(x + y, buf, o)
    ensures StandsAt(x, buf, o) && StandsAt(y, buf, o + |x|)
  {
    forall i | 0 <= i < |x| ensures buf[o + i] == x[i] {
      assert (x + y)[i] == x[i];
    }
    forall i | 0 <= i < |y| ensures buf[o + |x| + i] == y[i] {
      assert buf[o + (|x| + i)] == (x + y)[|x| + i];
    }
  }

  lemma StandsTogether(x: seq<byte>, y: seq<byte>, buf: seq<byte>, o: nat)
    requires StandsAt(x, buf, o) && StandsAt(y, buf, o + |x|)
    ensures StandsAt(x + y, buf, o)
  {
    forall i | 0 <= i < |x + y| ensures buf[o + i] == (x + y)[i] {
      if i >= |x| {
        assert buf[o + |x| + (i - |x|)] == y[i - |x|];
      }
    }
  }

  lemma {:induction false} LittleEndianOfBytes(n: int, w: nat, buf: seq<byte>, o: nat)
    requires 0 <= n < Pow256(w) && StandsAt(ToLittleEndian(n, w), buf, o)
    ensures LittleEndian(buf, o, w) == n
  {
    if w > 0 {
      StandsApart([(n % 256) as byte], ToLittleEndian(n / 256, w - 1), buf, o);
      assert buf[o + 0] == [(n % 256) as byte][0];
      LittleEndianOfBytes(n / 256, w - 1, buf, o + 1);
    }
  }

  lemma {:induction false} BytesOfLittleEndian(buf: seq<byte>, o: nat, w: nat)
    requires o + w <= |buf|
    ensures StandsAt(ToLittleEndian(LittleEndian(buf, o, w), w), buf, o)
    decreases w
  {
    if w > 0 {
      BytesOfLittleEndian(buf, o + 1, w - 1);
      var n := LittleEndian(buf, o, w);
      assert n % 256 == buf[o] as int && n / 256 == LittleEndian(buf, o + 1, w - 1);
      StandsTogether([buf[o]], ToLittleEndian(n / 256, w - 1), buf, o);
    }
  }

  /** The i-th base-256 digit of a number, the lowest first. */
  function Digit(n: nat, i: nat): nat {
    if i == 0 then n % 256 else Digit(n / 256, i - 1)
  }

  /** Little-endian: the byte at offset i is the i-th digit of the number. */
  lemma {:induction false} BytesAreDigits(buf: seq<byte>, o: nat, w: nat, i: nat)
    requires o + w <= |buf| && i < w
    ensures Digit(LittleEndian(buf, o, w), i) == buf[o + i] as nat
    decreases i
  {
    var n := LittleEndian(buf, o, w);
    assert n % 256 == buf[o] as int && n / 256 == LittleEndian(buf, o + 1, w - 1);
    if i > 0 {
      BytesAreDigits(buf, o + 1, w - 1, i - 1);
    }
  }

  // ---- reading and writing --------------------------------------------------

  /** The value of a layout at an offset: fields lie next to each other. */
  function Decode(l: Layout, buf: seq<byte>, o: nat): Value
    requires o + Size(l) <= |buf|
    decreases l, 0
  {
    match l
    case Uint(w) => Num(LittleEndian(buf, o, w))
    case Sint(w) => Num(Signed(LittleEndian(buf, o, w), w))
    case Repeat(n, e) => Items(DecodeItems(e, n, buf, o))
    case Struct(a, b) => Fields(Decode(a, buf, o), Decode(b, buf, o + Size(a)))
    case End => Nil
  }

  function DecodeItems(e: Layout, n: nat, buf: seq<byte>, o: nat): (vs: seq<Value>)
    requires o + Times(n, Size(e)) <= |buf|
    ensures |vs| == n
    decreases e, n + 1
  {
    if n == 0 then [] else [Decode(e, buf, o)] + DecodeItems(e, n - 1, buf, o + Size(e))
  }

  // ---- the walk -------------------------------------------------------------

  /** What was read and where the cursor then stands, or that the bytes ran out. */
  datatype Walked<T> = Done(value: T, end: nat) | RanOut

  function WalkInt(w: Width, buf: seq<byte>, o: nat): (r: Walked<int>)
    requires o <= |buf|
    ensures r.Done? ==> r.end <= |buf|
  {
    if |buf| - o < w then RanOut else Done(LittleEndian(buf, o, w), o + w)
  }

  /** Each part is read from where the cursor was left by the part before it. */
  function Walk(l: Layout, buf: seq<byte>, o: nat): (r: Walked<Value>)
    requires o <= |buf|
    ensures r.Done? ==> r.end <= |buf|
    decreases l, 0
  {
    match l
    case Uint(w) =>
      (match WalkInt(w, buf, o)
       case Done(u, end) => Done(Num(u), end)
       case RanOut => RanOut)
    case Sint(w) =>
      (match WalkInt(w, buf, o)
       case Done(u, end) => Done(Num(Signed(u, w)), end)
       case RanOut => RanOut)
    case Repeat(n, e) =>
      (match WalkItems(e, n, buf, o)
       case Done(vs, end) => Done(Items(vs), end)
       case RanOut => RanOut)
    case Struct(a, b) =>
      (match Walk(a, buf, o)
       case Done(x, mid) =>
         (match Walk(b, buf, mid)
          case Done(y, end) => Done(Fields(x, y), end)
          case RanOut => RanOut)
       case RanOut => RanOut)
    case End => Done(Nil, o)
  }

  function WalkItems(e: Layout, n: nat, buf: seq<byte>, o: nat): (r: Walked<seq<Value>>)
    requires o <= |buf|
    ensures r.Done? ==> r.end <= |buf|
    decreases e, n + 1
  {
    if n == 0 then Done([], o)
    else
      match Walk(e, buf, o)
      case Done(v, mid) =>
        (match WalkItems(e, n - 1, buf, mid)
         case Done(vs, end) => Done([v] + vs, end)
         case RanOut => RanOut)
      case RanOut => RanOut
  }

  /** The walk succeeds exactly if the layout's size is left; it then has the value and
      stands exactly that many bytes further on. */
  lemma {:induction false} WalkExactly(l: Layout, buf: seq<byte>, o: nat)
    requires o <= |buf|
    ensures Walk(l, buf, o) == if o + Size(l) <= |buf| then Done(Decode(l, buf, o), o + Size(l)) else RanOut
    decreases l, 0
  {
    hide LittleEndian, Signed;
    match l
    case Uint(w) =>
    case Sint(w) =>
    case Repeat(n, e) => WalkItemsExactly(e, n, buf, o);
    case Struct(a, b) =>
      WalkExactly(a, buf, o);
      if o + Size(a) <= |buf| {
        WalkExactly(b, buf, o + Size(a));
      }
    case End =>
  }

  lemma {:induction false} WalkItemsExactly(e: Layout, n: nat, buf: seq<byte>, o: nat)
    requires o <= |buf|
    ensures WalkItems(e, n, buf, o)
         == if o + Times(n, Size(e)) <= |buf| then Done(DecodeItems(e, n, buf, o), o + Times(n, Size(e))) else RanOut
    decreases e, n + 1
  {
    hide LittleEndian, Signed;
    if n > 0 {
      WalkExactly(e, buf, o);
      if o + Size(e) <= |buf| {
        WalkItemsExactly(e, n - 1, buf, o + Size(e));
      }
    }
  }

  /** The values a layout can hold. */
  predicate Fits(l: Layout, v: Value) {
    match l
    case Uint(w) => v.Num? && 0 <= v.n < Pow256(w)
    case Sint(w) => v.Num? && -Pow256(w) <= 2 * v.n < Pow256(w)
    case Repeat(k, e) => v.Items? && |v.items| == k && forall i | 0 <= i < k :: Fits(e, v.items[i])
    case Struct(a, b) => v.Fields? && Fits(a, v.first) && Fits(b, v.rest)
    case End => v.Nil?
  }

  predicate AllFit(e: Layout, vs: seq<Value>) {
    forall i | 0 <= i < |vs| :: Fits(e, vs[i])
  }

  function Encode(l: Layout, v: Value): (bs: seq<byte>)
    requires Fits(l, v)
    ensures |bs| == Size(l)
    decreases l, 0
  {
    match l
    case Uint(w) => ToLittleEndian(v.n, w)
    case Sint(w) => ToLittleEndian(Unsigned(v.n, w), w)
    case Repeat(n, e) => EncodeItems(e, v.items)
    case Struct(a, b) => Encode(a, v.first) + Encode(b, v.rest)
    case End => []
  }

  function EncodeItems(e: Layout, vs: seq<Value>): (bs: seq<byte>)
    requires AllFit(e, vs)
    ensures |bs| == Times(|vs|, Size(e))
    decreases e, |vs| + 1
  {
    if vs == [] then [] else Encode(e, vs[0]) + EncodeItems(e, vs[1..])
  }

  // ---- round trips ----------------------------------------------------------

  /** Decoding undoes encoding, wherever the encoding stands in the buffer. */
  lemma {:induction false} DecodeAfterEncode(l: Layout, v: Value, buf: seq<byte>, o: nat)
    requires Fits(l, v) && StandsAt(Encode(l, v), buf, o)
    ensures Decode(l, buf, o) == v
    decreases l, 0
  {
    hide LittleEndian, ToLittleEndian, StandsAt, Pow256;
    match l
    case Uint(w) => LittleEndianOfBytes(v.n, w, buf, o);
    case Sint(w) => LittleEndianOfBytes(Unsigned(v.n, w), w, buf, o);
    case Repeat(n, e) => DecodeItemsAfterEncode(e, v.items, buf, o);
    case Struct(a, b) =>
      StandsApart(Encode(a, v.first), Encode(b, v.rest), buf, o);
      DecodeAfterEncode(a, v.first, buf, o);
      DecodeAfterEncode(b, v.rest, buf, o + Size(a));
    case End =>
  }

  lemma {:induction false} DecodeItemsAfterEncode(e: Layout, vs: seq<Value>, buf: seq<byte>, o: nat)
    requires AllFit(e, vs)
    requires StandsAt(EncodeItems(e, vs), buf, o)
    ensures DecodeItems(e, |vs|, buf, o) == vs
    decreases e, |vs| + 1
  {
    if vs != [] {
      var v, tl := vs[0], vs[1..];
      StandsApart(Encode(e, v), EncodeItems(e, tl), buf, o);
      DecodeAfterEncode(e, v, buf, o);
      DecodeItemsAfterEncode(e, tl, buf, o + Size(e));
      assert vs == [v] + tl;
    }
  }

  lemma UnsignedOfSigned(u: int, w: Width)
    requires 0 <= u < Pow256(w)
    ensures Unsigned(Signed(u, w), w) == u
    ensures -Pow256(w) <= 2 * Signed(u, w) < Pow256(w)
  {
  }

  /** Encoding undoes decoding: every byte string of the right length is some value,
      and encoding that value gives back those very bytes. */
  lemma {:induction false} EncodeAfterDecode(l: Layout, buf: seq<byte>, o: nat)
    requires o + Size(l) <= |buf|
    ensures Fits(l, Decode(l, buf, o))
    ensures StandsAt(Encode(l, Decode(l, buf, o)), buf, o)
    decreases l, 1
  {
    match l
    case Uint(w) => BytesOfLittleEndian(buf, o, w);
    case Sint(w) =>
      BytesOfLittleEndian(buf, o, w);
      UnsignedOfSigned(LittleEndian(buf, o, w), w);
    case Repeat(n, e) => EncodeItemsAfterDecode(e, n, buf, o);
    case Struct(a, b) => EncodeFieldsAfterDecode(a, b, buf, o);
    case End =>
  }

  lemma {:induction false} EncodeFieldsAfterDecode(a: Layout, b: Layout, buf: seq<byte>, o: nat)
    requires o + Size(a) + Size(b) <= |buf|
    ensures Fits(a, Decode(a, buf, o)) && Fits(b, Decode(b, buf, o + Size(a)))
    ensures StandsAt(Encode(a, Decode(a, buf, o)) + Encode(b, Decode(b, buf, o + Size(a))), buf, o)
    decreases Struct(a, b), 0
  {
    EncodeAfterDecode(a, buf, o);
    EncodeAfterDecode(b, buf, o + Size(a));
    StandsTogether(Encode(a, Decode(a, buf, o)), Encode(b, Decode(b, buf, o + Size(a))), buf, o);
  }

  lemma {:induction false} EncodeItemsAfterDecode(e: Layout, n: nat, buf: seq<byte>, o: nat)
    requires o + Times(n, Size(e)) <= |buf|
    ensures AllFit(e, DecodeItems(e, n, buf, o))
    ensures StandsAt(EncodeItems(e, DecodeItems(e, n, buf, o)), buf, o)
    decreases e, n + 2
  {
    if n > 0 {
      var v, tl := Decode(e, buf, o), DecodeItems(e, n - 1, buf, o + Size(e));
      EncodeAfterDecode(e, buf, o);
      EncodeItemsAfterDecode(e, n - 1, buf, o + Size(e));
      assert DecodeItems(e, n, buf, o) == [v] + tl;
      assert ([v] + tl)[1..] == tl;
      StandsTogether(Encode(e, v), EncodeItems(e, tl), buf, o);
    }
  }

  // ---- direct offsets -------------------------------------------------------

  /** A position inside a layout: a struct's i-th field or an array's i-th element. */
  datatype Path = Here | Into(i: nat, next: Path)

  predicate ValidPath(l: Layout, p: Path)
    decreases l
  {
    match p
    case Here => true
    case Into(i, q) =>
      match l
      case Repeat(n, e) => i < n && ValidPath(e, q)
      case Struct(a, b) => if i == 0 then ValidPath(a, q) else ValidPath(b, Into(i - 1, q))
      case _ => false
  }

  /** The layout found at a path. */
  function Sub(l: Layout, p: Path): Layout
    requires ValidPath(l, p)
    decreases l
  {
    match p
    case Here => l
    case Into(i, q) =>
      match l
      case Repeat(n, e) => Sub(e, q)
      case Struct(a, b) => if i == 0 then Sub(a, q) else Sub(b, Into(i - 1, q))
  }

  /** The byte offset of a path, from the layout alone. */
  function Offset(l: Layout, p: Path): nat
    requires ValidPath(l, p)
    decreases l
  {
    match p
    case Here => 0
    case Into(i, q) =>
      match l
      case Repeat(n, e) => Times(i, Size(e)) + Offset(e, q)
      case Struct(a, b) => if i == 0 then Offset(a, q) else Size(a) + Offset(b, Into(i - 1, q))
  }

  /** The part of a decoded value at a path. */
  function Pick(v: Value, p: Path): Value
    decreases v
  {
    match p
    case Here => v
    case Into(i, q) =>
      match v
      case Items(vs) => if i < |vs| then Pick(vs[i], q) else Nil
      case Fields(x, y) => if i == 0 then Pick(x, q) else Pick(y, Into(i - 1, q))
      case _ => Nil
  }

  lemma {:induction false} DecodeItemsAt(e: Layout, n: nat, buf: seq<byte>, o: nat, i: nat)
    requires i < n && o + Times(n, Size(e)) <= |buf|
    ensures Times(i, Size(e)) + Size(e) <= Times(n, Size(e))
    ensures DecodeItems(e, n, buf, o)[i] == Decode(e, buf, o + Times(i, Size(e)))
    decreases n
  {
    if i > 0 {
      var v, tl := Decode(e, buf, o), DecodeItems(e, n - 1, buf, o + Size(e));
      DecodeItemsAt(e, n - 1, buf, o + Size(e), i - 1);
      assert DecodeItems(e, n, buf, o) == [v] + tl;
      assert ([v] + tl)[i] == tl[i - 1];
    }
  }

  /** Picking a part out of the whole decoded value is decoding that part at its offset. */
  lemma {:induction false} PickIsDecodeAtOffset(l: Layout, buf: seq<byte>, o: nat, p: Path)
    requires o + Size(l) <= |buf| && ValidPath(l, p)
    ensures Offset(l, p) + Size(Sub(l, p)) <= Size(l)
    ensures Pick(Decode(l, buf, o), p) == Decode(Sub(l, p), buf, o + Offset(l, p))
    decreases l, 0
  {
    hide LittleEndian, Signed;
    match p
    case Here =>
    case Into(i, q) =>
      match l
      case Repeat(n, e) => PickItemIsDecodeAtOffset(e, n, buf, o, i, q);
      case Struct(a, b) =>
        if i == 0 {
          PickIsDecodeAtOffset(a, buf, o, q);
        } else {
          PickIsDecodeAtOffset(b, buf, o + Size(a), Into(i - 1, q));
        }
  }

  lemma {:induction false} PickItemIsDecodeAtOffset(e: Layout, n: nat, buf: seq<byte>, o: nat, i: nat, q: Path)
    requires o + Times(n, Size(e)) <= |buf| && i < n && ValidPath(e, q)
    ensures Times(i, Size(e)) + Offset(e, q) + Size(Sub(e, q)) <= Times(n, Size(e))
    ensures Pick(DecodeItems(e, n, buf, o)[i], q) == Decode(Sub(e, q), buf, o + Times(i, Size(e)) + Offset(e, q))
    decreases e, 1
  {
    DecodeItemsAt(e, n, buf, o, i);
    PickIsDecodeAtOffset(e, buf, o + Times(i, Size(e)), q);
  }

  /** What is left of a struct after its first i fields, and how many bytes they take. */
  function Tail(l: Layout, i: nat): Layout {
    if i == 0 then l else match Tail(l, i - 1) case Struct(_, r) => r case _ => End
  }

  function Before(l: Layout, i: nat): nat {
    if i == 0 then 0 else Before(l, i - 1) + (match Tail(l, i - 1) case Struct(f, _) => Size(f) case _ => 0)
  }

  lemma {:induction false} TailOfRest(l: Layout, i: nat)
    requires l.Struct?
    ensures Tail(l, i + 1) == Tail(l.rest, i)
    ensures Before(l, i + 1) == Size(l.first) + Before(l.rest, i)
  {
    if i > 0 {
      TailOfRest(l, i - 1);
    }
  }

  /** The offset of a struct's i-th field is the sizes before it; the sizes add up. */
  lemma {:induction false} FieldOffset(l: Layout, i: nat, q: Path)
    requires Tail(l, i).Struct? && ValidPath(Tail(l, i).first, q)
    ensures ValidPath(l, Into(i, q)) && Sub(l, Into(i, q)) == Sub(Tail(l, i).first, q)
    ensures Offset(l, Into(i, q)) == Before(l, i) + Offset(Tail(l, i).first, q)
    decreases i
  {
    if i > 0 {
      if !l.Struct? {
        NoTail(l, i);
      }
      TailOfRest(l, i - 1);
      FieldOffset(l.rest, i - 1, q);
    }
  }

  lemma {:induction false} NoTail(l: Layout, i: nat)
    requires !l.Struct? && i > 0
    ensures Tail(l, i) == End
  {
    if i > 1 {
      NoTail(l, i - 1);
    }
  }

  lemma {:induction false} SizeIsBeforeAndTail(l: Layout, i: nat)
    requires Tail(l, i).Struct?
    ensures Size(l) == Before(l, i) + Size(Tail(l, i))
  {
    if i > 0 {
      SizeIsBeforeAndTail(l, i - 1);
    }
  }

  /** A struct's i-th field lies at byte offset off and has layout f. */
  predicate FieldIs(l: Layout, i: nat, off: nat, f: Layout) {
    Tail(l, i).Struct? && Tail(l, i).first == f && Before(l, i) == off
  }

  /** The integer at a path of a decoded value. */
  function IntAt(v: Value, p: Path): int {
    match Pick(v, p)
    case Num(n) => n
    case _ => 0
  }

  /** A field of a group of fields, and an element of an array in such a group. */
  function Field(g: nat, i: nat): Path {
    Into(g, Into(i, Here))
  }

  function Cell(g: nat, i: nat, k: nat): Path {
    Into(g, Into(i, Into(k, Here)))
  }

  /** An unsigned field of a decoded struct is its little-endian bytes at its offset. */
  lemma UintField(l: Layout, buf: seq<byte>, o: nat, g: nat, gOff: nat, m: Layout, i: nat, off: nat, w: Width)
    requires o + Size(l) <= |buf| && FieldIs(l, g, gOff, m) && FieldIs(m, i, off, Uint(w))
    ensures gOff + off + w <= Size(l)
    ensures IntAt(Decode(l, buf, o), Field(g, i)) == LittleEndian(buf, o + gOff + off, w)
  {
    FieldOffset(m, i, Here);
    FieldOffset(l, g, Into(i, Here));
    PickIsDecodeAtOffset(l, buf, o, Field(g, i));
  }

  lemma SintField(l: Layout, buf: seq<byte>, o: nat, g: nat, gOff: nat, m: Layout, i: nat, off: nat, w: Width)
    requires o + Size(l) <= |buf| && FieldIs(l, g, gOff, m) && FieldIs(m, i, off, Sint(w))
    ensures gOff + off + w <= Size(l)
    ensures IntAt(Decode(l, buf, o), Field(g, i)) == Signed(LittleEndian(buf, o + gOff + off, w), w)
  {
    FieldOffset(m, i, Here);
    FieldOffset(l, g, Into(i, Here));
    PickIsDecodeAtOffset(l, buf, o, Field(g, i));
  }

  /** The same for an element of an array. */
  lemma UintCell(l: Layout, buf: seq<byte>, o: nat, g: nat, gOff: nat, m: Layout, i: nat, off: nat, n: nat, w: Width, k: nat)
    requires o + Size(l) <= |buf| && FieldIs(l, g, gOff, m) && FieldIs(m, i, off, Repeat(n, Uint(w))) && k < n
    ensures gOff + off + Times(k, w) + w <= Size(l)
    ensures IntAt(Decode(l, buf, o), Cell(g, i, k)) == LittleEndian(buf, o + gOff + off + Times(k, w), w)
  {
    FieldOffset(m, i, Into(k, Here));
    FieldOffset(l, g, Into(i, Into(k, Here)));
    assert Offset(Repeat(n, Uint(w)), Into(k, Here)) == Times(k, w);
    PickIsDecodeAtOffset(l, buf, o, Cell(g, i, k));
  }
}
