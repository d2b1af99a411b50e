/** Transaction ids: a 48-bit creation time in milliseconds above 80 further bits, the lowest eight of
    which hold the operation type. Ids are issued from a clock that counts in simulations. */
module Transactions {
  import opened Messages
  import opened Bits

  const TTL_MS := 60_000
  const U64_MAX := P64 - 1

  type Ulid = x: nat | x < P128 witness 0

  datatype TxType = Connect | Put | Get | Subscribe | Update

  datatype Transaction = Transaction(id: Ulid, parent: Option<Ulid>)

  // ---------------------------------------------------------------- laying out an id

  predicate RandomBytes(b: seq<nat>) {
    |b| == 10 && IsBytes(b)
  }

  /** The shifts and ors that build an id. */
  function UlidWord(time: nat, b: seq<nat>): nat
    requires RandomBytes(b)
  {
    Or(Or(Or(Shl128(time, 80), Shl(b[0], 72)), Shl(BigEndian(b[1..9]), 8)), Shl(b[9], 56))
  }

  lemma OrHigh(x: nat, low: nat, k: nat)
    requires low < Pow2(k)
    ensures Or(Shl(x, k), low) == Shl(x, k) + low
  {
    OrSplit(x, 0, 0, low, k);
    ShlIsProduct(0, k);
  }

  /** The top of a shifted time is cut off at 48 bits. */
  lemma TimeIsCut(time: nat)
    ensures Shl128(time, 80) == (time % P48) * P80
  {
    hide Pow2, Shl;
    Powers();
    ShlIsProduct(time, 80);
    var q, r := time / P48, time % P48;
    assert time * P80 == q * P128 + r * P80;
  }

  lemma TwoBytes(x: nat, y: nat)
    ensures BigEndian([x, y]) == x * P8 + y
  {
    assert [x, y][..1] == [x] && [x][..0] == [];
    assert BigEndian([]) == 0;
    assert BigEndian([x]) == x;
  }

  /** The eight middle bytes: the second of them is byte 2. */
  lemma MiddleBytes(b: seq<nat>)
    requires RandomBytes(b)
    ensures BigEndian(b[1..9]) == (b[1] * P8 + b[2]) * P48 + BigEndian(b[3..9])
    ensures BigEndian(b[3..9]) < P48
  {
    Powers();
    hide Pow2;
    assert b[1..9] == [b[1], b[2]] + b[3..9];
    BigEndianSplit([b[1], b[2]], b[3..9]);
    BigEndianBound(b[3..9]);
    TwoBytes(b[1], b[2]);
  }

  lemma TopBytes(time: nat, b0: nat)
    requires b0 < P8
    ensures Or(Shl128(time, 80), Shl(b0, 72)) == (time % P48 * P8 + b0) * P72
  {
    hide Or, Shl, Pow2;
    Powers();
    TimeIsCut(time);
    ShlIsProduct(time % P48, 80);
    ShlIsProduct(b0, 72);
    OrHigh(time % P48, Shl(b0, 72), 80);
  }

  lemma MiddleOr(g: nat, mid: nat)
    requires mid < P64
    ensures Or(g * P72, Shl(mid, 8)) == g * P72 + mid * P8
  {
    hide Or, Shl, Pow2;
    Powers();
    ShlIsProduct(g, 72);
    ShlIsProduct(mid, 8);
    OrHigh(g, Shl(mid, 8), 72);
  }

  /** What the word is: the time, then bytes 0 and 1, then bytes 2 and 9 or-ed together, then bytes 3 to
      8, then a zero byte. Byte 9 does not reach the bottom of the word. */
  lemma UlidLayout(time: nat, b: seq<nat>)
    requires RandomBytes(b)
    ensures UlidWord(time, b)
         == (((time % P48 * P8 + b[0]) * P8 + b[1]) * P8 + Or(b[2], b[9])) * P56 + BigEndian(b[3..9]) * P8
    ensures Or(b[2], b[9]) < P8 && BigEndian(b[3..9]) < P48
  {
    hide Or, Shl, BigEndian, Shl128;
    var mid, low := BigEndian(b[1..9]), BigEndian(b[3..9]);
    MiddleBytes(b);
    TopBytes(time, b[0]);
    var g := time % P48 * P8 + b[0];
    MiddleOr(g, mid);
    LastByte(g * P8 + b[1], low * P8, b[2], b[9]);
  }

  /** Or-ing the last byte in at bit 56 meets the byte that is already there. */
  lemma LastByte(h: nat, low: nat, b2: nat, b9: nat)
    requires low < P56 && b2 < P8 && b9 < P8
    ensures Or((h * P8 + b2) * P56 + low, Shl(b9, 56)) == (h * P8 + Or(b2, b9)) * P56 + low
    ensures Or(b2, b9) < P8
  {
    hide Or, Shl, Pow2;
    Powers();
    ShlIsProduct(h * P8 + b2, 56);
    ShlIsProduct(Or(h * P8 + b2, b9), 56);
    OrSplit(h * P8 + b2, low, b9, 0, 56);
    OrNothing(low);
    OrSplit(h, b2, 0, b9, 8);
    OrNothing(h);
    ShlIsProduct(h, 8);
    ShlIsProduct(0, 8);
  }

  lemma OrNothing(x: nat)
    ensures Or(x, 0) == x
  {
  }

  lemma WordFits(time: nat, b: seq<nat>)
    requires RandomBytes(b)
    ensures UlidWord(time, b) < P128 && UlidWord(time, b) / P80 == time % P48 && UlidWord(time, b) % P8 == 0
  {
    hide UlidWord, Or, BigEndian, Pow2;
    UlidLayout(time, b);
  }

  function NewUlid(time: nat, b: seq<nat>): (id: Ulid)
    requires RandomBytes(b)
    ensures id / P80 == time % P48 && id % P8 == 0
  {
    WordFits(time, b);
    UlidWord(time, b)
  }

  lemma SameFields(t: nat, x: nat, y: nat, o: nat, l: nat, t': nat, x': nat, y': nat, o': nat, l': nat)
    requires x < P8 && y < P8 && o < P8 && l < P48 && x' < P8 && y' < P8 && o' < P8 && l' < P48
    ensures (((t * P8 + x) * P8 + y) * P8 + o) * P56 + l * P8 == (((t' * P8 + x') * P8 + y') * P8 + o') * P56 + l' * P8
       <==> t == t' && x == x' && y == y' && o == o' && l == l'
  {
    var h, h' := ((t * P8 + x) * P8 + y) * P8 + o, ((t' * P8 + x') * P8 + y') * P8 + o';
    if h * P56 + l * P8 == h' * P56 + l' * P8 {
      assert h == h' && l == l';
      assert (t * P8 + x) * P8 + y == (t' * P8 + x') * P8 + y';
      assert t * P8 + x == t' * P8 + x';
    }
  }

  /** Two ids coincide exactly when their times agree to 48 bits and so do bytes 0, 1 and 3 to 8 and the
      bits set in byte 2 or byte 9: of the ten random bytes only eight bytes' worth reach the id. */
  lemma SameUlidIff(t: nat, b: seq<nat>, t': nat, b': seq<nat>)
    requires RandomBytes(b) && RandomBytes(b')
    ensures NewUlid(t, b) == NewUlid(t', b')
       <==> && t % P48 == t' % P48 && b[0] == b'[0] && b[1] == b'[1]
            && Or(b[2], b[9]) == Or(b'[2], b'[9]) && b[3..9] == b'[3..9]
  {
    hide UlidWord, Or, BigEndian, Pow2;
    UlidLayout(t, b);
    UlidLayout(t', b');
    BigEndianInjective(b[3..9], b'[3..9]);
    var o, o' := Or(b[2], b[9]), Or(b'[2], b'[9]);
    SameFields(t % P48, b[0], b[1], o, BigEndian(b[3..9]), t' % P48, b'[0], b'[1], o', BigEndian(b'[3..9]));
  }

  /** Different random bytes, one id: the documented 80 bits of randomness are not all used. */
  lemma DifferentBytesOneUlid(t: nat)
    ensures var b, b' := [0, 0, 1, 0, 0, 0, 0, 0, 0, 0], [0, 0, 0, 0, 0, 0, 0, 0, 0, 1];
            b != b' && RandomBytes(b) && RandomBytes(b') && NewUlid(t, b) == NewUlid(t, b')
  {
    var b, b' := [0, 0, 1, 0, 0, 0, 0, 0, 0, 0], [0, 0, 0, 0, 0, 0, 0, 0, 0, 1];
    hide NewUlid;
    assert b[3..9] == b'[3..9] && Or(1, 0) == Or(0, 1);
    assert b[2] != b'[2];
    SameUlidIff(t, b, t, b');
  }

  // ---------------------------------------------------------------- time and type in an id

  function TypeByte(ty: TxType): (r: nat)
    ensures r < 5
  {
    match ty case Connect => 0 case Put => 1 case Get => 2 case Subscribe => 3 case Update => 4
  }

  function TypeOfByte(b: nat): Option<TxType> {
    match b
    case 0 => Some(Connect) case 1 => Some(Put) case 2 => Some(Get)
    case 3 => Some(Subscribe) case 4 => Some(Update) case _ => None
  }

  const TYPE_MASK := P128 - P8

  lemma HighMask(id: nat)
    requires id < P128
    ensures And(id, TYPE_MASK) == id - id % P8
  {
    hide And, Shl, Pow2;
    Powers();
    var hi := id / P8;
    ShlIsProduct(hi, 8);
    ShlIsProduct(P120 - 1, 8);
    AndSplit(hi, id % P8, P120 - 1, 0, 8);
    AndOnes(hi, 120);
    ShlIsProduct(And(hi, P120 - 1), 8);
    AndNothing(id % P8);
  }

  lemma AndNothing(x: nat)
    ensures And(x, 0) == 0 && And(0, x) == 0
  {
  }

  lemma LowMask(id: nat, k: nat)
    ensures And(id, Pow2(k) - 1) == id % Pow2(k)
  {
    hide And, Shl, Pow2;
    var hi, low := id / Pow2(k), id % Pow2(k);
    ShlIsProduct(hi, k);
    ShlIsProduct(0, k);
    AndSplit(hi, low, 0, Pow2(k) - 1, k);
    AndOnes(low, k);
    AndNothing(hi);
  }

  function TypedWord(ty: TxType, id: Ulid): nat {
    Or(And(id, TYPE_MASK), TypeByte(ty))
  }

  function TypeOfWord(id: nat): Option<TxType> {
    TypeOfByte(And(id, 0xFF))
  }

  /** Writing a type into an id replaces its last byte and nothing else, and can be read back. */
  lemma TypeIsWritten(ty: TxType, id: Ulid)
    ensures TypedWord(ty, id) == id - id % P8 + TypeByte(ty) < P128
    ensures TypedWord(ty, id) / P80 == id / P80
    ensures TypeOfWord(TypedWord(ty, id)) == Some(ty)
  {
    hide TypeByte, TypeOfByte;
    var low, high := TypeByte(ty), id / P8;
    TypedWordIs(ty, id);
    hide TypedWord, And;
    LowByte(TypedWord(ty, id));
    KeepsTime(id, low);
    LastDigit(high, low);
    TypeByteReadBack(ty);
  }

  lemma {:induction false} TypedWordIs(ty: TxType, id: Ulid)
    ensures TypedWord(ty, id) == id - id % P8 + TypeByte(ty) == id / P8 * P8 + TypeByte(ty) < P128
  {
    hide And, Or, Shl, Pow2, TypeByte;
    Powers();
    HighMask(id);
    ShlIsProduct(id / P8, 8);
    OrHigh(id / P8, TypeByte(ty), 8);
  }

  lemma {:induction false} TypeByteReadBack(ty: TxType)
    ensures TypeOfByte(TypeByte(ty)) == Some(ty)
  {
  }

  lemma KeepsTime(id: Ulid, low: nat)
    requires low < P8
    ensures (id - id % P8 + low) / P80 == id / P80
  {
    var q, r := id / P80, id % P80;
    var s := r / P8;
    LastDigit(q * P72 + s, r % P8);
    FirstDigit(q, s * P8 + low);
  }

  lemma LastDigit(k: nat, v: nat)
    requires v < P8
    ensures (k * P8 + v) % P8 == v
  {
  }

  lemma FirstDigit(q: nat, r: nat)
    requires r < P80
    ensures (q * P80 + r) / P80 == q
  {
  }

  /** `Transaction::update`. */
  /** The numbers the types are written as. */
  lemma {:induction false} TypeNumbers(ty: TxType, id: Ulid)
    ensures TypedWord(ty, id) % 256 == match ty { case Connect => 0 case Put => 1 case Get => 2 case Subscribe => 3 case Update => 4 }
  {
    hide And, Or;
    TypeIsWritten(ty, id);
    LastDigit(id / P8, TypeByte(ty));
  }

  function Typed(ty: TxType, id: Ulid, parent: Option<Ulid>): (tx: Transaction)
    ensures Timestamp(tx) == id / P80 && TypeOf(tx) == Some(ty) && tx.parent == parent
  {
    TypeIsWritten(ty, id);
    Transaction(TypedWord(ty, id), parent)
  }

  function TypeOf(tx: Transaction): Option<TxType> {
    TypeOfWord(tx.id)
  }

  lemma LowByte(x: nat)
    ensures And(x, 0xFF) == x % P8
  {
    Pow8();
    LowMask(x, 8);
  }

  function Timestamp(tx: Transaction): nat {
    tx.id / P80
  }

  function Elapsed(tx: Transaction, now: nat): nat {
    if now < Timestamp(tx) then 0 else now - Timestamp(tx)
  }

  predicate TimedOut(tx: Transaction, now: nat) {
    Elapsed(tx, now) >= TTL_MS
  }

  predicate Before(a: Transaction, b: Transaction) {
    a.id < b.id
  }

  /** Ids order by time first. */
  lemma OlderIsBefore(a: Transaction, b: Transaction)
    ensures Timestamp(a) < Timestamp(b) ==> Before(a, b)
    ensures Before(a, b) ==> Timestamp(a) <= Timestamp(b)
  {
  }

  // ---------------------------------------------------------------- cutoffs

  function CutoffTime(time: nat, multiplier: nat): nat {
    var ttl := TTL_MS * multiplier;
    if time < ttl then 0 else time - ttl
  }

  const TIMESTAMP_MASK := P64 - 1

  function CutoffWord(id: Ulid, multiplier: nat): nat {
    Or(And(id, TIMESTAMP_MASK), Shl128(CutoffTime(id / P80, multiplier), 80))
  }

  /** The mask keeps 64 of the 80 bits below the time. */
  lemma CutoffLayout(id: Ulid, multiplier: nat)
    ensures CutoffWord(id, multiplier) == CutoffTime(id / P80, multiplier) * P80 + id % P64 < P128
  {
    hide And, Or, Shl, Pow2, Shl128;
    var epoch := CutoffTime(id / P80, multiplier);
    Powers();
    LowMask(id, 64);
    TimeIsCut(epoch);
    ShlIsProduct(epoch, 80);
    OrHigh(epoch, id % P64, 80);
    OrCommutes(epoch * P80, id % P64);
  }

  lemma {:induction false} OrCommutes(x: nat, y: nat)
    ensures Or(x, y) == Or(y, x)
    decreases x + y
  {
    if x != 0 && y != 0 {
      OrCommutes(x / 2, y / 2);
    }
  }

  /** `ttl_transaction_with_multiplier`, for an id just drawn. */
  function Cutoff(id: Ulid, multiplier: nat): (tx: Transaction)
    ensures Timestamp(tx) == CutoffTime(id / P80, multiplier) && tx.parent == None
  {
    CutoffLayout(id, multiplier);
    Transaction(CutoffWord(id, multiplier), None)
  }

  /** Comparing with a cutoff is comparing ages, up to one millisecond: what is not after the cutoff has
      run for the whole allowance, and what has run for longer is before the cutoff. */
  lemma CutoffIsAge(tx: Transaction, id: Ulid, multiplier: nat)
    requires id / P80 >= TTL_MS * multiplier
    ensures !Before(Cutoff(id, multiplier), tx) ==> Timestamp(tx) + TTL_MS * multiplier <= id / P80
    ensures Timestamp(tx) + TTL_MS * multiplier < id / P80 ==> Before(tx, Cutoff(id, multiplier))
  {
    OlderIsBefore(tx, Cutoff(id, multiplier));
    OlderIsBefore(Cutoff(id, multiplier), tx);
  }

  /** Within the first allowance after time zero nothing that was created later is before the cutoff. */
  lemma EarlyCutoff(tx: Transaction, id: Ulid, multiplier: nat)
    requires id / P80 < TTL_MS * multiplier
    ensures Timestamp(tx) > 0 ==> Before(Cutoff(id, multiplier), tx)
  {
    OlderIsBefore(Cutoff(id, multiplier), tx);
  }
}
