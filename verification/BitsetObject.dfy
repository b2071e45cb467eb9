/** Class Bitset of util/bitset.cc: a fixed number of bits kept in bytes.  The bits behind the last
    one are always zero; comparing, counting and the test for no bit rely on that. */
module BitsetObject {
  import opened Bytes
  import opened Outcome
  import F = FlashBlock

  /** DIVCEIL(bits, 8) */
  function AllocSize(bits: nat): nat {
    if bits == 0 then 0 else (bits - 1) / 8 + 1
  }

  /** The first n bits. */
  ghost function Bits(data: seq<Byte>, n: nat): (s: seq<bool>)
    requires n <= 8 * |data|
    ensures |s| == n
  {
    seq(n, i requires 0 <= i < n => Bit(data[i / 8], i % 8))
  }

  ghost predicate Padded(data: seq<Byte>, n: nat) {
    forall i: nat {:trigger Bit(data[i / 8], i % 8)} :: n <= i < 8 * |data| ==> !Bit(data[i / 8], i % 8)
  }

  /** Bits and bytes: bit i is bit i % 8 of byte i / 8. */
  lemma Place(i: nat, j: nat, k: nat)
    requires k < 8
    ensures i == 8 * j + k <==> i / 8 == j && i % 8 == k
  {
  }

  lemma OnesNext(v: Byte, n: nat)
    requires n <= 8
    ensures Ones(v, n) == if n == 0 then 0 else Ones(v, n - 1) + One(Bit(v, n - 1))
  {
    hide Bit;
  }

  lemma CountNext(data: seq<Byte>, n: nat)
    requires 0 < n <= 8 * |data|
    ensures F.Count(Bits(data, n)) == F.Count(Bits(data, n - 1)) + One(Bit(data[(n - 1) / 8], (n - 1) % 8))
  {
    hide Bit;
    var s := Bits(data, n);
    assert s[..|s| - 1] == Bits(data, n - 1);
  }

  lemma {:induction false} CountByte(data: seq<Byte>, i: nat, n: nat)
    requires i < |data| && n <= 8
    ensures F.Count(Bits(data, 8 * i + n)) == F.Count(Bits(data, 8 * i)) + Ones(data[i], n)
    decreases n
  {
    hide Bit, F.Count, Ones;
    OnesNext(data[i], n);
    if n > 0 {
      CountByte(data, i, n - 1);
      Place(8 * i + n - 1, i, n - 1);
      CountNext(data, 8 * i + n);
    }
  }

  lemma NoneCounted(data: seq<Byte>)
    ensures F.Count(Bits(data, 0)) == 0
  {
  }

  lemma {:induction false} CountPadding(data: seq<Byte>, n: nat, m: nat)
    requires n <= m <= 8 * |data| && Padded(data, n)
    ensures F.Count(Bits(data, m)) == F.Count(Bits(data, n))
    decreases m
  {
    hide Bit, F.Count;
    if n < m {
      CountPadding(data, n, m - 1);
      CountNext(data, m);
    }
  }

  class Bitset {
    const dataSize: nat
    const allocSize: nat
    const data: array<Byte>

    ghost predicate Valid()
      reads data
    {
      allocSize == AllocSize(dataSize) == data.Length && Padded(data[..], dataSize)
    }

    ghost function View(): (s: seq<bool>)
      requires Valid()
      reads data
      ensures |s| == dataSize
    {
      Bits(data[..], dataSize)
    }

    /** All bits are zero. */
    constructor (size: nat)
      ensures Valid() && fresh(data) && View() == seq(size, _ => false)
    {
      dataSize, allocSize := size, AllocSize(size);
      data := new Byte[AllocSize(size)](_ => 0);
    }

    method Test(idx: nat) returns (r: bool)
      requires Valid() && idx < dataSize
      ensures r == View()[idx]
    {
      r := data[idx / 8] & Mask(idx % 8) != 0;
    }

    /** Whether all bits are set.  The loop bound wraps around for a bitset without bits. */
    method All() returns (r: Result<bool>)
      requires Valid()
      ensures r.Panic? <==> dataSize == 0
      ensures r.Ok? ==> (r.value <==> forall i :: 0 <= i < dataSize ==> View()[i])
    {
      if allocSize == 0 {
        return Panic(PastTheTable);
      }
      hide Bits, Both, High;
      var ret: Byte := 0xFF;
      var used := dataSize + 8 - allocSize * 8;
      for i := 0 to allocSize - 1
        invariant ret == 0xFF <==> forall j :: 0 <= j < i ==> data[j] == 0xFF
      {
        AndFull(ret, data[i]);
        ret := Both(ret, data[i]);
      }
      var last := data[allocSize - 1] | High(used);
      AndFull(ret, last);
      ret := Both(ret, last);
      AllBits(data[..], dataSize);
      assert View() == Bits(data[..], dataSize);
      r := Ok(ret == 0xFF);
    }

    method None() returns (r: bool)
      requires Valid()
      ensures r <==> forall i :: 0 <= i < dataSize ==> !View()[i]
    {
      var ret: Byte := 0;
      for i := 0 to allocSize
        invariant ret == 0 <==> forall j :: 0 <= j < i ==> data[j] == 0
      {
        OrEmpty(ret, data[i]);
        ret := ret | data[i];
      }
      NoBits(data[..], dataSize);
      assert View() == Bits(data[..], dataSize);
      r := ret == 0;
    }

    method Any() returns (r: bool)
      requires Valid()
      ensures r <==> exists i :: 0 <= i < dataSize && View()[i]
    {
      var none := None();
      r := !none;
    }

    /** The number of bits that are set. */
    method Count() returns (count: nat)
      requires Valid()
      ensures count == F.Count(View())
    {
      hide PopCount, Ones, Padded, F.Count, Bits;
      count := 0;
      NoneCounted(data[..]);
      for i := 0 to allocSize
        invariant count == F.Count(Bits(data[..], 8 * i))
      {
        PopCountOnes(data[i]);
        CountByte(data[..], i, 8);
        count := count + PopCount(data[i]) as nat;
      }
      CountPadding(data[..], dataSize, 8 * allocSize);
    }

    /** data[i] takes a new value whose bits behind the last one are zero. */
    method Store(i: nat, b: Byte)
      requires Valid() && i < allocSize
      requires forall k: nat :: k < 8 && dataSize <= 8 * i + k ==> !Bit(b, k)
      modifies data
      ensures Valid() && data[..] == old(data[..])[i := b]
    {
      hide Bit;
      data[i] := b;
      assert data[..] == old(data[..])[i := b];
      PaddedStore(old(data[..]), i, b, dataSize);
    }

    method Set(idx: nat, value: bool)
      requires Valid() && idx < dataSize
      modifies data
      ensures Valid() && View() == old(View())[idx := value]
    {
      hide Bit, Mask;
      var cleared := data[idx / 8] & !Mask(idx % 8);
      var b := if value then cleared | Mask(idx % 8) else cleared;
      assert b == Put(data[idx / 8], Mask(idx % 8), value);
      PutBits(data[idx / 8], idx % 8, value);
      OneByte(data[..], idx, b, value, dataSize);
      Store(idx / 8, b);
    }

    method FlipOne(idx: nat)
      requires Valid() && idx < dataSize
      modifies data
      ensures Valid() && View() == old(View())[idx := !old(View())[idx]]
    {
      hide Bit, Mask, Padded;
      var b := (!data[idx / 8] & Mask(idx % 8)) | (data[idx / 8] & !Mask(idx % 8));
      assert b == Toggle(data[idx / 8], Mask(idx % 8));
      PutBits(data[idx / 8], idx % 8, true);
      OneByte(data[..], idx, b, !Bit(data[idx / 8], idx % 8), dataSize);
      Store(idx / 8, b);
    }

    method ResetAll()
      requires Valid()
      modifies data
      ensures Valid() && View() == seq(dataSize, _ => false)
    {
      for i := 0 to allocSize
        invariant forall j :: 0 <= j < i ==> data[j] == 0
      {
        data[i] := 0;
      }
      ZeroBytes(data[..], dataSize);
    }

    /** All bits, and none behind them.  Without bits the last byte is behind the end. */
    method SetAll() returns (r: Result<()>)
      requires Valid()
      modifies data
      ensures Valid() && (r.Panic? <==> dataSize == 0)
      ensures r.Ok? ==> View() == seq(dataSize, _ => true)
    {
      if allocSize == 0 {
        return Panic(PastTheTable);
      }
      for i := 0 to allocSize - 1
        invariant forall j :: 0 <= j < i ==> data[j] == 0xFF
      {
        data[i] := 0xFF;
      }
      data[allocSize - 1] := Low(8 - (allocSize * 8 - dataSize));
      FullBytes(data[..], dataSize);
      r := Ok(());
    }

    method FlipAll() returns (r: Result<()>)
      requires Valid()
      modifies data
      ensures Valid() && (r.Panic? <==> dataSize == 0)
      ensures r.Ok? ==> forall i :: 0 <= i < dataSize ==> View()[i] == !old(View()[i])
    {
      if allocSize == 0 {
        return Panic(PastTheTable);
      }
      ghost var a := data[..];
      for i := 0 to allocSize
        invariant forall j :: 0 <= j < i ==> data[j] == !a[j]
        invariant forall j :: i <= j < allocSize ==> data[j] == a[j]
      {
        data[i] := !data[i];
      }
      data[allocSize - 1] := data[allocSize - 1] & Low(8 - (allocSize * 8 - dataSize));
      FlippedBytes(a, data[..], dataSize);
      r := Ok(());
    }

    /** operator&=; rhs may be this bitset itself. */
    method AndWith(rhs: Bitset) returns (r: Result<()>)
      requires Valid() && rhs.Valid()
      modifies data
      ensures Valid() && (r.Panic? <==> dataSize != rhs.dataSize)
      ensures r.Panic? ==> View() == old(View())
      ensures r.Ok? ==> forall i :: 0 <= i < dataSize ==> View()[i] == (old(View()[i]) && old(rhs.View()[i]))
    {
      if dataSize != rhs.dataSize {
        return Panic(SizeMismatch);
      }
      ghost var a, b := data[..], rhs.data[..];
      for i := 0 to allocSize
        invariant forall j :: 0 <= j < i ==> data[j] == a[j] & b[j]
        invariant forall j :: i <= j < allocSize ==> data[j] == a[j] && rhs.data[j] == b[j]
      {
        data[i] := data[i] & rhs.data[i];
      }
      AndView(a, b, data[..], dataSize);
      r := Ok(());
    }

    /** operator|= */
    method OrWith(rhs: Bitset) returns (r: Result<()>)
      requires Valid() && rhs.Valid()
      modifies data
      ensures Valid() && (r.Panic? <==> dataSize != rhs.dataSize)
      ensures r.Panic? ==> View() == old(View())
      ensures r.Ok? ==> forall i :: 0 <= i < dataSize ==> View()[i] == (old(View()[i]) || old(rhs.View()[i]))
    {
      if dataSize != rhs.dataSize {
        return Panic(SizeMismatch);
      }
      ghost var a, b := data[..], rhs.data[..];
      for i := 0 to allocSize
        invariant forall j :: 0 <= j < i ==> data[j] == a[j] | b[j]
        invariant forall j :: i <= j < allocSize ==> data[j] == a[j] && rhs.data[j] == b[j]
      {
        data[i] := data[i] | rhs.data[i];
      }
      OrView(a, b, data[..], dataSize);
      r := Ok(());
    }

    /** operator^= */
    method XorWith(rhs: Bitset) returns (r: Result<()>)
      requires Valid() && rhs.Valid()
      modifies data
      ensures Valid() && (r.Panic? <==> dataSize != rhs.dataSize)
      ensures r.Panic? ==> View() == old(View())
      ensures r.Ok? ==> forall i :: 0 <= i < dataSize ==> View()[i] == (old(View()[i]) != old(rhs.View()[i]))
    {
      if dataSize != rhs.dataSize {
        return Panic(SizeMismatch);
      }
      ghost var a, b := data[..], rhs.data[..];
      for i := 0 to allocSize
        invariant forall j :: 0 <= j < i ==> data[j] == a[j] ^ b[j]
        invariant forall j :: i <= j < allocSize ==> data[j] == a[j] && rhs.data[j] == b[j]
      {
        data[i] := data[i] ^ rhs.data[i];
      }
      XorView(a, b, data[..], dataSize);
      r := Ok(());
    }

    /** operator==: the bytes decide, as the bits behind the last one agree. */
    method Equals(rhs: Bitset) returns (r: Result<bool>)
      requires Valid() && rhs.Valid()
      ensures r.Panic? <==> dataSize != rhs.dataSize
      ensures r.Ok? ==> (r.value <==> View() == rhs.View())
    {
      if dataSize != rhs.dataSize {
        return Panic(SizeMismatch);
      }
      var ret := true;
      for i := 0 to allocSize
        invariant ret <==> forall j :: 0 <= j < i ==> data[j] == rhs.data[j]
      {
        if data[i] != rhs.data[i] {
          ret := false;
        }
      }
      SameBits(data[..], rhs.data[..], dataSize);
      r := Ok(ret);
    }
  }

  lemma PaddedStore(data: seq<Byte>, i: nat, b: Byte, n: nat)
    requires Padded(data, n) && i < |data| && forall k: nat :: k < 8 && n <= 8 * i + k ==> !Bit(b, k)
    ensures Padded(data[i := b], n)
  {
    hide Bit;
    forall j: nat {:trigger Bit(data[i := b][j / 8], j % 8)} | n <= j < 8 * |data|
      ensures !Bit(data[i := b][j / 8], j % 8)
    {
      if j / 8 == i {
        Place(j, i, j % 8);
      } else {
        assert !Bit(data[j / 8], j % 8);
      }
    }
  }

  /** The bit of mask m takes a value. */
  function Put(a: Byte, m: Byte, value: bool): Byte {
    var cleared := a & !m;
    if value then cleared | m else cleared
  }

  function Toggle(a: Byte, m: Byte): Byte {
    (!a & m) | (a & !m)
  }

  lemma PutMask(a: Byte, m: Byte, n: Byte, value: bool)
    requires Single(m) && Single(n)
    ensures Put(a, m, value) & n != 0 <==> if m == n then value else a & n != 0
    ensures Toggle(a, m) & n != 0 <==> (m == n) != (a & n != 0)
  {
  }

  lemma SameMask(j: nat, k: nat)
    requires j < 8 && k < 8
    ensures Single(Mask(j)) && Single(Mask(k)) && (Mask(k) == Mask(j) <==> j == k)
  {
  }

  lemma PutBit(a: Byte, k: nat, value: bool, j: nat)
    requires k < 8 && j < 8
    ensures Bit(Put(a, Mask(k), value), j) == if j == k then value else Bit(a, j)
    ensures Bit(Toggle(a, Mask(k)), j) == if j == k then !Bit(a, j) else Bit(a, j)
  {
    hide Mask, Single, Put, Toggle;
    SameMask(j, k);
    PutMask(a, Mask(k), Mask(j), value);
  }

  lemma PutBits(a: Byte, k: nat, value: bool)
    requires k < 8
    ensures forall j: nat :: j < 8 ==> Bit(Put(a, Mask(k), value), j) == if j == k then value else Bit(a, j)
    ensures forall j: nat :: j < 8 ==> Bit(Toggle(a, Mask(k)), j) == if j == k then !Bit(a, j) else Bit(a, j)
  {
    hide Mask, Put, Toggle, Bit;
    var put, toggled := Put(a, Mask(k), value), Toggle(a, Mask(k));
    forall j: nat | j < 8
      ensures Bit(put, j) == if j == k then value else Bit(a, j)
      ensures Bit(toggled, j) == if j == k then !Bit(a, j) else Bit(a, j)
    {
      PutBit(a, k, value, j);
    }
  }

  /** Replacing one byte by one that differs in one bit. */
  lemma OneByte(data: seq<Byte>, idx: nat, b: Byte, value: bool, n: nat)
    requires idx < n && |data| == AllocSize(n) && Padded(data, n)
    requires forall j: nat :: j < 8 ==> Bit(b, j) == if j == idx % 8 then value else Bit(data[idx / 8], j)
    ensures Bits(data[idx / 8 := b], n) == Bits(data, n)[idx := value]
    ensures forall k: nat :: k < 8 && n <= 8 * (idx / 8) + k ==> !Bit(b, k)
  {
    hide Bit;
    forall k: nat | k < 8 && n <= 8 * (idx / 8) + k ensures !Bit(b, k) {
      Place(8 * (idx / 8) + k, idx / 8, k);
      assert !Bit(data[(8 * (idx / 8) + k) / 8], (8 * (idx / 8) + k) % 8);
    }
    var after := Bits(data[idx / 8 := b], n);
    forall i: nat | i < n ensures after[i] == Bits(data, n)[idx := value][i] {
      if i / 8 == idx / 8 && i % 8 == idx % 8 {
        Place(i, idx / 8, idx % 8);
        Place(idx, idx / 8, idx % 8);
      }
    }
  }

  lemma ZeroBytes(data: seq<Byte>, n: nat)
    requires |data| == AllocSize(n) && forall j :: 0 <= j < |data| ==> data[j] == 0
    ensures Padded(data, n) && Bits(data, n) == seq(n, _ => false)
  {
  }

  lemma FullBytes(data: seq<Byte>, n: nat)
    requires 0 < n && |data| == AllocSize(n) && forall j :: 0 <= j < |data| - 1 ==> data[j] == 0xFF
    requires data[|data| - 1] == Low(8 - (|data| * 8 - n))
    ensures Padded(data, n) && Bits(data, n) == seq(n, _ => true)
  {
    forall i: nat | i < 8 * |data| ensures Bit(data[i / 8], i % 8) == (i < n) {
      LowBits(8 - (|data| * 8 - n), i % 8);
      LowBits(8, i % 8);
    }
    hide Bit, Low;
  }

  lemma FlippedBit(a: Byte, used: nat, k: nat)
    requires 1 <= used <= 8 && k < 8
    ensures Bit(!a & Low(used), k) <==> k < used && !Bit(a, k)
  {
    hide Bit, Low;
    LowBits(used, k);
    NotBits(a, k);
    AndBits(!a, Low(used), k);
  }

  lemma FlippedBytes(a: seq<Byte>, data: seq<Byte>, n: nat)
    requires 0 < n && |a| == |data| == AllocSize(n) && forall j :: 0 <= j < |data| - 1 ==> data[j] == !a[j]
    requires data[|data| - 1] == !a[|data| - 1] & Low(8 - (|data| * 8 - n))
    ensures Padded(data, n) && forall i :: 0 <= i < n ==> Bits(data, n)[i] == !Bits(a, n)[i]
  {
    hide Bit, Low;
    forall i: nat | i < 8 * |data| ensures Bit(data[i / 8], i % 8) == (i < n && !Bit(a[i / 8], i % 8)) {
      if i / 8 < |data| - 1 {
        NotBits(a[i / 8], i % 8);
      } else {
        FlippedBit(a[i / 8], 8 - (|data| * 8 - n), i % 8);
      }
    }
  }

  lemma AndView(a: seq<Byte>, b: seq<Byte>, r: seq<Byte>, n: nat)
    requires |a| == |b| == |r| && n <= 8 * |a| && Padded(a, n) && Padded(b, n)
    requires forall j :: 0 <= j < |a| ==> r[j] == a[j] & b[j]
    ensures Padded(r, n)
    ensures forall i :: 0 <= i < n ==> Bits(r, n)[i] == (Bits(a, n)[i] && Bits(b, n)[i])
  {
    hide Bit;
    forall i: nat | i < 8 * |a|
      ensures Bit(r[i / 8], i % 8) == (Bit(a[i / 8], i % 8) && Bit(b[i / 8], i % 8))
    {
      AndBits(a[i / 8], b[i / 8], i % 8);
    }
  }

  lemma OrView(a: seq<Byte>, b: seq<Byte>, r: seq<Byte>, n: nat)
    requires |a| == |b| == |r| && n <= 8 * |a| && Padded(a, n) && Padded(b, n)
    requires forall j :: 0 <= j < |a| ==> r[j] == a[j] | b[j]
    ensures Padded(r, n)
    ensures forall i :: 0 <= i < n ==> Bits(r, n)[i] == (Bits(a, n)[i] || Bits(b, n)[i])
  {
    hide Bit;
    forall i: nat | i < 8 * |a|
      ensures Bit(r[i / 8], i % 8) == (Bit(a[i / 8], i % 8) || Bit(b[i / 8], i % 8))
    {
      OrBits(a[i / 8], b[i / 8], i % 8);
    }
  }

  lemma XorView(a: seq<Byte>, b: seq<Byte>, r: seq<Byte>, n: nat)
    requires |a| == |b| == |r| && n <= 8 * |a| && Padded(a, n) && Padded(b, n)
    requires forall j :: 0 <= j < |a| ==> r[j] == a[j] ^ b[j]
    ensures Padded(r, n)
    ensures forall i :: 0 <= i < n ==> Bits(r, n)[i] == (Bits(a, n)[i] != Bits(b, n)[i])
  {
    hide Bit;
    forall i: nat | i < 8 * |a|
      ensures Bit(r[i / 8], i % 8) == (Bit(a[i / 8], i % 8) != Bit(b[i / 8], i % 8))
    {
      XorBits(a[i / 8], b[i / 8], i % 8);
    }
  }

  lemma ByteFromBits(a: Byte, b: Byte)
    ensures a == b <==> forall k: nat :: k < 8 ==> Bit(a, k) == Bit(b, k)
  {
    if forall k: nat :: k < 8 ==> Bit(a, k) == Bit(b, k) {
      var c := a ^ b;
      forall k: nat | k < 8 ensures !Bit(c, k) {
        XorBits(a, b, k);
      }
      ZeroBits(c);
      XorZero(a, b);
    }
  }

  lemma XorZero(a: Byte, b: Byte)
    ensures a ^ b == 0 <==> a == b
  {
  }

  lemma SameBits(a: seq<Byte>, b: seq<Byte>, n: nat)
    requires |a| == |b| == AllocSize(n) && Padded(a, n) && Padded(b, n)
    ensures Bits(a, n) == Bits(b, n) <==> forall j :: 0 <= j < |a| ==> a[j] == b[j]
  {
    hide Bit;
    if Bits(a, n) == Bits(b, n) {
      forall j | 0 <= j < |a| ensures a[j] == b[j] {
        forall k: nat | k < 8 ensures Bit(a[j], k) == Bit(b[j], k) {
          SameBit(a, b, n, j, k);
        }
        ByteFromBits(a[j], b[j]);
      }
    }
  }

  lemma SameBit(a: seq<Byte>, b: seq<Byte>, n: nat, j: nat, k: nat)
    requires |a| == |b| == AllocSize(n) && Padded(a, n) && Padded(b, n) && j < |a| && k < 8 && Bits(a, n) == Bits(b, n)
    ensures Bit(a[j], k) == Bit(b[j], k)
  {
    hide Bit;
    Place(8 * j + k, j, k);
    if 8 * j + k < n {
      assert Bits(a, n)[8 * j + k] == Bits(b, n)[8 * j + k];
    } else {
      assert !Bit(a[(8 * j + k) / 8], (8 * j + k) % 8) && !Bit(b[(8 * j + k) / 8], (8 * j + k) % 8);
    }
  }

  function Both(a: Byte, b: Byte): Byte { a & b }

  lemma AndFull(a: Byte, b: Byte)
    ensures Both(a, b) == 0xFF <==> a == 0xFF && b == 0xFF
  {
  }

  lemma OrEmpty(a: Byte, b: Byte)
    ensures a | b == 0 <==> a == 0 && b == 0
  {
  }

  ghost predicate AllFull(data: seq<Byte>, n: nat)
    requires 0 < n && |data| == AllocSize(n)
  {
    (forall j :: 0 <= j < |data| - 1 ==> data[j] == 0xFF) && data[|data| - 1] | High(n + 8 - |data| * 8) == 0xFF
  }

  lemma AllBits(data: seq<Byte>, n: nat)
    requires 0 < n && |data| == AllocSize(n)
    ensures (forall i :: 0 <= i < n ==> Bits(data, n)[i]) <==> AllFull(data, n)
  {
    hide Bit, High;
    if forall i :: 0 <= i < n ==> Bits(data, n)[i] {
      forall j | 0 <= j < |data| - 1 ensures data[j] == 0xFF {
        WholeByte(data, n, j);
      }
      LastByte(data, n);
    }
    if AllFull(data, n) {
      forall i | 0 <= i < n ensures Bits(data, n)[i] {
        FullBit(data, n, i);
      }
    }
  }

  lemma FullBit(data: seq<Byte>, n: nat, i: nat)
    requires i < n && |data| == AllocSize(n) && AllFull(data, n)
    ensures Bit(data[i / 8], i % 8)
  {
    hide Bit, High;
    ZeroBits(0xFF);
    if i / 8 == |data| - 1 {
      var used := n + 8 - |data| * 8;
      OrBits(data[i / 8], High(used), i % 8);
      LowBits(used, i % 8);
    }
  }

  lemma WholeByte(data: seq<Byte>, n: nat, j: nat)
    requires n <= 8 * |data| && 8 * j + 8 <= n && forall i :: 0 <= i < n ==> Bits(data, n)[i]
    ensures data[j] == 0xFF
  {
    hide Bit;
    forall k: nat | k < 8 ensures Bit(data[j], k) {
      Place(8 * j + k, j, k);
      assert Bits(data, n)[8 * j + k];
    }
    ZeroBits(data[j]);
  }

  lemma LastByte(data: seq<Byte>, n: nat)
    requires 0 < n && |data| == AllocSize(n) && forall i :: 0 <= i < n ==> Bits(data, n)[i]
    ensures data[|data| - 1] | High(n + 8 - |data| * 8) == 0xFF
  {
    var last, used := |data| - 1, n + 8 - |data| * 8;
    var filled := data[last] | High(used);
    forall k: nat | k < 8 ensures Bit(filled, k) {
      OrBits(data[last], High(used), k);
      LowBits(used, k);
      Place(8 * last + k, last, k);
      assert k < used ==> Bits(data, n)[8 * last + k];
    }
    ZeroBits(filled);
  }

  lemma NoBits(data: seq<Byte>, n: nat)
    requires |data| == AllocSize(n) && Padded(data, n)
    ensures (forall i :: 0 <= i < n ==> !Bits(data, n)[i]) <==> forall j :: 0 <= j < |data| ==> data[j] == 0
  {
    if forall i :: 0 <= i < n ==> !Bits(data, n)[i] {
      forall j | 0 <= j < |data| ensures data[j] == 0 {
        forall k: nat | k < 8 ensures !Bit(data[j], k) {
          Place(8 * j + k, j, k);
          if 8 * j + k < n {
            assert !Bits(data, n)[8 * j + k];
          } else {
            assert !Bit(data[(8 * j + k) / 8], (8 * j + k) % 8);
          }
        }
        ZeroBits(data[j]);
      }
    }
  }
}
