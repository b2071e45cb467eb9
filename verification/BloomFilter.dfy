/** The Bloom filter of the FTL (ftl/bloom_filter.hh), with the folding that compresses its table. */
module BloomFilter {
  import opened Arithmetic
  import opened Bytes
  import opened Outcome

  predicate BitSet(table: seq<Byte>, index: nat)
    requires index < 8 * |table|
  {
    Has(table[index / 8], Mask(index % 8))
  }

  function Or(a: Byte, b: Byte): Byte { a | b }

  predicate Has(b: Byte, m: Byte) { b & m == m }

  /** compute_indices: the hash modulo every size that the table has had */
  function Index(hash: nat, sizes: seq<nat>): nat
    requires forall k :: 0 <= k < |sizes| ==> 0 < sizes[k]
    decreases |sizes|
  {
    if sizes == [] then hash else Index(hash, sizes[..|sizes| - 1]) % sizes[|sizes| - 1]
  }

  lemma OrKeeps(a: Byte, b: Byte, m: Byte)
    ensures Has(a, m) || Has(b, m) ==> Has(Or(a, b), m)
    ensures Has(Or(a, m), m)
  {
  }

  ghost predicate SizesOk(sizes: seq<nat>) {
    && sizes != []
    && forall k :: 0 <= k < |sizes| ==> 0 < sizes[k] && sizes[k] % BITS_PER_CHAR == 0
  }

  lemma IndexBound(hash: nat, sizes: seq<nat>)
    requires SizesOk(sizes)
    ensures Index(hash, sizes) < sizes[|sizes| - 1]
  {
  }

  /** Folding a table: the part behind newSize bits is laid over the front. */
  ghost function Folded(table: seq<Byte>, newBytes: nat): (folded: seq<Byte>)
    requires newBytes <= |table| <= 2 * newBytes
    ensures |folded| == newBytes
  {
    seq(newBytes, k requires 0 <= k < newBytes =>
      if newBytes + k < |table| then Or(table[k], table[newBytes + k]) else table[k])
  }

  lemma FoldedParts(table: seq<Byte>, newBytes: nat, result: seq<Byte>)
    requires newBytes <= |table| <= 2 * newBytes && |result| == newBytes
    requires forall k :: 0 <= k < |table| - newBytes ==> result[k] == Or(table[k], table[newBytes + k])
    requires forall k :: |table| - newBytes <= k < newBytes ==> result[k] == table[k]
    ensures result == Folded(table, newBytes)
  {
  }

  lemma FoldIndex(index: nat, newBytes: nat)
    requires 0 < newBytes && index < 16 * newBytes
    ensures var i := index % (8 * newBytes);
      && i < 8 * newBytes && i % 8 == index % 8
      && index / 8 == if index < 8 * newBytes then i / 8 else i / 8 + newBytes
  {
    var i := if index < 8 * newBytes then index else index - 8 * newBytes;
    DivMod(index, 8 * newBytes, if index < 8 * newBytes then 0 else 1, i);
  }

  lemma FoldByte(table: seq<Byte>, newBytes: nat, at: nat, m: Byte)
    requires 0 < newBytes <= |table| <= 2 * newBytes && at < |table| && Has(table[at], m)
    ensures Has(Folded(table, newBytes)[if at < newBytes then at else at - newBytes], m)
  {
    hide Has, Or;
    var k := if at < newBytes then at else at - newBytes;
    if newBytes + k < |table| {
      OrKeeps(table[k], table[newBytes + k], m);
    }
  }

  /** A bit that was set is found where the folded table is asked for it. */
  lemma FoldKeeps(table: seq<Byte>, newBytes: nat, index: nat)
    requires 0 < newBytes <= |table| <= 2 * newBytes && index < 8 * |table| && BitSet(table, index)
    ensures index % (8 * newBytes) < 8 * newBytes && BitSet(Folded(table, newBytes), index % (8 * newBytes))
  {
    hide Mask, Folded;
    FoldIndex(index, newBytes);
    FoldByte(table, newBytes, index / 8, Mask(index % 8));
  }

  /** A key has its bits set: one for every salt. */
  ghost predicate Member<K(!new)>(table: seq<Byte>, sizes: seq<nat>, salts: seq<nat>, hash: (K, nat) -> nat, key: K)
    requires SizesOk(sizes) && 8 * |table| == sizes[|sizes| - 1]
  {
    forall k :: 0 <= k < |salts| ==> HashBit(table, sizes, hash(key, salts[k]))
  }

  ghost predicate HashBit(table: seq<Byte>, sizes: seq<nat>, h: nat)
    requires SizesOk(sizes) && 8 * |table| == sizes[|sizes| - 1]
  {
    IndexBound(h, sizes);
    BitSet(table, Index(h, sizes))
  }

  /** Bits are only added. */
  ghost predicate Covers(table: seq<Byte>, bigger: seq<Byte>) {
    && |bigger| == |table|
    && forall i: nat :: i < 8 * |table| && BitSet(table, i) ==> BitSet(bigger, i)
  }

  /** The table after the first n bits of a key are set */
  ghost function Marked<K(!new)>(table: seq<Byte>, sizes: seq<nat>, salts: seq<nat>, hash: (K, nat) -> nat, key: K,
                                 n: nat): (marked: seq<Byte>)
    requires SizesOk(sizes) && 8 * |table| == sizes[|sizes| - 1] && n <= |salts|
    ensures |marked| == |table|
  {
    if n == 0 then table
    else
      IndexBound(hash(key, salts[n - 1]), sizes);
      Set(Marked(table, sizes, salts, hash, key, n - 1), Index(hash(key, salts[n - 1]), sizes))
  }

  function Set(table: seq<Byte>, index: nat): seq<Byte>
    requires index < 8 * |table|
  {
    table[index / 8 := Or(table[index / 8], Mask(index % 8))]
  }

  ghost function OrAll(t: seq<Byte>, u: seq<Byte>): seq<Byte>
    requires |t| <= |u|
  {
    seq(|t|, k requires 0 <= k < |t| => Or(t[k], u[k]))
  }

  ghost predicate FoldedInto(table: seq<Byte>, folded: seq<Byte>) {
    |folded| <= |table| <= 2 * |folded| && folded == Folded(table, |folded|)
  }

  /** compressible_bloom_filter.  hash stands for hash_ap, which may be any function of key and salt. */
  class Filter<K(!new, ==)> {
    const salts: seq<nat>
    const seed: nat
    const hash: (K, nat) -> nat
    var bitTable: array<Byte>
    var sizeList: seq<nat>
    ghost var inserted: set<K>

    ghost predicate Shape()
      reads this, bitTable
    {
      SizesOk(sizeList) && 8 * bitTable.Length == sizeList[|sizeList| - 1]
    }

    /** No false negatives. */
    ghost predicate Valid()
      reads this, bitTable
    {
      Shape() && forall key | key in inserted :: Member(bitTable[..], sizeList, salts, hash, key)
    }

    constructor (tableSize: nat, salts: seq<nat>, seed: nat, hash: (K, nat) -> nat)
      requires 0 < tableSize && tableSize % BITS_PER_CHAR == 0
      ensures Valid() && inserted == {} && sizeList == [tableSize] && fresh(bitTable)
      ensures this.salts == salts && this.seed == seed && this.hash == hash
      ensures bitTable[..] == seq(tableSize / BITS_PER_CHAR, _ => 0)
    {
      this.salts, this.seed, this.hash := salts, seed, hash;
      bitTable := new Byte[tableSize / BITS_PER_CHAR](_ => 0);
      sizeList := [tableSize];
      inserted := {};
    }

    method Contains(key: K) returns (found: bool)
      requires Shape()
      ensures found <==> Member(bitTable[..], sizeList, salts, hash, key)
      ensures Valid() && key in inserted ==> found
    {
      hide Mask;
      for k := 0 to |salts|
        invariant forall j :: 0 <= j < k ==> HashBit(bitTable[..], sizeList, hash(key, salts[j]))
      {
        var h := hash(key, salts[k]);
        IndexBound(h, sizeList);
        var index := Index(h, sizeList);
        if bitTable[index / BITS_PER_CHAR] & Mask(index % BITS_PER_CHAR) != Mask(index % BITS_PER_CHAR) {
          assert !HashBit(bitTable[..], sizeList, h);
          return false;
        }
      }
      return true;
    }

    method SetBit(index: nat)
      requires index < 8 * bitTable.Length
      modifies bitTable
      ensures Covers(old(bitTable[..]), bitTable[..]) && BitSet(bitTable[..], index)
      ensures bitTable[..] == Set(old(bitTable[..]), index)
    {
      hide Mask, Covers, BitSet;
      SetCovers(bitTable[..], index);
      bitTable[index / BITS_PER_CHAR] := bitTable[index / BITS_PER_CHAR] | Mask(index % BITS_PER_CHAR);
    }

    method SetBits(key: K)
      requires Shape()
      modifies bitTable
      ensures Shape() && Covers(old(bitTable[..]), bitTable[..])
      ensures Member(bitTable[..], sizeList, salts, hash, key)
      ensures bitTable[..] == Marked(old(bitTable[..]), sizeList, salts, hash, key, |salts|)
    {
      hide Covers, BitSet, Set;
      CoversSelf(bitTable[..]);
      for k := 0 to |salts|
        invariant Covers(old(bitTable[..]), bitTable[..])
        invariant bitTable[..] == Marked(old(bitTable[..]), sizeList, salts, hash, key, k)
        invariant forall j :: 0 <= j < k ==> HashBit(bitTable[..], sizeList, hash(key, salts[j]))
      {
        var h := hash(key, salts[k]);
        IndexBound(h, sizeList);
        ghost var table := bitTable[..];
        SetBit(Index(h, sizeList));
        CoversBits(old(bitTable[..]), table, bitTable[..], sizeList);
      }
    }

    method Insert(key: K)
      requires Valid()
      modifies this`inserted, bitTable
      ensures Valid() && inserted == old(inserted) + {key}
      ensures bitTable[..] == Marked(old(bitTable[..]), sizeList, salts, hash, key, |salts|)
    {
      hide Covers, BitSet, Member;
      ghost var before := bitTable[..];
      SetBits(key);
      forall other | other in inserted
        ensures Member(bitTable[..], sizeList, salts, hash, other)
      {
        CoversMember(before, bitTable[..], sizeList, salts, hash, other);
      }
      inserted := inserted + {key};
    }

    ghost predicate SameParameters(f: Filter<K>)
      requires Shape() && f.Shape()
      reads this, bitTable, f, f.bitTable
    {
      |salts| == |f.salts| && sizeList[0] == f.sizeList[0] && seed == f.seed
    }

    /** The union with a filter of the same parameters.  The keys of the other filter are found when
        it has been compressed in the same steps; a smaller table of it is read past its end. */
    method Union(f: Filter<K>) returns (r: Result<()>)
      requires Valid() && f.Valid()
      requires |salts| == |f.salts| && seed == f.seed ==> salts == f.salts
      requires hash == f.hash
      modifies this`inserted, bitTable
      ensures Valid() && old(inserted) <= inserted
      ensures r.Panic? <==> old(SameParameters(f) && f.bitTable.Length < bitTable.Length)
      ensures r.Ok? && old(SameParameters(f)) && sizeList == f.sizeList ==> inserted == old(inserted + f.inserted)
      ensures r.Ok? && old(SameParameters(f)) ==>
        |old(bitTable[..])| <= |old(f.bitTable[..])| && bitTable[..] == OrAll(old(bitTable[..]), old(f.bitTable[..]))
      ensures !old(SameParameters(f)) ==> bitTable[..] == old(bitTable[..]) && inserted == old(inserted)
    {
      hide Covers, BitSet, Member;
      ghost var t, u := bitTable[..], f.bitTable[..];
      if |salts| == |f.salts| && sizeList[0] == f.sizeList[0] && seed == f.seed {
        r := OrTable(f.bitTable);
        if r.Ok? && sizeList == f.sizeList {
          forall key | key in f.inserted
            ensures Member(bitTable[..], sizeList, salts, hash, key)
          {
            CoversMember(u, bitTable[..], sizeList, salts, hash, key);
          }
          AllMembers(t, bitTable[..], sizeList, salts, hash, inserted);
          inserted := inserted + f.inserted;
        } else {
          AllMembers(t, bitTable[..], sizeList, salts, hash, inserted);
        }
      } else {
        r := Ok(());
      }
    }

    method OrTable(other: array<Byte>) returns (r: Result<()>)
      modifies bitTable
      ensures r.Panic? <==> other.Length < bitTable.Length
      ensures Covers(old(bitTable[..]), bitTable[..])
      ensures other.Length == bitTable.Length ==> Covers(old(other[..]), bitTable[..])
      ensures r.Ok? ==> bitTable[..] == OrAll(old(bitTable[..]), old(other[..]))
    {
      ghost var t, u := bitTable[..], other[..];
      for i := 0 to bitTable.Length
        invariant i <= other.Length
        invariant forall j :: 0 <= j < i ==> bitTable[j] == Or(t[j], u[j])
        invariant forall j :: i <= j < bitTable.Length ==> bitTable[j] == t[j]
        invariant forall j :: i <= j < other.Length ==> other[j] == u[j]
      {
        if i == other.Length {
          OrCovers(t, u, i, bitTable[..]);
          return Panic(PastTheTable);
        }
        bitTable[i] := bitTable[i] | other[i];
      }
      OrCovers(t, u, bitTable.Length, bitTable[..]);
      r := Ok(());
    }

    /** The size after removing a percentage of the bits, in whole bytes. */
    function NewSize(percentage: real): int
      requires sizeList != []
      reads this
    {
      var size := (sizeList[|sizeList| - 1] as real * (1.0 - percentage / 100.0)).Floor;
      size - size % BITS_PER_CHAR
    }

    ghost predicate Compresses(percentage: real)
      requires sizeList != []
      reads this
    {
      0.0 <= percentage < 100.0 && BITS_PER_CHAR <= NewSize(percentage) < sizeList[|sizeList| - 1]
    }

    /** Compression keeps every key as long as it keeps half of the table; removing more writes past
        the end of the new table. */
    method Compress(percentage: real) returns (r: Result<bool>)
      requires Valid()
      modifies this`bitTable, this`sizeList
      ensures Valid() && inserted == old(inserted)
      ensures r.Panic? <==> old(Compresses(percentage) && 2 * NewSize(percentage) < sizeList[|sizeList| - 1])
      ensures r.Ok? ==> (r.value <==> old(Compresses(percentage)))
      ensures r == Ok(true) ==> sizeList == old(sizeList + [NewSize(percentage)])
      ensures r != Ok(true) ==> sizeList == old(sizeList) && bitTable == old(bitTable)
      ensures r == Ok(true) ==> fresh(bitTable)
      ensures r == Ok(true) ==> FoldedInto(old(bitTable[..]), bitTable[..])
    {
      if percentage < 0.0 || percentage >= 100.0 {
        return Ok(false);
      }
      var originalSize := sizeList[|sizeList| - 1];
      var newSize := NewSize(percentage);
      if BITS_PER_CHAR > newSize || newSize >= originalSize {
        return Ok(false);
      }
      var folded, fits := Fold(newSize / BITS_PER_CHAR);
      if !fits {
        return Panic(PastTheTable);
      }
      ghost var table, sizes := bitTable[..], sizeList;
      bitTable := folded;
      sizeList := sizeList + [newSize];
      FoldMembers(table, newSize / BITS_PER_CHAR, sizes, salts, hash, inserted);
      r := Ok(true);
    }

    method Fold(newBytes: nat) returns (tmp: array<Byte>, fits: bool)
      requires 0 < newBytes < bitTable.Length
      ensures fresh(tmp) && tmp.Length == newBytes
      ensures fits <==> bitTable.Length <= 2 * newBytes
      ensures fits ==> tmp[..] == Folded(bitTable[..], newBytes)
    {
      hide Folded, Or;
      tmp := CopyFront(newBytes);
      var itr := newBytes;
      while itr < bitTable.Length
        invariant newBytes <= itr <= bitTable.Length && itr <= 2 * newBytes
        invariant forall k :: 0 <= k < itr - newBytes ==> tmp[k] == Or(bitTable[k], bitTable[newBytes + k])
        invariant forall k :: itr - newBytes <= k < newBytes ==> tmp[k] == bitTable[k]
      {
        if itr == 2 * newBytes {
          return tmp, false;
        }
        tmp[itr - newBytes] := Or(tmp[itr - newBytes], bitTable[itr]);
        itr := itr + 1;
      }
      fits := true;
      FoldedParts(bitTable[..], newBytes, tmp[..]);
    }

    method CopyFront(n: nat) returns (tmp: array<Byte>)
      requires n <= bitTable.Length
      ensures fresh(tmp) && tmp.Length == n
      ensures forall k :: 0 <= k < n ==> tmp[k] == bitTable[k]
    {
      tmp := new Byte[n](_ => 0);
      for k := 0 to n
        invariant forall j :: 0 <= j < k ==> tmp[j] == bitTable[j]
      {
        tmp[k] := bitTable[k];
      }
    }
  }

  lemma SetCovers(table: seq<Byte>, index: nat)
    requires index < 8 * |table|
    ensures Covers(table, Set(table, index)) && BitSet(Set(table, index), index)
  {
    hide Mask, Has, Or;
    var m := Mask(index % 8);
    forall i: nat | i < 8 * |table| && BitSet(table, i)
      ensures BitSet(Set(table, index), i)
    {
      OrKeeps(table[i / 8], m, Mask(i % 8));
    }
    OrKeeps(table[index / 8], 0, m);
  }

  lemma OrCovers(t: seq<Byte>, u: seq<Byte>, n: nat, result: seq<Byte>)
    requires n <= |t| == |result| && n <= |u|
    requires forall j :: 0 <= j < n ==> result[j] == Or(t[j], u[j])
    requires forall j :: n <= j < |t| ==> result[j] == t[j]
    ensures Covers(t, result)
    ensures n == |t| == |u| ==> Covers(u, result)
  {
    hide Mask, Has, Or;
    forall i: nat | i < 8 * |t|
      ensures BitSet(t, i) ==> BitSet(result, i)
      ensures n == |t| == |u| && BitSet(u, i) ==> BitSet(result, i)
    {
      if i / 8 < n {
        OrKeeps(t[i / 8], u[i / 8], Mask(i % 8));
      }
    }
  }

  lemma AllMembers<K(!new)>(table: seq<Byte>, bigger: seq<Byte>, sizes: seq<nat>, salts: seq<nat>,
                            hash: (K, nat) -> nat, keys: set<K>)
    requires SizesOk(sizes) && 8 * |table| == sizes[|sizes| - 1] && Covers(table, bigger)
    requires forall key | key in keys :: Member(table, sizes, salts, hash, key)
    ensures |bigger| == |table| && forall key | key in keys :: Member(bigger, sizes, salts, hash, key)
  {
    forall key | key in keys
      ensures Member(bigger, sizes, salts, hash, key)
    {
      CoversMember(table, bigger, sizes, salts, hash, key);
    }
  }

  lemma FoldMembers<K(!new)>(table: seq<Byte>, newBytes: nat, sizes: seq<nat>, salts: seq<nat>,
                             hash: (K, nat) -> nat, keys: set<K>)
    requires SizesOk(sizes) && 8 * |table| == sizes[|sizes| - 1] && 0 < newBytes <= |table| <= 2 * newBytes
    requires forall key | key in keys :: Member(table, sizes, salts, hash, key)
    ensures SizesOk(sizes + [8 * newBytes])
    ensures forall key | key in keys :: Member(Folded(table, newBytes), sizes + [8 * newBytes], salts, hash, key)
  {
    hide HashBit;
    var after := sizes + [8 * newBytes];
    forall key, k | key in keys && 0 <= k < |salts|
      ensures HashBit(Folded(table, newBytes), after, hash(key, salts[k]))
    {
      assert HashBit(table, sizes, hash(key, salts[k]));
      FoldBit(table, newBytes, sizes, hash(key, salts[k]));
    }
  }

  lemma FoldBit(table: seq<Byte>, newBytes: nat, sizes: seq<nat>, h: nat)
    requires SizesOk(sizes) && 8 * |table| == sizes[|sizes| - 1] && 0 < newBytes <= |table| <= 2 * newBytes
    requires HashBit(table, sizes, h) && SizesOk(sizes + [8 * newBytes])
    ensures HashBit(Folded(table, newBytes), sizes + [8 * newBytes], h)
  {
    hide BitSet, Folded;
    var after := sizes + [8 * newBytes];
    assert after[..|after| - 1] == sizes;
    IndexBound(h, sizes);
    FoldKeeps(table, newBytes, Index(h, sizes));
    assert Index(h, after) == Index(h, sizes) % (8 * newBytes);
  }

  lemma CoversSelf(table: seq<Byte>)
    ensures Covers(table, table)
  {
  }

  lemma CoversBits(first: seq<Byte>, table: seq<Byte>, bigger: seq<Byte>, sizes: seq<nat>)
    requires SizesOk(sizes) && 8 * |table| == sizes[|sizes| - 1] && Covers(first, table) && Covers(table, bigger)
    ensures Covers(first, bigger)
    ensures forall h: nat :: HashBit(table, sizes, h) ==> HashBit(bigger, sizes, h)
  {
    forall h: nat | HashBit(table, sizes, h)
      ensures HashBit(bigger, sizes, h)
    {
      IndexBound(h, sizes);
    }
  }

  lemma CoversMember<K(!new)>(table: seq<Byte>, bigger: seq<Byte>, sizes: seq<nat>, salts: seq<nat>, hash: (K, nat) -> nat, key: K)
    requires SizesOk(sizes) && 8 * |table| == sizes[|sizes| - 1] && Covers(table, bigger)
    requires Member(table, sizes, salts, hash, key)
    ensures Member(bigger, sizes, salts, hash, key)
  {
    forall k | 0 <= k < |salts|
      ensures HashBit(bigger, sizes, hash(key, salts[k]))
    {
      assert HashBit(table, sizes, hash(key, salts[k]));
      IndexBound(hash(key, salts[k]), sizes);
    }
  }

  // ---- Inputs that reach behind a table ----

  /** The union of a fresh filter of 16 bits with another one that has been compressed to 8. */
  method UnionOfCompressed<K(!new, ==)>(salts: seq<nat>, seed: nat, hash: (K, nat) -> nat) returns (r: Result<()>)
    ensures r.Panic?
  {
    var first := new Filter<K>(16, salts, seed, hash);
    var second := new Filter<K>(16, salts, seed, hash);
    var halved := second.Compress(50.0);
    assert second.sizeList == [16, 8];
    r := first.Union(second);
  }

  /** The removal of three quarters of a table of 32 bits. */
  method CompressToQuarter<K(!new, ==)>(salts: seq<nat>, seed: nat, hash: (K, nat) -> nat) returns (r: Result<bool>)
    ensures r.Panic?
  {
    var filter := new Filter<K>(32, salts, seed, hash);
    r := filter.Compress(75.0);
  }

  function Forty(key: nat, salt: nat): nat { 40 }

  /** The byte of bit 40 of 48, before and after the foldings to 32 and to 24. */
  lemma FoldedTwice()
    ensures Folded([0, 0, 0, 0, 0, 1], 4) == [0, 1, 0, 0] && Folded([0, 1, 0, 0], 3) == [0, 1, 0]
    ensures Folded([0, 0, 0, 0, 0, 0], 3) == [0, 0, 0]
  {
    hide Or, Folded;
    OrBits();
    FoldedParts([0, 0, 0, 0, 0, 1], 4, [0, 1, 0, 0]);
    FoldedParts([0, 1, 0, 0], 3, [0, 1, 0]);
    FoldedParts([0, 0, 0, 0, 0, 0], 3, [0, 0, 0]);
  }

  lemma OrBits()
    ensures Or(0, 0) == 0 && Or(0, 1) == 1 && Or(1, 0) == 1
  {
  }

  lemma OrAllMiddle()
    ensures OrAll([0, 0, 0], [0, 1, 0]) == [0, 1, 0]
  {
    OrBits();
  }

  lemma MarkedForty(key: nat, salt: nat)
    ensures Marked([0, 0, 0, 0, 0, 0], [48], [salt], Forty, key, 1) == [0, 0, 0, 0, 0, 1]
  {
    var zero: Byte, one: Byte := 0, 1;
    assert zero | one == one;
    var empty: seq<Byte> := [0, 0, 0, 0, 0, 0];
    assert Index(40, [48]) == 40 by { assert [48][..0] == [] && Index(40, []) == 40; }
    assert Marked(empty, [48], [salt], Forty, key, 0) == empty;
  }

  lemma IndexForty()
    ensures Index(40, [48]) == 40 && Index(40, [48, 24]) == 16
  {
    assert [48][..0] == [] && Index(40, []) == 40;
    assert [48, 24][..1] == [48];
  }

  lemma BitSixteen()
    ensures !BitSet([0, 1, 0], 16)
  {
  }

  lemma NotAtSixteen(key: nat, salt: nat)
    ensures SizesOk([48, 24]) && !Member([0, 1, 0], [48, 24], [salt], Forty, key)
  {
    hide Index, BitSet;
    IndexForty();
    BitSixteen();
    assert !HashBit([0, 1, 0], [48, 24], Forty(key, [salt][0]));
  }

  ghost predicate Parameters(f: Filter<nat>, salt: nat, seed: nat) {
    f.salts == [salt] && f.seed == seed && f.hash == Forty
  }

  /** A filter of 48 bits without a key, compressed to 24. */
  method Halved(salt: nat, seed: nat) returns (f: Filter<nat>)
    ensures fresh(f) && fresh(f.bitTable) && f.Valid() && Parameters(f, salt, seed)
    ensures f.bitTable[..] == [0, 0, 0] && f.sizeList == [48, 24]
  {
    hide Marked, Folded, OrAll, Member, Index;
    FoldedTwice();
    f := new Filter<nat>(48, [salt], seed, Forty);
    assert f.bitTable[..] == [0, 0, 0, 0, 0, 0];
    var halved := f.Compress(50.0);
  }

  /** A filter of 48 bits with one key, compressed to 32 and then to 24. */
  method HalvedByTwoThirds(key: nat, salt: nat, seed: nat) returns (f: Filter<nat>)
    ensures fresh(f) && fresh(f.bitTable) && f.Valid() && Parameters(f, salt, seed)
    ensures f.bitTable[..] == [0, 1, 0] && f.sizeList[0] == 48 && key in f.inserted
  {
    hide Marked, Folded, OrAll, Member, Index;
    FoldedTwice();
    f := Holding(key, salt, seed);
    var shrunk := f.Compress(33.0);
    assert f.bitTable[..] == [0, 1, 0, 0] && f.sizeList == [48, 32];
    shrunk := f.Compress(25.0);
  }

  method Holding(key: nat, salt: nat, seed: nat) returns (f: Filter<nat>)
    ensures fresh(f) && fresh(f.bitTable) && f.Valid() && Parameters(f, salt, seed)
    ensures f.bitTable[..] == [0, 0, 0, 0, 0, 1] && f.sizeList == [48] && key in f.inserted
  {
    hide Marked, Folded, OrAll, Member, Index;
    MarkedForty(key, salt);
    f := new Filter<nat>(48, [salt], seed, Forty);
    assert f.bitTable[..] == [0, 0, 0, 0, 0, 0];
    f.Insert(key);
  }

  /** Two filters of 48 bits are compressed to 24, the second one by way of 32.  A key whose hash is 40
      has bit 16 in the first and bit 8 in the second: their union does not contain it. */
  method UnionOfDifferentSteps(key: nat, salt: nat, seed: nat) returns (held: bool, found: bool)
    ensures held && !found
  {
    hide Marked, Folded, OrAll, Member, Index;
    OrAllMiddle();
    NotAtSixteen(key, salt);
    var first := Halved(salt, seed);
    var second := HalvedByTwoThirds(key, salt, seed);
    held := second.Contains(key);
    var united := first.Union(second);
    found := first.Contains(key);
  }
}
