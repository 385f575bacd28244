/** The address range of a new VPC, with the unsigned 32-bit arithmetic of the default DHCP range. */
module VpcRange {
  import opened Common
  import opened Powers

  const WORDS := 0x1_0000_0000

  /** An address of 32 bits. */
  type Word = x: int | 0 <= x < WORDS

  function Add(x: Word, y: Word): Word { if x + y < WORDS then x + y else x + y - WORDS }

  /** A subnet field: the parsed prefix, if it parses, with the width of its mask. */
  datatype Prefix = Unparsable | Prefix(isV4: bool, address: Word, ones: nat, bits: nat)

  /** An address field after trimming: blank, or the IPv4 address it parses to, if any. */
  datatype Field = Blank | Field(address: Option<Word>)

  datatype Refusal = BadSubnet | BadPrefixLength | BadGateway | HalfARange | BadRange

  datatype Answer = Rejected(why: Refusal) | Accepted(start: Word, end: Word)

  predicate SubnetOk(p: Prefix) {
    p.Prefix? && p.isV4 && p.bits == 32 && 16 <= p.ones <= 29
  }

  function Size(p: Prefix): nat
    requires SubnetOk(p)
  {
    Pow2(32 - p.ones)
  }

  function Base(p: Prefix): int
    requires SubnetOk(p)
  {
    p.address - p.address % Size(p)
  }

  /** The base is a multiple of the size, so filling its host bits is an addition. */
  lemma SubnetFits(p: Prefix)
    requires SubnetOk(p)
    ensures 8 <= Size(p) <= 0x1_0000
    ensures 0 <= Base(p) && Base(p) + Size(p) <= WORDS
  {
    Pow2Values();
    Pow2Grows(3, 32 - p.ones);
    Pow2Grows(32 - p.ones, 16);
    Pow2Splits(32 - p.ones, p.ones);
    Aligned(p.address, Size(p), Pow2(p.ones));
  }

  lemma Aligned(x: int, size: int, count: int)
    requires size > 0 && 0 <= x < size * count
    ensures 0 <= x - x % size && x - x % size + size <= size * count
  {
    var q := x / size;
    assert x - x % size == size * q;
    if q >= count {
      FactorMonotone(size, count, q);
      assert false;
    }
    FactorMonotone(size, q + 1, count);
    FactorMonotone(size, 0, q);
  }

  lemma FactorMonotone(size: int, m: int, n: int)
    requires size > 0 && m <= n
    ensures size * m <= size * n
  {
  }

  // ---------------------------------------------------------------- what is promised

  /** An address strictly inside: neither the network nor the broadcast address. */
  predicate Inside(p: Prefix, x: int)
    requires SubnetOk(p)
  {
    Base(p) < x < Base(p) + Size(p) - 1
  }

  predicate IsUsable(p: Prefix, f: Field)
    requires SubnetOk(p)
  {
    f.Field? && f.address.Some? && Inside(p, f.address.value)
  }

  predicate RangeOk(p: Prefix, gw: int, a: int, b: int)
    requires SubnetOk(p)
  {
    Inside(p, a) && Inside(p, b) && a <= b && !(a <= gw <= b)
  }

  /** The window the default is cut from: hosts 10 to 250, or from 2 where the subnet is too small for that. */
  function First(p: Prefix): int
    requires SubnetOk(p)
  {
    if 10 < Size(p) - 2 then Base(p) + 10 else Base(p) + 2
  }

  function Last(p: Prefix): int
    requires SubnetOk(p)
  {
    if 250 < Size(p) - 1 then Base(p) + 250 else Base(p) + Size(p) - 2
  }

  /** Within the window, and no range of the window that avoids the gateway is longer. */
  ghost predicate IsDefault(p: Prefix, gw: int, a: int, b: int)
    requires SubnetOk(p)
  {
    && First(p) <= a <= b <= Last(p)
    && forall a', b' :: First(p) <= a' <= b' <= Last(p) && !(a' <= gw <= b') ==> Span(a', b') <= Span(a, b)
  }

  function Span(a: int, b: int): int { b - a }

  /** When the arithmetic of the default does not wrap around. */
  predicate NoWrap(p: Prefix)
    requires SubnetOk(p)
  {
    Base(p) + 250 < WORDS
  }

  predicate Acceptable(p: Prefix, gateway: Field, start: Field, end: Field) {
    && SubnetOk(p)
    && IsUsable(p, gateway)
    && (start.Blank? <==> end.Blank?)
    && if start.Blank? then NoWrap(p)
       else
         && IsUsable(p, start) && IsUsable(p, end)
         && RangeOk(p, gateway.address.value, start.address.value, end.address.value)
  }

  // ---------------------------------------------------------------- what the code does

  method Usable(base: Word, broadcast: Word, f: Field) returns (v: Word, ok: bool)
    ensures ok <==> f.Field? && f.address.Some? && base < f.address.value < broadcast
    ensures ok ==> v == f.address.value
  {
    if f.Blank? || f.address.None? || !(base <= f.address.value <= broadcast) {
      return 0, false;
    }
    v := f.address.value;
    ok := v > base && v < broadcast;
  }

  /** The range of the default, before it is checked like a given one. */
  method DefaultRange(base: Word, broadcast: Word, gw: Word) returns (a: Word, b: Word)
    requires base + 7 <= broadcast && base < gw < broadcast
    ensures base + 250 >= WORDS ==> b < base
    ensures base + 250 < WORDS ==>
              var first, last := if 10 < broadcast - base - 1 then base + 10 else base + 2,
                                 if 250 < broadcast - base then base + 250 else broadcast - 1;
              && first <= a <= b <= last && !(a <= gw <= b)
              && (gw < first || last < gw ==> a == first && b == last)
              && (first <= gw <= last ==>
                    if gw - first > last - gw then a == first && b == gw - 1 else a == gw + 1 && b == last)
  {
    a, b := Add(base, 10), Add(base, 250);
    if b >= broadcast {
      b := broadcast - 1;
    }
    if a >= b {
      a := Add(base, 2);
    }
    if gw >= a && gw <= b {
      if gw - a > b - gw {
        b := gw - 1;
      } else {
        a := gw + 1;
      }
    }
  }

  /** The longer side of the gateway is the longest range without it. */
  lemma LongerSideIsDefault(p: Prefix, gw: int, a: int, b: int)
    requires SubnetOk(p) && Inside(p, gw)
    requires First(p) <= a <= b <= Last(p)
    requires gw < First(p) || Last(p) < gw ==> a == First(p) && b == Last(p)
    requires First(p) <= gw <= Last(p) ==>
               if gw - First(p) > Last(p) - gw then a == First(p) && b == gw - 1 else a == gw + 1 && b == Last(p)
    ensures IsDefault(p, gw, a, b)
  {
  }

  /** The checks of the address fields of a VPC, in their order. */
  method NormalizeRange(p: Prefix, gateway: Field, start: Field, end: Field) returns (r: Answer)
    ensures r.Accepted? <==> Acceptable(p, gateway, start, end)
    ensures r.Accepted? ==> RangeOk(p, gateway.address.value, r.start, r.end)
    ensures r.Accepted? && !start.Blank? ==> r.start == start.address.value && r.end == end.address.value
    ensures r.Accepted? && start.Blank? ==> IsDefault(p, gateway.address.value, r.start, r.end)
    ensures r == Rejected(BadSubnet) <==> p.Unparsable? || !p.isV4
    ensures r == Rejected(BadPrefixLength) <==> p.Prefix? && p.isV4 && !SubnetOk(p)
    ensures r == Rejected(BadGateway) <==> SubnetOk(p) && !IsUsable(p, gateway)
    ensures r == Rejected(HalfARange) <==> SubnetOk(p) && IsUsable(p, gateway) && start.Blank? != end.Blank?
  {
    if p.Unparsable? || !p.isV4 {
      return Rejected(BadSubnet);
    }
    if p.bits != 32 || p.ones < 16 || p.ones > 29 {
      return Rejected(BadPrefixLength);
    }
    SubnetFits(p);
    var size := Size(p);
    var base: Word := p.address - p.address % size;
    var broadcast: Word := base + (size - 1);
    var gw, ok := Usable(base, broadcast, gateway);
    if !ok {
      return Rejected(BadGateway);
    }
    var from, to := start, end;
    if from.Blank? != to.Blank? {
      return Rejected(HalfARange);
    }
    if from.Blank? {
      var a, b := DefaultRange(base, broadcast, gw);
      from, to := Field(Some(a)), Field(Some(b));
      if NoWrap(p) {
        LongerSideIsDefault(p, gw, a, b);
      }
    }
    var a, validA := Usable(base, broadcast, from);
    var b, validB := Usable(base, broadcast, to);
    if !validA || !validB || a > b || (gw >= a && gw <= b) {
      return Rejected(BadRange);
    }
    return Accepted(a, b);
  }

  /** Some subnets at the very end of the address space have usable gateways but no default range. */
  lemma LastSubnetsWrap()
    ensures var p := Prefix(true, 0xFFFF_FFF8, 29, 32);
            SubnetOk(p) && IsUsable(p, Field(Some(0xFFFF_FFF9)))
                && !Acceptable(p, Field(Some(0xFFFF_FFF9)), Blank, Blank)
  {
    var p := Prefix(true, 0xFFFF_FFF8, 29, 32);
    assert Pow2(3) == 8;
    assert Size(p) == 8 && Base(p) == 0xFFFF_FFF8;
  }
}
