/**
 The address pool of internal/ippool: a cyclic first-fit allocator over an IPv4 prefix.

 An IPv4 address is its 32-bit number. Numbers from 2^32 up stand for the invalid address that
 `netip.Addr.Next` yields past 255.255.255.255.
 */
module IpPool {
  import opened Basics

  const LAST: nat := 0x1_0000_0000

  /** A prefix of `size` addresses from the network address `base` on, and the pool's bookkeeping. */
  datatype PoolState = PoolState(base: nat, size: nat, reserved: set<nat>, used: set<nat>, next: nat) {

    /** The cursor is somewhere after the network address. */
    predicate Valid() {
      && size >= 1
      && base + size <= LAST
      && base < next <= base + size
    }

    predicate Contains(addr: nat) {
      addr < LAST && base <= addr < base + size
    }

    /** Inside the prefix and not the network address, the broadcast address or a reserved host. */
    predicate Usable(addr: nat) {
      Contains(addr) && addr != base && addr != base + size - 1 && addr !in reserved
    }

    predicate Free(addr: nat) {
      Usable(addr) && addr !in used
    }

    /** The host slots base+1 .. base+size-1 form the ring that the cursor walks. */
    function Slots(): nat
      requires Valid()
    {
      size - 1
    }

    /** The k-th address met when walking the ring from the cursor. */
    function Probe(k: nat): (addr: nat)
      requires Valid() && k < Slots()
      ensures base < addr <= base + Slots()
    {
      var start := if next < base + size then next - base - 1 else 0;
      if start + k < Slots() then base + 1 + start + k else base + 1 + start + k - Slots()
    }

    /** Index of the first free probe from the k-th on. */
    function FirstFree(k: nat): (r: Option<nat>)
      requires Valid() && k <= Slots()
      ensures r.Some? ==> k <= r.value < Slots() && Free(Probe(r.value))
      ensures r.Some? ==> forall j :: k <= j < r.value ==> !Free(Probe(j))
      ensures r.None? ==> forall j :: k <= j < Slots() ==> !Free(Probe(j))
      decreases Slots() - k
    {
      if k == Slots() then None
      else if Free(Probe(k)) then Some(k)
      else FirstFree(k + 1)
    }

    /** The address handed out next. */
    function Candidate(): (r: Option<nat>)
      requires Valid()
      ensures r.Some? ==> Free(r.value)
    {
      var k := FirstFree(0);
      if k.Some? then Some(Probe(k.value)) else None
    }

    function Take(addr: nat): PoolState {
      this.(used := used + {addr}, next := addr + 1)
    }

    function Drop(addr: nat): PoolState {
      this.(used := used - {addr})
    }

    /** Where an address sits on the ring, counted from the cursor. */
    function Distance(addr: nat): (k: nat)
      requires Valid() && base < addr <= base + Slots()
      ensures k < Slots() && Probe(k) == addr
    {
      var start := if next < base + size then next - base - 1 else 0;
      var slot := addr - base - 1;
      if slot >= start then slot - start else slot + Slots() - start
    }
  }

  // ---- the four bytes of an address and the broadcast test ----

  /** Bit i, counted from the least significant: what masking with 1<<i tests. */
  predicate Bit(a: nat, i: nat) {
    if i == 0 then a % 2 == 1 else Bit(a / 2, i - 1)
  }

  /** The j-th byte of an address, least significant first. */
  function ByteOf(addr: nat, j: nat): nat {
    if j == 0 then addr % 256 else ByteOf(addr / 256, j - 1)
  }

  /** The network address of the block of 2^h addresses: the low h bits cleared. */
  function Masked(addr: nat, h: nat): (base: nat)
    ensures base <= addr < base + Pow2(h)
  {
    if h == 0 then addr else 2 * Masked(addr / 2, h - 1)
  }

  /** Cutting off the lowest bit before taking a remainder. */
  lemma ModSplit(a: nat, d: nat)
    requires d > 0
    ensures a % (2 * d) == 2 * (a / 2 % d) + a % 2
  {
    var q := a / 2 / d;
    assert a / 2 == q * d + a / 2 % d;
    assert 2 * (q * d) == q * (2 * d);
    QuotientUnique(a, 2 * d, q, 2 * (a / 2 % d) + a % 2);
  }

  /** Testing a bit byte-wise tests that bit of the address. */
  lemma {:induction false} BitOfAddr(a: nat, j: nat, k: nat)
    requires k < 8
    ensures Bit(ByteOf(a, j), k) == Bit(a, 8 * j + k)
  {
    if j == 0 {
      LowBit(a, k, 8, 256);
    } else {
      BitOfAddr(a / 256, j - 1, k);
      SkipByte(a, 8 * j + k);
    }
  }

  /** A remainder by d = 2^n keeps the bits below n. */
  lemma {:induction false} LowBit(a: nat, k: nat, n: nat, d: nat)
    requires k < n && d == Pow2(n)
    ensures Bit(a % d, k) == Bit(a, k)
  {
    var e := Pow2(n - 1);
    ModSplit(a, e);
    assert a % d / 2 == a / 2 % e;
    if k > 0 {
      LowBit(a / 2, k - 1, n - 1, e);
      assert Bit(a % d, k) == Bit(a % d / 2, k - 1);
    }
  }

  lemma SkipByte(a: nat, i: nat)
    requires i >= 8
    ensures Bit(a, i) == Bit(a / 256, i - 8)
  {
    assert Bit(a, i) == Bit(a / 4, i - 2);
    assert Bit(a / 4, i - 2) == Bit(a / 16, i - 4);
    assert Bit(a / 16, i - 4) == Bit(a / 64, i - 6);
    assert Bit(a / 64, i - 6) == Bit(a / 256, i - 8);
  }

  predicate Ones(a: nat, h: nat) {
    h == 0 || (a % 2 == 1 && Ones(a / 2, h - 1))
  }

  lemma {:induction false} OnesAreBits(a: nat, h: nat, t: nat)
    requires t < h
    ensures Ones(a, h) ==> Bit(a, t)
    ensures !Bit(a, t) ==> !Ones(a, h)
  {
    if t > 0 {
      OnesAreBits(a / 2, h - 1, t - 1);
    }
  }

  lemma {:induction false} BitsAreOnes(a: nat, h: nat)
    requires forall t :: 0 <= t < h ==> Bit(a, t)
    ensures Ones(a, h)
  {
    if h > 0 {
      forall t | 0 <= t < h - 1 ensures Bit(a / 2, t) {
        assert Bit(a, t + 1);
      }
      assert Bit(a, 0);
      BitsAreOnes(a / 2, h - 1);
    }
  }

  /** All host bits set: the last address of its block. */
  lemma {:induction false} OnesIsLast(a: nat, h: nat)
    ensures Ones(a, h) <==> a == Masked(a, h) + Pow2(h) - 1
  {
    if h > 0 {
      OnesIsLast(a / 2, h - 1);
    }
  }

  /** Clearing the low bits is subtracting the remainder. */
  lemma {:induction false} MaskedIsRemainder(a: nat, h: nat)
    ensures Masked(a, h) == a - a % Pow2(h)
  {
    if h > 0 {
      MaskedIsRemainder(a / 2, h - 1);
      ModSplit(a, Pow2(h - 1));
    }
  }

  /** Addresses of one block share their network address. */
  lemma {:induction false} SameBlock(base: nat, a: nat, h: nat)
    requires Masked(base, h) == base && base <= a < base + Pow2(h)
    ensures Masked(a, h) == base
  {
    if h > 0 {
      SameBlock(base / 2, a / 2, h - 1);
    }
  }

  lemma {:induction false} MaskedIdempotent(a: nat, h: nat)
    ensures Masked(Masked(a, h), h) == Masked(a, h)
  {
    if h > 0 {
      MaskedIdempotent(a / 2, h - 1);
      var m := Masked(a / 2, h - 1);
      assert (2 * m) / 2 == m;
      assert Masked(2 * m, h) == 2 * Masked(m, h - 1);
    }
  }

  lemma {:induction false} BlockFits(a: nat, h: nat, n: nat)
    requires a < Pow2(h + n)
    ensures Masked(a, h) + Pow2(h) <= Pow2(h + n)
  {
    if h > 0 {
      BlockFits(a / 2, h - 1, n);
    }
  }

  lemma AllAddresses()
    ensures Pow2(32) == LAST
  {
    assert Pow2(8) == 256;
    Pow2Add(8, 8);
    Pow2Add(16, 16);
  }

  // ---- the pool object ----

  class Pool {
    const base: nat
    const hostBits: nat
    const reserved: set<nat>
    var used: set<nat>
    var next: nat

    function State(): PoolState
      reads this
    {
      PoolState(base, Pow2(hostBits), reserved, used, next)
    }

    /** The prefix is a masked IPv4 prefix. */
    predicate Valid()
      reads this
    {
      hostBits <= 32 && Masked(base, hostBits) == base && State().Valid()
    }

    /** New over an address of a parsed prefix: the address is masked and the cursor skips it. */
    constructor (addr: nat, hostBits: nat, reserved: set<nat>)
      requires hostBits <= 32 && addr < LAST
      ensures Valid()
      ensures State() == PoolState(Masked(addr, hostBits), Pow2(hostBits), reserved, {}, Masked(addr, hostBits) + 1)
    {
      this.base := Masked(addr, hostBits);
      this.hostBits := hostBits;
      this.reserved := reserved;
      used := {};
      next := Masked(addr, hostBits) + 1;
      AllAddresses();
      BlockFits(addr, hostBits, 32 - hostBits);
      MaskedIdempotent(addr, hostBits);
    }

    /** All host bits set: the loop walks them from the least significant, byte by byte. */
    method IsBroadcast(addr: nat) returns (r: bool)
      ensures r <==> addr % Pow2(hostBits) == Pow2(hostBits) - 1
      ensures r <==> addr == Masked(addr, hostBits) + Pow2(hostBits) - 1
    {
      OnesIsLast(addr, hostBits);
      MaskedIsRemainder(addr, hostBits);
      var i := 0;
      while i < hostBits
        invariant 0 <= i <= hostBits
        invariant forall t :: 0 <= t < i ==> Bit(addr, t)
      {
        BitOfAddr(addr, i / 8, i % 8);
        if !Bit(ByteOf(addr, i / 8), i % 8) {
          OnesAreBits(addr, hostBits, i);
          return false;
        }
        i := i + 1;
      }
      BitsAreOnes(addr, hostBits);
      return true;
    }

    method IsUsable(addr: nat) returns (r: bool)
      requires Valid()
      ensures r == State().Usable(addr)
      ensures r <==> base < addr < base + Pow2(hostBits) - 1 && addr !in reserved
    {
      if !State().Contains(addr) || addr == base {
        return false;
      }
      var b := IsBroadcast(addr);
      SameBlock(base, addr, hostBits);
      return !b && addr !in reserved;
    }

    /** The first free address from the cursor on, or nothing after a full sweep. */
    method Allocate() returns (r: Option<nat>)
      requires Valid()
      modifies this
      ensures Valid()
      ensures r == old(State()).Candidate()
      ensures r.Some? ==> base < r.value < base + Pow2(hostBits) - 1 && r.value !in reserved
                          && r.value !in old(used) && used == old(used) + {r.value} && next == r.value + 1
      ensures r.None? ==> used == old(used) && next == old(next)
      ensures forall a :: base < a < base + Pow2(hostBits) - 1 && a !in reserved && a !in old(used) ==>
                r.Some? && !MetBefore(old(next), a, r.value)
      ensures State() == if r.Some? then old(State()).Take(r.value) else old(State())
    {
      var addr := next;
      var i := 0;
      ghost var p := State();
      while true
        invariant State() == p == old(State())
        invariant 0 <= i <= Pow2(hostBits) + 2 && 0 <= addr
        invariant i < p.Slots() ==> p.FirstFree(0) == p.FirstFree(i) && Wrapped(p, addr) == p.Probe(i)
        invariant i >= p.Slots() ==> p.FirstFree(0).None?
        decreases Pow2(hostBits) + 3 - i
      {
        if addr >= LAST || !State().Contains(addr) {
          addr := base + 1;
        }
        var u := IsUsable(addr);
        if u && addr !in used {
          if i >= p.Slots() {
            OnRing(p, addr);
            assert false;
          }
          FoundAt(p, i);
          FirstFit(p);
          used := used + {addr};
          next := addr + 1;
          return Some(addr);
        }
        addr := addr + 1;
        if i > Pow2(hostBits) + 1 {
          FirstFit(p);
          return None;
        }
        i := i + 1;
      }
    }

    method Release(addr: nat)
      requires Valid()
      modifies this`used
      ensures Valid()
      ensures State() == old(State()).Drop(addr)
    {
      used := used - {addr};
    }
  }

  function Wrapped(p: PoolState, addr: nat): nat {
    if p.Contains(addr) then addr else p.base + 1
  }

  /** Every usable address is on the ring, so an exhausted sweep means that none is free. */
  lemma OnRing(p: PoolState, addr: nat)
    requires p.Valid() && p.Free(addr)
    ensures p.FirstFree(0).Some?
    ensures addr < p.base + p.Slots()
  {
    var k := p.Distance(addr);
    assert p.Free(p.Probe(k));
  }

  /** The first probe that is free is the address handed out, and the cursor may move past it. */
  lemma FoundAt(p: PoolState, i: nat)
    requires p.Valid() && i < p.Slots() && p.FirstFree(0) == p.FirstFree(i) && p.Free(p.Probe(i))
    ensures p.Candidate() == Some(p.Probe(i)) && p.Take(p.Probe(i)).Valid()
  {
    OnRing(p, p.Probe(i));
  }

  // ---- what the allocator promises ----

  /** Exhaustion is exact, and the address handed out is the cyclically nearest free one. */
  lemma CandidateIsNearest(p: PoolState)
    requires p.Valid()
    ensures p.Candidate().None? <==> forall a :: p.Usable(a) ==> a in p.used
    ensures p.Candidate().Some? ==>
              forall b :: p.Free(b) ==> p.Distance(p.Candidate().value) <= p.Distance(b)
  {
    assert p.Candidate().Some? ==> p.Free(p.Candidate().value);
    forall b | p.Free(b)
      ensures p.Candidate().Some? && p.Distance(p.Candidate().value) <= p.Distance(b)
    {
      OnRing(p, b);
      ProbeInjective(p, p.FirstFree(0).value);
    }
    forall a | p.Candidate().None? && p.Usable(a) ensures a in p.used {
      assert !p.Free(a);
    }
  }

  /** Going up from the cursor and round again, a comes before b. */
  predicate MetBefore(cursor: nat, a: nat, b: nat) {
    if b >= cursor then cursor <= a < b else a >= cursor || a < b
  }

  /** First fit: no free address is passed over, and none is free when there is no answer. */
  lemma FirstFit(p: PoolState)
    requires p.Valid()
    ensures p.Candidate().Some? ==> p.base < p.Candidate().value < p.base + p.size - 1
    ensures forall a :: p.base < a < p.base + p.size - 1 && a !in p.reserved && a !in p.used ==>
              p.Candidate().Some? && !MetBefore(p.next, a, p.Candidate().value)
  {
    CandidateIsNearest(p);
    forall a | p.base < a < p.base + p.size - 1 && a !in p.reserved && a !in p.used
      ensures p.Candidate().Some? && !MetBefore(p.next, a, p.Candidate().value)
    {
      assert p.Free(a);
      OnRing(p, p.Candidate().value);
    }
  }

  lemma ProbeInjective(p: PoolState, k: nat)
    requires p.Valid() && k < p.Slots()
    ensures p.Distance(p.Probe(k)) == k
  {
  }

  datatype Op = Alloc | Release(addr: nat)

  function After(p: PoolState, op: Op): (q: PoolState)
    requires p.Valid()
    ensures q.Valid()
  {
    match op
    case Release(a) => p.Drop(a)
    case Alloc =>
      if p.Candidate().None? then p
      else
        OnRing(p, p.Candidate().value);
        p.Take(p.Candidate().value)
  }

  /** The addresses handed out by a run, in order. */
  function Issued(p: PoolState, ops: seq<Op>): seq<nat>
    requires p.Valid()
    decreases |ops|
  {
    if ops == [] then []
    else
      (if ops[0].Alloc? && p.Candidate().Some? then [p.Candidate().value] else [])
      + Issued(After(p, ops[0]), ops[1..])
  }

  /** An address on the ring, nearer than b. */
  predicate Nearer(p: PoolState, x: nat, b: nat)
    requires p.Valid()
  {
    && p.base < x <= p.base + p.Slots()
    && p.base < b <= p.base + p.Slots()
    && p.Distance(x) < p.Distance(b)
  }

  /** A free address that is passed over comes strictly nearer. */
  lemma PassedOver(p: PoolState, b: nat)
    requires p.Valid() && p.Free(b) && p.Candidate() != Some(b)
    ensures p.Candidate().Some? && Nearer(p, p.Candidate().value, b)
    ensures p.Candidate().value < p.base + p.Slots()
    ensures p.Take(p.Candidate().value).Valid() && p.Take(p.Candidate().value).Free(b)
  {
    CandidateIsNearest(p);
    var a := p.Candidate().value;
    OnRing(p, a);
    assert p.Probe(p.Distance(a)) == a && p.Probe(p.Distance(b)) == b;
  }

  /** An allocation that passes b over issues an address before it, and leaves b free. */
  lemma IssuesFirst(p: PoolState, ops: seq<Op>, b: nat) returns (a: nat)
    requires p.Valid() && p.Free(b) && ops != [] && ops[0].Alloc? && b !in Issued(p, ops)
    ensures Nearer(p, a, b) && a < p.base + p.Slots()
    ensures After(p, ops[0]) == p.Take(a) && p.Take(a).Valid() && p.Take(a).Free(b)
    ensures Issued(p, ops) == [a] + Issued(After(p, ops[0]), ops[1..])
  {
    OnRing(p, b);
    a := p.Candidate().value;
    assert Issued(p, ops)[0] == a;
    PassedOver(p, b);
  }

  /** Fairness: while b is free and not issued, issues march strictly towards b on the ring. */
  lemma {:induction false} IssuesMarchTowards(p: PoolState, ops: seq<Op>, b: nat, i: nat)
    requires p.Valid() && p.Free(b) && b !in Issued(p, ops) && i < |Issued(p, ops)|
    ensures Nearer(p, Issued(p, ops)[i], b)
    ensures i <= p.Distance(Issued(p, ops)[i])
    ensures i > 0 ==> Nearer(p, Issued(p, ops)[i - 1], Issued(p, ops)[i])
    decreases |ops|
  {
    var q := After(p, ops[0]);
    var rest := Issued(q, ops[1..]);
    if ops[0].Alloc? {
      var a := IssuesFirst(p, ops, b);
      if i > 0 {
        IssuesMarchTowards(q, ops[1..], b, i - 1);
        AheadOfCursor(p, a, rest[i - 1], b);
        if i > 1 {
          OrderKept(p, a, rest[i - 2], rest[i - 1], b);
        }
      }
    } else {
      assert Issued(p, ops) == rest;
      IssuesMarchTowards(q, ops[1..], b, i);
    }
  }

  /** An address met before b after the cursor moved past a lies between a and b. */
  lemma AheadOfCursor(p: PoolState, a: nat, x: nat, b: nat)
    requires p.Valid() && a < p.base + p.Slots() && Nearer(p, a, b) && Nearer(p.Take(a), x, b)
    ensures Nearer(p, a, x) && Nearer(p, x, b)
    ensures p.Take(a).Distance(x) == p.Distance(x) - p.Distance(a) - 1
  {
  }

  lemma OrderKept(p: PoolState, a: nat, x: nat, y: nat, b: nat)
    requires p.Valid() && a < p.base + p.Slots() && Nearer(p, a, b) && Nearer(p.Take(a), x, y)
             && Nearer(p.Take(a), y, b)
    ensures Nearer(p, x, y)
  {
    AheadOfCursor(p, a, x, b);
    AheadOfCursor(p, a, y, b);
  }

  /** No address is issued twice before b, and b is issued within one sweep of the ring. */
  lemma FreeAddressComesUp(p: PoolState, ops: seq<Op>, b: nat)
    requires p.Valid() && p.Free(b)
    ensures |Issued(p, ops)| > p.Distance(b) ==> b in Issued(p, ops)
    ensures b !in Issued(p, ops) ==>
              forall i, j :: 0 <= i < j < |Issued(p, ops)| ==> Issued(p, ops)[i] != Issued(p, ops)[j]
  {
    if b !in Issued(p, ops) {
      if |Issued(p, ops)| > 0 {
        IssuesMarchTowards(p, ops, b, |Issued(p, ops)| - 1);
      }
      forall i, j | 0 <= i < j < |Issued(p, ops)| ensures Issued(p, ops)[i] != Issued(p, ops)[j] {
        IssuesIncrease(p, ops, b, i, j);
      }
    }
  }

  lemma {:induction false} IssuesIncrease(p: PoolState, ops: seq<Op>, b: nat, i: nat, j: nat)
    requires p.Valid() && p.Free(b) && b !in Issued(p, ops) && i < j < |Issued(p, ops)|
    ensures Nearer(p, Issued(p, ops)[i], Issued(p, ops)[j])
    decreases j - i
  {
    IssuesMarchTowards(p, ops, b, j);
    if i + 1 < j {
      IssuesIncrease(p, ops, b, i, j - 1);
      NearerTransitive(p, Issued(p, ops)[i], Issued(p, ops)[j - 1], Issued(p, ops)[j]);
    }
  }

  lemma NearerTransitive(p: PoolState, a: nat, b: nat, c: nat)
    requires p.Valid() && Nearer(p, a, b) && Nearer(p, b, c)
    ensures Nearer(p, a, c)
  {
  }
}
