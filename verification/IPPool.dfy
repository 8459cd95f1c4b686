/**
 The in-process address allocator of internal/network/ippool.go.  A prefix
 (section 3.1 of RFC 4632) is given by its first address and the number of its host
 bits, which are zero in that address; offsets and addresses are 32-bit unsigned numbers.
 */
module IPPool {
  import opened Common

  const TWO32 := 0x1_0000_0000

  type Word = x: int | 0 <= x < TWO32

  /** Conversion to a 32-bit unsigned number. */
  function Wrap(x: int): Word {
    x % TWO32
  }

  datatype Prefix = Prefix(base: Word, hostBits: nat)

  ghost predicate ValidPrefix(p: Prefix) {
    p.hostBits <= 32 && p.base % Pow2(p.hostBits) == 0
  }

  ghost predicate InNetwork(p: Prefix, address: int) {
    p.base <= address < p.base + Pow2(p.hostBits)
  }

  /** The last host offset: uint32(1<<hostBits) - 2, in 32-bit arithmetic. */
  function MaxOffset(hostBits: nat): Word {
    LastOffset(Pow2(hostBits))
  }

  function LastOffset(hosts: int): Word {
    Wrap(Wrap(hosts) - 2)
  }

  lemma Pow2At32()
    ensures Pow2(32) == TWO32
  {
    assert Pow2(8) == 256;
    Pow2Adds(8, 8);
    Pow2Adds(16, 16);
  }

  lemma {:induction false} Pow2Grows(a: nat, b: nat)
    requires a <= b
    ensures Pow2(a) <= Pow2(b)
    decreases b
  {
    if a < b { Pow2Grows(a, b - 1); }
  }

  lemma Pow2Bound(h: nat)
    requires h <= 32
    ensures Pow2(h) <= TWO32
  {
    Pow2At32();
    Pow2Grows(h, 32);
  }

  lemma Pow2Split(h: nat)
    requires h <= 32
    ensures Pow2(32 - h) * Pow2(h) == TWO32
  {
    Pow2At32();
    Pow2Adds(32 - h, h);
  }

  lemma WrapIs(x: int)
    requires -TWO32 <= x < 2 * TWO32
    ensures Wrap(x) == if x < 0 then x + TWO32 else if x < TWO32 then x else x - TWO32
  {
  }

  lemma MaxOf(n: int)
    requires 1 <= n <= TWO32
    ensures Wrap(LastOffset(n) + 1) == n - 1
    ensures n >= 4 ==> LastOffset(n) == n - 2
  {
    WrapIs(n);
    WrapIs(Wrap(n) - 2);
    WrapIs(Wrap(Wrap(n) - 2) + 1);
  }

  lemma MaxOffsetIs(hostBits: nat)
    requires hostBits <= 32
    ensures Wrap(MaxOffset(hostBits) + 1) == Pow2(hostBits) - 1
    ensures hostBits >= 2 ==> MaxOffset(hostBits) == Pow2(hostBits) - 2 && MaxOffset(hostBits) >= 2
  {
    Pow2Bound(hostBits);
    if hostBits >= 2 {
      Pow2Grows(2, hostBits);
      assert Pow2(2) == 4;
    }
    MaxOf(Pow2(hostBits));
  }

  lemma {:induction false} OneBlockMore(b: nat, n: nat, h: nat)
    requires b < n
    ensures b * h + h <= n * h
    decreases n
  {
    assert n * h == (n - 1) * h + h;
    if b < n - 1 { OneBlockMore(b, n - 1, h); }
  }

  lemma BlocksFit(base: nat, size: nat, n: nat)
    requires size > 0 && base % size == 0 && base < n * size
    ensures base + size <= n * size
  {
    var b := base / size;
    assert base == b * size;
    if b >= n {
      MulMono(n, b, size);
    } else {
      OneBlockMore(b, n, size);
    }
  }

  lemma {:induction false} MulMono(a: nat, b: nat, h: nat)
    requires a <= b
    ensures a * h <= b * h
    decreases b
  {
    if a < b {
      assert b * h == (b - 1) * h + h;
      MulMono(a, b - 1, h);
    }
  }

  /** Networks end within the 32-bit address space. */
  lemma NetworkFits(p: Prefix)
    requires ValidPrefix(p)
    ensures p.base + Pow2(p.hostBits) <= TWO32
  {
    Pow2Split(p.hostBits);
    BlocksFit(p.base, Pow2(p.hostBits), Pow2(32 - p.hostBits));
  }

  // ---- allocation as a value ----

  datatype Pool = Pool(base: Word, next: Word, max: Word, inUse: map<Word, string>)

  /** The offsets that the cursor goes round: 2 to max, unless max is too small to be reached
      or is the last 32-bit number, where the cursor wraps to 0. */
  function Low(max: Word): Word {
    if max == TWO32 - 1 then 0 else 2
  }

  function High(max: Word): Word {
    if max < 2 then 2 else max
  }

  ghost predicate Ok(p: Pool) {
    Low(p.max) <= p.next <= High(p.max) && forall o :: o in p.inUse ==> Low(p.max) <= o <= High(p.max)
  }

  /** next++, and back to 2 when that is past max. */
  function NextOffset(o: Word, max: Word): Word {
    var next := Wrap(o + 1);
    if next > max then 2 else next
  }

  lemma NextGoesRound(o: Word, max: Word)
    requires Low(max) <= o <= High(max)
    ensures NextOffset(o, max) == if o == High(max) then Low(max) else o + 1
  {
    WrapIs(o + 1);
  }

  /** How many steps lead from one offset to another, going round. */
  function Distance(max: Word, from: Word, to: Word): int {
    if to >= from then to - from else to - from + (High(max) - Low(max) + 1)
  }

  /** Allocate takes the first free offset going round from `next`; it fails, and changes
      nothing, exactly when every offset is taken. */
  ghost predicate Allocates(p: Pool, uid: string, r: Option<Word>, p': Pool) {
    match r
    case Some(o) =>
      && Low(p.max) <= o <= High(p.max) && o !in p.inUse
      && (forall f: Word :: Low(p.max) <= f <= High(p.max) && f !in p.inUse ==>
            Distance(p.max, p.next, o) <= Distance(p.max, p.next, f))
      && p' == p.(inUse := p.inUse[o := uid], next := if o == High(p.max) then Low(p.max) else o + 1)
    case None => p' == p && forall f: Word :: Low(p.max) <= f <= High(p.max) ==> f in p.inUse
  }

  /** Release frees one offset of the pod, if it has any; which one is up to the map's order. */
  ghost predicate Releases(p: Pool, uid: string, r: Option<Word>, p': Pool) {
    match r
    case Some(o) => o in p.inUse && p.inUse[o] == uid && p' == p.(inUse := p.inUse - {o})
    case None => p' == p && forall o :: o in p.inUse ==> p.inUse[o] != uid
  }

  /** The cursor goes round the host offsets exactly with two or more host bits; a pool with one
      has the single offset 2, and one with none wraps through all 32-bit numbers. */
  lemma PoolIsUsableIff(hostBits: nat)
    requires hostBits <= 32
    ensures Low(MaxOffset(hostBits)) == 2 && High(MaxOffset(hostBits)) == MaxOffset(hostBits) <==> hostBits >= 2
    ensures hostBits == 1 ==> Low(MaxOffset(hostBits)) == High(MaxOffset(hostBits)) == 2
    ensures hostBits == 0 ==> Low(MaxOffset(hostBits)) == 0 && High(MaxOffset(hostBits)) == TWO32 - 1
  {
    MaxOffsetIs(hostBits);
    Pow2Bound(hostBits);
    if hostBits == 0 {
      WrapIs(1);
      WrapIs(-1);
    } else if hostBits == 1 {
      assert Pow2(1) == 2;
      WrapIs(2);
      WrapIs(0);
    }
  }

  lemma AllocatesIsFunctional(p: Pool, uid: string, r: Option<Word>, p': Pool, s: Option<Word>, p'': Pool)
    requires Ok(p) && Allocates(p, uid, r, p') && Allocates(p, uid, s, p'')
    ensures r == s && p' == p''
  {
  }

  /** The search has come from the cursor to `at` in d steps and found nothing free. */
  ghost predicate Searched(p: Pool, at: Word, d: int) {
    && Low(p.max) <= at <= High(p.max) && 0 <= d <= High(p.max) - Low(p.max) && d == Distance(p.max, p.next, at)
    && forall f: Word :: Low(p.max) <= f <= High(p.max) && f !in p.inUse ==> d <= Distance(p.max, p.next, f)
  }

  lemma SearchGoesOn(p: Pool, at: Word, d: int)
    requires Ok(p) && Searched(p, at, d) && at in p.inUse
    ensures NextOffset(at, p.max) != p.next ==> Searched(p, NextOffset(at, p.max), d + 1)
    ensures NextOffset(at, p.max) == p.next ==> Allocates(p, "", None, p)
  {
    NextGoesRound(at, p.max);
  }

  lemma SearchEnds(p: Pool, at: Word, d: int, uid: string)
    requires Ok(p) && Searched(p, at, d) && at !in p.inUse
    ensures var p' := p.(inUse := p.inUse[at := uid], next := NextOffset(at, p.max));
            Ok(p') && Allocates(p, uid, Some(at), p')
  {
    NextGoesRound(at, p.max);
  }

  /** An address that is freed is not given out again at once, unless it is the only one free. */
  lemma NotReusedAtOnce(p: Pool, uid: string, o: Word, p1: Pool, p2: Pool, uid': string, o': Word, p3: Pool)
    requires Ok(p) && Allocates(p, uid, Some(o), p1) && Releases(p1, uid, Some(o), p2)
    requires Allocates(p2, uid', Some(o'), p3)
    ensures o' == o ==> forall f: Word :: Low(p.max) <= f <= High(p.max) && f != o ==> f in p.inUse
  {
    assert p2.next == if o == High(p.max) then Low(p.max) else o + 1;
    forall f: Word | Low(p.max) <= f <= High(p.max) && f != o && f !in p.inUse ensures o' != o {
      assert f !in p2.inUse;
      assert Distance(p.max, p2.next, f) < Distance(p.max, p2.next, o);
    }
  }

  // ---- the pool object ----

  class IPPool {
    var base: Word
    var next: Word
    var max: Word
    var inUse: map<Word, string>

    ghost function View(): Pool
      reads this
    {
      Pool(base, next, max, inUse)
    }

    ghost predicate Valid()
      reads this
    {
      Ok(View())
    }

    constructor (prefix: Prefix)
      requires ValidPrefix(prefix)
      ensures View() == Pool(base, 2, MaxOffset(prefix.hostBits), map[])
      ensures base == prefix.base
      ensures Valid()
      ensures Low(max) == 2 && High(max) == max <==> prefix.hostBits >= 2
    {
      NetworkFits(prefix);
      PoolIsUsableIff(prefix.hostBits);
      base := prefix.base;
      next := 2;
      max := MaxOffset(prefix.hostBits);
      inUse := map[];
    }

    method Allocate(uid: string) returns (r: Option<Word>)
      requires Valid()
      modifies this`next, this`inUse
      ensures Valid() && Allocates(old(View()), uid, r, View())
    {
      var start := next;
      ghost var p, d := View(), 0;
      while true
        invariant inUse == p.inUse && Searched(p, next, d)
        decreases High(max) - Low(max) - d
      {
        if next !in inUse {
          SearchEnds(p, next, d, uid);
          var offset := next;
          inUse := inUse[offset := uid];
          next := NextOffset(next, max);
          return Some(offset);
        }
        SearchGoesOn(p, next, d);
        next := NextOffset(next, max);
        if next == start {
          return None;
        }
        d := d + 1;
      }
    }

    method Release(uid: string) returns (ghost r: Option<Word>)
      modifies this`inUse
      ensures Releases(old(View()), uid, r, View())
      ensures old(Valid()) ==> Valid()
    {
      var left := inUse.Keys;
      while left != {}
        invariant left <= inUse.Keys && inUse == old(inUse)
        invariant forall o :: o in inUse && o !in left ==> inUse[o] != uid
        decreases |left|
      {
        var offset :| offset in left;
        if inUse[offset] == uid {
          inUse := inUse - {offset};
          return Some(offset);
        }
        left := left - {offset};
      }
      return None;
    }

    /** The printed prefix length. */
    method Subnet() returns (bits: int)
      ensures bits == 32 - BitLength(Wrap(max + 1))
    {
      var l: int := BitLen(Wrap(max + 1));
      bits := 32 - l;
    }
  }

  // ---- prefix length ----

  function BitLength(n: nat): nat {
    if n == 0 then 0 else 1 + BitLength(n / 2)
  }

  method BitLen(n: Word) returns (l: nat)
    ensures l == BitLength(n)
  {
    var m := n;
    l := 0;
    while m > 0
      invariant BitLength(n) == l + BitLength(m)
    {
      m := m / 2;
      l := l + 1;
    }
  }

  lemma {:induction false} BitLengthOfOnes(h: nat)
    ensures BitLength(Pow2(h) - 1) == h
  {
    if h > 0 {
      BitLengthOfOnes(h - 1);
      assert (Pow2(h) - 1) / 2 == Pow2(h - 1) - 1;
    }
  }

  /** Subnet prints the prefix length the pool was made with, for every length: the
      32-bit wrap-around cancels out even where the pool itself is unusable. */
  lemma SubnetRoundTrip(hostBits: nat)
    requires hostBits <= 32
    ensures 32 - BitLength(Wrap(MaxOffset(hostBits) + 1)) == 32 - hostBits
  {
    MaxOffsetIs(hostBits);
    BitLengthOfOnes(hostBits);
  }

  // ---- addresses ----

  /** A host of a network: in it, and not its first two addresses, which are those of the
      network and the gateway, nor its last, which is for broadcast. */
  predicate IsHost(base: int, size: int, address: int) {
    && base <= address < base + size
    && address != base && address != base + 1 && address != base + size - 1
  }

  lemma InRange(x: nat)
    requires x < TWO32
    ensures Wrap(x) == x
  {
  }

  lemma RangeIs(hostBits: nat, o: Word)
    requires 2 <= hostBits <= 32 && Low(MaxOffset(hostBits)) <= o <= High(MaxOffset(hostBits))
    ensures 2 <= o <= Pow2(hostBits) - 2
  {
    MaxOffsetIs(hostBits);
    Pow2Bound(hostBits);
  }

  /** An offset in range is a host address of the network. */
  lemma OffsetIsHost(prefix: Prefix, o: Word)
    requires ValidPrefix(prefix) && prefix.hostBits >= 2
    requires Low(MaxOffset(prefix.hostBits)) <= o <= High(MaxOffset(prefix.hostBits))
    ensures IsHost(prefix.base, Pow2(prefix.hostBits), prefix.base + o)
  {
    RangeIs(prefix.hostBits, o);
  }

  /** And the 32-bit sum that is printed is that address. */
  lemma AddressDoesNotWrap(prefix: Prefix, o: Word)
    requires ValidPrefix(prefix) && prefix.hostBits >= 2
    requires Low(MaxOffset(prefix.hostBits)) <= o <= High(MaxOffset(prefix.hostBits))
    ensures Wrap(prefix.base + o) == prefix.base + o
  {
    RangeIs(prefix.hostBits, o);
    NetworkFits(prefix);
    InRange(prefix.base + o);
  }

  /** A new pool's first address lies in its network exactly when there are two host bits. */
  lemma FirstAddressInNetworkIff(prefix: Prefix)
    requires ValidPrefix(prefix)
    ensures InNetwork(prefix, prefix.base + 2) <==> prefix.hostBits >= 2
  {
    if prefix.hostBits >= 2 {
      MaxOffsetIs(prefix.hostBits);
    } else {
      assert Pow2(0) == 1 && Pow2(1) == 2;
    }
  }

  // ---- runs ----

  datatype Event = Alloc(uid: string, r: Option<Word>) | Free(uid: string, r: Option<Word>)

  ghost predicate Step(p: Pool, e: Event, p': Pool) {
    match e
    case Alloc(uid, r) => Allocates(p, uid, r, p')
    case Free(uid, r) => Releases(p, uid, r, p')
  }

  ghost predicate ValidRun(ps: seq<Pool>, es: seq<Event>) {
    |ps| == |es| + 1 && Ok(ps[0]) && forall i :: 0 <= i < |es| ==> Step(ps[i], es[i], ps[i + 1])
  }

  lemma {:induction false} RunKeepsOk(ps: seq<Pool>, es: seq<Event>, n: nat)
    requires ValidRun(ps, es) && n <= |es|
    ensures Ok(ps[n]) && ps[n].max == ps[0].max && ps[n].base == ps[0].base
  {
    if n > 0 {
      RunKeepsOk(ps, es, n - 1);
      assert Step(ps[n - 1], es[n - 1], ps[n]);
      if es[n - 1].Alloc? && es[n - 1].r.Some? { NextGoesRound(es[n - 1].r.value, ps[n].max); }
    }
  }

  /** An address stays with the pod it was given to until a release of that pod frees it. */
  lemma {:induction false} HeldUntilFreed(ps: seq<Pool>, es: seq<Event>, i: nat, j: nat, uid: string, o: Word)
    requires ValidRun(ps, es) && i < j <= |es| && es[i] == Alloc(uid, Some(o))
    requires forall m :: i < m < j ==> es[m] != Free(uid, Some(o))
    ensures o in ps[j].inUse && ps[j].inUse[o] == uid
    decreases j
  {
    assert Step(ps[j - 1], es[j - 1], ps[j]);
    if i + 1 < j {
      HeldUntilFreed(ps, es, i, j - 1, uid, o);
    }
  }

  /** In every run, no address is given out again while it is held. */
  lemma NoAddressIsShared(ps: seq<Pool>, es: seq<Event>, i: nat, j: nat, uid: string, uid': string, o: Word)
    requires ValidRun(ps, es) && i < j < |es|
    requires es[i] == Alloc(uid, Some(o)) && es[j] == Alloc(uid', Some(o))
    ensures exists m :: i < m < j && es[m] == Free(uid, Some(o))
  {
    assert Step(ps[j], es[j], ps[j + 1]);
    if forall m :: i < m < j ==> es[m] != Free(uid, Some(o)) {
      HeldUntilFreed(ps, es, i, j, uid, o);
    }
  }
}
