/**
 Pawn names and ports, as the configuration is processed (internal/config/config.go):
 pawn sets are expanded into numbered pawns, then every pawn gets a port in two passes.
 */
module Ports {
  import opened Common

  type Name = seq<char>

  /** Order of names: character by character, a proper prefix first. */
  predicate Less(a: Name, b: Name)
    decreases |a|
  {
    b != [] && (a == [] || a[0] < b[0] || (a[0] == b[0] && Less(a[1..], b[1..])))
  }

  ghost predicate SortedNames(names: seq<Name>) {
    forall i, j :: 0 <= i < j < |names| ==> Less(names[i], names[j])
  }

  lemma {:induction false} LessIsStrict(a: Name)
    ensures !Less(a, a)
  {
    if a != [] { LessIsStrict(a[1..]); }
  }

  // ---- pawn sets ----

  function Digit(d: nat): (c: char)
    requires d < 10
    ensures '0' <= c <= '9' && c as int == '0' as int + d
  {
    (d + 48) as char
  }

  /** Decimal digits without leading zeros. */
  function Itoa(n: nat): (s: Name)
    ensures |s| > 0
  {
    if n < 10 then [Digit(n)] else Itoa(n / 10) + [Digit(n % 10)]
  }

  function Zeros(n: nat): (s: Name)
    ensures |s| == n
  {
    if n == 0 then [] else ['0'] + Zeros(n - 1)
  }

  /** Decimal digits, padded with zeros to at least the given width. */
  function Padded(n: nat, width: nat): Name {
    var s := Itoa(n);
    if |s| < width then Zeros(width - |s|) + s else s
  }

  /** The name of pawn i of a set of count pawns. */
  function PawnName(setName: Name, i: nat, count: nat): Name
    requires i < count
  {
    setName + ['-'] + Padded(i, |Itoa(count - 1)|)
  }

  /** The number a string of digits stands for. */
  ghost function Number(s: Name): int {
    if s == [] then 0 else 10 * Number(s[..|s| - 1]) + (s[|s| - 1] as int - 48)
  }

  lemma {:induction false} ZerosThenDigits(k: nat, s: Name)
    ensures Number(Zeros(k) + s) == Number(s)
    decreases |s|, k
  {
    var t := Zeros(k) + s;
    if s != [] {
      assert t[..|t| - 1] == Zeros(k) + s[..|s| - 1];
      ZerosThenDigits(k, s[..|s| - 1]);
    } else if k > 0 {
      ZerosEnd(k);
      assert t[..|t| - 1] == Zeros(k - 1) + s;
      ZerosThenDigits(k - 1, s);
    } else {
      assert t == s;
    }
  }

  lemma {:induction false} ZerosEnd(k: nat)
    requires k > 0
    ensures Zeros(k) == Zeros(k - 1) + ['0']
  {
    if k > 1 { ZerosEnd(k - 1); }
  }

  lemma {:induction false} ItoaNumber(n: nat)
    ensures Number(Itoa(n)) == n
  {
    var s := Itoa(n);
    if n >= 10 {
      assert s[..|s| - 1] == Itoa(n / 10);
      ItoaNumber(n / 10);
    } else {
      assert s[..0] == [];
    }
  }

  lemma PaddedNumber(n: nat, width: nat)
    ensures Number(Padded(n, width)) == n
  {
    ItoaNumber(n);
    if |Itoa(n)| < width { ZerosThenDigits(width - |Itoa(n)|, Itoa(n)); }
  }

  ghost predicate AllDigits(s: Name) {
    forall k :: 0 <= k < |s| ==> '0' <= s[k] <= '9'
  }

  lemma {:induction false} ItoaDigits(n: nat)
    ensures AllDigits(Itoa(n))
  {
    if n >= 10 { ItoaDigits(n / 10); }
  }

  lemma {:induction false} ZerosDigits(k: nat)
    ensures AllDigits(Zeros(k))
  {
    if k > 0 { ZerosDigits(k - 1); }
  }

  lemma PaddedDigits(n: nat, width: nat)
    ensures AllDigits(Padded(n, width))
  {
    ItoaDigits(n);
    if |Itoa(n)| < width { ZerosDigits(width - |Itoa(n)|); }
  }

  lemma {:induction false} ItoaGrows(m: nat, n: nat)
    requires m <= n
    ensures |Itoa(m)| <= |Itoa(n)|
    decreases n
  {
    if m >= 10 { ItoaGrows(m / 10, n / 10); }
  }

  /** Digit strings of one length: the order of names is the order of numbers. */
  lemma {:induction false} DigitOrder(a: Name, b: Name)
    requires |a| == |b| && AllDigits(a) && AllDigits(b)
    ensures Less(a, b) <==> Number(a) < Number(b)
    decreases |a|
  {
    if a != [] {
      var a', b' := a[..|a| - 1], b[..|b| - 1];
      DigitOrder(a', b');
      DigitOrder(b', a');
      LessByLast(a, b);
      if !Less(a', b') && !Less(b', a') { SameOrOrdered(a', b'); }
    }
  }

  lemma {:induction false} SameOrOrdered(a: Name, b: Name)
    requires |a| == |b| && !Less(a, b) && !Less(b, a)
    ensures a == b
  {
    if a != [] { SameOrOrdered(a[1..], b[1..]); }
  }

  /** Comparison of two strings of one length by all but the last character, then the last. */
  lemma {:induction false} LessByLast(a: Name, b: Name)
    requires |a| == |b| > 0
    ensures var a', b' := a[..|a| - 1], b[..|b| - 1];
            Less(a, b) <==> Less(a', b') || (a' == b' && a[|a| - 1] < b[|b| - 1])
    decreases |a|
  {
    var a', b' := a[..|a| - 1], b[..|b| - 1];
    if |a| > 1 {
      LessByLast(a[1..], b[1..]);
      assert a'[1..] == a[1..][..|a| - 2] && b'[1..] == b[1..][..|b| - 2];
      assert a' == [a[0]] + a'[1..] && b' == [b[0]] + b'[1..];
    }
  }

  lemma {:induction false} LessAfterPrefix(p: Name, a: Name, b: Name)
    ensures Less(p + a, p + b) <==> Less(a, b)
    decreases |p|
  {
    if p == [] {
      assert p + a == a && p + b == b;
    } else {
      assert (p + a)[1..] == p[1..] + a && (p + b)[1..] == p[1..] + b;
      LessAfterPrefix(p[1..], a, b);
    }
  }

  function Pow10(n: nat): nat {
    if n == 0 then 1 else 10 * Pow10(n - 1)
  }

  /** A number has as many digits as it takes. */
  lemma {:induction false} ItoaLength(n: nat)
    ensures n < Pow10(|Itoa(n)|)
    ensures |Itoa(n)| > 1 ==> Pow10(|Itoa(n)| - 1) <= n
  {
    if n >= 10 {
      ItoaLength(n / 10);
      assert |Itoa(n)| == |Itoa(n / 10)| + 1;
    } else {
      assert Pow10(1) == 10;
    }
  }

  /** A pawn is called after its set, a dash and its index, in digits, padded to the width of the
      last index: the least width w with 10^w > count - 1. */
  lemma PawnNameShape(setName: Name, i: nat, count: nat)
    requires i < count
    ensures var name, w := PawnName(setName, i, count), |Itoa(count - 1)|;
            && |name| == |setName| + 1 + w && name[..|setName|] == setName && name[|setName|] == '-'
            && AllDigits(name[|setName| + 1..]) && Number(name[|setName| + 1..]) == i
            && count - 1 < Pow10(w) && (w > 1 ==> Pow10(w - 1) <= count - 1)
  {
    var w := |Itoa(count - 1)|;
    ItoaGrows(i, count - 1);
    ItoaLength(count - 1);
    PaddedDigits(i, w);
    PaddedNumber(i, w);
    assert PawnName(setName, i, count)[|setName| + 1..] == Padded(i, w);
  }

  /** Within a pawn set the order of names is the order of indices. */
  lemma SetOrderIsIndexOrder(setName: Name, count: nat, i: nat, j: nat)
    requires i < count && j < count
    ensures Less(PawnName(setName, i, count), PawnName(setName, j, count)) <==> i < j
  {
    var width := |Itoa(count - 1)|;
    ItoaGrows(i, count - 1);
    ItoaGrows(j, count - 1);
    PaddedDigits(i, width);
    PaddedDigits(j, width);
    PaddedNumber(i, width);
    PaddedNumber(j, width);
    DigitOrder(Padded(i, width), Padded(j, width));
    LessAfterPrefix(setName + ['-'], Padded(i, width), Padded(j, width));
  }

  /** Of two readings of a name as prefix, dash and rest, the one whose rest is all digits
      has the longer prefix: its dash is the last one. */
  lemma LastDash(s: Name, a: Name, t: Name, b: Name)
    requires s + ['-'] + a == t + ['-'] + b && AllDigits(a)
    ensures |t| <= |s|
  {
    var name := s + ['-'] + a;
    assert name[|t|] == '-';
    assert forall k :: |s| < k < |name| ==> name[k] == a[k - |s| - 1];
  }

  /** No two places in pawn sets, of one set or of two, get the same name. */
  lemma PawnNamesAreDistinct(s: Name, i: nat, m: nat, t: Name, j: nat, n: nat)
    requires i < m && j < n && PawnName(s, i, m) == PawnName(t, j, n)
    ensures s == t && i == j
  {
    var a, b := Padded(i, |Itoa(m - 1)|), Padded(j, |Itoa(n - 1)|);
    var name := PawnName(s, i, m);
    PaddedDigits(i, |Itoa(m - 1)|);
    PaddedDigits(j, |Itoa(n - 1)|);
    LastDash(s, a, t, b);
    LastDash(t, b, s, a);
    assert a == name[|s| + 1..] && b == name[|s| + 1..];
    assert s == name[..|s|] && t == name[..|s|];
    PaddedNumber(i, |Itoa(m - 1)|);
    PaddedNumber(j, |Itoa(n - 1)|);
  }

  /** The names of the first upto pawns of a set. */
  ghost function Block(setName: Name, count: nat, upto: nat): set<Name>
    requires upto <= count
  {
    if upto == 0 then {} else Block(setName, count, upto - 1) + {PawnName(setName, upto - 1, count)}
  }

  lemma {:induction false} BlockHas(setName: Name, count: nat, upto: nat, i: nat)
    requires i < upto <= count
    ensures PawnName(setName, i, count) in Block(setName, count, upto)
    decreases upto
  {
    if i < upto - 1 { BlockHas(setName, count, upto - 1, i); }
  }

  lemma {:induction false} BlockIndex(setName: Name, count: nat, upto: nat, n: Name) returns (i: nat)
    requires upto <= count && n in Block(setName, count, upto)
    ensures i < upto && n == PawnName(setName, i, count)
    decreases upto
  {
    if n in Block(setName, count, upto - 1) {
      i := BlockIndex(setName, count, upto - 1, n);
    } else {
      i := upto - 1;
    }
  }

  function Size(count: int): nat {
    if count <= 0 then 0 else count
  }

  /** The names that a group of pawn sets stands for. */
  ghost function Generated(sets: map<Name, int>, group: set<Name>): set<Name>
    requires group <= sets.Keys
  {
    set s, n | s in group && n in Block(s, Size(sets[s]), Size(sets[s])) :: n
  }

  lemma BlockIsFresh(setName: Name, count: nat, i: nat)
    requires i < count
    ensures PawnName(setName, i, count) !in Block(setName, count, i)
    ensures PawnName(setName, i, count) in Block(setName, count, count)
  {
    var name := PawnName(setName, i, count);
    BlockHas(setName, count, count, i);
    if name in Block(setName, count, i) {
      var j := BlockIndex(setName, count, i, name);
      PawnNamesAreDistinct(setName, i, count, setName, j, count);
    }
  }

  lemma BlocksAreApart(s: Name, m: nat, t: Name, n: nat)
    requires s != t
    ensures Block(s, m, m) !! Block(t, n, n)
  {
    forall name | name in Block(s, m, m) ensures name !in Block(t, n, n) {
      var i := BlockIndex(s, m, m, name);
      if name in Block(t, n, n) {
        var j := BlockIndex(t, n, n, name);
        PawnNamesAreDistinct(s, i, m, t, j, n);
      }
    }
  }

  lemma GeneratedGrows(sets: map<Name, int>, group: set<Name>, s: Name)
    requires group <= sets.Keys && s in sets && s !in group
    ensures Generated(sets, group + {s}) == Generated(sets, group) + Block(s, Size(sets[s]), Size(sets[s]))
    ensures Generated(sets, group) !! Block(s, Size(sets[s]), Size(sets[s]))
    ensures Generated(sets, group + {s}) <= Generated(sets, sets.Keys)
  {
    forall t | t in group ensures Block(s, Size(sets[s]), Size(sets[s])) !! Block(t, Size(sets[t]), Size(sets[t])) {
      BlocksAreApart(s, Size(sets[s]), t, Size(sets[t]));
    }
  }

  lemma DoneGrows(all: set<Name>, todo: set<Name>, n: Name)
    requires n in todo && todo <= all
    ensures all - (todo - {n}) == (all - todo) + {n} && n !in all - todo
  {
  }

  /** The pawns with more of them, whose ports are left to be assigned. */
  ghost function WithPawns(pawns: map<Name, int>, names: set<Name>): map<Name, int> {
    pawns + map n | n in names :: 0
  }

  lemma WithTwice(pawns: map<Name, int>, a: set<Name>, b: set<Name>)
    ensures WithPawns(WithPawns(pawns, a), b) == WithPawns(pawns, a + b)
  {
  }

  lemma WithOne(pawns: map<Name, int>, n: Name)
    ensures pawns[n := 0] == WithPawns(pawns, {n})
  {
  }

  /** The first i pawns of the set are added, and none of them was there. */
  ghost predicate Filled(pawns: map<Name, int>, setName: Name, count: nat, i: nat, out: map<Name, int>)
    requires i <= count
  {
    pawns.Keys !! Block(setName, count, i) && out == WithPawns(pawns, Block(setName, count, i))
  }

  lemma NameIsTaken(pawns: map<Name, int>, setName: Name, count: nat, i: nat, out: map<Name, int>)
    requires i < count && Filled(pawns, setName, count, i, out)
    ensures PawnName(setName, i, count) in out <==> PawnName(setName, i, count) in pawns
    ensures PawnName(setName, i, count) in Block(setName, count, count)
  {
    BlockIsFresh(setName, count, i);
  }

  lemma OneMoreFilled(pawns: map<Name, int>, setName: Name, count: nat, i: nat, out: map<Name, int>)
    requires i < count && Filled(pawns, setName, count, i, out) && PawnName(setName, i, count) !in pawns
    ensures Filled(pawns, setName, count, i + 1, out[PawnName(setName, i, count) := 0])
  {
    var name := PawnName(setName, i, count);
    WithOne(out, name);
    WithTwice(pawns, Block(setName, count, i), {name});
  }

  /** One pawn set: fails at the first generated name that is a pawn already. */
  method ExpandSet(pawns: map<Name, int>, setName: Name, count: int) returns (r: Option<map<Name, int>>)
    ensures r.None? <==> !(pawns.Keys !! Block(setName, Size(count), Size(count)))
    ensures r.Some? ==> r.value == WithPawns(pawns, Block(setName, Size(count), Size(count)))
  {
    var out := pawns;
    var i := 0;
    while i < count
      invariant 0 <= i <= Size(count) && Filled(pawns, setName, Size(count), i, out)
    {
      var name := PawnName(setName, i, count);
      NameIsTaken(pawns, setName, count, i, out);
      if name in out {
        return None;
      }
      OneMoreFilled(pawns, setName, count, i, out);
      out, i := out[name := 0], i + 1;
    }
    r := Some(out);
  }

  /** All pawn sets (name to count) are expanded into the pawns (name to port), in whatever
      order the sets come: it fails exactly when a manual pawn has a generated name. */
  method ExpandSets(pawns: map<Name, int>, sets: map<Name, int>) returns (r: Option<map<Name, int>>)
    ensures r.None? <==> !(pawns.Keys !! Generated(sets, sets.Keys))
    ensures r.Some? ==> r.value == WithPawns(pawns, Generated(sets, sets.Keys))
  {
    var out := pawns;
    var todo := sets.Keys;
    ghost var done, names: set<Name> := {}, {};
    while todo != {}
      invariant todo <= sets.Keys && done == sets.Keys - todo
      invariant names == Generated(sets, done)
      invariant pawns.Keys !! names
      invariant out == WithPawns(pawns, names)
      decreases todo
    {
      var setName :| setName in todo;
      ghost var block := Block(setName, Size(sets[setName]), Size(sets[setName]));
      DoneGrows(sets.Keys, todo, setName);
      GeneratedGrows(sets, done, setName);
      var next := ExpandSet(out, setName, sets[setName]);
      if next.None? {
        return None;
      }
      WithTwice(pawns, names, block);
      todo, done, names, out := todo - {setName}, done + {setName}, names + block, next.value;
    }
    assert done == sets.Keys;
    r := Some(out);
  }

  // ---- ports ----

  /** Are two pawns given the same port by hand? */
  ghost predicate Collides(pawns: map<Name, int>) {
    exists a, b :: a in pawns && b in pawns && a != b && pawns[a] == pawns[b] != 0
  }

  /** The ports given by hand to the pawns of a group. */
  ghost function Reserved(pawns: map<Name, int>, group: set<Name>): set<int>
    requires group <= pawns.Keys
  {
    set n | n in group && pawns[n] != 0 :: pawns[n]
  }

  /** No two pawns of the group are given the same port by hand. */
  ghost predicate Apart(pawns: map<Name, int>, group: set<Name>)
    requires group <= pawns.Keys
  {
    forall a, b :: a in group && b in group && a != b ==> pawns[a] != pawns[b] || pawns[a] == 0
  }

  lemma ReservedGrows(pawns: map<Name, int>, group: set<Name>, n: Name)
    requires group <= pawns.Keys && n in pawns && n !in group && Apart(pawns, group)
    ensures Reserved(pawns, group + {n}) == Reserved(pawns, group) + if pawns[n] == 0 then {} else {pawns[n]}
    ensures Apart(pawns, group + {n}) <==> pawns[n] !in Reserved(pawns, group)
    ensures pawns[n] in Reserved(pawns, group) ==> Collides(pawns)
  {
    if pawns[n] in Reserved(pawns, group) {
      var m :| m in group && pawns[m] != 0 && pawns[m] == pawns[n];
      assert m in group + {n} && n in group + {n};
    }
  }

  /** First pass: reserve the ports given by hand. */
  method ReservePorts(pawns: map<Name, int>) returns (r: Option<set<int>>)
    ensures r.None? <==> Collides(pawns)
    ensures r.Some? ==> r.value == Reserved(pawns, pawns.Keys)
  {
    var used: set<int> := {};
    var todo := pawns.Keys;
    ghost var done: set<Name> := {};
    while todo != {}
      invariant todo <= pawns.Keys && done == pawns.Keys - todo
      invariant used == Reserved(pawns, done)
      invariant Apart(pawns, done)
      decreases todo
    {
      var name :| name in todo;
      DoneGrows(pawns.Keys, todo, name);
      ReservedGrows(pawns, done, name);
      var port := pawns[name];
      if port != 0 {
        if port in used {
          return None;
        }
        used := used + {port};
      }
      todo, done := todo - {name}, done + {name};
    }
    assert done == pawns.Keys;
    r := Some(used);
  }

  /** The ports above base and below p that nobody reserved. */
  ghost function Free(reserved: set<int>, base: int, p: int): set<int> {
    set q: int | base < q < p && q !in reserved
  }

  /** p is the free port above base that has exactly k free ports below it. */
  ghost predicate KthFree(reserved: set<int>, base: int, k: nat, p: int) {
    base < p && p !in reserved && |Free(reserved, base, p)| == k
  }

  lemma FreeStep(reserved: set<int>, base: int, p: int)
    requires base < p
    ensures p in reserved ==> Free(reserved, base, p + 1) == Free(reserved, base, p)
    ensures p !in reserved ==> |Free(reserved, base, p + 1)| == |Free(reserved, base, p)| + 1
  {
    if p in reserved {
      assert Free(reserved, base, p + 1) == Free(reserved, base, p);
    } else {
      assert Free(reserved, base, p + 1) == Free(reserved, base, p) + {p};
    }
  }

  lemma FreeGrows(reserved: set<int>, base: int, p: int, q: int)
    requires p <= q
    ensures Free(reserved, base, p) <= Free(reserved, base, q)
    ensures |Free(reserved, base, p)| <= |Free(reserved, base, q)|
    ensures base < p < q && p !in reserved ==> |Free(reserved, base, p)| < |Free(reserved, base, q)|
  {
    var a, b := Free(reserved, base, p), Free(reserved, base, q);
    assert a <= b;
    SmallerSet(a, b);
    if base < p < q && p !in reserved {
      assert p in b && p !in a;
      SmallerSet(a + {p}, b);
    }
  }

  lemma {:induction false} SmallerSet(a: set<int>, b: set<int>)
    requires a <= b
    ensures |a| <= |b|
  {
    assert b == a + (b - a);
  }

  /** The k-th free port is one port, and free ports keep their order. */
  lemma KthFreeOrder(reserved: set<int>, base: int, j: nat, p: int, k: nat, q: int)
    requires KthFree(reserved, base, j, p) && KthFree(reserved, base, k, q)
    ensures p < q <==> j < k
  {
    if p < q {
      FreeGrows(reserved, base, p, q);
    } else {
      FreeGrows(reserved, base, q, p);
    }
  }

  /** How many of the first i names have no port given by hand. */
  ghost function Autos(pawns: map<Name, int>, names: seq<Name>, i: nat): nat
    requires forall n :: n in names ==> n in pawns
    requires i <= |names|
  {
    if i == 0 then 0 else Autos(pawns, names, i - 1) + if pawns[names[i - 1]] == 0 then 1 else 0
  }

  /** What the port of the i-th name has to be. */
  ghost predicate RightPort(pawns: map<Name, int>, names: seq<Name>, base: int, i: nat, p: int)
    requires forall n :: n in names ==> n in pawns
    requires i < |names|
  {
    if pawns[names[i]] != 0 then p == pawns[names[i]]
    else KthFree(Reserved(pawns, pawns.Keys), base, Autos(pawns, names, i), p)
  }

  /** Every port below nextPort is dealt with: k of the free ones are given away. */
  ghost predicate Cursor(reserved: set<int>, base: int, used: set<int>, nextPort: int, k: nat) {
    && base < nextPort && reserved <= used
    && (forall q :: q in used && nextPort <= q ==> q in reserved)
    && |Free(reserved, base, nextPort)| == k
  }

  lemma CursorAtStart(reserved: set<int>, base: int)
    ensures Cursor(reserved, base, reserved, base + 1, 0)
  {
    assert Free(reserved, base, base + 1) == {};
  }

  /** The search for the next port that is not used. */
  method NextFree(used: set<int>, ghost reserved: set<int>, ghost base: int, from: int, ghost k: nat) returns (p: int)
    requires Cursor(reserved, base, used, from, k)
    ensures from <= p && p !in used && forall q :: from <= q < p ==> q in used
    ensures KthFree(reserved, base, k, p)
    ensures Cursor(reserved, base, used + {p}, p + 1, k + 1)
  {
    p := from;
    ghost var ahead := used;
    while p in used
      invariant forall q :: q in used && p <= q ==> q in ahead
      invariant from <= p && Free(reserved, base, p) == Free(reserved, base, from)
      invariant forall q :: from <= q < p ==> q in used
      decreases ahead
    {
      FreeStep(reserved, base, p);
      p, ahead := p + 1, ahead - {p};
    }
    FreeStep(reserved, base, p);
  }

  /** The first i names have their ports. */
  ghost predicate Done(pawns: map<Name, int>, names: seq<Name>, base: int, i: nat, out: map<Name, int>)
    requires forall n :: n in names ==> n in pawns
    requires i <= |names|
  {
    && (forall n :: n in out ==> n in pawns)
    && forall j :: 0 <= j < i ==> names[j] in out && RightPort(pawns, names, base, j, out[names[j]])
  }

  lemma OneMoreDone(pawns: map<Name, int>, names: seq<Name>, base: int, i: nat, out: map<Name, int>, port: int)
    requires forall n :: n in names ==> n in pawns
    requires i < |names| && SortedNames(names)
    requires Done(pawns, names, base, i, out) && RightPort(pawns, names, base, i, port)
    ensures Done(pawns, names, base, i + 1, out[names[i] := port])
  {
    LessIsStrict(names[i]);
    assert forall j :: 0 <= j < i ==> names[j] != names[i];
  }

  /** Second pass, over the names in order; `unreadable` are the pawns whose CPU or memory
      does not parse. */
  method GivePorts(pawns: map<Name, int>, names: seq<Name>, base: int, reserved: set<int>, unreadable: set<Name>)
    returns (r: Option<map<Name, int>>)
    requires SortedNames(names) && forall n :: n in names ==> n in pawns
    requires reserved == Reserved(pawns, pawns.Keys)
    ensures r.None? <==> exists n :: n in names && n in unreadable
    ensures r.Some? ==> Done(pawns, names, base, |names|, r.value)
  {
    var used, nextPort := reserved, base + 1;
    ghost var k: nat := 0;
    CursorAtStart(reserved, base);
    var out: map<Name, int> := map[];
    for i := 0 to |names|
      invariant k == Autos(pawns, names, i)
      invariant Cursor(reserved, base, used, nextPort, k)
      invariant Done(pawns, names, base, i, out)
      invariant forall j :: 0 <= j < i ==> names[j] !in unreadable
    {
      var port := pawns[names[i]];
      if port == 0 {
        port := NextFree(used, reserved, base, nextPort, k);
        used, nextPort, k := used + {port}, port + 1, k + 1;
      }
      if names[i] in unreadable {
        return None;
      }
      OneMoreDone(pawns, names, base, i, out, port);
      out := out[names[i] := port];
    }
    r := Some(out);
  }

  /** Both passes; the names of the pawns come sorted. */
  method AssignPorts(pawns: map<Name, int>, names: seq<Name>, base: int, unreadable: set<Name>)
    returns (r: Option<map<Name, int>>)
    requires SortedNames(names) && forall n :: n in names <==> n in pawns
    ensures r.None? <==> Collides(pawns) || exists n :: n in pawns && n in unreadable
    ensures r.Some? ==> r.value.Keys == pawns.Keys
    ensures r.Some? ==> forall i :: 0 <= i < |names| ==> RightPort(pawns, names, base, i, r.value[names[i]])
  {
    var reserved := ReservePorts(pawns);
    if reserved.None? {
      return None;
    }
    r := GivePorts(pawns, names, base, reserved.value, unreadable);
  }

  /** The entry for the primary node, named after the host and on the base port: it collides
      with a pawn of that name, and with any pawn that is given the base port by hand. */
  method AddPrimary(pawns: map<Name, int>, primary: bool, host: Name, base: int) returns (r: Option<map<Name, int>>)
    ensures r.None? <==> primary && host != [] && host in pawns
    ensures r.Some? && !(primary && host != []) ==> r.value == pawns
    ensures r.Some? && primary && host != [] ==>
              && r.value == pawns[host := base]
              && (Collides(r.value) <==> Collides(pawns) || (base != 0 && exists n :: n in pawns && pawns[n] == base))
  {
    r := Some(pawns);
    if primary && host != [] {
      if host in pawns {
        return None;
      }
      PrimaryCollides(pawns, host, base);
      r := Some(pawns[host := base]);
    }
  }

  lemma PrimaryCollides(pawns: map<Name, int>, host: Name, base: int)
    requires host !in pawns
    ensures Collides(pawns[host := base]) <==>
            Collides(pawns) || (base != 0 && exists n :: n in pawns && pawns[n] == base)
  {
    var with := pawns[host := base];
    if Collides(pawns) {
      var a, b :| a in pawns && b in pawns && a != b && pawns[a] == pawns[b] != 0;
      assert with[a] == with[b];
    }
    if n :| n in pawns && pawns[n] == base && base != 0 {
      assert with[n] == with[host];
    }
  }

  /** Ports that are right are all different. */
  lemma PortsAreDistinct(pawns: map<Name, int>, names: seq<Name>, base: int, i: nat, p: int, j: nat, q: int)
    requires forall n :: n in names ==> n in pawns
    requires i < j < |names| && names[i] != names[j] && !Collides(pawns)
    requires RightPort(pawns, names, base, i, p) && RightPort(pawns, names, base, j, q)
    ensures p != q
  {
    if pawns[names[i]] == 0 && pawns[names[j]] == 0 {
      AutosGrow(pawns, names, i, j);
      KthFreeOrder(Reserved(pawns, pawns.Keys), base, Autos(pawns, names, i), p, Autos(pawns, names, j), q);
    }
  }

  lemma {:induction false} AutosGrow(pawns: map<Name, int>, names: seq<Name>, i: nat, j: nat)
    requires forall n :: n in names ==> n in pawns
    requires i < j <= |names| && pawns[names[i]] == 0
    ensures Autos(pawns, names, i) < Autos(pawns, names, j)
    decreases j
  {
    if i < j - 1 { AutosGrow(pawns, names, i, j - 1); }
  }

  /** Generated pawns are left to be assigned. */
  lemma GeneratedIsAutomatic(manual: map<Name, int>, sets: map<Name, int>, setName: Name, i: nat)
    requires setName in sets && i < Size(sets[setName])
    ensures var name := PawnName(setName, i, Size(sets[setName]));
            var pawns := WithPawns(manual, Generated(sets, sets.Keys)); name in pawns && pawns[name] == 0
  {
    BlockHas(setName, Size(sets[setName]), Size(sets[setName]), i);
  }

  lemma NameOrderIsPlaceOrder(names: seq<Name>, a: nat, b: nat)
    requires SortedNames(names) && a < |names| && b < |names|
    requires Less(names[a], names[b]) && !Less(names[b], names[a])
    ensures a < b
  {
  }

  lemma PortsAscend(pawns: map<Name, int>, names: seq<Name>, base: int, a: nat, p: int, b: nat, q: int)
    requires forall n :: n in names ==> n in pawns
    requires a < b < |names| && pawns[names[a]] == 0 && pawns[names[b]] == 0
    requires RightPort(pawns, names, base, a, p) && RightPort(pawns, names, base, b, q)
    ensures p < q
  {
    AutosGrow(pawns, names, a, b);
    KthFreeOrder(Reserved(pawns, pawns.Keys), base, Autos(pawns, names, a), p, Autos(pawns, names, b), q);
  }

  /** The pawns of one set get ports in the order of their indices. */
  lemma SetPortsAscend(manual: map<Name, int>, sets: map<Name, int>, names: seq<Name>, base: int, setName: Name,
                       i: nat, a: nat, p: int, j: nat, b: nat, q: int)
    requires setName in sets && i < j < Size(sets[setName])
    requires var pawns := WithPawns(manual, Generated(sets, sets.Keys));
             && SortedNames(names) && (forall n :: n in names ==> n in pawns)
             && a < |names| && b < |names|
             && names[a] == PawnName(setName, i, Size(sets[setName]))
             && names[b] == PawnName(setName, j, Size(sets[setName]))
             && RightPort(pawns, names, base, a, p) && RightPort(pawns, names, base, b, q)
    ensures p < q
  {
    var count := Size(sets[setName]);
    GeneratedIsAutomatic(manual, sets, setName, i);
    GeneratedIsAutomatic(manual, sets, setName, j);
    SetOrderIsIndexOrder(setName, count, i, j);
    SetOrderIsIndexOrder(setName, count, j, i);
    NameOrderIsPlaceOrder(names, a, b);
    PortsAscend(WithPawns(manual, Generated(sets, sets.Keys)), names, base, a, p, b, q);
  }
}
