/**
 The systemd unit name of a container, perigeos-<pawn>-pod-<uid>-<container>.service,
 and its two parsers: node/gambit.go knows the pawn, internal/foci/reduce.go does not.
 A uid is the 36-character text form of a UUID (section 4 of RFC 9562).
 */
module UnitName {

  const PREFIX := "perigeos-"
  const SEPARATOR := "-pod-"
  const SUFFIX := ".service"
  const UID_LENGTH := 36

  function Print(pawn: string, uid: string, container: string): string {
    "perigeos-" + pawn + "-pod-" + uid + "-" + container + ".service"
  }

  predicate HasSuffix(s: string, t: string) {
    |t| <= |s| && s[|s| - |t|..] == t
  }

  predicate OccursAt(s: string, t: string, i: int) {
    0 <= i && i + |t| <= |s| && s[i..i + |t|] == t
  }

  /** First occurrence of `t` in `s` at or after `from`, or -1. */
  function IndexFrom(s: string, t: string, from: nat): (r: int)
    requires from <= |s|
    ensures r == -1 || (from <= r && OccursAt(s, t, r))
    ensures forall i :: from <= i && (r == -1 || i < r) ==> !OccursAt(s, t, i)
    decreases |s| - from
  {
    if OccursAt(s, t, from) then from
    else if from == |s| then -1
    else IndexFrom(s, t, from + 1)
  }

  function Index(s: string, t: string): int {
    IndexFrom(s, t, 0)
  }

  /** A dash never lies inside the suffix, so cutting off both ends is safe. */
  lemma DashBeforeSuffix(s: string, i: nat)
    requires HasSuffix(s, SUFFIX) && i < |s| && s[i] == '-'
    ensures i < |s| - |SUFFIX|
  {
    assert SUFFIX == ['.', 's', 'e', 'r', 'v', 'i', 'c', 'e'];
    var cut := |s| - |SUFFIX|;
    assert forall k :: cut <= k < |s| ==> s[k] == s[cut..][k - cut] && s[k] != '-';
  }

  /** ParseUnitName of node/gambit.go; ("", "") when the name is not this pawn's. */
  function ParseUnitName(pawn: string, unit: string): (r: (string, string)) {
    var prefix := PREFIX + pawn + SEPARATOR;
    if !(prefix <= unit) || !HasSuffix(unit, SUFFIX) then ("", "")
    else
      assert unit[|prefix| - 1] == prefix[|prefix| - 1] == '-';
      DashBeforeSuffix(unit, |prefix| - 1);
      var inner := unit[|prefix|..|unit| - |SUFFIX|];
      if |inner| < 38 then ("", "") else (inner[..UID_LENGTH], inner[UID_LENGTH + 1..])
  }

  /** ParseContainerFromUnit of internal/foci/reduce.go; "" when the name has no container. */
  function ParseContainerFromUnit(unit: string): string {
    if !HasSuffix(unit, SUFFIX) then ""
    else
      var idx := Index(unit, PREFIX);
      if idx == -1 then ""
      else
        var rest := unit[idx + |PREFIX|..];
        var podIdx := Index(rest, SEPARATOR);
        if podIdx == -1 then ""
        else
          assert rest[podIdx..podIdx + 5][4] == '-';
          DashBeforeSuffix(unit, idx + |PREFIX| + podIdx + 4);
          var afterPod := rest[podIdx + |SEPARATOR|..];
          var name := afterPod[..|afterPod| - |SUFFIX|];
          if |name| < 38 then "" else name[UID_LENGTH + 1..]
  }

  lemma Middle(a: string, b: string, c: string)
    ensures (a + b + c)[|a|..|a| + |b|] == b && a <= a + b + c && HasSuffix(a + b + c, c)
  {
  }

  lemma Regrouped(a: string, b: string, c: string, d: string, e: string)
    ensures a + b + c + d + e == a + (b + c + d) + e
  {
  }

  lemma Parts(inner: string, uid: string, sep: char, container: string)
    requires |uid| == UID_LENGTH && inner == uid + [sep] + container
    ensures inner[..UID_LENGTH] == uid && inner[UID_LENGTH + 1..] == container
  {
  }

  /** The parser accepts exactly the names of this shape (any separator character
      after the uid), and gives back their parts. */
  lemma ParseUnitNameInverts(pawn: string, uid: string, sep: char, container: string)
    requires |uid| == UID_LENGTH && container != ""
    ensures ParseUnitName(pawn, PREFIX + pawn + SEPARATOR + uid + [sep] + container + SUFFIX) == (uid, container)
  {
    var prefix, inner := PREFIX + pawn + SEPARATOR, uid + [sep] + container;
    Regrouped(prefix, uid, [sep], container, SUFFIX);
    Middle(prefix, inner, SUFFIX);
    Parts(inner, uid, sep, container);
  }

  lemma Whole(s: string, a: string, c: string)
    requires a <= s && HasSuffix(s, c) && |a| + |c| <= |s|
    ensures s == a + s[|a|..|s| - |c|] + c
  {
    var b := s[|a|..|s| - |c|];
    assert s == s[..|a|] + b + s[|s| - |c|..];
  }

  lemma UidAndContainer(inner: string)
    requires |inner| >= 38
    ensures inner == inner[..UID_LENGTH] + [inner[UID_LENGTH]] + inner[UID_LENGTH + 1..]
  {
  }

  lemma ParsedNameHasParts(pawn: string, unit: string)
    ensures var (uid, container) := ParseUnitName(pawn, unit);
            if uid == "" then container == ""
            else |uid| == UID_LENGTH && container != "" &&
                 exists sep :: unit == PREFIX + pawn + SEPARATOR + uid + [sep] + container + SUFFIX
  {
    var prefix := PREFIX + pawn + SEPARATOR;
    var (uid, container) := ParseUnitName(pawn, unit);
    if uid != "" {
      assert unit[|prefix| - 1] == prefix[|prefix| - 1] == '-';
      DashBeforeSuffix(unit, |prefix| - 1);
      var inner := unit[|prefix|..|unit| - |SUFFIX|];
      Whole(unit, prefix, SUFFIX);
      UidAndContainer(inner);
      Regrouped(prefix, uid, [inner[UID_LENGTH]], container, SUFFIX);
    }
  }

  lemma UnitNameRoundTrip(pawn: string, uid: string, container: string)
    requires |uid| == UID_LENGTH && container != ""
    ensures ParseUnitName(pawn, Print(pawn, uid, container)) == (uid, container)
  {
    ParseUnitNameInverts(pawn, uid, '-', container);
  }

  lemma FirstOccurrence(s: string, t: string, i: nat)
    requires OccursAt(s, t, i) && forall j :: 0 <= j < i ==> !OccursAt(s, t, j)
    ensures Index(s, t) == i
  {
  }

  /** Does the separator occur before its place after the pawn name? */
  predicate SeparatorInPawn(pawn: string) {
    Index(pawn + "-pod", SEPARATOR) != -1
  }

  lemma SeparatorPlace(pawn: string, tail: string)
    ensures var r := Index(pawn + SEPARATOR + tail, SEPARATOR);
            0 <= r <= |pawn| && (r == |pawn| <==> !SeparatorInPawn(pawn))
  {
    var s, head := pawn + SEPARATOR + tail, pawn + "-pod";
    assert OccursAt(s, SEPARATOR, |pawn|);
    forall j | 0 <= j < |pawn| ensures OccursAt(s, SEPARATOR, j) <==> OccursAt(head, SEPARATOR, j) {
      assert s[j..j + 5] == head[j..j + 5];
    }
    if SeparatorInPawn(pawn) {
      var j := Index(head, SEPARATOR);
      assert OccursAt(s, SEPARATOR, j);
    }
  }

  /** What the pawn-blind parser makes of the text between the separator and the suffix. */
  function AfterUid(inner: string): string {
    if |inner| < 38 then "" else inner[UID_LENGTH + 1..]
  }

  lemma UnitHasEnds(rest: string)
    requires HasSuffix(rest, SUFFIX)
    ensures HasSuffix(PREFIX + rest, SUFFIX) && Index(PREFIX + rest, PREFIX) == 0
    ensures (PREFIX + rest)[|PREFIX|..] == rest
  {
    var unit := PREFIX + rest;
    assert unit[|unit| - |SUFFIX|..] == rest[|rest| - |SUFFIX|..];
    assert OccursAt(unit, PREFIX, 0);
    FirstOccurrence(unit, PREFIX, 0);
  }

  lemma SeparatorBeforeSuffix(rest: string, p: nat)
    requires HasSuffix(rest, SUFFIX) && OccursAt(rest, SEPARATOR, p)
    ensures p + |SEPARATOR| <= |rest| - |SUFFIX|
  {
    assert rest[p..p + 5][4] == '-';
    DashBeforeSuffix(rest, p + 4);
  }

  lemma BlindParse(rest: string, p: nat)
    requires HasSuffix(rest, SUFFIX) && Index(rest, SEPARATOR) == p
    ensures p + |SEPARATOR| <= |rest| - |SUFFIX|
    ensures ParseContainerFromUnit(PREFIX + rest) == AfterUid(rest[p + |SEPARATOR|..|rest| - |SUFFIX|])
  {
    UnitHasEnds(rest);
    SeparatorBeforeSuffix(rest, p);
    var afterPod := rest[p + |SEPARATOR|..];
    assert afterPod[..|afterPod| - |SUFFIX|] == rest[p + |SEPARATOR|..|rest| - |SUFFIX|];
  }

  lemma PrintIs(pawn: string, uid: string, container: string)
    ensures Print(pawn, uid, container) == PREFIX + (pawn + SEPARATOR + (uid + "-" + container) + SUFFIX)
  {
    Regrouped(PREFIX + pawn + SEPARATOR, uid, "-", container, SUFFIX);
    Regrouped(PREFIX, pawn, SEPARATOR, uid + "-" + container, SUFFIX);
    var (a, b, c) := (PREFIX, pawn + SEPARATOR + (uid + "-" + container), SUFFIX);
    assert a + b + c == a + (b + c);
  }

  lemma Ending(head: string, suffix: string, k: nat)
    requires k <= |head|
    ensures HasSuffix(head + suffix, suffix) && (head + suffix)[k..|head|] == head[k..]
  {
  }

  lemma SeparatorFound(pawn: string, inner: string)
    ensures var p := Index(pawn + SEPARATOR + inner + SUFFIX, SEPARATOR);
            0 <= p <= |pawn| && (p == |pawn| <==> !SeparatorInPawn(pawn))
  {
    SeparatorPlace(pawn, inner + SUFFIX);
    var (a, b, c) := (pawn + SEPARATOR, inner, SUFFIX);
    assert a + b + c == a + (b + c);
  }

  lemma BlindParseOf(pawn: string, inner: string)
    ensures var head := pawn + SEPARATOR + inner; var p := Index(head + SUFFIX, SEPARATOR);
            && 0 <= p <= |pawn|
            && ParseContainerFromUnit(PREFIX + (head + SUFFIX)) == AfterUid(head[p + |SEPARATOR|..])
  {
    var head := pawn + SEPARATOR + inner;
    SeparatorFound(pawn, inner);
    var p := Index(head + SUFFIX, SEPARATOR);
    Ending(head, SUFFIX, p + |SEPARATOR|);
    BlindParse(head + SUFFIX, p);
  }

  /** The pawn-blind parser recovers the container exactly for the pawns whose name
      does not contain the separator (or run into it). */
  lemma BlindParserAgreesIff(pawn: string, uid: string, container: string)
    requires |uid| == UID_LENGTH && container != ""
    ensures ParseContainerFromUnit(Print(pawn, uid, container)) == container <==> !SeparatorInPawn(pawn)
  {
    var inner := uid + "-" + container;
    PrintIs(pawn, uid, container);
    BlindParseOf(pawn, inner);
    SeparatorFound(pawn, inner);
    var p := Index(pawn + SEPARATOR + inner + SUFFIX, SEPARATOR);
    var parsed := (pawn + SEPARATOR + inner)[p + |SEPARATOR|..];
    if p == |pawn| {
      assert parsed == inner;
      Parts(inner, uid, '-', container);
    } else {
      assert |AfterUid(parsed)| > |container|;
    }
  }

  /** A pawn may be called so that the blind parser misreads all of its units. */
  lemma BlindParserCanFail(uid: string, container: string)
    requires |uid| == UID_LENGTH && container != ""
    ensures ParseContainerFromUnit(Print("a-pod-b", uid, container)) != container
  {
    var head := "a-pod-b" + "-pod";
    assert OccursAt(head, SEPARATOR, 1) by { assert head[1..6] == SEPARATOR; }
    BlindParserAgreesIff("a-pod-b", uid, container);
  }
}
