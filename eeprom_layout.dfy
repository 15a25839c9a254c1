/** Where the user-data region lives in the daughterboard EEPROM, per
    hardware revision, and the lookup that lets a newer revision inherit the
    layout of the nearest earlier revision that defines one. */
module EepromLayout {
  import opened Wrappers

  /** One entry of the user-data layout table. */
  datatype EepromInfo = EepromInfo(deviceLabel: string, offset: nat, maxSize: nat, alignment: nat)

  type LayoutTable = map<int, EepromInfo>

  /** The class constant `user_eeprom`: a single entry, for revision 2 (RevC). */
  const UserEeprom: LayoutTable :=
    map[2 := EepromInfo("e0004000.i2c", 1024, 32786 - 1024, 1024)]

  datatype LayoutError = NoLayoutFound(rev: int)

  /** The last candidate revision the lookup for `rev` probes: it stops
      once a candidate below zero is absent, so a non-negative request probes
      down to -1 and a negative one probes only itself. */
  function LowestProbe(rev: int): int {
    if rev < 0 then rev else -1
  }

  /** `k` is the greatest table key among the revisions the lookup for `rev` probes. */
  ghost predicate IsNearestEntry(table: LayoutTable, rev: int, k: int) {
    && k in table
    && LowestProbe(rev) <= k <= rev
    && forall j :: k < j <= rev ==> j !in table
  }

  /** The revision whose table entry the lookup for `rev` settles on, if any. */
  function FallbackRev(table: LayoutTable, rev: int): (k: Option<int>)
    decreases if rev < 0 then 0 else rev + 1
    ensures k.Some? ==> IsNearestEntry(table, rev, k.value)
    ensures k.None? ==> forall j :: LowestProbe(rev) <= j <= rev ==> j !in table
  {
    if rev in table then Some(rev)
    else if rev < 0 then None
    else FallbackRev(table, rev - 1)
  }

  /** There is at most one nearest entry: the lookup result is determined. */
  lemma NearestEntryUnique(table: LayoutTable, rev: int, k1: int, k2: int)
    requires IsNearestEntry(table, rev, k1) && IsNearestEntry(table, rev, k2)
    ensures k1 == k2
  {
  }

  /** The lookup succeeds exactly when some probed revision has an entry. */
  lemma {:induction false} FallbackRevFound(table: LayoutTable, rev: int, j: int)
    requires j in table && LowestProbe(rev) <= j <= rev
    ensures FallbackRev(table, rev).Some?
    ensures j <= FallbackRev(table, rev).value
  {
  }

  /** With the shipped table, revision 2 and every later revision use the
      RevC layout, and every earlier revision has none. */
  lemma {:induction false} UserEepromFallback(rev: int)
    ensures rev >= 2 ==> FallbackRev(UserEeprom, rev) == Some(2)
    ensures rev < 2 ==> FallbackRev(UserEeprom, rev) == None
  {
    if rev >= 2 {
      FallbackRevFound(UserEeprom, rev, 2);
    }
  }

  /** Revisions 2 and 5 resolve to RevC; revisions 0, 1 and -1 fail. */
  lemma UserEepromExamples()
    ensures FallbackRev(UserEeprom, 2) == Some(2)
    ensures FallbackRev(UserEeprom, 5) == Some(2)
    ensures FallbackRev(UserEeprom, 0) == None
    ensures FallbackRev(UserEeprom, 1) == None
    ensures FallbackRev(UserEeprom, -1) == None
  {
    UserEepromFallback(2);
    UserEepromFallback(5);
    UserEepromFallback(0);
    UserEepromFallback(1);
    UserEepromFallback(-1);
  }

  /** `_get_user_eeprom_info`: walk down from `rev` until a revision with an
      entry is found, failing once an absent candidate is below zero. */
  method GetUserEepromInfo(table: LayoutTable, rev: int) returns (r: Result<EepromInfo, LayoutError>)
    ensures r.Success? <==> FallbackRev(table, rev).Some?
    ensures r.Success? ==> r.value == table[FallbackRev(table, rev).value]
    ensures r.Failure? ==> r.error == NoLayoutFound(rev)
  {
    var candidate := rev;
    while candidate !in table
      invariant FallbackRev(table, candidate) == FallbackRev(table, rev)
      decreases candidate + 1
    {
      if candidate < 0 {
        return Failure(NoLayoutFound(rev));
      }
      candidate := candidate - 1;
    }
    r := Success(table[candidate]);
  }
}
