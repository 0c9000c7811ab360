/**
 * A parameter table viewed as data: the records a table holds, listed in code
 * order, and the keyed map they rebuild. This is where the keying invariant of
 * the tables is proved: a record is filed under its own code, and no code holds
 * two records. The general lemmas are stated for any lookup that files each
 * record under its own code, and then applied to the tables of Grib1Parameters.
 */
module Grib1TableEntries {
  import opened Grib1Parameters

  /** A table as a lookup from code to record. */
  type ParameterLookup = uint8 -> Option<Grib1Parameter>

  /** A lookup that only ever returns a record under that record's own code. */
  ghost predicate KeyedByNumber(lookup: ParameterLookup) {
    forall p :: lookup(p).Some? ==> lookup(p).value.number == p
  }

  /** The lookup of one of the resolver's tables. */
  function TableLookup(t: Table): (lookup: ParameterLookup)
    ensures KeyedByNumber(lookup)
  {
    p => Lookup(t, p)
  }

  /** The records `lookup` holds for the codes from..255, in increasing code order. */
  function Entries(lookup: ParameterLookup, from: nat): (es: seq<Grib1Parameter>)
    requires from <= 256
    requires KeyedByNumber(lookup)
    ensures forall i :: 0 <= i < |es| ==> from <= es[i].number as int
    decreases 256 - from
  {
    if from == 256 then []
    else
      var rest := Entries(lookup, from + 1);
      match lookup(from as uint8)
      case None => rest
      case Some(rec) => [rec] + rest
  }

  /** The records of one of the resolver's tables. */
  function AllEntries(t: Table): seq<Grib1Parameter> {
    Entries(TableLookup(t), 0)
  }

  /** Files a list of records under their codes; an earlier record wins over a later one. */
  function ByNumber(es: seq<Grib1Parameter>): (m: map<uint8, Grib1Parameter>)
    ensures forall p :: p in m ==> m[p].number == p
    ensures forall p :: p in m <==> exists i :: 0 <= i < |es| && es[i].number == p
  {
    if es == [] then map[]
    else ByNumber(es[1..])[es[0].number := es[0]]
  }

  /** Codes increase strictly along `es`. */
  ghost predicate StrictlyIncreasing(es: seq<Grib1Parameter>) {
    forall i, j :: 0 <= i < j < |es| ==> es[i].number < es[j].number
  }

  /** No two records of `es` share a code. */
  ghost predicate CodesDistinct(es: seq<Grib1Parameter>) {
    forall i, j :: 0 <= i < |es| && 0 <= j < |es| && i != j ==> es[i].number != es[j].number
  }

  lemma IncreasingCodesAreDistinct(es: seq<Grib1Parameter>)
    requires StrictlyIncreasing(es)
    ensures CodesDistinct(es)
  {
  }

  lemma {:induction false} EntriesStrictlyIncreasing(lookup: ParameterLookup, from: nat)
    requires from <= 256
    requires KeyedByNumber(lookup)
    ensures StrictlyIncreasing(Entries(lookup, from))
    decreases 256 - from
  {
    if from < 256 {
      EntriesStrictlyIncreasing(lookup, from + 1);
      var rest := Entries(lookup, from + 1);
      match lookup(from as uint8)
      case None =>
        assert Entries(lookup, from) == rest;
      case Some(rec) =>
        var es := [rec] + rest;
        assert Entries(lookup, from) == es;
        assert rec.number as int == from;
        forall i, j | 0 <= i < j < |es| ensures es[i].number < es[j].number {
          assert es[j] == rest[j - 1];
          if i > 0 {
            assert es[i] == rest[i - 1];
            assert rest[i - 1].number < rest[j - 1].number;
          } else {
            assert from + 1 <= rest[j - 1].number as int;
          }
        }
    }
  }

  lemma {:induction false} EntriesAreLookups(lookup: ParameterLookup, from: nat, rec: Grib1Parameter)
    requires from <= 256
    requires KeyedByNumber(lookup)
    ensures rec in Entries(lookup, from) <==> from <= rec.number as int && lookup(rec.number) == Some(rec)
    decreases 256 - from
  {
    if from < 256 {
      EntriesAreLookups(lookup, from + 1, rec);
    }
  }

  lemma {:induction false} EntriesRebuildLookup(lookup: ParameterLookup, from: nat, p: uint8)
    requires from <= 256
    requires KeyedByNumber(lookup)
    ensures var m := ByNumber(Entries(lookup, from));
      (p in m <==> from <= p as int && lookup(p).Some?) && (p in m ==> lookup(p) == Some(m[p]))
    decreases 256 - from
  {
    if from < 256 {
      EntriesRebuildLookup(lookup, from + 1, p);
      var rest := Entries(lookup, from + 1);
      match lookup(from as uint8)
      case None =>
      case Some(rec) =>
        assert ([rec] + rest)[1..] == rest;
    }
  }

  lemma {:induction false} EntriesOfEqualLookups(lookupA: ParameterLookup, lookupB: ParameterLookup, from: nat)
    requires from <= 256
    requires KeyedByNumber(lookupA) && KeyedByNumber(lookupB)
    requires forall p :: lookupA(p) == lookupB(p)
    ensures Entries(lookupA, from) == Entries(lookupB, from)
    decreases 256 - from
  {
    if from < 256 {
      EntriesOfEqualLookups(lookupA, lookupB, from + 1);
    }
  }

  /** No code appears twice among a table's records. */
  lemma CodesUnique(t: Table)
    ensures CodesDistinct(AllEntries(t))
  {
    EntriesStrictlyIncreasing(TableLookup(t), 0);
    IncreasingCodesAreDistinct(AllEntries(t));
  }

  /** A record is among a table's entries exactly when the table returns it for its code. */
  lemma EntriesMatchLookup(t: Table, rec: Grib1Parameter)
    ensures rec in AllEntries(t) <==> Lookup(t, rec.number) == Some(rec)
  {
    EntriesAreLookups(TableLookup(t), 0, rec);
  }

  /** Enumerating a table and filing the records by code gives back the table's own lookup. */
  lemma TableRoundTrip(t: Table, p: uint8)
    ensures var m := ByNumber(AllEntries(t));
      (p in m <==> Lookup(t, p).Some?) && (p in m ==> Lookup(t, p) == Some(m[p]))
  {
    EntriesRebuildLookup(TableLookup(t), 0, p);
  }

  /** Every centre but ECMWF is resolved to a table holding exactly the WMO standard records. */
  lemma NonEcmwfCentersEnumerateStandardTable(centerId: uint8)
    requires centerId != EcmwfCenter
    ensures AllEntries(TableFor(centerId)) == AllEntries(WmoStandard)
  {
    EntriesOfEqualLookups(TableLookup(TableFor(centerId)), TableLookup(WmoStandard), 0);
  }
}
