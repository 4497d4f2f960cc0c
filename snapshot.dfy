/** What the poller keeps of a fetch: the records tagged with the selected
    location, and the id-keyed media URL and media kind tables built from them. */
module Snapshot {
  import opened Records
  import opened Seqs
  import opened Media

  /** `!selectedLocation`: nothing chosen yet, or the "Default" entry, whose
      value converts to 0. */
  predicate NoLocation(selected: Option<int>)
  {
    selected == None || selected == Some(0)
  }

  /** Whether one of the record's locations has id `loc`. */
  predicate AtLocation(e: EventData, loc: int)
  {
    exists j :: 0 <= j < |e.lokasi| && e.lokasi[j].idLokasi == loc
  }

  function LocationTest(loc: int): EventData -> bool
  {
    e => AtLocation(e, loc)
  }

  /** The records shown at `loc`, in the order the backend sent them. */
  function FilterByLocation(records: seq<EventData>, loc: int): (r: seq<EventData>)
    ensures forall e :: e in r <==> e in records && AtLocation(e, loc)
  {
    Filter(records, LocationTest(loc))
  }

  /** The location filter keeps the backend's order: it works record by record
      and never moves one past another. */
  lemma FilterByLocationKeepsOrder(a: seq<EventData>, b: seq<EventData>, e: EventData, loc: int)
    ensures FilterByLocation(a + b, loc) == FilterByLocation(a, loc) + FilterByLocation(b, loc)
    ensures FilterByLocation([e], loc) == if AtLocation(e, loc) then [e] else []
  {
    FilterConcat(a, b, LocationTest(loc));
    assert [e][1..] == [];
  }

  /** Filtering an already filtered list for the same location changes nothing. */
  lemma FilterByLocationIdempotent(records: seq<EventData>, loc: int)
    ensures FilterByLocation(FilterByLocation(records, loc), loc) == FilterByLocation(records, loc)
  {
    FilterAll(FilterByLocation(records, loc), LocationTest(loc));
  }

  function Ids(rs: seq<EventData>): set<int>
  {
    set e | e in rs :: e.idDisplay
  }

  function Classify(e: EventData): Classified
  {
    ClassifyMedia(e.media, e.idDisplay)
  }

  function UrlOf(e: EventData): string
  {
    Classify(e).url
  }

  function KindOf(e: EventData): MediaKind
  {
    Classify(e).kind
  }

  /** A table keyed by record id as the poller's loop fills it: one entry per
      record, in order, so a later record overwrites an earlier one with the
      same id. `mediaUrls` is `IdTable(rs, UrlOf)`, `mediaTypes` is
      `IdTable(rs, KindOf)`. */
  function IdTable<V>(rs: seq<EventData>, f: EventData -> V): map<int, V>
  {
    IdTableUpTo(rs, |rs|, f)
  }

  /** The table after the loop has seen the first `n` records. */
  function IdTableUpTo<V>(rs: seq<EventData>, n: nat, f: EventData -> V): map<int, V>
    requires n <= |rs|
  {
    if n == 0 then map[]
    else IdTableUpTo(rs, n - 1, f)[rs[n - 1].idDisplay := f(rs[n - 1])]
  }

  /** No record after position `i` has the id of the record at `i`. */
  predicate LastWithId(rs: seq<EventData>, i: int)
    requires 0 <= i < |rs|
  {
    forall j :: i < j < |rs| ==> rs[j].idDisplay != rs[i].idDisplay
  }

  lemma {:induction false} IdTableUpToKeys<V>(rs: seq<EventData>, n: nat, f: EventData -> V)
    requires n <= |rs|
    ensures forall k :: k in IdTableUpTo(rs, n, f) <==> exists i :: 0 <= i < n && rs[i].idDisplay == k
  {
    if n > 0 {
      IdTableUpToKeys(rs, n - 1, f);
    }
  }

  /** A table has exactly the snapshot's ids as keys. */
  lemma IdTableKeys<V>(rs: seq<EventData>, f: EventData -> V)
    ensures IdTable(rs, f).Keys == Ids(rs)
  {
    IdTableUpToKeys(rs, |rs|, f);
    forall k | k in Ids(rs) ensures k in IdTable(rs, f) {
      var e :| e in rs && e.idDisplay == k;
      var i :| 0 <= i < |rs| && rs[i] == e;
    }
    forall k | k in IdTable(rs, f) ensures k in Ids(rs) {
      var i :| 0 <= i < |rs| && rs[i].idDisplay == k;
      assert rs[i] in rs;
    }
  }

  lemma {:induction false} IdTableUpToLastWins<V>(rs: seq<EventData>, n: nat, f: EventData -> V, i: int)
    requires 0 <= i < n <= |rs|
    requires forall j :: i < j < n ==> rs[j].idDisplay != rs[i].idDisplay
    ensures rs[i].idDisplay in IdTableUpTo(rs, n, f) && IdTableUpTo(rs, n, f)[rs[i].idDisplay] == f(rs[i])
  {
    if i < n - 1 {
      IdTableUpToLastWins(rs, n - 1, f, i);
    }
  }

  /** The entry for an id is computed from the last record with that id. */
  lemma IdTableLastWins<V>(rs: seq<EventData>, f: EventData -> V, i: int)
    requires 0 <= i < |rs| && LastWithId(rs, i)
    ensures rs[i].idDisplay in IdTable(rs, f) && IdTable(rs, f)[rs[i].idDisplay] == f(rs[i])
  {
    IdTableUpToLastWins(rs, |rs|, f, i);
  }

  /** With unique ids, as the backend promises, every record's id maps to what
      that record itself yields. */
  lemma IdTableOfUniqueIds<V>(rs: seq<EventData>, f: EventData -> V)
    requires forall i, j :: 0 <= i < j < |rs| ==> rs[i].idDisplay != rs[j].idDisplay
    ensures forall i :: 0 <= i < |rs| ==> rs[i].idDisplay in IdTable(rs, f) && IdTable(rs, f)[rs[i].idDisplay] == f(rs[i])
  {
    forall i | 0 <= i < |rs|
      ensures rs[i].idDisplay in IdTable(rs, f) && IdTable(rs, f)[rs[i].idDisplay] == f(rs[i])
    {
      IdTableLastWins(rs, f, i);
    }
  }

  /** One more record read: its entry is set, overriding any earlier one. */
  lemma IdTableUpToStep<V>(rs: seq<EventData>, f: EventData -> V, i: nat)
    requires i < |rs|
    ensures IdTableUpTo(rs, i + 1, f) == IdTableUpTo(rs, i, f)[rs[i].idDisplay := f(rs[i])]
  {
  }

  /** The loop of `pollData` that classifies every accepted record and fills the
      two tables. */
  method BuildMediaTables(rs: seq<EventData>) returns (urls: map<int, string>, types: map<int, MediaKind>)
    ensures urls == IdTable(rs, UrlOf) && types == IdTable(rs, KindOf)
  {
    urls, types := map[], map[];
    var i := 0;
    while i < |rs|
      invariant 0 <= i <= |rs|
      invariant urls == IdTableUpTo(rs, i, UrlOf) && types == IdTableUpTo(rs, i, KindOf)
    {
      urls := urls[rs[i].idDisplay := UrlOf(rs[i])];
      types := types[rs[i].idDisplay := KindOf(rs[i])];
      IdTableUpToStep(rs, UrlOf, i);
      IdTableUpToStep(rs, KindOf, i);
      i := i + 1;
    }
  }
}
