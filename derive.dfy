/** The lists the page derives from a snapshot and the current time: today's
    records sorted by start, the capped list of events still to come, the
    information articles still to come, and the ticker of events in progress. */
module Derive {
  import opened Records
  import opened Seqs

  const MsPerDay: int := 86400000
  const MaxDisplayedEvents: nat := 5
  const NoOngoingEvent: string := "Tidak ada event yang sedang berlangsung"

  /** The current time and the offset of the display's local time zone from UTC. */
  datatype Clock = Clock(now: int, utcOffset: int)

  /** The local calendar day a timestamp falls on. */
  function LocalDay(t: int, utcOffset: int): int
  {
    (t + utcOffset) / MsPerDay
  }

  predicate StartsToday(e: EventData, c: Clock)
  {
    LocalDay(e.waktuMulai, c.utcOffset) == LocalDay(c.now, c.utcOffset)
  }

  predicate SortedByStart(s: seq<EventData>)
  {
    forall i, j :: 0 <= i < j < |s| ==> s[i].waktuMulai <= s[j].waktuMulai
  }

  /** The records of `s` that start at `k`, in their order in `s`. */
  function WithStart(s: seq<EventData>, k: int): seq<EventData>
  {
    if s == [] then []
    else (if s[0].waktuMulai == k then [s[0]] else []) + WithStart(s[1..], k)
  }

  /** Places `x` before the first element that does not start earlier. */
  function Insert(x: EventData, t: seq<EventData>): (r: seq<EventData>)
    ensures multiset(r) == multiset(t) + multiset{x}
  {
    if t == [] || x.waktuMulai <= t[0].waktuMulai then [x] + t
    else
      assert t == [t[0]] + t[1..];
      [t[0]] + Insert(x, t[1..])
  }

  lemma SortedTail(s: seq<EventData>)
    requires s != [] && SortedByStart(s)
    ensures SortedByStart(s[1..])
  {
    var tail := s[1..];
    forall i, j | 0 <= i < j < |tail| ensures tail[i].waktuMulai <= tail[j].waktuMulai {
      assert tail[i] == s[i + 1] && tail[j] == s[j + 1];
    }
  }

  lemma SortedCons(x: EventData, t: seq<EventData>)
    requires SortedByStart(t)
    requires forall y :: y in t ==> x.waktuMulai <= y.waktuMulai
    ensures SortedByStart([x] + t)
  {
    var r := [x] + t;
    forall i, j | 0 <= i < j < |r| ensures r[i].waktuMulai <= r[j].waktuMulai {
      assert r[j] == t[j - 1];
      if i > 0 {
        assert r[i] == t[i - 1];
      } else {
        assert t[j - 1] in t;
      }
    }
  }

  lemma {:induction false} InsertSorted(x: EventData, t: seq<EventData>)
    requires SortedByStart(t)
    ensures SortedByStart(Insert(x, t))
  {
    if t == [] || x.waktuMulai <= t[0].waktuMulai {
      forall y | y in t ensures x.waktuMulai <= y.waktuMulai {
        var m :| 0 <= m < |t| && t[m] == y;
        assert t[0].waktuMulai <= t[m].waktuMulai;
      }
      SortedCons(x, t);
    } else {
      SortedTail(t);
      InsertSorted(x, t[1..]);
      var rest := Insert(x, t[1..]);
      forall y | y in rest ensures t[0].waktuMulai <= y.waktuMulai {
        assert y in multiset(rest);
        assert y == x || y in multiset(t[1..]);
        if y != x {
          var m :| 0 <= m < |t[1..]| && t[1..][m] == y;
          assert t[m + 1] == y;
        }
      }
      SortedCons(t[0], rest);
    }
  }

  /** A stable insertion sort by start time: what `Array.prototype.sort` does
      with a comparator that subtracts start times. */
  function SortByStart(s: seq<EventData>): (r: seq<EventData>)
    ensures multiset(r) == multiset(s)
    ensures SortedByStart(r)
  {
    if s == [] then []
    else
      assert s == [s[0]] + s[1..];
      InsertSorted(s[0], SortByStart(s[1..]));
      Insert(s[0], SortByStart(s[1..]))
  }

  lemma {:induction false} InsertKeepsTies(x: EventData, t: seq<EventData>, k: int)
    ensures WithStart(Insert(x, t), k) == (if x.waktuMulai == k then [x] else []) + WithStart(t, k)
  {
    if t == [] || x.waktuMulai <= t[0].waktuMulai {
      assert ([x] + t)[1..] == t;
    } else {
      var rest := Insert(x, t[1..]);
      assert ([t[0]] + rest)[1..] == rest;
      InsertKeepsTies(x, t[1..], k);
    }
  }

  /** Records with equal start times keep their original relative order. */
  lemma {:induction false} SortIsStable(s: seq<EventData>, k: int)
    ensures WithStart(SortByStart(s), k) == WithStart(s, k)
  {
    if s != [] {
      SortIsStable(s[1..], k);
      InsertKeepsTies(s[0], SortByStart(s[1..]), k);
    }
  }

  lemma {:induction false} WithStartOfFilter(s: seq<EventData>, p: EventData -> bool, k: int, keep: bool)
    requires forall e: EventData :: e.waktuMulai == k ==> p(e) == keep
    ensures WithStart(Filter(s, p), k) == if keep then WithStart(s, k) else []
  {
    if s != [] {
      WithStartOfFilter(s[1..], p, k, keep);
      var head := if p(s[0]) then [s[0]] else [];
      FilterConcatHead(s, p);
      WithStartConcat(head, Filter(s[1..], p), k);
    }
  }

  lemma FilterConcatHead(s: seq<EventData>, p: EventData -> bool)
    requires s != []
    ensures Filter(s, p) == (if p(s[0]) then [s[0]] else []) + Filter(s[1..], p)
  {
  }

  lemma {:induction false} WithStartConcat(a: seq<EventData>, b: seq<EventData>, k: int)
    ensures WithStart(a + b, k) == WithStart(a, k) + WithStart(b, k)
  {
    if a == [] {
      assert a + b == b;
    } else {
      assert (a + b)[1..] == a[1..] + b;
      WithStartConcat(a[1..], b, k);
    }
  }

  lemma {:induction false} FilterKeepsSorted(s: seq<EventData>, p: EventData -> bool)
    requires SortedByStart(s)
    ensures SortedByStart(Filter(s, p))
  {
    if s != [] {
      var tail := s[1..];
      SortedTail(s);
      FilterKeepsSorted(tail, p);
      FilterConcatHead(s, p);
      var rest := Filter(tail, p);
      if p(s[0]) {
        forall y | y in rest ensures s[0].waktuMulai <= y.waktuMulai {
          var m :| 0 <= m < |tail| && tail[m] == y;
          assert s[m + 1] == y;
        }
        SortedCons(s[0], rest);
      }
    }
  }

  /** The test `filterUpcomingEvents` applies to every record. */
  function StartsTodayTest(c: Clock): EventData -> bool
  {
    e => StartsToday(e, c)
  }

  /** `filterUpcomingEvents`: the records starting on today's local date, sorted
      by start time. */
  function FilterUpcomingEvents(events: seq<EventData>, c: Clock): (r: seq<EventData>)
    ensures forall e :: e in r <==> e in events && StartsToday(e, c)
    ensures SortedByStart(r)
  {
    var today := Filter(events, StartsTodayTest(c));
    var r := SortByStart(today);
    assert forall e :: e in r <==> e in today by {
      forall e ensures e in r <==> e in today {
        assert e in r <==> e in multiset(r);
      }
    }
    r
  }

  /** The result is a permutation of the records starting today. */
  lemma FilterUpcomingEventsIsPermutation(events: seq<EventData>, c: Clock)
    ensures forall e :: multiset(FilterUpcomingEvents(events, c))[e]
                       == if StartsToday(e, c) then multiset(events)[e] else 0
  {
    FilterCount(events, StartsTodayTest(c));
  }

  /** Records that start at the same time keep their order from the snapshot. */
  lemma FilterUpcomingEventsIsStable(events: seq<EventData>, c: Clock, k: int)
    ensures WithStart(FilterUpcomingEvents(events, c), k)
         == if LocalDay(k, c.utcOffset) == LocalDay(c.now, c.utcOffset) then WithStart(events, k) else []
  {
    var today := Filter(events, StartsTodayTest(c));
    SortIsStable(today, k);
    WithStartOfFilter(events, StartsTodayTest(c), k, LocalDay(k, c.utcOffset) == LocalDay(c.now, c.utcOffset));
  }

  /** Whether a record has not ended at `c.now`. */
  predicate NotEnded(e: EventData, c: Clock)
  {
    c.now <= e.waktuSelesai
  }

  /** The test the derivation applies to today's records for one category. */
  function PendingTest(c: Clock, k: Kategori): EventData -> bool
  {
    e => NotEnded(e, c) && e.kategori == k
  }

  /** Today's records of one category that have not ended yet, by start time. */
  function UpcomingOfCategory(rs: seq<EventData>, c: Clock, k: Kategori): (r: seq<EventData>)
    ensures forall e :: e in r <==> e in rs && StartsToday(e, c) && NotEnded(e, c) && e.kategori == k
    ensures SortedByStart(r)
  {
    var today := FilterUpcomingEvents(rs, c);
    FilterKeepsSorted(today, PendingTest(c, k));
    Filter(today, PendingTest(c, k))
  }

  /** Every qualifying record appears as often as in the snapshot. */
  lemma UpcomingOfCategoryIsPermutation(rs: seq<EventData>, c: Clock, k: Kategori)
    ensures forall e :: multiset(UpcomingOfCategory(rs, c, k))[e]
                       == if StartsToday(e, c) && NotEnded(e, c) && e.kategori == k then multiset(rs)[e] else 0
  {
    FilterUpcomingEventsIsPermutation(rs, c);
    FilterCount(FilterUpcomingEvents(rs, c), PendingTest(c, k));
  }

  function Min(a: nat, b: nat): nat
  {
    if a <= b then a else b
  }

  /** `displayedEvents`: the first five of today's events that have not ended. */
  function DisplayedEvents(rs: seq<EventData>, c: Clock): (r: seq<EventData>)
    ensures |r| == Min(MaxDisplayedEvents, |UpcomingOfCategory(rs, c, Event)|)
    ensures r == UpcomingOfCategory(rs, c, Event)[..|r|]
    ensures forall e :: e in r ==> e in rs && e.kategori == Event && StartsToday(e, c) && NotEnded(e, c)
    ensures SortedByStart(r)
  {
    var all := UpcomingOfCategory(rs, c, Event);
    var r := all[..Min(MaxDisplayedEvents, |all|)];
    assert forall e :: e in r ==> e in all;
    r
  }

  /** `displayedInformation`: today's information articles that have not ended. */
  function DisplayedInformation(rs: seq<EventData>, c: Clock): (r: seq<EventData>)
    ensures forall e :: e in r <==> e in rs && e.kategori == Informasi && StartsToday(e, c) && NotEnded(e, c)
    ensures SortedByStart(r)
  {
    UpcomingOfCategory(rs, c, Informasi)
  }

  /** `isEventOngoing`: started and not yet ended at `now`. */
  predicate IsEventOngoing(e: EventData, now: int)
  {
    e.waktuMulai <= now <= e.waktuSelesai
  }

  predicate OngoingEvent(e: EventData, now: int)
  {
    e.kategori == Event && IsEventOngoing(e, now)
  }

  /** The test the ticker applies to every record of the snapshot. */
  function OngoingTest(now: int): EventData -> bool
  {
    e => OngoingEvent(e, now)
  }

  /** An event in progress is among the day's pending events exactly when it
      started today: one that began on an earlier day is on the ticker only. */
  lemma OngoingEventIsPending(rs: seq<EventData>, c: Clock, e: EventData)
    requires e in rs && e.kategori == Event && IsEventOngoing(e, c.now)
    ensures e in UpcomingOfCategory(rs, c, Event) <==> StartsToday(e, c)
  {
  }

  /** The ticker: the description of every event in progress, in snapshot order,
      or one placeholder line when there is none (or no snapshot yet). */
  function TickerLines(data: Option<seq<EventData>>, now: int): (lines: seq<string>)
    ensures |lines| >= 1
    ensures (data.None? || forall e :: e in data.value ==> !OngoingEvent(e, now)) ==> lines == [NoOngoingEvent]
    ensures data.Some? && (exists e :: e in data.value && OngoingEvent(e, now)) ==>
      (forall e :: e in data.value && OngoingEvent(e, now) ==> e.deskripsi in lines) &&
      (forall i :: 0 <= i < |lines| ==> exists e :: e in data.value && OngoingEvent(e, now) && lines[i] == e.deskripsi)
    ensures data.Some? && Filter(data.value, OngoingTest(now)) != [] ==>
      && |lines| == |Filter(data.value, OngoingTest(now))|
      && forall i :: 0 <= i < |lines| ==> lines[i] == Filter(data.value, OngoingTest(now))[i].deskripsi
  {
    if data.None? then [NoOngoingEvent]
    else
      var ongoing := Filter(data.value, OngoingTest(now));
      if ongoing == [] then [NoOngoingEvent]
      else
        assert ongoing[0] in data.value && OngoingEvent(ongoing[0], now);
        var lines := seq(|ongoing|, i requires 0 <= i < |ongoing| => ongoing[i].deskripsi);
        assert forall e :: e in ongoing ==> e.deskripsi in lines by {
          forall e | e in ongoing ensures e.deskripsi in lines {
            var i :| 0 <= i < |ongoing| && ongoing[i] == e;
            assert lines[i] == e.deskripsi;
          }
        }
        assert forall i :: 0 <= i < |lines| ==> ongoing[i] in ongoing;
        lines
  }
}
