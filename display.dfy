/** The display page's controller: the state the page keeps between renders and
    the transitions that change it (a poll result arriving, a location being
    chosen, the rotation timer firing, a video's metadata loading). */
module DisplayController {
  import opened Records
  import opened Derive
  import opened Snapshot
  import opened Rotation

  /** A timeout the browser holds: its handle and its delay. */
  datatype Timer = Timer(id: nat, delayMs: nat)

  /** The pending timers once the one with handle `id` is cancelled. */
  function Cancel(ts: seq<Timer>, id: nat): (r: seq<Timer>)
    ensures forall t :: t in r <==> t in ts && t.id != id
  {
    if ts == [] then []
    else (if ts[0].id == id then [] else [ts[0]]) + Cancel(ts[1..], id)
  }

  /** What one `pollData` run does with a fetch result. */
  datatype PollOutcome = Ignored | Emptied | Replaced(accepted: seq<EventData>)

  /** The decision `pollData` takes: nothing without a location, an empty
      snapshot after a failure, and otherwise the location's records, kept
      only when they differ from the snapshot `seen` it compares against. */
  function PollDecision(fetched: Fetched, selected: Option<int>, seen: Option<seq<EventData>>): (r: PollOutcome)
    ensures r.Ignored? <==>
      NoLocation(selected) || (fetched.Ok? && Some(FilterByLocation(fetched.records, selected.value)) == seen)
    ensures r.Emptied? <==> !NoLocation(selected) && fetched.Failed?
    ensures r.Replaced? ==>
              && Some(r.accepted) != seen
              && r.accepted == FilterByLocation(fetched.records, selected.value)
              && forall e :: e in r.accepted <==> e in fetched.records && AtLocation(e, selected.value)
  {
    if NoLocation(selected) then Ignored
    else match fetched
      case Failed => Emptied
      case Ok(records) =>
        var accepted := FilterByLocation(records, selected.value);
        if Some(accepted) == seen then Ignored else Replaced(accepted)
  }

  /** The kind recorded for the article at `index`, if there is one. */
  function KindShown(info: seq<EventData>, index: nat, types: map<int, MediaKind>): Option<MediaKind>
  {
    if index < |info| && info[index].idDisplay in types then Some(types[info[index].idDisplay]) else None
  }

  /** With the kind table built from a snapshot of unique ids, the kind
      recorded for the article on screen is that article's own classification. */
  lemma KindShownIsOwnKind(snapshot: seq<EventData>, info: seq<EventData>, index: nat)
    requires forall i, j :: 0 <= i < j < |snapshot| ==> snapshot[i].idDisplay != snapshot[j].idDisplay
    requires index < |info| && info[index] in snapshot
    ensures KindShown(info, index, IdTable(snapshot, KindOf)) == Some(KindOf(info[index]))
  {
    IdTableOfUniqueIds(snapshot, KindOf);
    var k :| 0 <= k < |snapshot| && snapshot[k] == info[index];
  }

  class Display {
    var locations: seq<Lokasi>
    var selectedLocation: Option<int>
    var data: Option<seq<EventData>>
    var mediaUrls: map<int, string>
    var mediaTypes: map<int, MediaKind>
    var displayedEvents: seq<EventData>
    var displayedInformation: seq<EventData>
    var currentArticleIndex: nat
    /** The rotation timeouts the browser still holds. */
    var pendingTimers: seq<Timer>
    /** `currentArticleRotationInterval.current`: the handle of the last timer armed. */
    var rotationTimer: Option<nat>
    /** The handle the browser gives the next timeout. */
    var nextTimerId: nat

    /** At most one rotation timer is pending and the handle names it. */
    ghost predicate TimersValid()
      reads this
    {
      && nextTimerId >= 1
      && |pendingTimers| <= 1
      && (pendingTimers != [] ==>
            rotationTimer == Some(pendingTimers[0].id) && pendingTimers[0].id < nextTimerId)
    }

    /** The index names an article whenever there is one. */
    ghost predicate IndexValid()
      reads this
    {
      |displayedInformation| > 0 ==> currentArticleIndex < |displayedInformation|
    }

    /** Besides the two above, a rotation timer is pending only while there is
        an article to rotate. */
    ghost predicate Valid()
      reads this
    {
      TimersValid() && IndexValid() && (pendingTimers != [] ==> |displayedInformation| > 0)
    }

    /** The page as first rendered: nothing selected, no snapshot, no timer. */
    constructor ()
      ensures Valid()
      ensures locations == [] && selectedLocation == None && data == None
      ensures mediaUrls == map[] && mediaTypes == map[]
      ensures displayedEvents == [] && displayedInformation == [] && currentArticleIndex == 0
      ensures pendingTimers == [] && rotationTimer == None
    {
      locations := [];
      selectedLocation := None;
      data := None;
      mediaUrls := map[];
      mediaTypes := map[];
      displayedEvents := [];
      displayedInformation := [];
      currentArticleIndex := 0;
      pendingTimers := [];
      rotationTimer := None;
      nextTimerId := 1;
    }

    /** The article on screen is rendered as a video element. */
    predicate CurrentIsVideo()
      reads this
    {
      KindShown(displayedInformation, currentArticleIndex, mediaTypes) == Some(Video)
    }

    /** The location loader: a successful fetch replaces the list, a failed one
        leaves it as it was. */
    method LoadLocations(result: LocationsFetched)
      modifies this`locations
      ensures result.LocationsOk? ==> locations == result.locations
      ensures result.LocationsFailed? ==> locations == old(locations)
    {
      if result.LocationsOk? {
        locations := result.locations;
      }
    }

    /** Cancels the pending rotation timer, if the handle names one. */
    method ClearRotationTimer()
      modifies this`pendingTimers, this`rotationTimer
      ensures rotationTimer == None
      ensures pendingTimers == if old(rotationTimer).Some?
                               then Cancel(old(pendingTimers), old(rotationTimer).value)
                               else old(pendingTimers)
    {
      if rotationTimer.Some? {
        pendingTimers := Cancel(pendingTimers, rotationTimer.value);
        rotationTimer := None;
      }
    }

    /** Arms a rotation timer and keeps its handle. */
    method ArmRotationTimer(delayMs: nat)
      modifies this`pendingTimers, this`rotationTimer, this`nextTimerId
      ensures pendingTimers == old(pendingTimers) + [Timer(old(nextTimerId), delayMs)]
      ensures rotationTimer == Some(old(nextTimerId))
      ensures nextTimerId == old(nextTimerId) + 1
    {
      pendingTimers := pendingTimers + [Timer(nextTimerId, delayMs)];
      rotationTimer := Some(nextTimerId);
      nextTimerId := nextTimerId + 1;
    }

    /** The rotation effect, re-run: the previous run's cleanup and its own
        first step cancel the pending timer, then a new one is armed for the
        article on screen, but only when there is an article. */
    method RunRotationEffect()
      requires TimersValid() && IndexValid()
      modifies this`pendingTimers, this`rotationTimer, this`nextTimerId
      ensures Valid()
      ensures pendingTimers == if |displayedInformation| > 0
                               then [Timer(old(nextTimerId), RotationDwell(KindShown(displayedInformation, currentArticleIndex, mediaTypes)))] else []
      ensures |displayedInformation| > 0 ==> rotationTimer == Some(old(nextTimerId))
      ensures |displayedInformation| == 0 ==> rotationTimer == None
    {
      ClearRotationTimer();
      if |displayedInformation| > 0 {
        ArmRotationTimer(RotationDwell(KindShown(displayedInformation, currentArticleIndex, mediaTypes)));
      }
    }

    /** The list derivations, recomputed from the snapshot, and the index
        following the new information list. */
    method DeriveLists(clock: Clock)
      requires data.Some?
      modifies this`displayedEvents, this`displayedInformation, this`currentArticleIndex
      ensures displayedEvents == DisplayedEvents(data.value, clock)
      ensures displayedInformation == DisplayedInformation(data.value, clock)
      ensures currentArticleIndex == IndexAfterNewInformation(old(currentArticleIndex), |displayedInformation|)
      ensures IndexValid()
    {
      displayedEvents := DisplayedEvents(data.value, clock);
      displayedInformation := DisplayedInformation(data.value, clock);
      currentArticleIndex := IndexAfterNewInformation(currentArticleIndex, |displayedInformation|);
    }

    /** The derivation effects: the event list and the information list are
        recomputed from the snapshot, the index follows the new information
        list, and the rotation effect re-runs when one of its inputs changed
        (the index, the list's length, or the media kind table). */
    method RunDerivations(clock: Clock, typesReplaced: bool) returns (rerun: bool)
      requires Valid() && data.Some?
      modifies this`displayedEvents, this`displayedInformation, this`currentArticleIndex
      modifies this`pendingTimers, this`rotationTimer, this`nextTimerId
      ensures Valid()
      ensures displayedEvents == DisplayedEvents(data.value, clock)
      ensures displayedInformation == DisplayedInformation(data.value, clock)
      ensures currentArticleIndex == IndexAfterNewInformation(old(currentArticleIndex), |displayedInformation|)
      ensures rerun <==> currentArticleIndex != old(currentArticleIndex)
                         || |displayedInformation| != old(|displayedInformation|) || typesReplaced
      ensures rerun ==> pendingTimers == if |displayedInformation| > 0
                                         then [Timer(old(nextTimerId), RotationDwell(KindShown(displayedInformation, currentArticleIndex, mediaTypes)))] else []
      ensures !rerun ==> pendingTimers == old(pendingTimers) && rotationTimer == old(rotationTimer)
                         && nextTimerId == old(nextTimerId)
    {
      var oldIndex, oldLength := currentArticleIndex, |displayedInformation|;
      DeriveLists(clock);
      rerun := currentArticleIndex != oldIndex || |displayedInformation| != oldLength || typesReplaced;
      if rerun {
        RunRotationEffect();
      }
    }

    /** A fetch that differs from the snapshot is accepted: it becomes the
        snapshot, both media tables are rebuilt from it, and the derivation
        effects run (the kind table is a new object, so the rotation effect
        re-runs too). */
    method AcceptSnapshot(accepted: seq<EventData>, clock: Clock)
      requires Valid()
      modifies this`data, this`mediaUrls, this`mediaTypes
      modifies this`displayedEvents, this`displayedInformation, this`currentArticleIndex
      modifies this`pendingTimers, this`rotationTimer, this`nextTimerId
      ensures Valid()
      ensures data == Some(accepted)
      ensures mediaUrls == IdTable(accepted, UrlOf) && mediaTypes == IdTable(accepted, KindOf)
      ensures displayedEvents == DisplayedEvents(accepted, clock)
      ensures displayedInformation == DisplayedInformation(accepted, clock)
      ensures currentArticleIndex == IndexAfterNewInformation(old(currentArticleIndex), |displayedInformation|)
      ensures pendingTimers == if |displayedInformation| > 0
                               then [Timer(old(nextTimerId), RotationDwell(KindShown(displayedInformation, currentArticleIndex, mediaTypes)))] else []
    {
      data := Some(accepted);
      var urls, types := BuildMediaTables(accepted);
      mediaUrls, mediaTypes := urls, types;
      var _ := RunDerivations(clock, true);
    }

    /** A failed fetch empties the snapshot and the derivation effects run on
        the empty list; the media tables are kept. */
    method DropSnapshot(clock: Clock)
      requires Valid()
      modifies this`data
      modifies this`displayedEvents, this`displayedInformation, this`currentArticleIndex
      modifies this`pendingTimers, this`rotationTimer, this`nextTimerId
      ensures Valid()
      ensures data == Some([])
      ensures displayedEvents == [] && displayedInformation == []
      ensures currentArticleIndex == old(currentArticleIndex)
      ensures pendingTimers == []
    {
      data := Some([]);
      var _ := RunDerivations(clock, false);
    }

    /** `pollData` against the snapshot value `seen` its closure holds: with no
        location nothing happens; a failure empties the snapshot; a result
        that differs from `seen` becomes the snapshot; a result equal to
        `seen` is dropped. */
    method PollAgainst(fetched: Fetched, clock: Clock, seen: Option<seq<EventData>>)
      requires Valid()
      modifies this`data, this`mediaUrls, this`mediaTypes
      modifies this`displayedEvents, this`displayedInformation, this`currentArticleIndex
      modifies this`pendingTimers, this`rotationTimer, this`nextTimerId
      ensures Valid()
      ensures var o := PollDecision(fetched, old(selectedLocation), seen);
        && (o.Ignored? ==> unchanged(this))
        && (o.Emptied? ==>
              && data == Some([]) && mediaUrls == old(mediaUrls) && mediaTypes == old(mediaTypes)
              && displayedEvents == [] && displayedInformation == []
              && currentArticleIndex == old(currentArticleIndex) && pendingTimers == [])
        && (o.Replaced? ==>
              && data == Some(o.accepted)
              && mediaUrls == IdTable(o.accepted, UrlOf) && mediaTypes == IdTable(o.accepted, KindOf)
              && displayedEvents == DisplayedEvents(o.accepted, clock)
              && displayedInformation == DisplayedInformation(o.accepted, clock)
              && currentArticleIndex == IndexAfterNewInformation(old(currentArticleIndex), |displayedInformation|)
              && pendingTimers == (if |displayedInformation| > 0
                                   then [Timer(old(nextTimerId), RotationDwell(KindShown(displayedInformation, currentArticleIndex, mediaTypes)))]
                                   else []))
    {
      var o := PollDecision(fetched, selectedLocation, seen);
      if o.Emptied? {
        DropSnapshot(clock);
      } else if o.Replaced? {
        AcceptSnapshot(o.accepted, clock);
      }
    }

    /** A poll compared against the current snapshot: re-polling records equal
        to the snapshot changes nothing at all. */
    method Poll(fetched: Fetched, clock: Clock)
      requires Valid()
      modifies this`data, this`mediaUrls, this`mediaTypes
      modifies this`displayedEvents, this`displayedInformation, this`currentArticleIndex
      modifies this`pendingTimers, this`rotationTimer, this`nextTimerId
      ensures Valid()
      ensures var o := PollDecision(fetched, old(selectedLocation), old(data));
        && (o.Ignored? ==> unchanged(this))
        && (o.Emptied? ==>
              && data == Some([]) && mediaUrls == old(mediaUrls) && mediaTypes == old(mediaTypes)
              && displayedEvents == [] && displayedInformation == []
              && currentArticleIndex == old(currentArticleIndex) && pendingTimers == [])
        && (o.Replaced? ==>
              && data == Some(o.accepted)
              && mediaUrls == IdTable(o.accepted, UrlOf) && mediaTypes == IdTable(o.accepted, KindOf)
              && displayedEvents == DisplayedEvents(o.accepted, clock)
              && displayedInformation == DisplayedInformation(o.accepted, clock)
              && currentArticleIndex == IndexAfterNewInformation(old(currentArticleIndex), |displayedInformation|)
              && pendingTimers == (if |displayedInformation| > 0
                                   then [Timer(old(nextTimerId), RotationDwell(KindShown(displayedInformation, currentArticleIndex, mediaTypes)))]
                                   else []))
    {
      PollAgainst(fetched, clock, data);
    }

    /** Choosing a location: the derivation effects re-run on the snapshot held
        (their dependencies include the location); the poll that selecting
        starts is a separate call to Poll. Choosing the same value again is no
        change and re-runs nothing. */
    method SelectLocation(loc: Option<int>, clock: Clock)
      requires Valid()
      modifies this`selectedLocation
      modifies this`displayedEvents, this`displayedInformation, this`currentArticleIndex
      modifies this`pendingTimers, this`rotationTimer, this`nextTimerId
      ensures Valid()
      ensures selectedLocation == loc
      ensures loc == old(selectedLocation) ==> unchanged(this)
      ensures loc != old(selectedLocation) && data.None? ==>
        && displayedEvents == old(displayedEvents) && displayedInformation == old(displayedInformation)
        && currentArticleIndex == old(currentArticleIndex)
        && pendingTimers == old(pendingTimers) && rotationTimer == old(rotationTimer)
        && nextTimerId == old(nextTimerId)
      ensures loc != old(selectedLocation) && data.Some? ==>
        && displayedEvents == DisplayedEvents(data.value, clock)
        && displayedInformation == DisplayedInformation(data.value, clock)
        && currentArticleIndex == IndexAfterNewInformation(old(currentArticleIndex), |displayedInformation|)
      ensures loc != old(selectedLocation) && data.Some? ==>
        var rerun := currentArticleIndex != old(currentArticleIndex) || |displayedInformation| != old(|displayedInformation|);
        && (rerun ==> pendingTimers == if |displayedInformation| > 0
                                      then [Timer(old(nextTimerId), RotationDwell(KindShown(displayedInformation, currentArticleIndex, mediaTypes)))] else [])
        && (!rerun ==> pendingTimers == old(pendingTimers) && rotationTimer == old(rotationTimer)
                       && nextTimerId == old(nextTimerId))
    {
      if loc != selectedLocation {
        selectedLocation := loc;
        if data.Some? {
          var _ := RunDerivations(clock, false);
        }
      }
    }

    /** The pending rotation timer fires: the index advances by one round the
        list, and the rotation effect re-runs if that changed the index, which
        it does exactly when there is more than one article. */
    method TimerFires()
      requires Valid() && pendingTimers != []
      modifies this`currentArticleIndex, this`pendingTimers, this`rotationTimer, this`nextTimerId
      ensures Valid()
      ensures currentArticleIndex == Next(old(currentArticleIndex), |displayedInformation|)
      ensures |displayedInformation| == 1 ==> pendingTimers == []
      ensures |displayedInformation| > 1 ==>
        pendingTimers == [Timer(old(nextTimerId), RotationDwell(KindShown(displayedInformation, currentArticleIndex, mediaTypes)))]
    {
      pendingTimers := pendingTimers[1..];
      var previous := currentArticleIndex;
      currentArticleIndex := Next(currentArticleIndex, |displayedInformation|);
      if currentArticleIndex != previous {
        RunRotationEffect();
      }
    }

    /** `handleLoadedMetadata`: the video on screen reports its duration; the
        pending timer is cancelled and one is armed for the duration, or for the
        fallback when the duration is unusable. */
    method HandleLoadedMetadata(durationMs: Option<nat>)
      requires Valid() && CurrentIsVideo()
      modifies this`pendingTimers, this`rotationTimer, this`nextTimerId
      ensures Valid()
      ensures pendingTimers == [Timer(old(nextTimerId), MetadataDwell(durationMs))]
    {
      ClearRotationTimer();
      ArmRotationTimer(MetadataDwell(durationMs));
    }

    /** `handleLoadedMetadata` as the page has it: the fallback branch arms its
        timer without cancelling the pending one. */
    method HandleLoadedMetadataAsWritten(durationMs: Option<nat>)
      requires Valid() && CurrentIsVideo()
      modifies this`pendingTimers, this`rotationTimer, this`nextTimerId
      ensures durationMs.Some? && durationMs.value > 0 ==>
        pendingTimers == [Timer(old(nextTimerId), durationMs.value)]
      ensures durationMs.None? || durationMs.value == 0 ==>
        pendingTimers == old(pendingTimers) + [Timer(old(nextTimerId), VideoFallbackDwellMs)]
      ensures rotationTimer == Some(old(nextTimerId))
    {
      if durationMs.Some? && durationMs.value > 0 {
        ClearRotationTimer();
        ArmRotationTimer(durationMs.value);
      } else {
        ArmRotationTimer(VideoFallbackDwellMs);
      }
    }

    /** Unmounting the page cancels the pending rotation timer. */
    method Unmount()
      requires Valid()
      modifies this`pendingTimers, this`rotationTimer
      ensures Valid()
      ensures pendingTimers == [] && rotationTimer == None
    {
      ClearRotationTimer();
    }
  }

  /** The interval poll as the page has it compares against the snapshot held
      when the location was chosen (`None` on a freshly opened page). When the
      backend's records have not changed since, the snapshot is set again to an
      equal value and the rotation jumps one article ahead on every poll. */
  method StalePollSkipsArticle(d: Display, records: seq<EventData>, clock: Clock)
    requires d.Valid() && !NoLocation(d.selectedLocation)
    requires d.data == Some(FilterByLocation(records, d.selectedLocation.value))
    requires |DisplayedInformation(d.data.value, clock)| >= 2
    modifies d
    ensures d.data == old(d.data)
    ensures |d.displayedInformation| >= 2
    ensures d.currentArticleIndex == Next(old(d.currentArticleIndex), |d.displayedInformation|)
    ensures d.currentArticleIndex != old(d.currentArticleIndex)
  {
    d.PollAgainst(Ok(records), clock, None);
  }

  /** With an unusable video duration the page ends up holding two rotation
      timers, one of which no handle names any more. */
  method OrphanedVideoTimer(d: Display)
    requires d.Valid() && d.CurrentIsVideo() && d.pendingTimers != []
    modifies d
    ensures |d.pendingTimers| == 2
    ensures d.rotationTimer == Some(d.pendingTimers[1].id) && d.pendingTimers[0].id != d.pendingTimers[1].id
  {
    d.HandleLoadedMetadataAsWritten(None);
  }
}
