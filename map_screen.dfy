/** The markers `MapScreen` draws: one per event that has both coordinates, in list order. */
module MapScreen {
  import opened Wrappers
  import opened Domain

  datatype LatLng = LatLng(latitude: real, longitude: real)

  /** What a marker shows; its icon is the same for every marker. */
  datatype MarkerSpec = MarkerSpec(position: LatLng, title: string, snippet: string)

  predicate HasCoordinates(e: Event) {
    e.latitude.Some? && e.longitude.Some?
  }

  /** `events.filter { it.latitude != null && it.longitude != null }` */
  function Located(events: seq<Event>): (r: seq<Event>)
    ensures |r| <= |events|
    ensures forall e | e in r :: e in events && HasCoordinates(e)
  {
    if events == [] then []
    else (if HasCoordinates(events[0]) then [events[0]] else []) + Located(events[1..])
  }

  /** The marker drawn for one located event. */
  function MarkerOf(e: Event): (m: MarkerSpec)
    requires HasCoordinates(e)
    ensures m.position.latitude == e.latitude.value && m.position.longitude == e.longitude.value
    ensures m.title == e.name && m.snippet == e.location
  {
    MarkerSpec(LatLng(e.latitude.value, e.longitude.value), e.name, e.location)
  }

  /** `.forEach { event -> Marker(...) }` over the located events. */
  function Markers(events: seq<Event>): (r: seq<MarkerSpec>)
    ensures |r| <= |events|
    ensures forall i | 0 <= i < |r| :: exists e | e in events :: HasCoordinates(e) && r[i] == MarkerOf(e)
  {
    var located := Located(events);
    var r := seq(|located|, i requires 0 <= i < |located| => MarkerOf(located[i]));
    assert |r| == |located|;
    assert forall i | 0 <= i < |r| :: located[i] in events && r[i] == MarkerOf(located[i]);
    r
  }

  /** Filtering a concatenation filters each part. */
  lemma {:induction false} LocatedAppend(a: seq<Event>, b: seq<Event>)
    ensures Located(a + b) == Located(a) + Located(b)
  {
    if a != [] {
      assert (a + b)[1..] == a[1..] + b;
      LocatedAppend(a[1..], b);
    } else {
      assert a + b == b;
    }
  }

  /** The markers of a concatenation are the markers of each part, in order. */
  lemma MarkersAppend(a: seq<Event>, b: seq<Event>)
    ensures Markers(a + b) == Markers(a) + Markers(b)
  {
    LocatedAppend(a, b);
    var la, lb := Located(a), Located(b);
    var m, ma, mb := Markers(a + b), Markers(a), Markers(b);
    assert |m| == |la| + |lb| && |ma| == |la| && |mb| == |lb|;
    forall i | 0 <= i < |m|
      ensures m[i] == (ma + mb)[i]
    {
      if i < |la| {
        assert m[i] == MarkerOf(la[i]) == ma[i];
      } else {
        assert m[i] == MarkerOf(lb[i - |la|]) == mb[i - |la|];
      }
    }
  }

  /** A single event yields one marker when it has both coordinates and none otherwise. */
  lemma MarkersOfOne(e: Event)
    ensures HasCoordinates(e) ==> Markers([e]) == [MarkerOf(e)]
    ensures !HasCoordinates(e) ==> Markers([e]) == []
  {
  }

  /**
   * The event at index `i`, when it has both coordinates, has its marker right after the
   * markers of the events before it.
   */
  lemma MarkerAt(events: seq<Event>, i: nat)
    requires i < |events| && HasCoordinates(events[i])
    ensures |Markers(events[..i])| < |Markers(events)|
    ensures Markers(events)[|Markers(events[..i])|] == MarkerOf(events[i])
  {
    assert events == events[..i] + [events[i]] + events[i + 1..];
    MarkersAppend(events[..i] + [events[i]], events[i + 1..]);
    MarkersAppend(events[..i], [events[i]]);
    MarkersOfOne(events[i]);
  }

  /** Markers keep the order of their events. */
  lemma MarkersInOrder(events: seq<Event>, i: nat, j: nat)
    requires i < j < |events| && HasCoordinates(events[i])
    ensures |Markers(events[..i])| < |Markers(events[..j])|
  {
    assert events[..j] == events[..i] + [events[i]] + events[i + 1..j];
    MarkersAppend(events[..i] + [events[i]], events[i + 1..j]);
    MarkersAppend(events[..i], [events[i]]);
    MarkersOfOne(events[i]);
  }

  /** Every marker is the marker of some located event, at the place `MarkerAt` gives it. */
  lemma {:induction false} MarkerSource(events: seq<Event>, k: nat)
    requires k < |Markers(events)|
    ensures exists i: nat | i < |events| ::
      HasCoordinates(events[i]) && |Markers(events[..i])| == k && Markers(events)[k] == MarkerOf(events[i])
    decreases |events|
  {
    var n := |events| - 1;
    assert events == events[..n] + [events[n]];
    MarkersAppend(events[..n], [events[n]]);
    MarkersOfOne(events[n]);
    if k < |Markers(events[..n])| {
      MarkerSource(events[..n], k);
      var i: nat :| i < n && HasCoordinates(events[..n][i]) && |Markers(events[..n][..i])| == k
        && Markers(events[..n])[k] == MarkerOf(events[..n][i]);
      assert events[..n][..i] == events[..i];
      assert Markers(events)[k] == Markers(events[..n])[k];
      assert HasCoordinates(events[i]) && |Markers(events[..i])| == k && Markers(events)[k] == MarkerOf(events[i]);
    } else {
      assert HasCoordinates(events[n]) && |Markers(events[..n])| == k;
      assert Markers(events)[k] == MarkerOf(events[n]);
    }
  }

  /** Adding an event that has both coordinates puts its marker after all existing ones. */
  lemma AddedEventGetsLastMarker(events: seq<Event>, e: Event)
    requires HasCoordinates(e)
    ensures Markers(events + [e]) == Markers(events) + [MarkerOf(e)]
  {
    MarkersAppend(events, [e]);
    MarkersOfOne(e);
  }
}
