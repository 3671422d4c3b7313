/** What the event cursor's updates keep: date order on insertion, and which events an update touches. */
module EventProperties {
  import opened Wrappers
  import opened Events

  /** The date an event is ordered by: its date as a number, zero when it has none. */
  function DateOf(ev: EventData): Option<int> {
    ParseInt(ValueOr(ev, DateKey, "0"))
  }

  /** Every event has a numeric date, and the dates never decrease along the list. */
  predicate DatesSorted(evs: seq<EventData>) {
    && (forall i :: 0 <= i < |evs| ==> DateOf(evs[i]).Some?)
    && (forall i, j :: 0 <= i < j < |evs| ==> DateOf(evs[i]).value <= DateOf(evs[j]).value)
  }

  /** The search from the start splits a date-ordered list at the given day. */
  lemma InsertIndexSplits(evs: seq<EventData>, day: int)
    requires DatesSorted(evs)
    ensures var at := InsertIndex(evs, 0, day);
      && (forall j :: 0 <= j < at ==> DateOf(evs[j]).value <= day)
      && (forall j :: at <= j < |evs| ==> day < DateOf(evs[j]).value)
  {
    var at := InsertIndex(evs, 0, day);
    forall j | 0 <= j < at
      ensures DateOf(evs[j]).value <= day
    {
      assert !LaterThan(evs[j], day);
    }
    forall j | at <= j < |evs|
      ensures day < DateOf(evs[j]).value
    {
      assert LaterThan(evs[at], day);
    }
  }

  /** An event whose date lies between the dates before and after a position keeps the list ordered. */
  lemma InsertBetweenSorted(evs: seq<EventData>, at: nat, ev: EventData)
    requires DatesSorted(evs) && at <= |evs| && DateOf(ev).Some?
    requires forall j :: 0 <= j < at ==> DateOf(evs[j]).value <= DateOf(ev).value
    requires forall j :: at <= j < |evs| ==> DateOf(ev).value < DateOf(evs[j]).value
    ensures DatesSorted(Insert(evs, at, ev))
  {
    var r := Insert(evs, at, ev);
    assert forall i :: 0 <= i < at ==> r[i] == evs[i];
    assert forall i :: at < i < |r| ==> r[i] == evs[i - 1];
  }

  /**
   * A dated event placed by a search from the start goes after every event of its day or
   * earlier and before every later event, so a date-ordered list stays date-ordered.
   */
  lemma InsertKeepsDateOrder(evs: seq<EventData>, ev: EventData, day: int)
    requires DatesSorted(evs)
    requires DateKey in ev && ParseInt(ev[DateKey]) == Some(day)
    ensures var at := InsertIndex(evs, 0, day);
      && (forall j :: 0 <= j < at ==> DateOf(evs[j]).value <= day)
      && (forall j :: at <= j < |evs| ==> day < DateOf(evs[j]).value)
      && DatesSorted(Insert(evs, at, ev))
  {
    InsertIndexSplits(evs, day);
    assert DateOf(ev) == Some(day);
    InsertBetweenSorted(evs, InsertIndex(evs, 0, day), ev);
  }

  /** When the current event exists, an update sets the variable on it and leaves every other event alone. */
  lemma UpdateTouchesCurrentEvent(c: Cursor, template: EventData, eventType: string, key: string, value: string,
                                  useTemplate: bool, toNext: bool)
    requires 0 <= c.next < |c.events|
    ensures var u := Updated(c, template, eventType, key, value, useTemplate, toNext);
      && |u.events| == |c.events|
      && u.events[c.next][key] == value
      && (forall k :: k in c.events[c.next] && k != key ==> u.events[c.next][k] == c.events[c.next][k])
      && (forall j :: 0 <= j < |c.events| && j != c.next ==> u.events[j] == c.events[j])
      && (!toNext ==> u.next == c.next)
  {
  }

  /**
   * Past the last event of the type, an update adds exactly one event: it holds the value,
   * every other template entry and (unless the type itself is the variable) the handled
   * type, and no other variable; the old events keep their order around it.
   */
  lemma UpdateAddsOneEvent(c: Cursor, template: EventData, eventType: string, key: string, value: string,
                           useTemplate: bool, toNext: bool)
    requires 0 <= c.next == |c.events|
    requires EventKey in template && template[EventKey] == eventType
    ensures var u := Updated(c, template, eventType, key, value, useTemplate, toNext);
      var at := InsertionPoint(c.events, c.next,
                               NewEvent(template, eventType, if key == DateKey then Some(value) else None, useTemplate));
      && |u.events| == |c.events| + 1
      && u.events[at][key] == value
      && (key != EventKey ==> u.events[at][EventKey] == eventType)
      && (forall k :: k in template && k != key ==> u.events[at][k] == template[k])
      && u.events[at].Keys == template.Keys + {key}
      && u.events[..at] + u.events[at + 1..] == c.events
      && (!toNext ==> u.next == at)
      && (toNext ==> at < u.next)
  {
    var added := NewEvent(template, eventType, if key == DateKey then Some(value) else None, useTemplate);
    var at := InsertionPoint(c.events, c.next, added);
    var u := Updated(c, template, eventType, key, value, useTemplate, toNext);
    assert u.events == Insert(c.events, at, (added + template)[key := value]);
    assert c.events[..at] + c.events[at..] == c.events;
  }

  /** A new event carries the date it is given, and no date when given none. */
  lemma NewEventDate(template: EventData, eventType: string, date: Option<string>, useTemplate: bool)
    ensures var ev := NewEvent(template, eventType, date, useTemplate);
      && (date.Some? ==> DateKey in ev && ev[DateKey] == date.value)
      && (date.None? ==> DateKey !in ev)
      && (!useTemplate ==> ev.Keys <= {EventKey, DateKey} && EventKey in ev && ev[EventKey] == eventType)
      && (useTemplate ==> ev.Keys - {DateKey} == template.Keys - {DateKey})
  {
  }
}
