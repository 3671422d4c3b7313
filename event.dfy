/**
 * A cursor over the events of one type in an experiment's event list: the list, the type
 * handled, the index of the current event of that type (or the end of the list), and a
 * template event copied from the first event of the type.
 */
module Events {
  import opened Wrappers
  import opened Digits

  /** An event: its variables by name, all values in text form. */
  type EventData = map<string, string>

  const EventKey := "event"
  const DateKey := "date"

  const Int32Min: int := -0x8000_0000
  const Int32Max: int := 0x7fff_ffff

  /** The value a key holds, or the default when the event has no such key. */
  function ValueOr(ev: EventData, key: string, default: string): string {
    if key in ev then ev[key] else default
  }

  // ---------------------------------------------------------------------------
  // Integer.parseInt

  /** The 32-bit integer a text denotes: an optional sign and one or more ASCII digits. */
  function ParseInt(s: string): (r: Option<int>)
    ensures r.Some? ==> Int32Min <= r.value <= Int32Max
    ensures r.Some? ==> |s| > 0
  {
    if |s| == 0 then None
    else
      var digits := if s[0] == '-' || s[0] == '+' then s[1..] else s;
      if |digits| == 0 || !AllDigits(digits) then None
      else
        var magnitude: int := DigitsValue(digits);
        var v := if s[0] == '-' then -magnitude else magnitude;
        if Int32Min <= v <= Int32Max then Some(v) else None
  }

  /** The usual decimal text of an integer. */
  function IntText(n: int): string {
    if n < 0 then "-" + NatText(-n) else NatText(n)
  }

  /** Every 32-bit integer is read back from its decimal text. */
  lemma ParseIntText(n: int)
    requires Int32Min <= n <= Int32Max
    ensures ParseInt(IntText(n)) == Some(n)
  {
    var s := IntText(n);
    if n < 0 {
      NatTextValue(-n);
      assert s[1..] == NatText(-n);
    } else {
      NatTextValue(n);
    }
  }

  /** Texts that are not a signed run of digits in range have no value. */
  lemma ParseIntRejects()
    ensures ParseInt("") == None
    ensures ParseInt("-") == None && ParseInt("+") == None
    ensures ParseInt("2012a") == None && ParseInt(" 1") == None
    ensures ParseInt("+7") == Some(7) && ParseInt("-7") == Some(-7)
  {
    var plus, minus := "+7", "-7";
    assert plus[1..] == "7" && minus[1..] == "7";
    assert DigitsValue("7") == 7 by {
      var seven := "7";
      assert seven[..0] == [];
    }
    var bad := "2012a";
    assert !IsDigit(bad[4]);
    var spaced := " 1";
    assert !IsDigit(spaced[0]);
  }

  // ---------------------------------------------------------------------------
  // The searches the cursor makes

  /** The index of the first event of the type at or after from, or the end of the list. */
  function NextMatch(evs: seq<EventData>, from: nat, eventType: string): (r: nat)
    ensures r <= |evs|
    ensures from <= |evs| ==> from <= r
    ensures r < |evs| ==> ValueOr(evs[r], EventKey, "") == eventType
    ensures forall j :: from <= j < r ==> ValueOr(evs[j], EventKey, "") != eventType
    decreases |evs| - from
  {
    if from >= |evs| then |evs|
    else if ValueOr(evs[from], EventKey, "") == eventType then from
    else NextMatch(evs, from + 1, eventType)
  }

  /** An event whose date (zero when it has none) is a number later than the given day. */
  predicate LaterThan(ev: EventData, day: int) {
    var d := ParseInt(ValueOr(ev, DateKey, "0"));
    d.Some? && day < d.value
  }

  /** The index of the first event at or after from that is later than the given day, or the end of the list. */
  function InsertIndex(evs: seq<EventData>, from: nat, day: int): (r: nat)
    ensures r <= |evs|
    ensures from <= |evs| ==> from <= r
    ensures r < |evs| ==> LaterThan(evs[r], day)
    ensures forall j :: from <= j < r ==> !LaterThan(evs[j], day)
    decreases |evs| - from
  {
    if from >= |evs| then |evs|
    else if LaterThan(evs[from], day) then from
    else InsertIndex(evs, from + 1, day)
  }

  /**
   * Where a new event goes: before the first later event, searched from the current event
   * when there is one and from the start otherwise; at the end when its date is not a number.
   */
  function InsertionPoint(evs: seq<EventData>, next: int, ev: EventData): (r: nat)
    ensures r <= |evs|
  {
    match ParseInt(ValueOr(ev, DateKey, ""))
    case None => |evs|
    case Some(day) => InsertIndex(evs, if 0 <= next < |evs| then next else 0, day)
  }

  function Insert(evs: seq<EventData>, at: nat, ev: EventData): (r: seq<EventData>)
    requires at <= |evs|
    ensures |r| == |evs| + 1 && r[at] == ev
    ensures r[..at] == evs[..at] && r[at + 1..] == evs[at..]
  {
    evs[..at] + [ev] + evs[at..]
  }

  /** The template: a copy of the event at the index when there is one, carrying the handled type. */
  function TemplateFor(evs: seq<EventData>, next: nat, eventType: string): (t: EventData)
    ensures EventKey in t && t[EventKey] == eventType
    ensures next < |evs| ==> t.Keys == evs[next].Keys + {EventKey}
  {
    (if next < |evs| then evs[next] else map[])[EventKey := eventType]
  }

  /** A new event: the template or just the type, with the given date or with none. */
  function NewEvent(template: EventData, eventType: string, date: Option<string>, useTemplate: bool): EventData {
    var base := if useTemplate then template else map[EventKey := eventType];
    match date
    case Some(d) => base[DateKey := d]
    case None => base - {DateKey}
  }

  /** The event list and index after an update. */
  datatype Cursor = Cursor(events: seq<EventData>, next: int)

  /**
   * An update sets the variable on the current event, or, past the last event of the type,
   * adds a new event (dated by the value when the variable is the date), completes it from
   * the template and sets the variable on it; then it moves on to the next event of the
   * type if asked to.
   */
  function Updated(c: Cursor, template: EventData, eventType: string, key: string, value: string,
                   useTemplate: bool, toNext: bool): Cursor
    requires 0 <= c.next <= |c.events|
  {
    var (evs, at) :=
      if c.next < |c.events| then
        (c.events[c.next := c.events[c.next][key := value]], c.next)
      else
        var added := NewEvent(template, eventType, if key == DateKey then Some(value) else None, useTemplate);
        var at := InsertionPoint(c.events, c.next, added);
        (Insert(c.events, at, (added + template)[key := value]), at);
    Cursor(evs, if toNext then NextMatch(evs, at + 1, eventType) else at)
  }

  // ---------------------------------------------------------------------------
  // The cursor

  class Event {
    var next: int
    var template: EventData
    var events: seq<EventData>
    var eventType: string

    /** The index is within the list or just past it, and the template has the handled type. */
    predicate Valid()
      reads this
    {
      0 <= next <= |events| && EventKey in template && template[EventKey] == eventType
    }

    constructor (events: seq<EventData>, eventType: string)
      ensures Valid()
      ensures this.events == events && this.eventType == eventType
      ensures next == NextMatch(events, 0, eventType)
      ensures template == TemplateFor(events, next, eventType)
    {
      this.events := events;
      this.eventType := eventType;
      next := -1;
      template := map[];
      new;
      GetNextEventIndex();
      SetTemplate();
    }

    /** Handle another type: the index goes back to the first event of that type. */
    method SetEventType(eventType: string)
      modifies this
      ensures Valid()
      ensures this.eventType == eventType && events == old(events)
      ensures next == NextMatch(events, 0, eventType)
      ensures template == TemplateFor(events, next, eventType)
    {
      this.eventType := eventType;
      next := -1;
      GetNextEventIndex();
      SetTemplate();
    }

    method SetTemplate()
      requires 0 <= next
      modifies this
      ensures next == old(next) && events == old(events) && eventType == old(eventType)
      ensures template == TemplateFor(events, next, eventType)
    {
      template := map[];
      if next < |events| {
        template := template + events[next];
      }
      template := template[EventKey := eventType];
    }

    /** Remove the current event when there is one, and move to the next event of the type. */
    method RemoveEvent()
      requires Valid()
      modifies this
      ensures Valid()
      ensures template == old(template) && eventType == old(eventType)
      ensures old(next) < |old(events)| ==>
        events == old(events[..next] + events[next + 1..]) && next == NextMatch(events, old(next), eventType)
      ensures old(next) == |old(events)| ==> events == old(events) && next == old(next)
    {
      if next < |events| {
        events := events[..next] + events[next + 1..];
        next := next - 1;
        GetNextEventIndex();
      }
    }

    /** updateEvent(key, value): use the template and move on. */
    method UpdateEvent(key: string, value: string)
      requires Valid()
      modifies this
      ensures Valid()
      ensures Cursor(events, next) == Updated(old(Cursor(events, next)), old(template), eventType, key, value, true, true)
      ensures template == old(template) && eventType == old(eventType)
    {
      UpdateEventWith(key, value, true, true);
    }

    /** updateEvent(key, value, toNext): use the template. */
    method UpdateEventMoving(key: string, value: string, toNext: bool)
      requires Valid()
      modifies this
      ensures Valid()
      ensures Cursor(events, next) == Updated(old(Cursor(events, next)), old(template), eventType, key, value, true, toNext)
      ensures template == old(template) && eventType == old(eventType)
    {
      UpdateEventWith(key, value, true, toNext);
    }

    method UpdateEventWith(key: string, value: string, useTemplate: bool, toNext: bool)
      requires Valid()
      modifies this
      ensures Valid()
      ensures Cursor(events, next) == Updated(old(Cursor(events, next)), old(template), eventType, key, value, useTemplate, toNext)
      ensures template == old(template) && eventType == old(eventType)
    {
      if next < |events| {
        events := events[next := events[next][key := value]];
      } else {
        var added := AddEvent(if key == DateKey then Some(value) else None, useTemplate);
        ghost var at := next;
        events := events[next := (added + template)[key := value]];
        assert events == Insert(old(events), at, (added + template)[key := value]);
      }
      if toNext {
        GetNextEventIndex();
      }
    }

    /** A new event, by the template or just the type, put in date order. */
    method AddEvent(date: Option<string>, useTemplate: bool) returns (ret: EventData)
      requires Valid()
      modifies this
      ensures Valid()
      ensures ret == NewEvent(template, eventType, date, useTemplate)
      ensures next == InsertionPoint(old(events), old(next), ret)
      ensures events == Insert(old(events), next, ret)
      ensures template == old(template) && eventType == old(eventType)
    {
      if useTemplate {
        ret := template;
      } else {
        ret := map[EventKey := eventType];
      }
      match date {
        case Some(d) => ret := ret[DateKey := d];
        case None => ret := ret - {DateKey};
      }
      GetInertIndex(ret);
      events := events[..next] + [ret] + events[next..];
    }

    method GetNextEventIndex()
      requires -1 <= next
      modifies this
      ensures next == NextMatch(events, old(next) + 1, eventType)
      ensures events == old(events) && template == old(template) && eventType == old(eventType)
    {
      var start := next + 1;
      var i := start;
      while i < |events|
        invariant start <= i
        invariant NextMatch(events, start, eventType) == NextMatch(events, i, eventType)
      {
        if ValueOr(events[i], EventKey, "") == eventType {
          next := i;
          return;
        }
        i := i + 1;
      }
      next := |events|;
    }

    function IsEventExist(): bool
      reads this
    {
      0 <= next < |events|
    }

    /** The current event; none when the index is past the list. */
    function GetCurrentEvent(): (r: Option<EventData>)
      reads this
      ensures r.Some? <==> IsEventExist()
      ensures r.Some? ==> r.value == events[next]
    {
      if IsEventExist() then Some(events[next]) else None
    }

    method GetInertIndex(event: EventData)
      modifies this
      ensures next == InsertionPoint(events, old(next), event)
      ensures events == old(events) && template == old(template) && eventType == old(eventType)
    {
      var date := ParseInt(ValueOr(event, DateKey, ""));
      if date.None? {
        next := |events|;
        return;
      }
      var day := date.value;
      var start := if IsEventExist() then next else 0;
      var i := start;
      while i < |events|
        invariant start <= i <= |events|
        invariant InsertIndex(events, start, day) == InsertIndex(events, i, day)
      {
        var d := ParseInt(ValueOr(events[i], DateKey, "0"));
        if d.Some? && day < d.value {
          next := i;
          return;
        }
        i := i + 1;
      }
      next := |events|;
    }
  }
}
