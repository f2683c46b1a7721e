/** The in-memory event store both REST servers keep: events as the servers
    store them, the selection of `get_events` (by exact date, or by a window
    of days from today) followed by the stable sort on (date, time), the search
    for an id that `delete_event` pops, and the id a new event receives. */
module EventStore {
  import opened Values
  import opened Text
  import opened DateTime
  import opened Models

  /** A stored event. `time` is None for an event read from the events file
      without a "time" key; events the servers create always have one. */
  datatype Event = Event(id: string, title: string, description: string, date: string,
                         time: Option<string>, location: string, createdAt: string)

  // ------------------------------------------------------------ the sort key

  /** `(x["date"], x.get("time", "00:00"))`. */
  datatype Key = Key(date: string, time: string)

  function KeyOf(e: Event): Key
  {
    Key(e.date, if e.time.Some? then e.time.value else "00:00")
  }

  /** Python's `<` on a pair of strings. */
  predicate KeyLess(a: Key, b: Key)
  {
    LexLess(a.date, b.date) || (a.date == b.date && LexLess(a.time, b.time))
  }

  lemma KeyIrreflexive(a: Key)
    ensures !KeyLess(a, a)
  {
    LexIrreflexive(a.date);
    LexIrreflexive(a.time);
  }

  lemma KeyTransitive(a: Key, b: Key, c: Key)
    requires KeyLess(a, b) && KeyLess(b, c)
    ensures KeyLess(a, c)
  {
    if LexLess(a.date, b.date) && LexLess(b.date, c.date) {
      LexTransitive(a.date, b.date, c.date);
    } else if a.date == b.date && b.date == c.date {
      LexTransitive(a.time, b.time, c.time);
    }
  }

  lemma KeyTotal(a: Key, b: Key)
    ensures a == b || KeyLess(a, b) || KeyLess(b, a)
  {
    LexTotal(a.date, b.date);
    LexTotal(a.time, b.time);
  }

  /** Not-greater-than is transitive. */
  lemma KeyAtMostTransitive(a: Key, b: Key, c: Key)
    requires !KeyLess(b, a) && !KeyLess(c, b)
    ensures !KeyLess(c, a)
  {
    KeyTotal(a, b);
    KeyTotal(b, c);
    if KeyLess(c, a) {
      if KeyLess(a, b) {
        KeyTransitive(c, a, b);
      }
    }
  }

  // ------------------------------------------------------------ selection

  /** The events of s that p admits, in their order. */
  function Keep(s: seq<Event>, p: Event -> bool): (r: seq<Event>)
    ensures |r| <= |s|
  {
    if s == [] then [] else Keep(s[..|s| - 1], p) + (if p(s[|s| - 1]) then [s[|s| - 1]] else [])
  }

  lemma {:induction false} KeepMembers(s: seq<Event>, p: Event -> bool, x: Event)
    ensures x in Keep(s, p) <==> x in s && p(x)
  {
    if s != [] {
      var init := s[..|s| - 1];
      KeepMembers(init, p, x);
      assert s == init + [s[|s| - 1]];
    }
  }

  lemma {:induction false} KeepAppend(a: seq<Event>, b: seq<Event>, p: Event -> bool)
    ensures Keep(a + b, p) == Keep(a, p) + Keep(b, p)
    decreases |b|
  {
    if b == [] {
      assert a + b == a;
    } else {
      var init := b[..|b| - 1];
      assert (a + b)[..|a + b| - 1] == a + init;
      assert (a + b)[|a + b| - 1] == b[|b| - 1];
      KeepAppend(a, init, p);
    }
  }

  /** The events whose date string equals date. */
  function OnDate(s: seq<Event>, date: string): seq<Event>
  {
    Keep(s, DateIs(date))
  }

  /** The test "is stored under date". */
  function DateIs(date: string): Event -> bool
  {
    (e: Event) => e.date == date
  }

  /** A stored date that `strptime` reads and that lies within daysAhead days
      of today, both ends included. */
  predicate InWindow(e: Event, today: Date, daysAhead: int)
    requires ValidDate(today)
  {
    match ParseDate(e.date)
    case None => false
    case Some(d) => Ordinal(today) <= Ordinal(d) <= Ordinal(today) + daysAhead
  }

  function Window(s: seq<Event>, today: Date, daysAhead: int): seq<Event>
    requires ValidDate(today)
  {
    Keep(s, WindowTest(today, daysAhead))
  }

  /** The test "lies in the window". */
  function WindowTest(today: Date, daysAhead: int): Event -> bool
    requires ValidDate(today)
  {
    (e: Event) => InWindow(e, today, daysAhead)
  }

  /** The window loop of `get_events`. */
  method SelectWindow(events: seq<Event>, today: Date, daysAhead: int) returns (selected: seq<Event>)
    requires ValidDate(today)
    ensures selected == Window(events, today, daysAhead)
  {
    selected := [];
    var i := 0;
    while i < |events|
      invariant 0 <= i <= |events|
      invariant selected == Window(events[..i], today, daysAhead)
    {
      var e := events[i];
      assert events[..i + 1][..i] == events[..i];
      match ParseDate(e.date) {
        case None =>
        case Some(d) =>
          if Ordinal(today) <= Ordinal(d) <= Ordinal(today) + daysAhead {
            selected := selected + [e];
          }
      }
      i := i + 1;
    }
    assert events[..i] == events;
  }

  // ------------------------------------------------------------ the stable sort

  predicate Sorted(s: seq<Event>)
  {
    forall i, j :: 0 <= i < j < |s| ==> !KeyLess(KeyOf(s[j]), KeyOf(s[i]))
  }

  /** e placed after every element of t whose key is not greater than its own. */
  function Insert(t: seq<Event>, e: Event): (r: seq<Event>)
    ensures multiset(r) == multiset(t) + multiset{e}
  {
    if t == [] || !KeyLess(KeyOf(e), KeyOf(t[|t| - 1])) then t + [e]
    else
      var init := t[..|t| - 1];
      assert t == init + [t[|t| - 1]];
      Insert(init, e) + [t[|t| - 1]]
  }

  /** `list.sort(key=...)`: a stable sort, written as insertion in input order. */
  function SortEvents(s: seq<Event>): (r: seq<Event>)
    ensures multiset(r) == multiset(s)
  {
    if s == [] then []
    else
      var init := s[..|s| - 1];
      assert s == init + [s[|s| - 1]];
      Insert(SortEvents(init), s[|s| - 1])
  }

  /** No element of s has a key greater than last's. */
  predicate NoneAbove(s: seq<Event>, last: Event)
  {
    forall x :: x in s ==> !KeyLess(KeyOf(last), KeyOf(x))
  }

  lemma AppendSorted(front: seq<Event>, last: Event)
    requires Sorted(front) && NoneAbove(front, last)
    ensures Sorted(front + [last])
  {
    var r := front + [last];
    forall i, j | 0 <= i < j < |r|
      ensures !KeyLess(KeyOf(r[j]), KeyOf(r[i]))
    {
      if j == |r| - 1 {
        assert r[i] == front[i];
        assert r[i] in front;
      } else {
        assert r[i] == front[i] && r[j] == front[j];
      }
    }
  }

  /** Inserting an element with a smaller key keeps last on top. */
  lemma InsertBelow(init: seq<Event>, e: Event, last: Event)
    requires NoneAbove(init, last) && KeyLess(KeyOf(e), KeyOf(last))
    ensures NoneAbove(Insert(init, e), last)
  {
    var front := Insert(init, e);
    forall x | x in front
      ensures !KeyLess(KeyOf(last), KeyOf(x))
    {
      assert x in multiset(front);
      if x == e {
        if KeyLess(KeyOf(last), KeyOf(e)) {
          KeyTransitive(KeyOf(e), KeyOf(last), KeyOf(e));
          KeyIrreflexive(KeyOf(e));
        }
      } else {
        assert x in multiset(init);
      }
    }
  }

  /** The last element of a sorted sequence is on top of the rest. */
  lemma SortedLast(t: seq<Event>)
    requires Sorted(t) && t != []
    ensures NoneAbove(t[..|t| - 1], t[|t| - 1])
  {
    var init := t[..|t| - 1];
    forall x | x in init
      ensures !KeyLess(KeyOf(t[|t| - 1]), KeyOf(x))
    {
      var i :| 0 <= i < |init| && init[i] == x;
      assert t[i] == x;
    }
  }

  /** An element no smaller than the last of a sorted sequence is on top of
      all of it. */
  lemma AboveAll(t: seq<Event>, e: Event)
    requires Sorted(t) && t != [] && !KeyLess(KeyOf(e), KeyOf(t[|t| - 1]))
    ensures NoneAbove(t, e)
  {
    forall x | x in t
      ensures !KeyLess(KeyOf(e), KeyOf(x))
    {
      var i :| 0 <= i < |t| && t[i] == x;
      if i < |t| - 1 {
        KeyAtMostTransitive(KeyOf(t[i]), KeyOf(t[|t| - 1]), KeyOf(e));
      }
    }
  }

  lemma {:induction false} InsertSorted(t: seq<Event>, e: Event)
    requires Sorted(t)
    ensures Sorted(Insert(t, e))
  {
    if t == [] {
    } else if !KeyLess(KeyOf(e), KeyOf(t[|t| - 1])) {
      AboveAll(t, e);
      AppendSorted(t, e);
    } else {
      var init := t[..|t| - 1];
      var last := t[|t| - 1];
      assert Sorted(init) by {
        forall i, j | 0 <= i < j < |init| ensures !KeyLess(KeyOf(init[j]), KeyOf(init[i])) {
          assert init[i] == t[i] && init[j] == t[j];
        }
      }
      InsertSorted(init, e);
      SortedLast(t);
      InsertBelow(init, e, last);
      AppendSorted(Insert(init, e), last);
    }
  }

  /** The sorted result is ordered by key. */
  lemma {:induction false} SortSorted(s: seq<Event>)
    ensures Sorted(SortEvents(s))
  {
    if s != [] {
      SortSorted(s[..|s| - 1]);
      InsertSorted(SortEvents(s[..|s| - 1]), s[|s| - 1]);
    }
  }

  /** The test "has key k". */
  function KeyIs(k: Key): Event -> bool
  {
    (e: Event) => KeyOf(e) == k
  }

  /** The events with key k, in order. */
  function WithKey(s: seq<Event>, k: Key): seq<Event>
  {
    Keep(s, KeyIs(k))
  }

  lemma KeepLast(s: seq<Event>, x: Event, p: Event -> bool)
    ensures Keep(s + [x], p) == Keep(s, p) + (if p(x) then [x] else [])
  {
    assert (s + [x])[..|s|] == s;
  }

  /** Two pieces of which one is empty may be appended in either order. */
  lemma SwapEmpty(a: seq<Event>, x: seq<Event>, y: seq<Event>)
    requires x == [] || y == []
    ensures a + x + y == a + y + x
  {
    if x == [] {
      assert a + x == a;
      assert a + y + x == a + y;
    } else {
      assert a + x + y == a + x;
      assert a + y == a;
    }
  }

  lemma {:induction false} InsertWithKey(t: seq<Event>, e: Event, k: Key)
    ensures WithKey(Insert(t, e), k) == WithKey(t, k) + (if KeyOf(e) == k then [e] else [])
  {
    if t == [] || !KeyLess(KeyOf(e), KeyOf(t[|t| - 1])) {
      KeepLast(t, e, KeyIs(k));
    } else {
      var init := t[..|t| - 1];
      var last := t[|t| - 1];
      assert t == init + [last];
      var mine: seq<Event> := if KeyOf(e) == k then [e] else [];
      var theirs: seq<Event> := if KeyOf(last) == k then [last] else [];
      InsertWithKey(init, e, k);
      KeepLast(Insert(init, e), last, KeyIs(k));
      KeepLast(init, last, KeyIs(k));
      KeyIrreflexive(KeyOf(e));
      SwapEmpty(WithKey(init, k), mine, theirs);
    }
  }

  /** Stability: the events that share a key keep their input order. */
  lemma {:induction false} SortStable(s: seq<Event>, k: Key)
    ensures WithKey(SortEvents(s), k) == WithKey(s, k)
  {
    if s != [] {
      var init := s[..|s| - 1];
      SortStable(init, k);
      InsertWithKey(SortEvents(init), s[|s| - 1], k);
    }
  }

  // ------------------------------------------------------------ get_events

  /** What `get_events` answers: with a non-empty date, 400 when it is
      malformed and otherwise the events stored under exactly that date
      string; without one, the events in the window from today, or 500 when
      the window's end falls outside the calendar (`date + timedelta` raises
      OverflowError); in both cases sorted stably by (date, time). */
  function EventsAnswer(events: seq<Event>, date: Option<string>, daysAhead: int, today: Date): Result<seq<Event>, HttpError>
    requires ValidDate(today)
  {
    if date.Some? && date.value != "" then
      if ParseDate(date.value).None? then Err(HttpError(400, DateMessage))
      else Ok(SortEvents(OnDate(events, date.value)))
    else if !(1 <= Ordinal(today) + daysAhead <= MaxOrdinal) then Err(HttpError(500, "Internal Server Error"))
    else Ok(SortEvents(Window(events, today, daysAhead)))
  }

  /** The body of `get_events` over a list of events. */
  method QueryEvents(events: seq<Event>, date: Option<string>, daysAhead: int, today: Date)
    returns (r: Result<seq<Event>, HttpError>)
    requires ValidDate(today)
    ensures r == EventsAnswer(events, date, daysAhead, today)
  {
    if date.Some? && date.value != "" {
      if ParseDate(date.value).None? {
        return Err(HttpError(400, DateMessage));
      }
      var filtered := OnDate(events, date.value);
      return Ok(SortEvents(filtered));
    }
    if !(1 <= Ordinal(today) + daysAhead <= MaxOrdinal) {
      return Err(HttpError(500, "Internal Server Error"));
    }
    var filtered := SelectWindow(events, today, daysAhead);
    r := Ok(SortEvents(filtered));
  }

  /** The sort is a stable permutation: the same elements, ordered by key,
      those with equal keys in input order. */
  lemma SortFacts(s: seq<Event>)
    ensures forall x :: x in SortEvents(s) <==> x in s
    ensures Sorted(SortEvents(s))
    ensures forall k :: WithKey(SortEvents(s), k) == WithKey(s, k)
  {
    var r := SortEvents(s);
    forall x
      ensures x in r <==> x in s
    {
      assert x in r <==> x in multiset(r);
    }
    SortSorted(s);
    forall k
      ensures WithKey(r, k) == WithKey(s, k)
    {
      SortStable(s, k);
    }
  }

  /** With a date: exactly the events stored under that date string, each as
      often as stored, sorted, those with equal keys in stored order. */
  lemma DateQuery(events: seq<Event>, date: string, daysAhead: int, today: Date)
    requires ValidDate(today)
    requires date != "" && ParseDate(date).Some?
    ensures EventsAnswer(events, Some(date), daysAhead, today).Ok?
    ensures var r := EventsAnswer(events, Some(date), daysAhead, today).value;
      && (forall x :: x in r <==> x in events && x.date == date)
      && multiset(r) == multiset(OnDate(events, date))
      && Sorted(r)
      && (forall k :: WithKey(r, k) == WithKey(OnDate(events, date), k))
  {
    SortFacts(OnDate(events, date));
    forall x
      ensures x in OnDate(events, date) <==> x in events && x.date == date
    {
      KeepMembers(events, DateIs(date), x);
    }
  }

  /** Without a date: exactly the events whose stored date parses and lies in
      the window, sorted, those with equal keys in stored order. */
  lemma WindowQuery(events: seq<Event>, daysAhead: int, today: Date)
    requires ValidDate(today)
    requires 1 <= Ordinal(today) + daysAhead <= MaxOrdinal
    ensures EventsAnswer(events, None, daysAhead, today).Ok?
    ensures var r := EventsAnswer(events, None, daysAhead, today).value;
      && (forall x :: x in r <==> x in events && InWindow(x, today, daysAhead))
      && multiset(r) == multiset(Window(events, today, daysAhead))
      && Sorted(r)
      && (forall k :: WithKey(r, k) == WithKey(Window(events, today, daysAhead), k))
  {
    SortFacts(Window(events, today, daysAhead));
    forall x
      ensures x in Window(events, today, daysAhead) <==> x in events && InWindow(x, today, daysAhead)
    {
      KeepMembers(events, WindowTest(today, daysAhead), x);
    }
  }

  /** A window that reaches past the calendar is an error, whatever is stored. */
  lemma WindowOverflow(events: seq<Event>, daysAhead: int, today: Date)
    requires ValidDate(today)
    requires !(1 <= Ordinal(today) + daysAhead <= MaxOrdinal)
    ensures EventsAnswer(events, None, daysAhead, today) == Err(HttpError(500, "Internal Server Error"))
  {
  }

  // ------------------------------------------------------------ delete_event

  /** The position of the first event with the given id. */
  function FirstWithId(s: seq<Event>, id: string): (r: Option<nat>)
    ensures r.Some? ==> r.value < |s| && s[r.value].id == id && forall k :: 0 <= k < r.value ==> s[k].id != id
    ensures r.None? ==> forall k :: 0 <= k < |s| ==> s[k].id != id
  {
    if s == [] then None
    else if s[0].id == id then Some(0)
    else match FirstWithId(s[1..], id)
      case None => None
      case Some(i) => Some(i + 1)
  }

  /** The `enumerate` loop of `delete_event`. */
  method FindEvent(events: seq<Event>, id: string) returns (found: Option<nat>)
    ensures found == FirstWithId(events, id)
  {
    var i := 0;
    while i < |events|
      invariant 0 <= i <= |events|
      invariant forall k :: 0 <= k < i ==> events[k].id != id
    {
      if events[i].id == id {
        return Some(i);
      }
      i := i + 1;
    }
    return None;
  }

  /** `events.pop(i)` at the first match removes exactly that event. */
  lemma {:induction false} PopFirst(s: seq<Event>, id: string)
    requires FirstWithId(s, id).Some?
    ensures var i := FirstWithId(s, id).value;
      && multiset(s[..i] + s[i + 1..]) + multiset{s[i]} == multiset(s)
      && |s[..i] + s[i + 1..]| == |s| - 1
  {
    var i := FirstWithId(s, id).value;
    assert s == s[..i] + [s[i]] + s[i + 1..];
  }

  // ------------------------------------------------------------ add_event

  /** `f"event_{len(events) + 1}_{timestamp}"`. */
  function NewEventId(count: nat, timestamp: int): (id: string)
    ensures StartsWith(id, "event_")
  {
    "event_" + Decimal(count + 1) + "_" + Decimal(timestamp)
  }

  /** Distinct store sizes give distinct ids for the same timestamp. */
  lemma NewEventIdsDiffer(m: nat, n: nat, timestamp: int)
    requires m != n
    ensures NewEventId(m, timestamp) != NewEventId(n, timestamp)
  {
    if NewEventId(m, timestamp) == NewEventId(n, timestamp) {
      NumberPartUnique(Decimal(m + 1), Decimal(n + 1), Decimal(timestamp));
      DigitsValueOfDigits(m + 1);
      DigitsValueOfDigits(n + 1);
    }
  }

  /** The number part of an id ends at its first '_' after the prefix. */
  lemma NumberPartUnique(x: string, y: string, t: string)
    requires AllDigits(x) && AllDigits(y)
    requires "event_" + x + "_" + t == "event_" + y + "_" + t
    ensures x == y
  {
    var a := "event_" + x + "_" + t;
    var b := "event_" + y + "_" + t;
    assert a[6..] == x + "_" + t;
    assert b[6..] == y + "_" + t;
    assert a[6 + |x|] == '_';
    assert b[6 + |y|] == '_';
    if |x| == |y| {
      assert x == a[6..6 + |x|];
      assert y == b[6..6 + |y|];
    }
  }
}
