/** The parser callback that assembles trades, and what it makes of whole messages. */
module JSONParsing {
  import opened WorkItems

  /** The paths the callback compares with; any other path is Elsewhere. */
  datatype Path = Data | DataS | DataP | DataT | DataV | Elsewhere

  /** What strtod or strtoull returned, and whether it consumed the whole text. */
  datatype Conversion<T> = Conversion(value: T, whole: bool)

  datatype Event =
    | Start(time: int)
    | ObjectStart(path: Path)
    | StringEnd(path: Path, text: string)
    | Integer(path: Path, integer: Conversion<nat>, number: Conversion<real>)
    | Float(path: Path, number: Conversion<real>)
    | ObjectEnd(path: Path)
    | Unrelated

  /** The callback's static variables. */
  datatype Assembly = Assembly(item: WorkItem, valid: bool)

  /** The first match in the symbol list, which ends at the first empty name. */
  function Find(symbols: seq<string>, text: string, i: nat): (r: Option<nat>)
    requires i <= |symbols|
    ensures r.Some? ==> i <= r.value < |symbols| && symbols[r.value] == text
    decreases |symbols| - i
  {
    if i == |symbols| || symbols[i] == "" then None
    else if symbols[i] == text then Some(i)
    else Find(symbols, text, i + 1)
  }

  /** The symbol's place in the list: before it no name is empty or the same. */
  predicate FirstMatch(symbols: seq<string>, text: string, from: nat, j: nat) {
    && from <= j < |symbols| && symbols[j] == text
    && (forall l :: from <= l <= j ==> symbols[l] != "")
    && (forall l :: from <= l < j ==> symbols[l] != text)
  }

  /** The search yields exactly that place, and nothing if there is none. */
  lemma {:induction false} FindIsFirst(symbols: seq<string>, text: string, i: nat, j: nat)
    requires i <= |symbols|
    ensures Find(symbols, text, i) == Some(j) <==> FirstMatch(symbols, text, i, j)
    decreases |symbols| - i
  {
    if i < |symbols| && symbols[i] != "" && symbols[i] != text {
      FindIsFirst(symbols, text, i + 1, j);
      assert FirstMatch(symbols, text, i, j) ==> i < j;
    }
  }

  /** Every name of a list of distinct names is found in its place. */
  lemma ListedIsFound(symbols: seq<string>, j: nat)
    requires j < |symbols| && forall l :: 0 <= l <= j ==> symbols[l] != ""
    requires forall l :: 0 <= l < j ==> symbols[l] != symbols[j]
    ensures Find(symbols, symbols[j], 0) == Some(j)
  {
    FindIsFirst(symbols, symbols[j], 0, j);
  }

  function SetNumber(st: Assembly, path: Path, number: Conversion<real>): Assembly {
    match path
    case DataP => Assembly(st.item.(trade := st.item.trade.(p := number.value)), st.valid && number.whole)
    case DataV => Assembly(st.item.(trade := st.item.trade.(v := number.value)), st.valid && number.whole)
    case _ => st
  }

  /** One call of the callback: the new static state and the item it adds to the queue, if any. */
  function OnEvent(symbols: seq<string>, st: Assembly, e: Event): (Assembly, Option<WorkItem>) {
    match e
    case Start(time) => (st.(item := st.item.(eventTime := time)), None)
    case ObjectStart(path) => (if path.Data? then st.(valid := true) else st, None)
    case StringEnd(path, text) =>
      var found := Find(symbols, text, 0);
      (if path.DataS? && found.Some? then st.(item := st.item.(trade := st.item.trade.(s := found.value))) else st,
       None)
    case Integer(path, integer, number) =>
      if path.DataT? then
        (Assembly(st.item.(trade := st.item.trade.(t := integer.value)), st.valid && integer.whole), None)
      else (SetNumber(st, path, number), None)
    case Float(path, number) => (SetNumber(st, path, number), None)
    case ObjectEnd(path) => (st, if st.valid && path.Data? then Some(st.item) else None)
    case Unrelated => (st, None)
  }

  /** The callback with its static variables. */
  class TradeAssembler {
    const symbols: seq<string>
    var currentWorkItem: WorkItem
    var tradeIsValid: bool

    ghost function Model(): Assembly
      reads this
    {
      Assembly(currentWorkItem, tradeIsValid)
    }

    constructor (symbols: seq<string>, initial: WorkItem)
      requires "" in symbols
      ensures this.symbols == symbols && Model() == Assembly(initial, true)
    {
      this.symbols := symbols;
      currentWorkItem, tradeIsValid := initial, true;
    }

    /** The search loop over the symbol list. */
    method FindSymbol(text: string)
      requires "" in symbols
      modifies this`currentWorkItem
      ensures Model() == OnEvent(symbols, old(Model()), StringEnd(DataS, text)).0
    {
      var i := 0;
      while symbols[i] != ""
        invariant i < |symbols| && "" in symbols[i..]
        invariant Model() == old(Model())
        invariant Find(symbols, text, i) == Find(symbols, text, 0)
        decreases |symbols| - i
      {
        if symbols[i] == text {
          currentWorkItem := currentWorkItem.(trade := currentWorkItem.trade.(s := i));
          return;
        }
        i := i + 1;
      }
    }

    method JsonCallback(e: Event) returns (added: Option<WorkItem>)
      requires "" in symbols
      modifies this
      ensures (Model(), added) == OnEvent(symbols, old(Model()), e)
    {
      added := None;
      match e {
        case Start(time) =>
          currentWorkItem := currentWorkItem.(eventTime := time);
        case ObjectStart(path) =>
          if path == Data {
            tradeIsValid := true;
          }
        case StringEnd(path, text) =>
          if path == DataS {
            FindSymbol(text);
          }
        case Integer(path, integer, number) =>
          if path == DataT {
            currentWorkItem := currentWorkItem.(trade := currentWorkItem.trade.(t := integer.value));
            if !integer.whole {
              tradeIsValid := false;
            }
          } else if path == DataV {
            currentWorkItem := currentWorkItem.(trade := currentWorkItem.trade.(v := number.value));
            if !number.whole {
              tradeIsValid := false;
            }
          } else if path == DataP {
            currentWorkItem := currentWorkItem.(trade := currentWorkItem.trade.(p := number.value));
            if !number.whole {
              tradeIsValid := false;
            }
          }
        case Float(path, number) =>
          if path == DataP {
            currentWorkItem := currentWorkItem.(trade := currentWorkItem.trade.(p := number.value));
            if !number.whole {
              tradeIsValid := false;
            }
          } else if path == DataV {
            currentWorkItem := currentWorkItem.(trade := currentWorkItem.trade.(v := number.value));
            if !number.whole {
              tradeIsValid := false;
            }
          }
        case ObjectEnd(path) =>
          if tradeIsValid && path == Data {
            added := Some(currentWorkItem);
          }
        case Unrelated =>
      }
    }
  }

  // ----- Event sequences

  function Emit(o: Option<WorkItem>): seq<WorkItem> {
    match o
    case None => []
    case Some(x) => [x]
  }

  /** All calls for a sequence of events. */
  function Parse(symbols: seq<string>, st: Assembly, events: seq<Event>): (Assembly, seq<WorkItem>) {
    if events == [] then (st, []) else
      var (before, items) := Parse(symbols, st, events[..|events| - 1]);
      var (after, added) := OnEvent(symbols, before, events[|events| - 1]);
      (after, items + Emit(added))
  }

  lemma ParseLast(symbols: seq<string>, st: Assembly, events: seq<Event>, e: Event)
    ensures var before := Parse(symbols, st, events);
      var added := OnEvent(symbols, before.0, e);
      && Parse(symbols, st, events + [e]).0 == added.0
      && Parse(symbols, st, events + [e]).1 == before.1 + Emit(added.1)
  {
    assert (events + [e])[..|events|] == events;
  }

  lemma ParseOne(symbols: seq<string>, st: Assembly, e: Event)
    ensures Parse(symbols, st, [e]).0 == OnEvent(symbols, st, e).0
    ensures Parse(symbols, st, [e]).1 == Emit(OnEvent(symbols, st, e).1)
  {
    ParseLast(symbols, st, [], e);
    assert [] + [e] == [e];
  }

  lemma {:induction false} ParseAppend(symbols: seq<string>, st: Assembly, xs: seq<Event>, ys: seq<Event>)
    ensures var mid := Parse(symbols, st, xs);
      var end := Parse(symbols, mid.0, ys);
      && Parse(symbols, st, xs + ys).0 == end.0
      && Parse(symbols, st, xs + ys).1 == mid.1 + end.1
  {
    if ys == [] {
      assert xs + ys == xs;
    } else {
      var n := |ys| - 1;
      var mid := Parse(symbols, st, xs).0;
      assert ys[..n] + [ys[n]] == ys;
      assert xs + ys == (xs + ys[..n]) + [ys[n]];
      ParseAppend(symbols, st, xs, ys[..n]);
      hide Parse, OnEvent, Emit;
      ParseLast(symbols, st, xs + ys[..n], ys[n]);
      ParseLast(symbols, mid, ys[..n], ys[n]);
    }
  }

  /** The events the callback acts on. */
  predicate Concerns(e: Event) {
    match e
    case Start(_) => true
    case ObjectStart(path) => path == Data
    case StringEnd(path, _) => path == DataS
    case Integer(path, _, _) => path == DataT || path == DataP || path == DataV
    case Float(path, _) => path == DataP || path == DataV
    case ObjectEnd(path) => path == Data
    case Unrelated => false
  }

  function Relevant(events: seq<Event>): seq<Event> {
    if events == [] then [] else
      var last := events[|events| - 1];
      Relevant(events[..|events| - 1]) + if Concerns(last) then [last] else []
  }

  lemma IgnoredEvent(symbols: seq<string>, st: Assembly, e: Event)
    requires !Concerns(e)
    ensures OnEvent(symbols, st, e) == (st, None)
  {
  }

  /** All others can be left out of any sequence of events, anywhere, without any effect. */
  lemma {:induction false} UnrelatedIsIgnored(symbols: seq<string>, st: Assembly, events: seq<Event>)
    ensures Parse(symbols, st, events) == Parse(symbols, st, Relevant(events))
  {
    if events != [] {
      var n := |events| - 1;
      UnrelatedIsIgnored(symbols, st, events[..n]);
      if Concerns(events[n]) {
        ParseLast(symbols, st, Relevant(events[..n]), events[n]);
      } else {
        var before := Parse(symbols, st, events[..n]);
        IgnoredEvent(symbols, before.0, events[n]);
        assert Relevant(events) == Relevant(events[..n]);
        assert Parse(symbols, st, events) == (before.0, before.1 + []);
        assert before.1 + [] == before.1;
      }
    }
  }

  // ----- What an object's events say, read from the object alone

  /** Events between the start and the end of an object, or between objects. */
  predicate Inside(events: seq<Event>) {
    forall e :: e in events ==> !e.Start? && !(e.ObjectStart? && e.path.Data?) && !(e.ObjectEnd? && e.path.Data?)
  }

  function SymbolOf(symbols: seq<string>, e: Event): Option<nat> {
    if e.StringEnd? && e.path.DataS? then Find(symbols, e.text, 0) else None
  }

  function TimeOf(e: Event): Option<nat> {
    if e.Integer? && e.path.DataT? then Some(e.integer.value) else None
  }

  function NumberOf(path: Path, e: Event): Option<real> {
    if (e.Integer? || e.Float?) && e.path == path then Some(e.number.value) else None
  }

  /** The last listed symbol, time stamp, price and volume among the events. */
  function LastSymbol(symbols: seq<string>, body: seq<Event>): Option<nat> {
    if body == [] then None
    else if SymbolOf(symbols, body[|body| - 1]).Some? then SymbolOf(symbols, body[|body| - 1])
    else LastSymbol(symbols, body[..|body| - 1])
  }

  function LastTime(body: seq<Event>): Option<nat> {
    if body == [] then None
    else if TimeOf(body[|body| - 1]).Some? then TimeOf(body[|body| - 1])
    else LastTime(body[..|body| - 1])
  }

  function LastNumber(path: Path, body: seq<Event>): Option<real> {
    if body == [] then None
    else if NumberOf(path, body[|body| - 1]).Some? then NumberOf(path, body[|body| - 1])
    else LastNumber(path, body[..|body| - 1])
  }

  predicate Fails(e: Event) {
    || (e.Integer? && e.path.DataT? && !e.integer.whole)
    || ((e.Integer? || e.Float?) && (e.path.DataP? || e.path.DataV?) && !e.number.whole)
  }

  /** No conversion failed. */
  predicate Sound(body: seq<Event>) {
    forall e :: e in body ==> !Fails(e)
  }

  /** A listed symbol, an integer time stamp, a price and a volume. */
  predicate Complete(symbols: seq<string>, body: seq<Event>) {
    LastSymbol(symbols, body).Some? && LastTime(body).Some?
    && LastNumber(DataP, body).Some? && LastNumber(DataV, body).Some?
  }

  function Or<T>(o: Option<T>, default: T): T {
    if o.Some? then o.value else default
  }

  /** The trade of an object, with what it lacks taken from the previous item. */
  function Read(symbols: seq<string>, body: seq<Event>, stale: WorkItem): WorkItem {
    WorkItem(Trade(Or(LastNumber(DataP, body), stale.trade.p), Or(LastSymbol(symbols, body), stale.trade.s),
                   Or(LastTime(body), stale.trade.t), Or(LastNumber(DataV, body), stale.trade.v)), stale.eventTime)
  }

  /** The item with the field set that the event carries. */
  function Set(symbols: seq<string>, e: Event, item: WorkItem): WorkItem {
    WorkItem(Trade(Or(NumberOf(DataP, e), item.trade.p), Or(SymbolOf(symbols, e), item.trade.s),
                   Or(TimeOf(e), item.trade.t), Or(NumberOf(DataV, e), item.trade.v)), item.eventTime)
  }

  /** An event inside an object sets the field it carries and adds nothing. */
  lemma InsideEvent(symbols: seq<string>, st: Assembly, e: Event)
    requires Inside([e])
    ensures OnEvent(symbols, st, e) == (Assembly(Set(symbols, e, st.item), st.valid && !Fails(e)), None)
  {
    assert e in [e];
  }

  lemma ReadLast(symbols: seq<string>, body: seq<Event>, e: Event, stale: WorkItem)
    ensures Read(symbols, body + [e], stale) == Set(symbols, e, Read(symbols, body, stale))
  {
    assert (body + [e])[..|body|] == body;
  }

  lemma InsideLast(body: seq<Event>)
    requires Inside(body) && body != []
    ensures Inside([body[|body| - 1]]) && Inside(body[..|body| - 1])
  {
    assert body[|body| - 1] in body;
  }

  lemma {:induction false} ParseInside(symbols: seq<string>, st: Assembly, body: seq<Event>)
    requires Inside(body)
    ensures Parse(symbols, st, body).0 == Assembly(Read(symbols, body, st.item), st.valid && Sound(body))
    ensures Parse(symbols, st, body).1 == []
  {
    if body != [] {
      var n := |body| - 1;
      assert body == body[..n] + [body[n]];
      ParseInside(symbols, st, body[..n]);
      assert Sound(body) <==> Sound(body[..n]) && !Fails(body[n]);
      assert body[n] in body;
      InsideLast(body);
      InsideEvent(symbols, Assembly(Read(symbols, body[..n], st.item), st.valid && Sound(body[..n])), body[n]);
    }
  }

  function ObjectEvents(body: seq<Event>): seq<Event> {
    [ObjectStart(Data)] + body + [ObjectEnd(Data)]
  }

  /** An object adds its trade if no conversion failed, and nothing otherwise. */
  lemma ParseObject(symbols: seq<string>, st: Assembly, body: seq<Event>)
    requires Inside(body)
    ensures var item := Read(symbols, body, st.item);
      && Parse(symbols, st, ObjectEvents(body)).0 == Assembly(item, Sound(body))
      && Parse(symbols, st, ObjectEvents(body)).1 == if Sound(body) then [item] else []
  {
    var head := [ObjectStart(Data)];
    ParseOne(symbols, st, ObjectStart(Data));
    ParseAppend(symbols, st, head, body);
    ParseInside(symbols, st.(valid := true), body);
    ParseLast(symbols, st, head + body, ObjectEnd(Data));
  }

  // ----- Messages

  datatype Segment = Gap(events: seq<Event>) | Object(body: seq<Event>)

  function Events(segments: seq<Segment>): seq<Event> {
    if segments == [] then [] else
      var last := segments[|segments| - 1];
      Events(segments[..|segments| - 1]) + (if last.Gap? then last.events else ObjectEvents(last.body))
  }

  /** Every object is complete or has a failed conversion. */
  predicate WellFormed(symbols: seq<string>, segments: seq<Segment>) {
    forall x :: x in segments ==>
      match x
      case Gap(events) => Inside(events)
      case Object(body) => Inside(body) && (Complete(symbols, body) || !Sound(body))
  }

  function Nothing(now: int): WorkItem {
    WorkItem(Trade(0.0, 0, 0, 0.0), now)
  }

  /** The trades of the objects without failed conversions, in order. */
  function Trades(symbols: seq<string>, segments: seq<Segment>, now: int): seq<WorkItem> {
    if segments == [] then [] else
      var last := segments[|segments| - 1];
      Trades(symbols, segments[..|segments| - 1], now)
      + (if last.Object? && Sound(last.body) then [Read(symbols, last.body, Nothing(now))] else [])
  }

  lemma CompleteForgets(symbols: seq<string>, body: seq<Event>, a: WorkItem, b: WorkItem)
    requires Complete(symbols, body) && a.eventTime == b.eventTime
    ensures Read(symbols, body, a) == Read(symbols, body, b)
  {
  }

  lemma {:induction false} ParseSegments(symbols: seq<string>, st: Assembly, segments: seq<Segment>)
    requires WellFormed(symbols, segments)
    ensures Parse(symbols, st, Events(segments)).0.item.eventTime == st.item.eventTime
    ensures Parse(symbols, st, Events(segments)).1 == Trades(symbols, segments, st.item.eventTime)
  {
    if segments != [] {
      var n := |segments| - 1;
      var last := segments[n];
      assert last in segments;
      assert forall x :: x in segments[..n] ==> x in segments;
      ParseSegments(symbols, st, segments[..n]);
      var mid := Parse(symbols, st, Events(segments[..n])).0;
      if last.Gap? {
        ParseAppend(symbols, st, Events(segments[..n]), last.events);
        ParseInside(symbols, mid, last.events);
      } else {
        ParseAppend(symbols, st, Events(segments[..n]), ObjectEvents(last.body));
        ParseObject(symbols, mid, last.body);
        if Sound(last.body) {
          CompleteForgets(symbols, last.body, mid.item, Nothing(st.item.eventTime));
        }
      }
    }
  }

  /** A message adds exactly its complete, convertible objects, in order, whatever the static state was before. */
  lemma MessageIsDecoded(symbols: seq<string>, stale: Assembly, now: int, segments: seq<Segment>)
    requires WellFormed(symbols, segments)
    ensures Parse(symbols, stale, [Start(now)] + Events(segments)).1 == Trades(symbols, segments, now)
  {
    var head := [Start(now)];
    var st := stale.(item := stale.item.(eventTime := now));
    ParseOne(symbols, stale, Start(now));
    ParseAppend(symbols, stale, head, Events(segments));
    ParseSegments(symbols, st, segments);
  }

  lemma {:induction false} TradesAppend(symbols: seq<string>, xs: seq<Segment>, ys: seq<Segment>, now: int)
    ensures Trades(symbols, xs + ys, now) == Trades(symbols, xs, now) + Trades(symbols, ys, now)
  {
    if ys == [] {
      assert xs + ys == xs;
    } else {
      var n := |ys| - 1;
      assert (xs + ys)[..|xs| + n] == xs + ys[..n];
      TradesAppend(symbols, xs, ys[..n], now);
    }
  }

  /** An object with a failed conversion, of its time stamp, price or volume, adds nothing and does not affect the
      objects around it. */
  lemma FailedObjectIsSkipped(
      symbols: seq<string>, stale: Assembly, now: int, before: seq<Segment>, body: seq<Event>, after: seq<Segment>,
      bad: Event)
    requires WellFormed(symbols, before) && WellFormed(symbols, after) && Inside(body) && bad in body
    requires (bad.Integer? && bad.path == DataT && !bad.integer.whole)
          || ((bad.Integer? || bad.Float?) && (bad.path == DataP || bad.path == DataV) && !bad.number.whole)
    ensures Parse(symbols, stale, [Start(now)] + Events(before + [Object(body)] + after)).1
         == Trades(symbols, before, now) + Trades(symbols, after, now)
  {
    assert Fails(bad) && !Sound(body);
    var failed := [Object(body)];
    assert WellFormed(symbols, before + failed + after);
    assert failed[..0] == [];
    assert Trades(symbols, failed, now) == [];
    hide Parse, Trades, Events, WellFormed;
    MessageIsDecoded(symbols, stale, now, before + failed + after);
    TradesAppend(symbols, before + failed, after, now);
    TradesAppend(symbols, before, failed, now);
  }

  /** Completeness is what it takes: an object without failed conversions shows the previous item's fields
      exactly when it lacks one of its own. */
  lemma StaleFieldsShow(symbols: seq<string>, body: seq<Event>)
    requires Inside(body)
    ensures (forall a: Assembly, b: Assembly :: a.item.eventTime == b.item.eventTime ==>
               Parse(symbols, a, ObjectEvents(body)).1 == Parse(symbols, b, ObjectEvents(body)).1)
       <==> Complete(symbols, body) || !Sound(body)
  {
    forall a: Assembly, b: Assembly | a.item.eventTime == b.item.eventTime
      ensures Complete(symbols, body) || !Sound(body) ==>
        Parse(symbols, a, ObjectEvents(body)).1 == Parse(symbols, b, ObjectEvents(body)).1
    {
      ParseObject(symbols, a, body);
      ParseObject(symbols, b, body);
    }
    var x := Assembly(WorkItem(Trade(0.0, 0, 0, 0.0), 0), true);
    var y := Assembly(WorkItem(Trade(1.0, 1, 1, 1.0), 0), true);
    ParseObject(symbols, x, body);
    ParseObject(symbols, y, body);
    if Sound(body) && !Complete(symbols, body) {
      assert Read(symbols, body, x.item) != Read(symbols, body, y.item);
      assert x.item.eventTime == y.item.eventTime;
      assert Parse(symbols, x, ObjectEvents(body)).1[0] != Parse(symbols, y, ObjectEvents(body)).1[0];
    }
  }

  lemma ReadFour(symbols: seq<string>, a: Event, b: Event, c: Event, d: Event, stale: WorkItem)
    ensures Read(symbols, [a, b, c, d], stale)
         == Set(symbols, d, Set(symbols, c, Set(symbols, b, Set(symbols, a, stale))))
  {
    hide Set;
    assert [] + [a] == [a] && [a] + [b] == [a, b] && [a, b] + [c] == [a, b, c] && [a, b, c] + [d] == [a, b, c, d];
    assert Read(symbols, [], stale) == stale;
    hide Read;
    ReadLast(symbols, [], a, stale);
    ReadLast(symbols, [a], b, stale);
    ReadLast(symbols, [a, b], c, stale);
    ReadLast(symbols, [a, b, c], d, stale);
  }

  /** An object of symbol "A" with price 2 and time 8 but no volume is queued with the previous item's volume. */
  lemma MissingVolumeIsStale(st: Assembly)
    ensures var body := [StringEnd(DataS, "A"), Float(DataP, Conversion(2.0, true)),
                         Integer(DataT, Conversion(8, true), Conversion(8.0, true)), Unrelated];
      Parse(["A", ""], st, ObjectEvents(body)).1
      == [WorkItem(Trade(2.0, 0, 8, st.item.trade.v), st.item.eventTime)]
  {
    var symbols := ["A", ""];
    var s, p := StringEnd(DataS, "A"), Float(DataP, Conversion(2.0, true));
    var t := Integer(DataT, Conversion(8, true), Conversion(8.0, true));
    assert Find(symbols, "A", 0) == Some(0);
    ReadFour(symbols, s, p, t, Unrelated, st.item);
    var body := [s, p, t, Unrelated];
    assert Inside(body) && Sound(body);
    hide Parse, Read, LastSymbol, LastTime, LastNumber, ObjectEvents, Find, Inside, Sound;
    ParseObject(symbols, st, body);
  }

  /** An object of a symbol that is not listed is queued under the previous item's symbol. */
  lemma UnlistedSymbolIsStale(st: Assembly)
    ensures var body := [StringEnd(DataS, "B"), Integer(DataP, Conversion(2, true), Conversion(2.0, true)),
                         Integer(DataT, Conversion(8, true), Conversion(8.0, true)),
                         Integer(DataV, Conversion(3, true), Conversion(3.0, true))];
      Parse(["A", ""], st, ObjectEvents(body)).1
      == [WorkItem(Trade(2.0, st.item.trade.s, 8, 3.0), st.item.eventTime)]
  {
    var symbols := ["A", ""];
    var s, p := StringEnd(DataS, "B"), Integer(DataP, Conversion(2, true), Conversion(2.0, true));
    var t := Integer(DataT, Conversion(8, true), Conversion(8.0, true));
    var v := Integer(DataV, Conversion(3, true), Conversion(3.0, true));
    assert Find(symbols, "B", 0) == Find(symbols, "B", 1) == None;
    ReadFour(symbols, s, p, t, v, st.item);
    var body := [s, p, t, v];
    assert Inside(body) && Sound(body);
    hide Parse, Read, LastSymbol, LastTime, LastNumber, ObjectEvents, Find, Inside, Sound;
    ParseObject(symbols, st, body);
  }
}
