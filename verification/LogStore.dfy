/** agentorg/log.py on the dynamodb backend: three stores packed into one table.

    A run's events and its state document share the run's partition, and one more partition
    lists the runs that have been saved. `TableAfter` is the table after a history of
    writes; the lemmas say what the three readers then give back, whatever else was
    written in between and to whichever run. */
module LogStore {
  import opened Prelude
  import opened State
  import opened Order
  import opened Tables

  datatype LogEvent = LogEvent(runId: string, ts: string, eventId: string, row: Row)

  const MAX_RUN_ID_LENGTH := 200
  const RUN_INDEX_PARTITION := "__runs__"
  const STATE_SORT_KEY := "state#current"

  predicate LeavesItsPlace(c: char) {
    c == '/' || c == '\\' || c == ':' || c == '\0'
  }

  /** One safe component: usable as a file name and as a partition of its own. */
  predicate IsSafeRunId(runId: string) {
    && runId != "" && |runId| <= MAX_RUN_ID_LENGTH
    && runId != "." && runId != ".." && runId != RUN_INDEX_PARTITION
    && forall i | 0 <= i < |runId| :: !LeavesItsPlace(runId[i])
  }

  function SplitAtSeparators(s: string): seq<string>
    decreases |s|
  {
    if s == "" then [""]
    else if s[0] == '/' || s[0] == '\\' then [""] + SplitAtSeparators(s[1..])
    else
      var rest := SplitAtSeparators(s[1..]);
      if rest == [] then [[s[0]]] else [[s[0]] + rest[0]] + rest[1..]
  }

  lemma {:induction false} OneComponent(s: string)
    ensures SplitAtSeparators(s) == [s] <==> '/' !in s && '\\' !in s
    ensures |SplitAtSeparators(s)| == 1 <==> '/' !in s && '\\' !in s
  {
    if s != "" {
      OneComponent(s[1..]);
      assert s == [s[0]] + s[1..];
    }
  }

  /** A safe id is one component of a path, cut at either separator, that names neither this
      directory nor the one above; it names no drive and no other partition's list, and a path can
      hold it. */
  lemma SafeIdExactly(runId: string)
    ensures IsSafeRunId(runId)
            <==> && SplitAtSeparators(runId) == [runId] && runId != "." && runId != ".."
                 && ':' !in runId && '\0' !in runId
                 && 1 <= |runId| <= 200 && runId != "__runs__"
  {
    OneComponent(runId);
    if '/' !in runId && '\\' !in runId && ':' !in runId && '\0' !in runId {
      assert forall i | 0 <= i < |runId| :: runId[i] in runId && !LeavesItsPlace(runId[i]);
    }
  }

  function SortKey(e: LogEvent): string {
    e.ts + "#" + e.eventId
  }

  /** The JSON forms: what is written, what reads it back, and the time a saved document
      says its run began. */
  datatype Codec = Codec(line: LogEvent -> string, dump: LogEvent -> string, parse: string -> Result<LogEvent>,
                         startedAt: string -> string)
  {
    ghost predicate Faithful() {
      && (forall e: LogEvent :: parse(line(e)) == Ok(e))
      && (forall e: LogEvent :: parse(dump(e)) == Ok(e))
    }
  }

  // ----- writing ----------------------------------------------------------

  datatype Write = Append(event: LogEvent) | Save(runId: string, document: string)

  function Target(write: Write): string {
    match write
    case Append(event) => event.runId
    case Save(runId, _) => runId
  }

  function EventItem(e: LogEvent, codec: Codec): Item {
    Item(SortKey(e), codec.dump(e))
  }

  function Appended(p: Partitions, e: LogEvent, codec: Codec): Partitions {
    PutIn(p, e.runId, EventItem(e, codec))
  }

  function Saved(p: Partitions, runId: string, document: string, codec: Codec): Partitions {
    PutIn(PutIn(p, runId, Item(STATE_SORT_KEY, document)), RUN_INDEX_PARTITION, Item(runId, codec.startedAt(document)))
  }

  /** A write to an unsafe id is refused before the table hears of it. */
  function Written(p: Partitions, write: Write, codec: Codec): Partitions {
    if !IsSafeRunId(Target(write)) then p
    else
      match write
      case Append(event) => Appended(p, event, codec)
      case Save(runId, document) => Saved(p, runId, document, codec)
  }

  function TableAfter(history: seq<Write>, codec: Codec): Partitions {
    if history == [] then map[]
    else Written(TableAfter(history[..|history| - 1], codec), history[|history| - 1], codec)
  }

  method AppendEvent(table: Table, event: LogEvent, codec: Codec) returns (r: Result<LogEvent>)
    modifies table
    ensures table.partitions == Written(old(table.partitions), Append(event), codec)
    ensures r == if IsSafeRunId(event.runId) then Ok(event) else Raised
  {
    if !IsSafeRunId(event.runId) {
      return Raised;
    }
    table.PutItem(event.runId, EventItem(event, codec));
    return Ok(event);
  }

  method WriteState(table: Table, runId: string, document: string, codec: Codec) returns (written: bool)
    modifies table
    ensures table.partitions == Written(old(table.partitions), Save(runId, document), codec)
    ensures written == IsSafeRunId(runId)
  {
    if !IsSafeRunId(runId) {
      return false;
    }
    table.PutItem(runId, Item(STATE_SORT_KEY, document));
    table.PutItem(RUN_INDEX_PARTITION, Item(runId, codec.startedAt(document)));
    return true;
  }

  // ----- reading ----------------------------------------------------------

  function Prepend(e: LogEvent, rest: Result<seq<LogEvent>>): Result<seq<LogEvent>> {
    match rest
    case Raised => Raised
    case Ok(events) => Ok([e] + events)
  }

  /** Every item that is not the state document, parsed. */
  function EventsIn(items: seq<Item>, codec: Codec): Result<seq<LogEvent>> {
    if items == [] then Ok([])
    else if items[0].key == STATE_SORT_KEY then EventsIn(items[1..], codec)
    else
      match codec.parse(items[0].payload)
      case Raised => Raised
      case Ok(e) => Prepend(e, EventsIn(items[1..], codec))
  }

  function Followed(events: seq<LogEvent>, rest: Result<seq<LogEvent>>): Result<seq<LogEvent>> {
    match rest
    case Raised => Raised
    case Ok(more) => Ok(events + more)
  }

  lemma FollowedByOne(events: seq<LogEvent>, e: LogEvent, rest: Result<seq<LogEvent>>)
    ensures Followed(events, Prepend(e, rest)) == Followed(events + [e], rest)
  {
    if rest.Ok? {
      assert events + ([e] + rest.value) == (events + [e]) + rest.value;
    }
  }

  method Read(table: Table, runId: string, pager: Pager, codec: Codec) returns (r: Result<seq<LogEvent>>)
    requires pager.Valid() && AllSorted(table.partitions)
    ensures r == if IsSafeRunId(runId) then EventsIn(Part(table.partitions, runId), codec) else Raised
  {
    if !IsSafeRunId(runId) {
      return Raised;
    }
    var items := table.Query(runId, pager);
    var events: seq<LogEvent> := [];
    assert items[0..] == items;
    assert EventsIn(items, codec) == Followed([], EventsIn(items, codec)) by {
      if EventsIn(items, codec).Ok? {
        assert [] + EventsIn(items, codec).value == EventsIn(items, codec).value;
      }
    }
    for i := 0 to |items|
      invariant EventsIn(items, codec) == Followed(events, EventsIn(items[i..], codec))
    {
      assert items[i..][1..] == items[i + 1..];
      if items[i].key != STATE_SORT_KEY {
        var e := codec.parse(items[i].payload);
        if e.Raised? {
          return Raised;
        }
        FollowedByOne(events, e.value, EventsIn(items[i + 1..], codec));
        events := events + [e.value];
      }
    }
    assert events + [] == events;
    return Ok(events);
  }

  method ReadState(table: Table, runId: string) returns (r: Result<Option<string>>)
    ensures r == if IsSafeRunId(runId) then Ok(Lookup(Part(table.partitions, runId), STATE_SORT_KEY)) else Raised
  {
    if !IsSafeRunId(runId) {
      return Raised;
    }
    var payload := table.GetItem(runId, STATE_SORT_KEY);
    return Ok(payload);
  }

  method ListIndexedRunIds(table: Table, pager: Pager) returns (ids: seq<string>)
    requires pager.Valid() && AllSorted(table.partitions)
    ensures var index := Part(table.partitions, RUN_INDEX_PARTITION);
      |ids| == |index| && forall i | 0 <= i < |ids| :: ids[i] == index[i].key
  {
    var items := table.Query(RUN_INDEX_PARTITION, pager);
    ids := seq(|items|, i requires 0 <= i < |items| => items[i].key);
  }

  // ----- the three stores, from the history alone -------------------------

  /** What was logged for one run, in the order it was written. */
  function Logged(history: seq<Write>, runId: string): seq<LogEvent> {
    if history == [] then []
    else
      var last := history[|history| - 1];
      Logged(history[..|history| - 1], runId) + if last.Append? && last.event.runId == runId then [last.event] else []
  }

  function LastDocument(history: seq<Write>, runId: string): Option<string> {
    if history == [] then None
    else
      var last := history[|history| - 1];
      if last.Save? && last.runId == runId then Some(last.document)
      else LastDocument(history[..|history| - 1], runId)
  }

  function SavedRuns(history: seq<Write>): set<string> {
    if history == [] then {}
    else
      var last := history[|history| - 1];
      SavedRuns(history[..|history| - 1]) + if last.Save? && IsSafeRunId(last.runId) then {last.runId} else {}
  }

  /** Events in key order, a later one replacing an earlier one with its key. */
  function KeyOrder(events: seq<LogEvent>): seq<LogEvent> {
    if events == [] then [] else Inserted(KeyOrder(events[..|events| - 1]), events[|events| - 1])
  }

  function Inserted(events: seq<LogEvent>, e: LogEvent): seq<LogEvent> {
    if events == [] then [e]
    else if SortKey(events[0]) == SortKey(e) then [e] + events[1..]
    else if Less(SortKey(e), SortKey(events[0])) then [e] + events
    else [events[0]] + Inserted(events[1..], e)
  }

  /** An event key is never the state key, unless its time reads "state". */
  lemma KeyIsAnEvents(e: LogEvent)
    ensures SortKey(e) == STATE_SORT_KEY <==> e.ts == "state" && e.eventId == "current"
  {
    var n := |e.ts|;
    if SortKey(e) == STATE_SORT_KEY {
      assert STATE_SORT_KEY[n] == SortKey(e)[n] == '#';
      assert n == 5;
      assert e.ts == SortKey(e)[..5] && e.eventId == SortKey(e)[6..];
      assert STATE_SORT_KEY[..5] == "state" && STATE_SORT_KEY[6..] == "current";
    }
  }

  // ----- the packing ------------------------------------------------------

  function WithoutState(items: seq<Item>): seq<Item> {
    if items == [] then []
    else if items[0].key == STATE_SORT_KEY then WithoutState(items[1..])
    else [items[0]] + WithoutState(items[1..])
  }

  function Packed(events: seq<LogEvent>, codec: Codec): seq<Item> {
    if events == [] then [] else [EventItem(events[0], codec)] + Packed(events[1..], codec)
  }

  lemma {:induction false} PackedInserted(events: seq<LogEvent>, e: LogEvent, codec: Codec)
    ensures Put(Packed(events, codec), EventItem(e, codec)) == Packed(Inserted(events, e), codec)
  {
    if events != [] {
      var items := Packed(events, codec);
      assert items[0] == EventItem(events[0], codec) && items[1..] == Packed(events[1..], codec);
      var inserted := Inserted(events, e);
      if SortKey(events[0]) == SortKey(e) {
        assert inserted[1..] == events[1..];
      } else if Less(SortKey(e), SortKey(events[0])) {
        assert inserted[1..] == events;
      } else {
        PackedInserted(events[1..], e, codec);
        assert inserted[1..] == Inserted(events[1..], e);
      }
    }
  }

  lemma {:induction false} StateItemHidden(items: seq<Item>, document: string)
    ensures WithoutState(Put(items, Item(STATE_SORT_KEY, document))) == WithoutState(items)
  {
    if items != [] {
      var item := Item(STATE_SORT_KEY, document);
      var put := Put(items, item);
      if items[0].key == STATE_SORT_KEY {
        assert put[1..] == items[1..];
      } else if Less(item.key, items[0].key) {
        assert put[1..] == items;
      } else {
        StateItemHidden(items[1..], document);
        assert put[1..] == Put(items[1..], item);
      }
    }
  }

  lemma {:induction false} WithoutStateAbove(items: seq<Item>, key: string)
    requires Above(items, key)
    ensures Above(WithoutState(items), key)
  {
    if items != [] {
      assert forall i | 0 <= i < |items| - 1 :: items[1..][i] == items[i + 1];
      WithoutStateAbove(items[1..], key);
    }
  }

  lemma PutFirst(items: seq<Item>, item: Item)
    requires Above(items, item.key)
    ensures Put(items, item) == [item] + items
  {
    if items != [] {
      Asymmetric(item.key, items[0].key);
    }
  }

  lemma {:induction false} EventItemShows(items: seq<Item>, item: Item)
    requires Sorted(items) && item.key != STATE_SORT_KEY
    ensures WithoutState(Put(items, item)) == Put(WithoutState(items), item)
  {
    if items != [] {
      var rest := items[1..];
      var put := Put(items, item);
      assert items == [items[0]] + rest;
      SortedCons(items[0], rest);
      if items[0].key == item.key {
        assert put[1..] == rest;
      } else if Less(item.key, items[0].key) {
        assert put[1..] == items;
        AboveEarlier(rest, item.key, items[0].key);
        assert Above(items, item.key);
        WithoutStateAbove(items, item.key);
        PutFirst(WithoutState(items), item);
      } else {
        assert put[1..] == Put(rest, item);
        EventItemShows(rest, item);
        if items[0].key != STATE_SORT_KEY {
          assert WithoutState(items)[1..] == WithoutState(rest);
        }
      }
    }
  }

  lemma {:induction false} EventsPastState(items: seq<Item>, codec: Codec)
    ensures EventsIn(WithoutState(items), codec) == EventsIn(items, codec)
  {
    if items != [] {
      EventsPastState(items[1..], codec);
      if items[0].key != STATE_SORT_KEY {
        assert WithoutState(items)[1..] == WithoutState(items[1..]);
      }
    }
  }

  /** Events whose keys could be mistaken for the state document's. */
  predicate ClashesWithState(e: LogEvent) {
    SortKey(e) == STATE_SORT_KEY
  }

  lemma {:induction false} PackedReadsBack(events: seq<LogEvent>, codec: Codec)
    requires codec.Faithful()
    requires forall i | 0 <= i < |events| :: !ClashesWithState(events[i])
    ensures EventsIn(Packed(events, codec), codec) == Ok(events)
  {
    if events != [] {
      var items := Packed(events, codec);
      assert items[1..] == Packed(events[1..], codec);
      assert forall i | 0 <= i < |events| - 1 :: events[1..][i] == events[i + 1];
      PackedReadsBack(events[1..], codec);
      assert [events[0]] + events[1..] == events;
      assert items[0].key == SortKey(events[0]) && !ClashesWithState(events[0]);
      assert codec.parse(items[0].payload) == Ok(events[0]);
    }
  }

  // ----- the table refines the three stores -------------------------------

  ghost predicate NoClash(history: seq<Write>) {
    forall i | 0 <= i < |history| :: history[i].Append? ==> !ClashesWithState(history[i].event)
  }

  /** What the table holds after a history: the run's events in key order, its last document,
      and one index entry per saved run. */
  ghost predicate Refines(p: Partitions, history: seq<Write>, runId: string, codec: Codec) {
    && WithoutState(Part(p, runId)) == Packed(KeyOrder(Logged(history, runId)), codec)
    && Lookup(Part(p, runId), STATE_SORT_KEY) == LastDocument(history, runId)
  }

  lemma AppendRefines(p: Partitions, history: seq<Write>, e: LogEvent, runId: string, codec: Codec)
    requires AllSorted(p) && IsSafeRunId(runId) && !ClashesWithState(e)
    requires Refines(p, history, runId, codec)
    ensures Refines(Written(p, Append(e), codec), history + [Append(e)], runId, codec)
  {
    var longer := history + [Append(e)];
    assert longer[..|history|] == history;
    if e.runId == runId {
      var events := Logged(history, runId);
      assert Logged(longer, runId) == events + [e];
      assert (events + [e])[..|events|] == events;
      PackedInserted(KeyOrder(events), e, codec);
      EventItemShows(Part(p, runId), EventItem(e, codec));
      PutThenLookup(Part(p, runId), EventItem(e, codec), STATE_SORT_KEY);
    } else {
      assert Logged(longer, runId) == Logged(history, runId);
    }
  }

  lemma SaveRefines(p: Partitions, history: seq<Write>, saved: string, document: string, runId: string, codec: Codec)
    requires AllSorted(p) && IsSafeRunId(runId)
    requires Refines(p, history, runId, codec)
    ensures Refines(Written(p, Save(saved, document), codec), history + [Save(saved, document)], runId, codec)
  {
    var longer := history + [Save(saved, document)];
    assert longer[..|history|] == history;
    assert Logged(longer, runId) == Logged(history, runId);
    var item := Item(STATE_SORT_KEY, document);
    if saved == runId {
      StateItemHidden(Part(p, runId), document);
      PutThenLookup(Part(p, runId), item, STATE_SORT_KEY);
    }
  }

  lemma WrittenKeepsSorted(p: Partitions, write: Write, codec: Codec)
    requires AllSorted(p)
    ensures AllSorted(Written(p, write, codec))
  {
    match write
    case Append(e) =>
      PutKeepsSorted(Part(p, e.runId), EventItem(e, codec));
    case Save(runId, document) =>
      PutKeepsSorted(Part(p, runId), Item(STATE_SORT_KEY, document));
      var p1 := PutIn(p, runId, Item(STATE_SORT_KEY, document));
      PutKeepsSorted(Part(p1, RUN_INDEX_PARTITION), Item(runId, codec.startedAt(document)));
  }

  lemma {:induction false} TableIsSorted(history: seq<Write>, codec: Codec)
    ensures AllSorted(TableAfter(history, codec))
  {
    if history != [] {
      TableIsSorted(history[..|history| - 1], codec);
      WrittenKeepsSorted(TableAfter(history[..|history| - 1], codec), history[|history| - 1], codec);
    }
  }

  lemma {:induction false} TableRefines(history: seq<Write>, runId: string, codec: Codec)
    requires IsSafeRunId(runId) && NoClash(history)
    ensures Refines(TableAfter(history, codec), history, runId, codec)
  {
    if history != [] {
      var before, last := history[..|history| - 1], history[|history| - 1];
      TableRefines(before, runId, codec);
      TableIsSorted(before, codec);
      assert before + [last] == history;
      match last
      case Append(e) => AppendRefines(TableAfter(before, codec), before, e, runId, codec);
      case Save(saved, document) => SaveRefines(TableAfter(before, codec), before, saved, document, runId, codec);
    }
  }

  /** The index partition names exactly the runs somebody has saved. */
  lemma {:induction false} IndexHoldsSavedRuns(history: seq<Write>, id: string, codec: Codec)
    ensures HasKey(Part(TableAfter(history, codec), RUN_INDEX_PARTITION), id) <==> id in SavedRuns(history)
  {
    if history != [] {
      var before, last := history[..|history| - 1], history[|history| - 1];
      IndexHoldsSavedRuns(before, id, codec);
      if last.Save? && IsSafeRunId(last.runId) {
        var p := TableAfter(before, codec);
        PutKeys(Part(p, RUN_INDEX_PARTITION), Item(last.runId, codec.startedAt(last.document)), id);
      }
    }
  }

  /** And beside each of them the time its last document says it began. */
  lemma {:induction false} IndexTellsTheStart(history: seq<Write>, id: string, codec: Codec)
    requires IsSafeRunId(id)
    ensures Lookup(Part(TableAfter(history, codec), RUN_INDEX_PARTITION), id)
            == match LastDocument(history, id)
               case Some(document) => Some(codec.startedAt(document))
               case None => None
  {
    if history != [] {
      var before, last := history[..|history| - 1], history[|history| - 1];
      IndexTellsTheStart(before, id, codec);
      if last.Save? && IsSafeRunId(last.runId) {
        var p := TableAfter(before, codec);
        PutThenLookup(Part(p, RUN_INDEX_PARTITION), Item(last.runId, codec.startedAt(last.document)), id);
      }
    }
  }

  /** `read` after any history of writes: that run's own events, in key order. */
  lemma {:induction false} ReadGivesTheEvents(history: seq<Write>, runId: string, codec: Codec)
    requires IsSafeRunId(runId) && NoClash(history) && codec.Faithful()
    ensures EventsIn(Part(TableAfter(history, codec), runId), codec) == Ok(KeyOrder(Logged(history, runId)))
  {
    TableRefines(history, runId, codec);
    EventsPastState(Part(TableAfter(history, codec), runId), codec);
    LoggedDoNotClash(history, runId);
    KeyOrderDoesNotClash(Logged(history, runId));
    PackedReadsBack(KeyOrder(Logged(history, runId)), codec);
  }

  ghost predicate NoneClash(events: seq<LogEvent>) {
    forall i | 0 <= i < |events| :: !ClashesWithState(events[i])
  }

  lemma {:induction false} LoggedDoNotClash(history: seq<Write>, runId: string)
    requires NoClash(history)
    ensures NoneClash(Logged(history, runId))
  {
    if history != [] {
      LoggedDoNotClash(history[..|history| - 1], runId);
    }
  }

  lemma {:induction false} InsertedDoesNotClash(events: seq<LogEvent>, e: LogEvent)
    requires NoneClash(events) && !ClashesWithState(e)
    ensures NoneClash(Inserted(events, e))
  {
    if events != [] {
      InsertedDoesNotClash(events[1..], e);
    }
  }

  lemma {:induction false} KeyOrderDoesNotClash(events: seq<LogEvent>)
    requires NoneClash(events)
    ensures NoneClash(KeyOrder(events))
  {
    if events != [] {
      KeyOrderDoesNotClash(events[..|events| - 1]);
      InsertedDoesNotClash(KeyOrder(events[..|events| - 1]), events[|events| - 1]);
    }
  }

  // ----- what key order means ---------------------------------------------

  ghost predicate Increasing(events: seq<LogEvent>) {
    forall i, j | 0 <= i < j < |events| :: Less(SortKey(events[i]), SortKey(events[j]))
  }

  ghost predicate KeysBelow(events: seq<LogEvent>, key: string) {
    forall i | 0 <= i < |events| :: Less(SortKey(events[i]), key)
  }

  ghost predicate KeysAbove(events: seq<LogEvent>, key: string) {
    forall i | 0 <= i < |events| :: Less(key, SortKey(events[i]))
  }

  ghost predicate NoKey(events: seq<LogEvent>, key: string) {
    forall i | 0 <= i < |events| :: SortKey(events[i]) != key
  }

  ghost predicate DistinctKeys(events: seq<LogEvent>) {
    forall i, j | 0 <= i < j < |events| :: SortKey(events[i]) != SortKey(events[j])
  }

  lemma {:induction false} InsertedAbove(events: seq<LogEvent>, e: LogEvent, low: string)
    requires KeysAbove(events, low) && Less(low, SortKey(e))
    ensures KeysAbove(Inserted(events, e), low)
  {
    if events != [] {
      InsertedAbove(events[1..], e, low);
    }
  }

  lemma IncreasingCons(first: LogEvent, rest: seq<LogEvent>)
    requires Increasing(rest) && KeysAbove(rest, SortKey(first))
    ensures Increasing([first] + rest)
  {
  }

  lemma IncreasingTail(events: seq<LogEvent>)
    requires Increasing(events) && events != []
    ensures Increasing(events[1..]) && KeysAbove(events[1..], SortKey(events[0]))
  {
  }

  lemma {:induction false} InsertedIncreasing(events: seq<LogEvent>, e: LogEvent)
    requires Increasing(events)
    ensures Increasing(Inserted(events, e))
  {
    if events != [] {
      var rest, key := events[1..], SortKey(events[0]);
      IncreasingTail(events);
      if key == SortKey(e) {
        IncreasingCons(e, rest);
      } else if Less(SortKey(e), key) {
        forall i | 0 <= i < |events| ensures Less(SortKey(e), SortKey(events[i])) {
          if i > 0 {
            assert rest[i - 1] == events[i];
            Transitive(SortKey(e), key, SortKey(events[i]));
          }
        }
        IncreasingCons(e, events);
      } else {
        Total(key, SortKey(e));
        InsertedIncreasing(rest, e);
        InsertedAbove(rest, e, key);
        IncreasingCons(events[0], Inserted(rest, e));
      }
    }
  }

  lemma {:induction false} InsertedCounts(events: seq<LogEvent>, e: LogEvent)
    requires NoKey(events, SortKey(e))
    ensures multiset(Inserted(events, e)) == multiset(events) + multiset{e}
  {
    if events != [] {
      assert events == [events[0]] + events[1..];
      assert SortKey(events[0]) != SortKey(e);
      if !Less(SortKey(e), SortKey(events[0])) {
        assert forall i | 0 <= i < |events| - 1 :: events[1..][i] == events[i + 1];
        InsertedCounts(events[1..], e);
      }
    }
  }

  lemma {:induction false} KeyOrderIncreases(events: seq<LogEvent>)
    ensures Increasing(KeyOrder(events))
  {
    if events != [] {
      KeyOrderIncreases(events[..|events| - 1]);
      InsertedIncreasing(KeyOrder(events[..|events| - 1]), events[|events| - 1]);
    }
  }

  lemma SameEventsSameKeys(a: seq<LogEvent>, b: seq<LogEvent>, key: string)
    requires multiset(a) == multiset(b) && NoKey(b, key)
    ensures NoKey(a, key)
  {
    forall i | 0 <= i < |a| ensures SortKey(a[i]) != key {
      assert a[i] in multiset(b);
    }
  }

  lemma {:induction false} KeyOrderKeeps(events: seq<LogEvent>)
    requires DistinctKeys(events)
    ensures multiset(KeyOrder(events)) == multiset(events)
  {
    if events != [] {
      var before, last := events[..|events| - 1], events[|events| - 1];
      KeyOrderKeeps(before);
      SameEventsSameKeys(KeyOrder(before), before, SortKey(last));
      InsertedCounts(KeyOrder(before), last);
      assert before + [last] == events;
    }
  }

  /** Events with keys of their own are all there, each once, in increasing order. */
  lemma {:induction false} KeyOrderSorts(events: seq<LogEvent>)
    ensures Increasing(KeyOrder(events))
    ensures DistinctKeys(events) ==> multiset(KeyOrder(events)) == multiset(events)
  {
    KeyOrderIncreases(events);
    if DistinctKeys(events) {
      KeyOrderKeeps(events);
    }
  }

  lemma {:induction false} InsertedHighest(events: seq<LogEvent>, e: LogEvent)
    requires KeysBelow(events, SortKey(e))
    ensures Inserted(events, e) == events + [e]
  {
    if events != [] {
      Asymmetric(SortKey(events[0]), SortKey(e));
      InsertedHighest(events[1..], e);
    }
  }

  /** Key order is the order of writing exactly for events logged with increasing keys. */
  lemma {:induction false} KeyOrderIsWritingOrder(events: seq<LogEvent>)
    ensures KeyOrder(events) == events <==> Increasing(events)
  {
    KeyOrderSorts(events);
    if events != [] && Increasing(events) {
      var before, last := events[..|events| - 1], events[|events| - 1];
      KeyOrderIsWritingOrder(before);
      InsertedHighest(before, last);
      assert before + [last] == events;
    }
  }
}
