/**
 The agent's command ledger: which shutdown commands it has accepted, when, and which of
 them schedule a power-off. Times are whole seconds.
 */
module Ledger {
  import opened Wrappers

  /** Accepted command identifiers with the time each was accepted. */
  type Entries = map<string, int>

  /** The most entries an acceptance leaves behind. */
  const LIMIT: nat := 100

  datatype ShutdownRequest = ShutdownRequest(commandId: string, source: string, requestedAt: int, expiresAt: int)

  datatype Reply = BadRequest | Unavailable | Accepted(duplicate: bool)

  /** What happened to the ledger: a shutdown request was answered at a time, or pairing was reset. */
  datatype Event = Served(request: ShutdownRequest, now: int, reply: Reply) | Cleared

  // ---------- Requests ----------

  /** The white space that trimming removes. */
  predicate IsSpace(c: char) {
    var n := c as int;
    9 <= n <= 13 || n in {0x20, 0x85, 0xA0, 0x1680, 0x2028, 0x2029, 0x202F, 0x205F, 0x3000} || 0x2000 <= n <= 0x200A
  }

  predicate IsBlank(s: string) { forall i | 0 <= i < |s| :: IsSpace(s[i]) }

  predicate IsTimely(request: ShutdownRequest, now: int) {
    && now < request.expiresAt <= now + 300
    && now - 300 <= request.requestedAt <= now + 120
  }

  predicate IsValid(request: ShutdownRequest, now: int) {
    && !IsBlank(request.commandId)
    && (request.source == "automatic" || request.source == "manual")
    && IsTimely(request, now)
  }

  // ---------- Pruning ----------

  /** kept is what may be left of all after pruning to limit entries; ties in time are decided either way. */
  ghost predicate IsPruneOf(kept: Entries, all: Entries, limit: nat) {
    && kept.Keys <= all.Keys
    && (forall id | id in kept :: kept[id] == all[id])
    && |kept| == (if |all| <= limit then |all| else limit)
    && (forall removed, id | removed in all && removed !in kept && id in kept :: all[removed] <= kept[id])
  }

  datatype Item = Item(id: string, at: int)

  ghost function ItemsOf(values: Entries, ids: set<string>): set<Item>
    requires ids <= values.Keys
  {
    set id | id in ids :: Item(id, values[id])
  }

  ghost predicate IsOrdered(items: seq<Item>) {
    forall i, j | 0 <= i < j < |items| :: items[i].at <= items[j].at
  }

  /** A sequence holding each element of a set once has no repetitions. */
  lemma NoRepetition(items: seq<Item>, all: set<Item>)
    requires multiset(items) == multiset(all)
    ensures forall i, j | 0 <= i < j < |items| :: items[i] != items[j]
    ensures forall item :: item in items <==> item in all
    ensures |items| == |all|
  {
    assert |multiset(items)| == |items|;
    forall i, j | 0 <= i < j < |items|
      ensures items[i] != items[j]
    {
      assert items == items[..i + 1] + items[i + 1..];
      assert items[j] == items[i + 1..][j - i - 1] && items[i] == items[..i + 1][i];
      assert items[i] == items[j] ==> multiset(items)[items[i]] >= 2;
    }
    forall item
      ensures item in items <==> item in all
    {
      assert item in items <==> item in multiset(items);
    }
  }

  /** Putting an item between the strictly older ones and the rest keeps the order. */
  lemma InsertKeepsOrder(sorted: seq<Item>, k: nat, item: Item)
    requires IsOrdered(sorted) && k <= |sorted|
    requires forall j | 0 <= j < k :: sorted[j].at < item.at
    requires k < |sorted| ==> item.at <= sorted[k].at
    ensures IsOrdered(sorted[..k] + [item] + sorted[k..])
  {
    var result := sorted[..k] + [item] + sorted[k..];
    forall i, j | 0 <= i < j < |result|
      ensures result[i].at <= result[j].at
    {
      var before := if i < k then sorted[i] else if i == k then item else sorted[i - 1];
      var after := if j < k then sorted[j] else if j == k then item else sorted[j - 1];
      assert result[i] == before && result[j] == after;
      assert before.at <= after.at;
    }
  }

  /** Puts an item behind the last one that is strictly older. */
  method Insert(sorted: seq<Item>, item: Item) returns (result: seq<Item>)
    requires IsOrdered(sorted)
    ensures multiset(result) == multiset(sorted) + multiset{item}
    ensures IsOrdered(result)
  {
    var k := 0;
    while k < |sorted| && sorted[k].at < item.at
      invariant 0 <= k <= |sorted|
      invariant forall j | 0 <= j < k :: sorted[j].at < item.at
    {
      k := k + 1;
    }
    InsertKeepsOrder(sorted, k, item);
    assert sorted == sorted[..k] + sorted[k..];
    result := sorted[..k] + [item] + sorted[k..];
  }

  /** Orders items by time; like the library sort it stands for, it promises nothing about ties. */
  method SortByTime(items: seq<Item>) returns (sorted: seq<Item>)
    ensures multiset(sorted) == multiset(items)
    ensures IsOrdered(sorted)
  {
    sorted := [];
    for i := 0 to |items|
      invariant multiset(sorted) == multiset(items[..i])
      invariant IsOrdered(sorted)
    {
      sorted := Insert(sorted, items[i]);
      assert items[..i + 1] == items[..i] + [items[i]];
    }
    assert items[..|items|] == items;
  }

  /** Lists the entries, in no particular order. */
  method ListItems(values: Entries) returns (items: seq<Item>)
    ensures multiset(items) == multiset(ItemsOf(values, values.Keys))
  {
    items := [];
    var rest := values.Keys;
    while rest != {}
      invariant rest <= values.Keys
      invariant multiset(items) == multiset(ItemsOf(values, values.Keys - rest))
      decreases rest
    {
      var id :| id in rest;
      ghost var item := Item(id, values[id]);
      assert item !in ItemsOf(values, values.Keys - rest);
      assert ItemsOf(values, values.Keys - (rest - {id})) == ItemsOf(values, values.Keys - rest) + {item};
      items := items + [Item(id, values[id])];
      rest := rest - {id};
    }
    assert values.Keys - rest == values.Keys;
  }

  method SortedItems(values: Entries) returns (sorted: seq<Item>)
    ensures Lists(sorted, values) && IsOrdered(sorted)
  {
    var items := ListItems(values);
    sorted := SortByTime(items);
    SortedLists(sorted, values);
  }

  ghost function IdsOf(items: seq<Item>): set<string> {
    set i | 0 <= i < |items| :: items[i].id
  }

  /** The items are the entries, each once. */
  ghost predicate Lists(items: seq<Item>, values: Entries) {
    && |items| == |values|
    && (forall i | 0 <= i < |items| :: items[i].id in values && values[items[i].id] == items[i].at)
    && (forall i, j | 0 <= i < j < |items| :: items[i].id != items[j].id)
    && (forall id | id in values :: id in IdsOf(items))
  }

  lemma SortedLists(items: seq<Item>, values: Entries)
    requires multiset(items) == multiset(ItemsOf(values, values.Keys))
    ensures Lists(items, values)
  {
    var all := ItemsOf(values, values.Keys);
    NoRepetition(items, all);
    ItemCount(values);
    forall i | 0 <= i < |items|
      ensures items[i].id in values && values[items[i].id] == items[i].at
    {
      assert items[i] in all;
    }
    forall id | id in values
      ensures id in IdsOf(items)
    {
      assert Item(id, values[id]) in items;
    }
  }

  lemma IdsGrow(items: seq<Item>, i: nat)
    requires i < |items|
    ensures IdsOf(items[..i + 1]) == IdsOf(items[..i]) + {items[i].id}
  {
    var more := items[..i + 1];
    assert more[i] == items[i];
    forall j | 0 <= j < i ensures items[..i][j] == more[j] {}
  }

  lemma RemoveOne(values: Entries, id: string)
    requires id in values
    ensures |values - {id}| == |values| - 1
  {
    assert (values - {id}).Keys == values.Keys - {id};
    assert |(values - {id}).Keys| == |values - {id}|;
  }

  method DropFirst(values: Entries, items: seq<Item>, count: nat) returns (kept: Entries)
    requires Lists(items, values) && count <= |items|
    ensures kept.Keys == values.Keys - IdsOf(items[..count])
    ensures |kept| == |values| - count
    ensures forall id | id in kept :: kept[id] == values[id]
  {
    kept := values;
    for i := 0 to count
      invariant kept.Keys == values.Keys - IdsOf(items[..i])
      invariant forall j | i <= j < |items| :: items[j].id in kept
      invariant |kept| == |values| - i
      invariant forall id | id in kept :: kept[id] == values[id]
    {
      IdsGrow(items, i);
      RemoveOne(kept, items[i].id);
      kept := kept - {items[i].id};
    }
  }

  method PruneProcessed(values: Entries, limit: nat) returns (kept: Entries)
    ensures IsPruneOf(kept, values, limit)
  {
    if |values| <= limit {
      return values;
    }
    var items := SortedItems(values);
    var count := |items| - limit;
    kept := DropFirst(values, items, count);
    OldestDropped(values, items, count, kept);
  }

  lemma OldestDropped(values: Entries, items: seq<Item>, count: nat, kept: Entries)
    requires Lists(items, values) && IsOrdered(items) && count <= |items|
    requires kept.Keys == values.Keys - IdsOf(items[..count])
    requires forall id | id in kept :: kept[id] == values[id]
    ensures forall removed, id | removed in values && removed !in kept && id in kept :: values[removed] <= kept[id]
    ensures kept.Keys <= values.Keys
  {
    forall m | 0 <= m < count
      ensures items[m].id !in kept
    {
      assert items[..count][m] == items[m];
    }
    forall removed, id | removed in values && removed !in kept && id in kept
      ensures values[removed] <= kept[id]
    {
      var j :| 0 <= j < count && items[..count][j].id == removed;
      var m :| 0 <= m < |items| && items[m].id == id;
      assert items[j].at <= items[m].at;
    }
  }

  lemma ItemCount(values: Entries)
    ensures |ItemsOf(values, values.Keys)| == |values|
  {
    ItemCountOf(values, values.Keys);
    assert |values.Keys| == |values|;
  }

  lemma {:induction false} ItemCountOf(values: Entries, ids: set<string>)
    requires ids <= values.Keys
    ensures |ItemsOf(values, ids)| == |ids|
  {
    if ids == {} {
      assert ItemsOf(values, ids) == {};
    } else {
      var id :| id in ids;
      ItemCountOf(values, ids - {id});
      assert ItemsOf(values, ids) == ItemsOf(values, ids - {id}) + {Item(id, values[id])};
    }
  }

  // ---------- The server ----------

  /** One step of the ledger. */
  ghost predicate Step(before: Entries, event: Event, after: Entries) {
    match event
    case Cleared => after == map[]
    case Served(request, now, BadRequest) => !IsValid(request, now) && after == before
    case Served(request, now, Unavailable) => IsValid(request, now) && after == before
    case Served(request, now, Accepted(true)) =>
      IsValid(request, now) && request.commandId in before && after == before
    case Served(request, now, Accepted(false)) =>
      && IsValid(request, now) && request.commandId !in before
      && IsPruneOf(after, before[request.commandId := now], LIMIT)
  }

  // ---------- What is refused ----------

  /** Some character is printable ASCII. */
  predicate IsVisible(s: string) { exists i | 0 <= i < |s| :: '!' <= s[i] <= '~' }

  /** Nothing but spaces, tabs and line ends, or nothing at all. */
  predicate IsEmptyLine(s: string) { forall i | 0 <= i < |s| :: s[i] in {' ', '\t', '\n', '\r'} }

  /**
   Neither a visible identifier nor one of the two sources saves a message from its times; nothing else
   refuses it.
   */
  lemma RefusedExactly(before: Entries, request: ShutdownRequest, now: int, reply: Reply, after: Entries)
    requires Step(before, Served(request, now, reply), after)
    ensures IsVisible(request.commandId) && request.source in {"automatic", "manual"} ==>
              (reply == BadRequest <==>
                 || request.expiresAt <= now || request.expiresAt > now + 300
                 || request.requestedAt > now + 120 || request.requestedAt < now - 300)
    ensures IsEmptyLine(request.commandId) ==> reply == BadRequest
    ensures request.source !in {"automatic", "manual"} ==> reply == BadRequest
    ensures reply == BadRequest ==> after == before
  {
    if i :| 0 <= i < |request.commandId| && '!' <= request.commandId[i] <= '~' {
      assert !IsSpace(request.commandId[i]);
    }
  }

  /**
   A message of the controller, by hand or automatic, that is requested at t and expires a minute
   later is refused exactly before t - 120 and from t + 60 on; in time it is new or a duplicate as
   the ledger has it, unless the state file fails.
   */
  lemma MinuteMessageExactly(before: Entries, id: string, source: string, t: int, now: int, reply: Reply,
      after: Entries)
    requires IsVisible(id) && source in {"automatic", "manual"}
    requires Step(before, Served(ShutdownRequest(id, source, t, t + 60), now, reply), after)
    ensures reply == BadRequest <==> now < t - 120 || now >= t + 60
    ensures reply.Accepted? ==> (reply == Accepted(true) <==> id in before)
    ensures reply == Accepted(false) ==>
              after.Keys <= before.Keys + {id} && |after| == if |before| < 100 then |before| + 1 else 100
  {
    RefusedExactly(before, ShutdownRequest(id, source, t, t + 60), now, reply, after);
    if reply == Accepted(false) {
      var all := before[id := now];
      assert all.Keys == before.Keys + {id} && |all.Keys| == |before.Keys| + 1;
      assert |all| == |all.Keys| && |before| == |before.Keys|;
    }
  }

  class ShutdownServer {
    /** The ledger in the state file. */
    var processed: Entries
    /** The commands whose delayed power-off was started, in order. */
    var scheduled: seq<string>

    constructor ()
      ensures processed == map[] && scheduled == []
    {
      processed, scheduled := map[], [];
    }

    /** Locked read-modify-write of the ledger; returns whether the command was already known. */
    method AcceptCommand(commandId: string, acceptedAt: int, readable: bool, writable: bool) returns (r: Result<bool>)
      modifies this`processed
      ensures r.Err? <==> !readable || (commandId !in old(processed) && !writable)
      ensures r.Ok? ==> r.value == (commandId in old(processed))
      ensures r != Ok(false) ==> processed == old(processed)
      ensures r == Ok(false) ==> IsPruneOf(processed, old(processed)[commandId := acceptedAt], LIMIT)
    {
      if !readable {
        return Err("state unavailable");
      }
      var values := processed;
      if commandId in values {
        return Ok(true);
      }
      values := values[commandId := acceptedAt];
      values := PruneProcessed(values, LIMIT);
      if !writable {
        return Err("state unavailable");
      }
      processed := values;
      r := Ok(false);
    }

    method HandleShutdown(request: ShutdownRequest, now: int, readable: bool, writable: bool) returns (reply: Reply)
      modifies this
      ensures Step(old(processed), Served(request, now, reply), processed)
      ensures reply == Unavailable <==>
              IsValid(request, now) && (!readable || (request.commandId !in old(processed) && !writable))
      ensures scheduled == old(scheduled) + (if reply == Accepted(false) then [request.commandId] else [])
    {
      if !IsValid(request, now) {
        return BadRequest;
      }
      var duplicate := AcceptCommand(request.commandId, now, readable, writable);
      match duplicate {
        case Err(_) => reply := Unavailable;
        case Ok(true) => reply := Accepted(true);
        case Ok(false) =>
          reply := Accepted(false);
          scheduled := scheduled + [request.commandId];
      }
    }
  }

  // ---------- Runs ----------

  /** A history of the ledger: event i led from ledger i to ledger i + 1. */
  ghost predicate IsRun(ledgers: seq<Entries>, events: seq<Event>) {
    && |ledgers| == |events| + 1
    && forall i | 0 <= i < |events| :: Step(ledgers[i], events[i], ledgers[i + 1])
  }

  /** Event i is the acceptance of a new command: the only event that schedules a power-off. */
  predicate PowersOff(events: seq<Event>, i: nat)
    requires i < |events|
  {
    events[i].Served? && events[i].reply == Accepted(false)
  }

  ghost predicate NoClear(events: seq<Event>, from: nat, to: nat)
    requires to <= |events|
  {
    forall i | from <= i < to :: !events[i].Cleared?
  }

  /** Every entry was accepted at or after the given time. */
  ghost predicate NoneOlder(entries: Entries, at: int) {
    forall id | id in entries :: at <= entries[id]
  }

  /** Every entry was accepted at or before the given time. */
  ghost predicate NoneNewer(entries: Entries, at: int) {
    forall id | id in entries :: entries[id] <= at
  }

  /**
   At step k the entry for id, accepted at the given time, was pruned in favour of LIMIT entries that
   are not older.
   */
  ghost predicate EvictedAt(ledgers: seq<Entries>, events: seq<Event>, k: nat, id: string, at: int)
    requires IsRun(ledgers, events) && k < |events|
  {
    && PowersOff(events, k)
    && id !in ledgers[k + 1]
    && |ledgers[k + 1]| == LIMIT
    && NoneOlder(ledgers[k + 1], at)
  }

  /** One acceptance adds its entry, and drops one only when full and only for entries not older. */
  lemma StepKeepsOrEvicts(before: Entries, event: Event, after: Entries, id: string, at: int)
    requires Step(before, event, after) && !event.Cleared?
    requires || (id in before && before[id] == at)
             || (event.reply == Accepted(false) && event.request.commandId == id && event.now == at)
    ensures || (id in after && after[id] == at)
            || (event.reply == Accepted(false) && id !in after && |after| == LIMIT && NoneOlder(after, at))
  {
    if event.reply == Accepted(false) {
      var all := before[event.request.commandId := event.now];
      assert all.Keys == before.Keys + {event.request.commandId};
      if id !in after && |all| <= LIMIT {
        assert |after.Keys| == |all.Keys| && after.Keys <= all.Keys - {id};
        SubsetSize(after.Keys, all.Keys - {id});
        assert false;
      }
    }
  }

  lemma {:induction false} SubsetSize<T>(a: set<T>, b: set<T>)
    requires a <= b
    ensures |a| <= |b|
  {
    if a != {} {
      var x :| x in a;
      SubsetSize(a - {x}, b - {x});
    }
  }

  /** From the acceptance on, the entry stays with its time until it is evicted. */
  lemma {:induction false} StaysUntilEvicted(ledgers: seq<Entries>, events: seq<Event>, i: nat, j: nat)
    requires IsRun(ledgers, events) && i < j <= |events| && PowersOff(events, i) && NoClear(events, i, j)
    requires forall k | i <= k < j :: !EvictedAt(ledgers, events, k, events[i].request.commandId, events[i].now)
    ensures var id := events[i].request.commandId; id in ledgers[j] && ledgers[j][id] == events[i].now
    decreases j
  {
    if i + 1 < j {
      StaysUntilEvicted(ledgers, events, i, j - 1);
    }
    assert !EvictedAt(ledgers, events, j - 1, events[i].request.commandId, events[i].now);
    StepKeepsOrEvicts(ledgers[j - 1], events[j - 1], ledgers[j], events[i].request.commandId, events[i].now);
  }

  /**
   Between two clears a command schedules at most one power-off, unless its entry was evicted
   in between while LIMIT other entries had acceptance times at or after its own.
   */
  lemma AtMostOncePowerOff(ledgers: seq<Entries>, events: seq<Event>, i: nat, j: nat)
    requires IsRun(ledgers, events) && i < j < |events| && NoClear(events, i, j)
    requires PowersOff(events, i) && PowersOff(events, j)
    requires events[i].request.commandId == events[j].request.commandId
    ensures exists k | i <= k < j :: EvictedAt(ledgers, events, k, events[i].request.commandId, events[i].now)
  {
    assert Step(ledgers[j], events[j], ledgers[j + 1]);
    if forall k | i <= k < j :: !EvictedAt(ledgers, events, k, events[i].request.commandId, events[i].now) {
      StaysUntilEvicted(ledgers, events, i, j);
      assert false;
    }
  }

  /** The clock the agent reads never goes back. */
  ghost predicate ClockAdvances(events: seq<Event>) {
    forall i, j | 0 <= i < j < |events| && events[i].Served? && events[j].Served? :: events[i].now <= events[j].now
  }

  /** With such a clock, no entry lies in the future. */
  lemma EntriesArePast(ledgers: seq<Entries>, events: seq<Event>, k: nat)
    requires IsRun(ledgers, events) && ledgers[0] == map[] && ClockAdvances(events)
    requires k < |events| && events[k].Served?
    ensures NoneNewer(ledgers[k + 1], events[k].now)
  {
    EntriesBefore(ledgers, events, k + 1, events[k].now);
  }

  lemma {:induction false} EntriesBefore(ledgers: seq<Entries>, events: seq<Event>, k: nat, now: int)
    requires IsRun(ledgers, events) && ledgers[0] == map[] && k <= |events|
    requires forall i | 0 <= i < k && events[i].Served? :: events[i].now <= now
    ensures NoneNewer(ledgers[k], now)
  {
    if k > 0 {
      EntriesBefore(ledgers, events, k - 1, now);
      assert Step(ledgers[k - 1], events[k - 1], ledgers[k]);
    }
  }

  /**
   One and the same message schedules two power-offs only within 300 seconds, and only if LIMIT
   other commands were accepted inside that window.
   */
  lemma SameMessageTwice(ledgers: seq<Entries>, events: seq<Event>, i: nat, j: nat)
    requires IsRun(ledgers, events) && ledgers[0] == map[] && ClockAdvances(events)
    requires i < j < |events| && NoClear(events, i, j)
    requires PowersOff(events, i) && PowersOff(events, j) && events[i].request == events[j].request
    ensures 0 <= events[j].now - events[i].now < 300
    ensures exists k | i <= k < j ::
              && EvictedAt(ledgers, events, k, events[i].request.commandId, events[i].now)
              && NoneNewer(ledgers[k + 1], events[j].now)
  {
    AtMostOncePowerOff(ledgers, events, i, j);
    var k :| i <= k < j && EvictedAt(ledgers, events, k, events[i].request.commandId, events[i].now);
    EntriesArePast(ledgers, events, k);
    assert NoneNewer(ledgers[k + 1], events[j].now);
    assert Step(ledgers[i], events[i], ledgers[i + 1]) && Step(ledgers[j], events[j], ledgers[j + 1]);
  }

  /** A run from an empty ledger never holds more than 100 entries. */
  lemma {:induction false} NeverOverLimit(ledgers: seq<Entries>, events: seq<Event>, k: nat)
    requires IsRun(ledgers, events) && |ledgers[0]| <= 100 && k <= |events|
    ensures |ledgers[k]| <= 100
  {
    if k > 0 {
      NeverOverLimit(ledgers, events, k - 1);
      assert Step(ledgers[k - 1], events[k - 1], ledgers[k]);
    }
  }

  /** What is in the ledger was accepted earlier in the run. */
  lemma {:induction false} EntryWasAccepted(ledgers: seq<Entries>, events: seq<Event>, k: nat, id: string)
    requires IsRun(ledgers, events) && ledgers[0] == map[] && k <= |events| && id in ledgers[k]
    ensures exists i | 0 <= i < k :: PowersOff(events, i) && events[i].request.commandId == id
  {
    assert Step(ledgers[k - 1], events[k - 1], ledgers[k]);
    if id in ledgers[k - 1] {
      EntryWasAccepted(ledgers, events, k - 1, id);
    } else {
      assert PowersOff(events, k - 1);
    }
  }

  /** The last acceptance of what is in the ledger: since then it was neither cleared nor evicted. */
  ghost predicate HeldSince(ledgers: seq<Entries>, events: seq<Event>, i: nat, k: nat, id: string)
    requires IsRun(ledgers, events) && i < k <= |events|
  {
    && PowersOff(events, i) && events[i].request.commandId == id && NoClear(events, i, k)
    && forall m | i <= m < k :: !EvictedAt(ledgers, events, m, id, events[i].now)
  }

  /** The ledger knows a command exactly if it accepted it and neither cleared nor evicted it since. */
  lemma {:induction false} KnownExactly(ledgers: seq<Entries>, events: seq<Event>, k: nat, id: string)
    requires IsRun(ledgers, events) && ledgers[0] == map[] && k <= |events|
    ensures id in ledgers[k] <==> exists i | 0 <= i < k :: HeldSince(ledgers, events, i, k, id)
  {
    if id in ledgers[k] {
      var _ := LastAcceptance(ledgers, events, k, id);
    }
    if i :| 0 <= i < k && HeldSince(ledgers, events, i, k, id) {
      StaysUntilEvicted(ledgers, events, i, k);
    }
  }

  lemma {:induction false} LastAcceptance(ledgers: seq<Entries>, events: seq<Event>, k: nat, id: string)
    returns (i: nat)
    requires IsRun(ledgers, events) && ledgers[0] == map[] && k <= |events| && id in ledgers[k]
    ensures i < k && HeldSince(ledgers, events, i, k, id)
  {
    assert Step(ledgers[k - 1], events[k - 1], ledgers[k]);
    if id in ledgers[k - 1] {
      i := LastAcceptance(ledgers, events, k - 1, id);
      assert !EvictedAt(ledgers, events, k - 1, id, events[i].now);
    } else {
      i := k - 1;
      assert PowersOff(events, i);
    }
  }

  /**
   Eviction goes by recorded time, not by order of insertion: after the clock stepped back
   below every entry of a full ledger, a new command is forgotten at once, and the same
   command repeated schedules a second power-off.
   */
  lemma ClockStepBackRepeats(before: Entries, first: Event, between: Entries, second: Event, after: Entries)
    requires |before| == LIMIT && first.Served? && second.Served?
    requires forall id | id in before :: first.now < before[id]
    requires first.reply == Accepted(false) && first.request.commandId == second.request.commandId
    requires Step(before, first, between) && Step(between, second, after)
    ensures between == before
    ensures second.reply != Accepted(true)
  {
    var id := first.request.commandId;
    var all := before[id := first.now];
    assert all.Keys == before.Keys + {id} && id !in before;
    assert |all.Keys| == LIMIT + 1 && |between.Keys| == LIMIT;
    assert exists removed :: removed in all && removed !in between by {
      if forall x | x in all :: x in between {
        assert all.Keys <= between.Keys;
        SubsetSize(all.Keys, between.Keys);
      }
    }
    assert between.Keys <= before.Keys && |before.Keys| == LIMIT;
    EqualSize(between.Keys, before.Keys);
  }

  /** A command may be forgotten as soon as it is accepted exactly when the ledger is full and holds nothing older. */
  lemma ForgottenAtOnceIff(before: Entries, id: string, at: int)
    requires |before| <= LIMIT && id !in before
    ensures (exists after :: IsPruneOf(after, before[id := at], LIMIT) && id !in after) <==>
            |before| == LIMIT && NoneOlder(before, at)
  {
    var all := before[id := at];
    assert all.Keys == before.Keys + {id};
    assert |all.Keys| == |before.Keys| + 1 && |all| == |all.Keys| && |before| == |before.Keys|;
    if after :| IsPruneOf(after, all, LIMIT) && id !in after {
      assert after.Keys <= before.Keys && |after.Keys| == |after|;
      SubsetSize(after.Keys, before.Keys);
      EqualSize(after.Keys, before.Keys);
      assert forall x | x in before :: x in after;
    }
    if |before| == LIMIT && NoneOlder(before, at) {
      assert IsPruneOf(before, all, LIMIT);
    }
  }

  lemma EqualSize<T>(a: set<T>, b: set<T>)
    requires a <= b && |a| == |b|
    ensures a == b
  {
    if x :| x in b && x !in a {
      SubsetSize(a, b - {x});
      assert false;
    }
  }
}
