/** The event ledger: a sliding window of the last 500 events inside a key-value store that holds other keys too. */
module EventLedger {
  import opened Prelude
  import opened EventKey

  const LIMIT: nat := 500
  const SEQUENCE_KEY := "meta/events-sequence"

  datatype Event = Event(id: uint64, payload: string)

  /** What a key holds: a big-endian uint64, an event, or anything the rest of the program stores. */
  datatype Value = Number(n: uint64) | Entry(event: Event) | Other

  type Database = map<string, Value>

  // ---- the abstract ledger: everything ever appended ----

  /** The first sequence still held after `n` appends. */
  function Oldest(n: nat): nat {
    if n <= LIMIT then 1 else n - LIMIT + 1
  }

  function EventAt(history: seq<string>, i: nat): Event
    requires 1 <= i <= |history| < U64
  {
    Event(i, history[i - 1])
  }

  /** The database holds exactly the last 500 appended events under the event prefix, and their number. */
  ghost predicate Holds(db: Database, history: seq<string>) {
    && |history| < U64
    && (if history == [] then SEQUENCE_KEY !in db || db[SEQUENCE_KEY] == Number(0)
        else SEQUENCE_KEY in db && db[SEQUENCE_KEY] == Number(|history|))
    && (forall i: nat | Oldest(|history|) <= i <= |history| :: Key(i) in db && db[Key(i)] == Entry(EventAt(history, i)))
    && (forall k | k in db && HasPrefix(k, PREFIX) :: exists i: nat ::
         Oldest(|history|) <= i <= |history| && k == Key(i))
  }

  /** The first sequence that a query after `after` returns, if it exists: Go's `after + 1` wraps to zero at the
      last uint64. */
  function First(n: nat, after: uint64): nat {
    var start := (after + 1) % U64;
    if start < Oldest(n) then Oldest(n) else start
  }

  function Effective(limit: int): nat {
    if limit <= 0 || limit > LIMIT then LIMIT else limit
  }

  /** The answer to a query: the events from `First` on, without holes, cut at the effective limit. */
  function Window(history: seq<string>, after: uint64, limit: int): (r: seq<Event>)
    requires |history| < U64
    ensures |r| <= LIMIT
    ensures forall k: nat | k < |r| ::
        1 <= First(|history|, after) + k <= |history| && r[k] == EventAt(history, First(|history|, after) + k)
  {
    var lo, n := First(|history|, after), |history|;
    var have := if lo <= n then n - lo + 1 else 0;
    var count := if have < Effective(limit) then have else Effective(limit);
    seq(count, k requires 0 <= k < count => EventAt(history, lo + k))
  }

  /** Events in a row from `First` on, stopped only by the limit or the end of the log, are the answer. */
  lemma WindowIs(history: seq<string>, after: uint64, limit: int, events: seq<Event>)
    requires |history| < U64 && |events| <= Effective(limit)
    requires
      var lo, n := First(|history|, after), |history|;
      && (forall k: nat | k < |events| :: lo + k <= n && events[k] == EventAt(history, lo + k))
      && (|events| == Effective(limit) || lo + |events| > n)
    ensures events == Window(history, after, limit)
  {
    var lo, n := First(|history|, after), |history|;
    if events != [] {
      var last := events[|events| - 1];
      assert lo + |events| - 1 <= n;
    }
    assert |events| == |Window(history, after, limit)|;
  }

  lemma SequenceKeyApart(i: uint64)
    ensures Key(i) != SEQUENCE_KEY && !HasPrefix(SEQUENCE_KEY, PREFIX)
  {
    KeysInOrder(i, i);
    assert SEQUENCE_KEY[0] == 'm' && PREFIX[0] == 'e';
  }

  lemma SequenceOf(db: Database, history: seq<string>)
    requires Holds(db, history)
    ensures |history| < U64
    ensures SequenceIn(db) == |history|
  {
  }

  lemma EntryOf(db: Database, history: seq<string>, i: nat)
    requires Holds(db, history) && Oldest(|history|) <= i <= |history|
    ensures Key(i) in db && db[Key(i)] == Entry(EventAt(history, i))
  {
  }

  /** The sequence that the database stands at; a missing or unreadable one counts as zero. */
  function SequenceIn(db: Database): uint64 {
    if SEQUENCE_KEY in db && db[SEQUENCE_KEY].Number? then db[SEQUENCE_KEY].n else 0
  }

  /** The database after an append, whatever it held: the new event in, the one 500 back out. */
  function Appended(db: Database, payload: string): Database {
    var n := (SequenceIn(db) + 1) % U64;
    var added := db[Key(n) := Entry(Event(n, payload))][SEQUENCE_KEY := Number(n)];
    if n > LIMIT then added - {Key(n - LIMIT)} else added
  }

  /** One append: the new event in, the one that falls off the window out. */
  lemma AppendHolds(db: Database, history: seq<string>, payload: string)
    requires Holds(db, history) && |history| + 1 < U64
    ensures Holds(Appended(db, payload), history + [payload])
  {
    hide Key, Holds;
    SequenceOf(db, history);
    SlidHolds(db, history, payload);
  }

  lemma SlidHolds(db: Database, history: seq<string>, payload: string)
    requires Holds(db, history) && |history| + 1 < U64
    ensures
      var n := |history| + 1;
      var added := db[Key(n) := Entry(Event(n, payload))][SEQUENCE_KEY := Number(n)];
      Holds(if n > LIMIT then added - {Key(n - LIMIT)} else added, history + [payload])
  {
    hide Less, Key, HasPrefix;
    var n, history' := |history| + 1, history + [payload];
    var added := db[Key(n) := Entry(Event(n, payload))][SEQUENCE_KEY := Number(n)];
    var db' := if n > LIMIT then added - {Key(n - LIMIT)} else added;
    SequenceKeyApart(n);
    if n > LIMIT { SequenceKeyApart(n - LIMIT); }
    forall i: nat | Oldest(n) <= i <= n
      ensures Key(i) in db' && db'[Key(i)] == Entry(EventAt(history', i))
    {
      SequenceKeyApart(i);
      KeysInOrder(i, n);
      if n > LIMIT { KeysInOrder(i, n - LIMIT); }
      if i < n { assert EventAt(history', i) == EventAt(history, i); }
    }
    forall k | k in db' && HasPrefix(k, PREFIX)
      ensures exists i: nat :: Oldest(n) <= i <= n && k == Key(i)
    {
      if k != Key(n) {
        assert k in db;
        var i: nat :| Oldest(|history|) <= i <= |history| && k == Key(i);
        assert n > LIMIT ==> i != n - LIMIT;
      }
    }
  }

  // ---- the iterator ----

  /** `k` is the least key of `db` that is admissible after `bound`; None when there is none. */
  ghost predicate LeastFrom(db: Database, bound: string, strict: bool, k: Option<string>) {
    match k
    case None => forall x | x in db :: Less(x, bound) || (strict && x == bound)
    case Some(key) =>
      && key in db && (Less(bound, key) || (!strict && key == bound))
      && forall x | x in db :: Less(x, bound) || (strict && x == bound) || x == key || Less(key, x)
  }

  /** From a cursor inside the event range, the iterator meets the next event of the window, or leaves the prefix. */
  lemma NextEvent(db: Database, history: seq<string>, bound: uint64, strict: bool, lo: nat, k: Option<string>)
    requires Holds(db, history) && LeastFrom(db, Key(bound), strict, k)
    requires lo == (if strict then bound + 1 else if bound < Oldest(|history|) then Oldest(|history|) else bound)
    requires lo >= Oldest(|history|)
    ensures lo <= |history| ==> k == Some(Key(lo))
    ensures lo > |history| ==> k.None? || !HasPrefix(k.value, PREFIX)
  {
    hide Less, Key, HasPrefix;
    if lo <= |history| {
      KeysInOrder(bound, lo);
      KeysInOrder(lo, bound);
      assert k.Some?;
      if k.value != Key(lo) {
        assert Less(k.value, Key(lo));
        assert HasPrefix(k.value, PREFIX) by {
          if k.value != Key(bound) { PrefixesConvex(PREFIX, Key(bound), k.value, Key(lo)); }
        }
        var i: nat :| Oldest(|history|) <= i <= |history| && k.value == Key(i);
        KeysInOrder(i, lo);
        KeysInOrder(bound, i);
        assert false;
      }
    } else if k.Some? && HasPrefix(k.value, PREFIX) {
      var i: nat :| Oldest(|history|) <= i <= |history| && k.value == Key(i);
      KeysInOrder(bound, i);
      assert false;
    }
  }

  class EventStore {
    var db: Database
    ghost var history: seq<string>

    ghost predicate Valid()
      reads this
    {
      Holds(db, history)
    }

    constructor ()
      ensures Valid() && history == []
    {
      db, history := map[], [];
    }

    /** The transaction of AppendEvent, from any database; the window is kept as long as the counter does not wrap. */
    method AppendEvent(payload: string) returns (event: Event)
      modifies this
      ensures history == old(history) + [payload] && db == Appended(old(db), payload)
      ensures event == Event((SequenceIn(old(db)) + 1) % U64, payload)
      ensures old(Valid()) && |history| < U64 ==> Valid() && event == EventAt(history, |history|)
    {
      hide Holds, Key;
      if Holds(db, history) && |history| + 1 < U64 {
        SequenceOf(db, history);
        AppendHolds(db, history, payload);
      }
      var sequence: uint64 := if SEQUENCE_KEY in db && db[SEQUENCE_KEY].Number? then db[SEQUENCE_KEY].n else 0;
      sequence := (sequence + 1) % U64;
      event := Event(sequence, payload);
      db := db[Key(sequence) := Entry(event)];
      db := db[SEQUENCE_KEY := Number(sequence)];
      if sequence > LIMIT {
        db := db - {Key(sequence - LIMIT)};
      }
      history := history + [payload];
    }

    /** Badger's Seek and Next: the least key from a bound on. */
    method Least(bound: string, strict: bool) returns (k: Option<string>)
      ensures LeastFrom(db, bound, strict, k)
    {
      k := None;
      var todo := db.Keys;
      while todo != {}
        invariant todo <= db.Keys
        invariant k.Some? ==> k.value in db && (Less(bound, k.value) || (!strict && k.value == bound))
        invariant forall x | x in db && x !in todo ::
            Less(x, bound) || (strict && x == bound) || (k.Some? && (x == k.value || Less(k.value, x)))
        decreases todo
      {
        var x :| x in todo;
        todo := todo - {x};
        LessTotal(x, bound);
        if Less(bound, x) || (!strict && x == bound) {
          if k.None? || Less(x, k.value) {
            if k.Some? { Lower(k.value, x); }
            k := Some(x);
          } else {
            LessTotal(x, k.value);
          }
        }
      }
    }

    /** The view transaction of EventsAfter: seek, then follow the iterator while it stays under the prefix. */
    method EventsAfter(after: uint64, limit: int) returns (events: seq<Event>)
      requires Valid()
      ensures events == Window(history, after, limit)
    {
      hide Holds, Key, LeastFrom, HasPrefix;
      var effective: nat := if limit <= 0 || limit > LIMIT then LIMIT else limit;
      var start: uint64 := (after + 1) % U64;
      events := [];
      ghost var n, lo := |history|, First(|history|, after);
      SequenceOf(db, history);
      var cursor := Least(Key(start), false);
      NextEvent(db, history, start, false, lo, cursor);
      while cursor.Some? && HasPrefix(cursor.value, PREFIX) && |events| < effective
        invariant |events| <= effective && (events != [] ==> lo + |events| <= n + 1)
        invariant lo + |events| <= n < U64 ==> cursor == Some(Key(lo + |events|))
        invariant lo + |events| > n ==> cursor.None? || !HasPrefix(cursor.value, PREFIX)
        invariant forall k: nat | k < |events| :: lo + k <= n && events[k] == EventAt(history, lo + k)
        decreases effective - |events|
      {
        ghost var at := lo + |events|;
        EntryOf(db, history, at);
        var value := db[cursor.value];
        events := events + [value.event];
        cursor := Least(cursor.value, true);
        NextEvent(db, history, at, true, at + 1, cursor);
      }
      if lo + |events| <= n { KeysInOrder(lo + |events|, lo); }
      WindowIs(history, after, limit, events);
    }
  }

  /** Whatever lies above `higher` lies above the smaller `x`. */
  lemma Lower(higher: string, x: string)
    requires Less(x, higher)
    ensures forall y | Less(higher, y) :: Less(x, y)
  {
    forall y | Less(higher, y) ensures Less(x, y) { LessTransitive(x, higher, y); }
  }

  // ---- what a query returns ----

  function Most(a: int, b: int): int {
    if a < b then b else a
  }

  /** For every `after` but the last uint64: the events from max(after + 1, n - 499, 1) on, ascending without
      holes, up to the newest, or as many as were asked for if that is between 1 and 500, or 500. */
  lemma WindowIsTail(history: seq<string>, after: uint64, limit: int)
    requires |history| < U64 && after < U64 - 1
    ensures
      var r, n := Window(history, after, limit), |history|;
      var lo, most := Most(after + 1, Most(n - 499, 1)), if 1 <= limit <= 500 then limit else 500;
      && |r| == (if n - lo + 1 < most then Most(n - lo + 1, 0) else most)
      && (forall k: nat | k < |r| :: 1 <= lo + k <= n && r[k] == Event(lo + k, history[lo + k - 1]))
  {
  }

  /** A Last-Event-ID of the last uint64 (also what an unparsable longer number becomes) replays the whole window. */
  lemma LastIdReplays(history: seq<string>, limit: int)
    requires |history| < U64 && history != []
    ensures
      Window(history, U64 - 1, limit) == Window(history, 0, limit) != []
  {
  }

  /** The append after 2^64 - 1 others gets the id 0; it removes nothing, and the 500 events before it stay for good. */
  lemma WrapRestarts(db: Database, history: seq<string>, payload: string)
    requires Holds(db, history) && |history| == U64 - 1
    ensures
      var db' := Appended(db, payload);
      && SequenceIn(db') == 0 && Key(0) in db' && db'[Key(0)] == Entry(Event(0, payload))
      && forall i: nat | Oldest(|history|) <= i <= |history| ::
           Key(i) in db' && db'[Key(i)] == Entry(EventAt(history, i))
  {
    hide Less, Key, HasPrefix;
    SequenceOf(db, history);
    assert (SequenceIn(db) + 1) % U64 == 0;
    SequenceKeyApart(0);
    forall i: nat | Oldest(|history|) <= i <= |history|
      ensures Key(i) in Appended(db, payload) && Appended(db, payload)[Key(i)] == Entry(EventAt(history, i))
    {
      SequenceKeyApart(i);
      KeysInOrder(0, i);
    }
  }
}
