/** The append-only event log: the `events` table with its primary key on the event id.
    `insert_event` ignores an id it already holds, `events` lists a stream in the order
    (created_at_ms, id). The log is a grow-only set exactly when equal ids mean equal events. */
module EventLog {
  import opened Text
  import opened Model

  type Log = map<string, EventEnvelope>

  ghost predicate KeyedById(log: Log) {
    forall id :: id in log ==> log[id].id == id
  }

  function Insert(log: Log, e: EventEnvelope): Log {
    if e.id in log then log else log[e.id := e]
  }

  function InsertAll(log: Log, es: seq<EventEnvelope>): Log
    decreases es
  {
    if es == [] then log else InsertAll(Insert(log, es[0]), es[1..])
  }

  ghost predicate UniqueIds(s: set<EventEnvelope>) {
    forall e, f :: e in s && f in s && e.id == f.id ==> e == f
  }

  function Contents(log: Log): set<EventEnvelope> {
    set id | id in log :: log[id]
  }

  function Elements(es: seq<EventEnvelope>): set<EventEnvelope> {
    set e | e in es
  }

  lemma ContentsHaveUniqueIds(log: Log)
    requires KeyedById(log)
    ensures UniqueIds(Contents(log))
  {
  }

  /** A log that is keyed by id is determined by the set of events it holds. */
  lemma ContentsDetermineLog(a: Log, b: Log)
    requires KeyedById(a) && KeyedById(b) && Contents(a) == Contents(b)
    ensures a == b
  {
    forall id | id in a
      ensures id in b && a[id] == b[id]
    {
      assert a[id] in Contents(b);
    }
    forall id | id in b
      ensures id in a
    {
      assert b[id] in Contents(a);
    }
  }

  lemma InsertAddsOne(log: Log, e: EventEnvelope)
    requires KeyedById(log) && UniqueIds(Contents(log) + {e})
    ensures KeyedById(Insert(log, e))
    ensures Contents(Insert(log, e)) == Contents(log) + {e}
  {
    var after := Insert(log, e);
    if e.id in log {
      assert log[e.id] in Contents(log);
    } else {
      assert after[e.id] == e;
      forall x | x in Contents(log) + {e}
        ensures x in Contents(after)
      {
        if x in Contents(log) {
          var id :| id in log && log[id] == x;
          assert after[id] == x;
        }
      }
    }
  }

  /** Inserting any list of events, in any order and with any repeats, adds exactly its set. */
  lemma {:induction false} InsertAllIsUnion(log: Log, es: seq<EventEnvelope>)
    requires KeyedById(log) && UniqueIds(Contents(log) + Elements(es))
    ensures KeyedById(InsertAll(log, es))
    ensures Contents(InsertAll(log, es)) == Contents(log) + Elements(es)
    decreases es
  {
    if es != [] {
      InsertAddsOne(log, es[0]);
      assert Elements(es) == {es[0]} + Elements(es[1..]);
      InsertAllIsUnion(Insert(log, es[0]), es[1..]);
    }
  }

  /** The merge law: the resulting log depends only on the set of events inserted. */
  lemma MergeIsOrderFree(log: Log, xs: seq<EventEnvelope>, ys: seq<EventEnvelope>)
    requires KeyedById(log) && Elements(xs) == Elements(ys)
    requires UniqueIds(Contents(log) + Elements(xs))
    ensures InsertAll(log, xs) == InsertAll(log, ys)
  {
    InsertAllIsUnion(log, xs);
    InsertAllIsUnion(log, ys);
    ContentsDetermineLog(InsertAll(log, xs), InsertAll(log, ys));
  }

  /** Every list of the events of `s` leads from the empty log to the same log. */
  ghost predicate OrderFree(s: set<EventEnvelope>) {
    forall xs, ys :: Elements(xs) == s && Elements(ys) == s ==> InsertAll(map[], xs) == InsertAll(map[], ys)
  }

  lemma {:induction false} FirstInsertWins(log: Log, id: string, es: seq<EventEnvelope>)
    requires id in log
    ensures id in InsertAll(log, es) && InsertAll(log, es)[id] == log[id]
    decreases es
  {
    if es != [] {
      FirstInsertWins(Insert(log, es[0]), id, es[1..]);
    }
  }

  lemma {:induction false} Enumerate(s: set<EventEnvelope>) returns (es: seq<EventEnvelope>)
    ensures Elements(es) == s
    decreases |s|
  {
    if s == {} {
      es := [];
    } else {
      var e :| e in s;
      var rest := Enumerate(s - {e});
      es := [e] + rest;
      assert forall x :: x in es <==> x == e || x in Elements(rest);
    }
  }

  /** Unique ids are not only sufficient for the merge law but also necessary. */
  lemma OrderFreeExactlyWhenIdsAreUnique(s: set<EventEnvelope>)
    ensures OrderFree(s) <==> UniqueIds(s)
  {
    if UniqueIds(s) {
      forall xs, ys | Elements(xs) == s && Elements(ys) == s
        ensures InsertAll(map[], xs) == InsertAll(map[], ys)
      {
        var empty: Log := map[];
        assert Contents(empty) + Elements(xs) == s;
        MergeIsOrderFree(map[], xs, ys);
      }
    }
    if OrderFree(s) {
      forall e, f | e in s && f in s && e.id == f.id
        ensures e == f
      {
        OrderFreeSeparates(s, e, f);
      }
    }
  }

  lemma OrderFreeSeparates(s: set<EventEnvelope>, e: EventEnvelope, f: EventEnvelope)
    requires OrderFree(s) && e in s && f in s && e.id == f.id
    ensures e == f
  {
    var es := Enumerate(s);
    FrontRepeat(s, e, es);
    FrontRepeat(s, f, es);
    assert InsertAll(map[], [e] + es) == InsertAll(map[], [f] + es);
  }

  /** Repeating one event in front of a list of the set keeps the set and puts that event first. */
  lemma FrontRepeat(s: set<EventEnvelope>, e: EventEnvelope, es: seq<EventEnvelope>)
    requires e in s && Elements(es) == s
    ensures Elements([e] + es) == s
    ensures e.id in InsertAll(map[], [e] + es) && InsertAll(map[], [e] + es)[e.id] == e
  {
    var xs := [e] + es;
    assert forall x :: x in xs <==> x == e || x in Elements(es);
    assert xs[0] == e && xs[1..] == es;
    FirstInsertWins(Insert(map[], e), e.id, es);
  }

  // ---------- The order in which a stream is listed ----------

  predicate Before(e: EventEnvelope, f: EventEnvelope) {
    e.time < f.time || (e.time == f.time && Less(e.id, f.id))
  }

  lemma BeforeTotal(e: EventEnvelope, f: EventEnvelope)
    requires e.id != f.id
    ensures Before(e, f) || Before(f, e)
  {
    LessTotal(e.id, f.id);
  }

  lemma BeforeAsymmetric(e: EventEnvelope, f: EventEnvelope)
    requires Before(e, f)
    ensures !Before(f, e) && e != f
  {
    if e.time == f.time {
      LessAsymmetric(e.id, f.id);
    }
  }

  lemma BeforeTransitive(e: EventEnvelope, f: EventEnvelope, g: EventEnvelope)
    requires Before(e, f) && Before(f, g)
    ensures Before(e, g)
  {
    if e.time == f.time && f.time == g.time {
      LessTransitive(e.id, f.id, g.id);
    }
  }

  ghost predicate StrictlySorted(es: seq<EventEnvelope>) {
    forall i, j :: 0 <= i < j < |es| ==> Before(es[i], es[j])
  }

  /** `es` shows every event of `s` once, in order. */
  ghost predicate Lists(es: seq<EventEnvelope>, s: set<EventEnvelope>) {
    StrictlySorted(es) && Elements(es) == s
  }

  /** There is only one way to list a set of events. */
  lemma {:induction false} ListingUnique(xs: seq<EventEnvelope>, ys: seq<EventEnvelope>)
    requires StrictlySorted(xs) && StrictlySorted(ys) && Elements(xs) == Elements(ys)
    ensures xs == ys
    decreases |xs|
  {
    assert |ys| > 0 ==> ys[0] in Elements(ys);
    if xs != [] {
      assert xs[0] in Elements(ys);
      var x, y := xs[0], ys[0];
      assert y in Elements(xs);
      HeadIsFirst(xs, y);
      HeadIsFirst(ys, x);
      if x != y {
        BeforeAsymmetric(x, y);
      }
      TailElements(xs);
      TailElements(ys);
      ListingUnique(xs[1..], ys[1..]);
    }
  }

  lemma HeadIsFirst(es: seq<EventEnvelope>, e: EventEnvelope)
    requires StrictlySorted(es) && e in es
    ensures e == es[0] || Before(es[0], e)
  {
  }

  lemma TailElements(es: seq<EventEnvelope>)
    requires StrictlySorted(es) && es != []
    ensures Elements(es[1..]) == Elements(es) - {es[0]} && StrictlySorted(es[1..])
  {
    forall e | e in es[1..]
      ensures e != es[0]
    {
      BeforeAsymmetric(es[0], e);
    }
  }

  ghost predicate IsFirst(e: EventEnvelope, s: set<EventEnvelope>) {
    e in s && forall f :: f in s && f != e ==> Before(e, f)
  }

  lemma {:induction false} FirstExists(s: set<EventEnvelope>)
    requires s != {} && UniqueIds(s)
    ensures exists e :: IsFirst(e, s)
    decreases |s|
  {
    var x :| x in s;
    if s == {x} {
      assert IsFirst(x, s);
    } else {
      FirstExists(s - {x});
      var y :| IsFirst(y, s - {x});
      BeforeTotal(x, y);
      var e := if Before(x, y) then x else y;
      forall f | f in s && f != e
        ensures Before(e, f)
      {
        if e == x && f != y {
          BeforeTransitive(x, y, f);
        }
      }
      assert IsFirst(e, s);
    }
  }

  /** The rows of a query over the set `s`, ordered by (created_at_ms, id). */
  ghost function Listing(s: set<EventEnvelope>): (es: seq<EventEnvelope>)
    requires UniqueIds(s)
    ensures Lists(es, s)
    decreases |s|
  {
    if s == {} then []
    else
      var first := FirstOf(s);
      PrependFirst(first, Listing(s - {first}), s);
      [first] + Listing(s - {first})
  }

  lemma PrependFirst(first: EventEnvelope, es: seq<EventEnvelope>, s: set<EventEnvelope>)
    requires IsFirst(first, s) && Lists(es, s - {first})
    ensures Lists([first] + es, s)
  {
    forall e | e in es
      ensures Before(first, e)
    {
      assert e in Elements(es);
    }
    var all := [first] + es;
    assert forall e :: e in all <==> e == first || e in Elements(es);
  }

  ghost function FirstOf(s: set<EventEnvelope>): (e: EventEnvelope)
    requires s != {} && UniqueIds(s)
    ensures IsFirst(e, s)
  {
    FirstExists(s);
    var e :| IsFirst(e, s);
    e
  }

  function Stream(log: Log, stream: string): set<EventEnvelope> {
    set id | id in log && log[id].stream == stream :: log[id]
  }

  lemma StreamHasUniqueIds(log: Log, stream: string)
    requires KeyedById(log)
    ensures UniqueIds(Stream(log, stream))
  {
  }

  /** The list that the query `events(stream)` returns. */
  ghost function Events(log: Log, stream: string): (es: seq<EventEnvelope>)
    requires KeyedById(log)
    ensures Lists(es, Stream(log, stream))
  {
    StreamHasUniqueIds(log, stream);
    Listing(Stream(log, stream))
  }

  /** Convergence of the log: whatever the order and however often events arrive, every stream
      is listed as the same sequence, by time and then by id, of exactly the stream's events. */
  lemma ListingDependsOnSetOnly(log: Log, xs: seq<EventEnvelope>, ys: seq<EventEnvelope>, stream: string)
    requires KeyedById(log) && Elements(xs) == Elements(ys)
    requires UniqueIds(Contents(log) + Elements(xs))
    ensures KeyedById(InsertAll(log, xs)) && KeyedById(InsertAll(log, ys))
    ensures Events(InsertAll(log, xs), stream) == Events(InsertAll(log, ys), stream)
    ensures Lists(Events(InsertAll(log, xs), stream),
                  set e | e in Contents(log) + Elements(xs) && e.stream == stream)
    ensures
      var es := Events(InsertAll(log, xs), stream);
      forall i, j :: 0 <= i < j < |es| ==>
        es[i].time < es[j].time || (es[i].time == es[j].time && Less(es[i].id, es[j].id))
  {
    InsertAllIsUnion(log, xs);
    MergeIsOrderFree(log, xs, ys);
    StreamIsFilteredContents(InsertAll(log, xs), stream);
  }

  lemma StreamIsFilteredContents(log: Log, stream: string)
    ensures Stream(log, stream) == set e | e in Contents(log) && e.stream == stream
  {
    forall e | e in Contents(log) && e.stream == stream
      ensures e in Stream(log, stream)
    {
      var id :| id in log && log[id] == e;
      assert log[id] in Stream(log, stream);
    }
  }

  /** Part of a query's way through its rows: `es` is listed, `rest` is still to come. */
  ghost predicate Listed(es: seq<EventEnvelope>, rest: set<EventEnvelope>, all: set<EventEnvelope>) {
    && rest <= all && Lists(es, all - rest)
    && forall i, f :: 0 <= i < |es| && f in rest ==> Before(es[i], f)
  }

  lemma ListNext(es: seq<EventEnvelope>, rest: set<EventEnvelope>, all: set<EventEnvelope>, e: EventEnvelope)
    requires Listed(es, rest, all) && IsFirst(e, rest)
    ensures Listed(es + [e], rest - {e}, all)
  {
    var more := es + [e];
    assert forall x :: x in more <==> x in Elements(es) || x == e;
    assert Elements(more) == all - (rest - {e});
  }

  // ---------- Parts of a listing ----------

  /** The events of a list that `author` wrote. */
  function By(author: DeviceId, es: seq<EventEnvelope>): seq<EventEnvelope> {
    if es == [] then []
    else if es[0].author == author then [es[0]] + By(author, es[1..])
    else By(author, es[1..])
  }

  /** The events of a list whose id is not among `known`. */
  function Unknown(known: set<string>, es: seq<EventEnvelope>): seq<EventEnvelope> {
    if es == [] then []
    else if es[0].id !in known then [es[0]] + Unknown(known, es[1..])
    else Unknown(known, es[1..])
  }

  lemma {:induction false} ByMembers(author: DeviceId, es: seq<EventEnvelope>)
    ensures forall e :: e in By(author, es) <==> e in es && e.author == author
  {
    if es != [] {
      ByMembers(author, es[1..]);
      assert es == [es[0]] + es[1..];
    }
  }

  lemma {:induction false} UnknownMembers(known: set<string>, es: seq<EventEnvelope>)
    ensures forall e :: e in Unknown(known, es) <==> e in es && e.id !in known
  {
    if es != [] {
      UnknownMembers(known, es[1..]);
      assert es == [es[0]] + es[1..];
    }
  }

  /** Selecting by author or by novelty keeps the order. */
  lemma {:induction false} BySorted(author: DeviceId, es: seq<EventEnvelope>)
    requires StrictlySorted(es)
    ensures StrictlySorted(By(author, es))
  {
    if es != [] {
      BySorted(author, es[1..]);
      ByMembers(author, es[1..]);
      forall e | e in By(author, es[1..])
        ensures Before(es[0], e)
      {
        assert e in es[1..];
      }
    }
  }

  lemma {:induction false} UnknownSorted(known: set<string>, es: seq<EventEnvelope>)
    requires StrictlySorted(es)
    ensures StrictlySorted(Unknown(known, es))
  {
    if es != [] {
      UnknownSorted(known, es[1..]);
      UnknownMembers(known, es[1..]);
      forall e | e in Unknown(known, es[1..])
        ensures Before(es[0], e)
      {
        assert e in es[1..];
      }
    }
  }

  lemma SortedHasNoRepeats(es: seq<EventEnvelope>, i: nat, j: nat)
    requires StrictlySorted(es) && i < |es| && j < |es| && es[i] == es[j]
    ensures i == j
  {
    if i < j {
      BeforeAsymmetric(es[i], es[j]);
    } else if j < i {
      BeforeAsymmetric(es[j], es[i]);
    }
  }
}
