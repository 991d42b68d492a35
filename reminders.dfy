/** The reminder service over an in-memory document store: cleanup of past
    one-off reminders, create, list, update and delete. */
module Reminders {
  import opened Wrappers

  datatype Repeat = NoRepeat | Daily | Weekly | Monthly

  /** `new Date(dateTime)`: a point in time in milliseconds, or the invalid
      date a malformed string gives. */
  datatype Instant = InvalidDate | At(ms: int)

  /** A stored reminder document (the `id` is its key in the store). */
  datatype Reminder = Reminder(
    title: string,
    dateTime: Instant,
    repeat: Repeat,
    completed: bool,
    createdAt: int,
    userId: Option<string>)

  /** `ReminderFormData`, with `${date}T${time}` already parsed. */
  datatype FormData = FormData(title: string, parsed: Option<int>, repeat: Repeat)

  /** `Partial<Reminder>`: `None` for a field that is not given. */
  datatype Updates = Updates(
    title: Option<string>,
    dateTime: Option<Instant>,
    repeat: Option<Repeat>,
    completed: Option<bool>,
    createdAt: Option<int>,
    userId: Option<string>)

  datatype ServiceError = InvalidTime | NotFound

  /** A JavaScript string is truthy when present and not empty. */
  predicate Truthy(s: Option<string>) { s.Some? && s.value != "" }

  /** `hasDateTimePassed`: an invalid date compares false with everything. */
  predicate HasDateTimePassed(dt: Instant, now: int) {
    dt.At? && dt.ms < now
  }

  /** The `where('userId', '==', userId)` filter, applied only for a truthy
      `userId`. */
  predicate Selected(r: Reminder, userId: Option<string>) {
    !Truthy(userId) || r.userId == userId
  }

  /** The cleanup condition. */
  predicate Due(r: Reminder, now: int) {
    r.repeat == NoRepeat && !r.completed && HasDateTimePassed(r.dateTime, now)
  }

  /** What a committed cleanup leaves in the store. */
  function CleanedUp(docs: map<string, Reminder>, userId: Option<string>, now: int): map<string, Reminder> {
    map id | id in docs :: if Selected(docs[id], userId) && Due(docs[id], now)
      then docs[id].(completed := true) else docs[id]
  }

  /** Cleanup marks as completed exactly the examined one-off reminders that
      are incomplete and past, writes nothing but `completed`, and keeps
      every key. */
  lemma CleanupMeaning(docs: map<string, Reminder>, userId: Option<string>, now: int, id: string)
    requires id in docs
    ensures var after := CleanedUp(docs, userId, now);
      && after.Keys == docs.Keys
      && (after[id] != docs[id] <==>
            Selected(docs[id], userId) && docs[id].repeat == NoRepeat && !docs[id].completed
            && HasDateTimePassed(docs[id].dateTime, now))
      && after[id] == docs[id].(completed := after[id].completed)
      && (after[id].completed <==> docs[id].completed || (Selected(docs[id], userId) && Due(docs[id], now)))
  {
  }

  /** A second cleanup at the same time changes nothing, and after a
      cleanup no examined reminder is due. */
  lemma CleanupIdempotent(docs: map<string, Reminder>, userId: Option<string>, now: int)
    ensures CleanedUp(CleanedUp(docs, userId, now), userId, now) == CleanedUp(docs, userId, now)
    ensures var after := CleanedUp(docs, userId, now);
      forall id :: id in after && Selected(after[id], userId) ==> !Due(after[id], now)
  {
    var once := CleanedUp(docs, userId, now);
    var twice := CleanedUp(once, userId, now);
    assert twice.Keys == once.Keys;
    forall id | id in once ensures twice[id] == once[id] {
      assert Selected(once[id], userId) == Selected(docs[id], userId);
    }
  }

  /** The keys a query returns. */
  function QueryIds(docs: map<string, Reminder>, userId: Option<string>): set<string> {
    set id | id in docs && Selected(docs[id], userId)
  }

  /** The `querySnapshot.forEach` loop: the ids of the due reminders among
      the snapshot's, visited in any order. */
  method CollectBatch(docs: map<string, Reminder>, snapshot: set<string>, now: int)
    returns (batch: set<string>)
    requires snapshot <= docs.Keys
    ensures batch <= snapshot
    ensures forall id :: id in snapshot ==> (id in batch <==> Due(docs[id], now))
  {
    batch := {};
    var remaining := snapshot;
    while remaining != {}
      invariant remaining <= snapshot
      invariant batch <= snapshot - remaining
      invariant forall id :: id in snapshot - remaining ==> (id in batch <==> Due(docs[id], now))
      decreases remaining
    {
      var id :| id in remaining;
      if Due(docs[id], now) {
        batch := batch + {id};
      }
      remaining := remaining - {id};
    }
  }

  /** Some key of a non-empty set holds a reminder no older than any other. */
  lemma {:induction false} NewestExists(docs: map<string, Reminder>, ids: set<string>) returns (m: string)
    requires ids != {} && ids <= docs.Keys
    decreases ids
    ensures m in ids && forall o :: o in ids ==> docs[o].createdAt <= docs[m].createdAt
  {
    var x :| x in ids;
    if ids == {x} {
      m := x;
    } else {
      var r := NewestExists(docs, ids - {x});
      m := if docs[x].createdAt >= docs[r].createdAt then x else r;
    }
  }

  /** The keys of a listing. */
  function KeysOf(list: seq<(string, Reminder)>): (keys: set<string>)
    ensures forall i :: 0 <= i < |list| ==> list[i].0 in keys
    ensures forall x :: x in keys ==> exists i :: 0 <= i < |list| && list[i].0 == x
  {
    if list == [] then {} else KeysOf(list[..|list| - 1]) + {list[|list| - 1].0}
  }

  /** A listing pairs each key with its document, repeats no key, and is
      ordered by `createdAt`, newest first. */
  ghost predicate NewestFirst(docs: map<string, Reminder>, list: seq<(string, Reminder)>) {
    && (forall i :: 0 <= i < |list| ==> list[i].0 in docs && list[i].1 == docs[list[i].0])
    && (forall i, j :: 0 <= i < j < |list| ==> list[i].0 != list[j].0)
    && (forall i, j :: 0 <= i < j < |list| ==> list[i].1.createdAt >= list[j].1.createdAt)
  }

  /** Every listed document is no older than any document still to come. */
  ghost predicate NoOlderThan(docs: map<string, Reminder>, list: seq<(string, Reminder)>, rest: set<string>)
    requires rest <= docs.Keys
  {
    forall i, o :: 0 <= i < |list| && o in rest ==> list[i].1.createdAt >= docs[o].createdAt
  }

  /** Appending the newest of the remaining documents keeps a listing
      newest-first. */
  lemma AppendNewest(docs: map<string, Reminder>, list: seq<(string, Reminder)>, rest: set<string>, id: string)
    requires rest <= docs.Keys && id in rest && id !in KeysOf(list)
    requires NewestFirst(docs, list) && NoOlderThan(docs, list, rest)
    requires forall o :: o in rest ==> docs[o].createdAt <= docs[id].createdAt
    ensures var next := list + [(id, docs[id])];
      && KeysOf(next) == KeysOf(list) + {id}
      && NewestFirst(docs, next) && NoOlderThan(docs, next, rest - {id})
  {
    var next := list + [(id, docs[id])];
    assert next[..|list|] == list;
    forall i, j | 0 <= i < j < |next| ensures next[i].0 != next[j].0 {
      if j == |list| {
        assert next[i].0 == list[i].0;
      }
    }
  }

  /** The documents of the query with `orderBy('createdAt', 'desc')`: each
      key once, with its document, newest first (equal times in any order). */
  method OrderNewestFirst(docs: map<string, Reminder>, ids: set<string>)
    returns (list: seq<(string, Reminder)>)
    requires ids <= docs.Keys
    ensures KeysOf(list) == ids
    ensures forall i :: 0 <= i < |list| ==> list[i].0 in docs && list[i].1 == docs[list[i].0]
    ensures forall i, j :: 0 <= i < j < |list| ==> list[i].0 != list[j].0
    ensures forall i, j :: 0 <= i < j < |list| ==> list[i].1.createdAt >= list[j].1.createdAt
  {
    list := [];
    var remaining := ids;
    while remaining != {}
      invariant remaining <= ids
      invariant KeysOf(list) == ids - remaining
      invariant NewestFirst(docs, list) && NoOlderThan(docs, list, remaining)
      decreases remaining
    {
      ghost var newest := NewestExists(docs, remaining);
      var id :| id in remaining && forall o :: o in remaining ==> docs[o].createdAt <= docs[id].createdAt;
      AppendNewest(docs, list, remaining, id);
      list := list + [(id, docs[id])];
      remaining := remaining - {id};
    }
  }

  /** The field-by-field effect of `updateDoc` with a partial record. */
  function Apply(r: Reminder, u: Updates): (s: Reminder)
    ensures u == Updates(None, None, None, None, None, None) ==> s == r
    ensures u.title.None? ==> s.title == r.title
    ensures u.dateTime.None? ==> s.dateTime == r.dateTime
    ensures u.repeat.None? ==> s.repeat == r.repeat
    ensures u.completed.None? ==> s.completed == r.completed
    ensures u.createdAt.None? ==> s.createdAt == r.createdAt
    ensures u.userId.None? ==> s.userId == r.userId
  {
    Reminder(
      if u.title.Some? then u.title.value else r.title,
      if u.dateTime.Some? then u.dateTime.value else r.dateTime,
      if u.repeat.Some? then u.repeat.value else r.repeat,
      if u.completed.Some? then u.completed.value else r.completed,
      if u.createdAt.Some? then u.createdAt.value else r.createdAt,
      if u.userId.Some? then u.userId else r.userId)
  }

  /** Applying the same partial record twice is applying it once. */
  lemma ApplyIdempotent(r: Reminder, u: Updates)
    ensures Apply(Apply(r, u), u) == Apply(r, u)
    ensures u.title.Some? ==> Apply(r, u).title == u.title.value
    ensures u.dateTime.Some? ==> Apply(r, u).dateTime == u.dateTime.value
    ensures u.repeat.Some? ==> Apply(r, u).repeat == u.repeat.value
    ensures u.completed.Some? ==> Apply(r, u).completed == u.completed.value
    ensures u.createdAt.Some? ==> Apply(r, u).createdAt == u.createdAt.value
    ensures u.userId.Some? ==> Apply(r, u).userId == u.userId
  {
  }

  /** The `reminders` collection. */
  class Store {
    var docs: map<string, Reminder>

    constructor()
      ensures docs == map[]
    {
      docs := map[];
    }

    /** `cleanupReminders(userId)` at time `now`. */
    method Cleanup(userId: Option<string>, now: int)
      modifies this
      ensures docs == CleanedUp(old(docs), userId, now)
    {
      var snapshot := QueryIds(docs, userId);
      var batch := CollectBatch(docs, snapshot, now);
      docs := map id | id in docs :: if id in batch then docs[id].(completed := true) else docs[id];
    }

    /** `createReminder(form, userId)`: `now` is `Timestamp.now()` and
        `freshId` the key `addDoc` picks. A date and time that do not parse
        make `toISOString` throw, and nothing is stored. */
    method Create(form: FormData, userId: Option<string>, now: int, freshId: string)
      returns (res: Result<string, ServiceError>)
      requires freshId !in docs
      modifies this
      ensures form.parsed.None? ==> res == Failure(InvalidTime) && docs == old(docs)
      ensures form.parsed.Some? ==>
        && res == Success(freshId)
        && docs == old(docs)[freshId := Reminder(form.title, At(form.parsed.value), form.repeat, false, now,
                                                 if Truthy(userId) then userId else None)]
    {
      if form.parsed.None? {
        return Failure(InvalidTime);
      }
      var saved := Reminder(form.title, At(form.parsed.value), form.repeat, false, now,
                            if Truthy(userId) then userId else None);
      docs := docs[freshId := saved];
      res := Success(freshId);
    }

    /** `getReminders(userId)`: cleanup first, then the examined reminders,
        newest first. */
    method GetReminders(userId: Option<string>, now: int) returns (list: seq<(string, Reminder)>)
      modifies this
      ensures docs == CleanedUp(old(docs), userId, now)
      ensures forall i :: 0 <= i < |list| ==>
        list[i].0 in docs && list[i].1 == docs[list[i].0] && Selected(list[i].1, userId)
      ensures forall id :: id in docs && Selected(docs[id], userId) ==>
        exists i :: 0 <= i < |list| && list[i].0 == id
      ensures forall i, j :: 0 <= i < j < |list| ==> list[i].0 != list[j].0
      ensures forall i, j :: 0 <= i < j < |list| ==> list[i].1.createdAt >= list[j].1.createdAt
      ensures forall i :: 0 <= i < |list| ==> !Due(list[i].1, now)
    {
      Cleanup(userId, now);
      CleanupIdempotent(old(docs), userId, now);
      list := OrderNewestFirst(docs, QueryIds(docs, userId));
      forall id | id in docs && Selected(docs[id], userId)
        ensures exists i :: 0 <= i < |list| && list[i].0 == id
      {
        assert id in QueryIds(docs, userId);
      }
    }

    /** `updateReminder(id, updates)`: `updateDoc` on a missing document
        fails and writes nothing. */
    method Update(id: string, updates: Updates) returns (res: Result<(), ServiceError>)
      modifies this
      ensures id !in old(docs) ==> res == Failure(NotFound) && docs == old(docs)
      ensures id in old(docs) ==> res == Success(()) && docs == old(docs)[id := Apply(old(docs)[id], updates)]
    {
      if id !in docs {
        return Failure(NotFound);
      }
      docs := docs[id := Apply(docs[id], updates)];
      res := Success(());
    }

    /** `deleteReminder(id)`; deleting a missing document is not an error. */
    method Delete(id: string)
      modifies this
      ensures docs == old(docs) - {id}
    {
      docs := docs - {id};
    }
  }
}
