/**
  The `/trackers` routes: the body schemas and the handlers that create,
  list, fetch, replace and delete tracker rows. Every handler runs after the
  auth gate, which supplies the caller's user id, and every read or write by
  id is scoped by the pair (tracker id, owner id).
 */
module TrackerRoutes {
  import opened Wrappers
  import opened Schema
  import opened Http

  const TrackerNotFound := Response(404, Message("Tracker not found"))
  const TrackerDeleted := Response(200, Message("Tracker deleted successfully"))
  const ServerError := Response(500, Message("Internal server error"))

  /** A tracker request body as received; `None` is a field that is absent or not a string. */
  datatype TrackerInput = TrackerInput(
    name: Option<string>,
    cronExpr: Option<string>,
    compareMode: Option<string>,
    websiteUrl: Option<string>,
    selector: Option<string>)

  /** A body that passed `trackerSchema`: the five fields a client may set. */
  datatype TrackerBody = TrackerBody(
    name: string,
    cronExpr: string,
    compareMode: CompareMode,
    websiteUrl: string,
    selector: string)

  /** A probe request body as received, and as accepted by `testTrackerSchema`. */
  datatype TestTrackerInput = TestTrackerInput(websiteUrl: Option<string>, selector: Option<string>, compareMode: Option<string>)
  datatype TestTrackerBody = TestTrackerBody(websiteUrl: string, selector: string, compareMode: CompareMode)

  /** A field holding a URL (as the format check `isUrl` judges it) of at most 255 characters. */
  predicate UrlWithin(v: Option<string>, isUrl: string -> bool)
  {
    v.Some? && isUrl(v.value) && |v.value| <= 255
  }

  /** A field holding one of the two compare-mode labels. */
  predicate IsModeLabel(v: Option<string>)
  {
    v.Some? && ParseCompareMode(v.value).Some?
  }

  /**
    `trackerSchema`: name, cronExpr and selector are strings of 1 to 255
    characters, websiteUrl a URL of at most 255, compareMode one of the two
    labels. A rejection names every failing field.
   */
  function ParseTrackerBody(input: TrackerInput, isUrl: string -> bool): (r: Parsed<TrackerBody>)
    ensures r.Accepted? <==>
      && input.name.Some? && 1 <= |input.name.value| <= 255
      && input.cronExpr.Some? && 1 <= |input.cronExpr.value| <= 255
      && input.compareMode.Some? && (input.compareMode.value == "innerText" || input.compareMode.value == "innerHtml")
      && input.websiteUrl.Some? && isUrl(input.websiteUrl.value) && |input.websiteUrl.value| <= 255
      && input.selector.Some? && 1 <= |input.selector.value| <= 255
    ensures r.Accepted? ==>
      && input.name == Some(r.value.name)
      && input.cronExpr == Some(r.value.cronExpr)
      && input.compareMode == Some(CompareModeName(r.value.compareMode))
      && input.websiteUrl == Some(r.value.websiteUrl)
      && input.selector == Some(r.value.selector)
    ensures r.Rejected? ==>
      && ("name" in r.paths <==> !StringWithin(input.name, 1, 255))
      && ("cronExpr" in r.paths <==> !StringWithin(input.cronExpr, 1, 255))
      && ("compareMode" in r.paths <==> !IsModeLabel(input.compareMode))
      && ("websiteUrl" in r.paths <==> !UrlWithin(input.websiteUrl, isUrl))
      && ("selector" in r.paths <==> !StringWithin(input.selector, 1, 255))
      && r.paths <= {"name", "cronExpr", "compareMode", "websiteUrl", "selector"}
  {
    var paths :=
      Issue("name", StringWithin(input.name, 1, 255))
      + Issue("cronExpr", StringWithin(input.cronExpr, 1, 255))
      + Issue("compareMode", IsModeLabel(input.compareMode))
      + Issue("websiteUrl", UrlWithin(input.websiteUrl, isUrl))
      + Issue("selector", StringWithin(input.selector, 1, 255));
    if paths == {} then
      Accepted(TrackerBody(input.name.value, input.cronExpr.value, ParseCompareMode(input.compareMode.value).value,
                           input.websiteUrl.value, input.selector.value))
    else
      Rejected(paths)
  }

  /** `testTrackerSchema`: the probe draft, checked with the same rules as the matching tracker fields. */
  function ParseTestTrackerBody(input: TestTrackerInput, isUrl: string -> bool): (r: Parsed<TestTrackerBody>)
    ensures r.Accepted? <==>
      && input.websiteUrl.Some? && isUrl(input.websiteUrl.value) && |input.websiteUrl.value| <= 255
      && input.selector.Some? && 1 <= |input.selector.value| <= 255
      && input.compareMode.Some? && (input.compareMode.value == "innerText" || input.compareMode.value == "innerHtml")
    ensures r.Accepted? ==>
      && input.websiteUrl == Some(r.value.websiteUrl)
      && input.selector == Some(r.value.selector)
      && input.compareMode == Some(CompareModeName(r.value.compareMode))
    ensures r.Rejected? ==>
      && ("websiteUrl" in r.paths <==> !UrlWithin(input.websiteUrl, isUrl))
      && ("selector" in r.paths <==> !StringWithin(input.selector, 1, 255))
      && ("compareMode" in r.paths <==> !IsModeLabel(input.compareMode))
      && r.paths <= {"websiteUrl", "selector", "compareMode"}
  {
    var paths :=
      Issue("websiteUrl", UrlWithin(input.websiteUrl, isUrl))
      + Issue("selector", StringWithin(input.selector, 1, 255))
      + Issue("compareMode", IsModeLabel(input.compareMode));
    if paths == {} then
      Accepted(TestTrackerBody(input.websiteUrl.value, input.selector.value, ParseCompareMode(input.compareMode.value).value))
    else
      Rejected(paths)
  }

  /** The five client-set fields of a row. */
  function BodyOf(t: Tracker): TrackerBody
  {
    TrackerBody(t.name, t.cronExpr, t.compareMode, t.websiteUrl, t.selector)
  }

  /**
    The row `UPDATE ... SET { ...body, updatedAt: now }` leaves: all five
    client fields replaced, updatedAt set, id, owner and createdAt kept.
   */
  function Replaced(t: Tracker, b: TrackerBody, now: int): (u: Tracker)
    ensures BodyOf(u) == b && u.updatedAt == now
    ensures u.id == t.id && u.userId == t.userId && u.createdAt == t.createdAt
  {
    t.(name := b.name, cronExpr := b.cronExpr, compareMode := b.compareMode,
       websiteUrl := b.websiteUrl, selector := b.selector, updatedAt := now)
  }

  /** A validated body always fits the columns; in particular the URL cap of 255 is below the column's 2550. */
  lemma AcceptedBodyFits(input: TrackerInput, isUrl: string -> bool, now: int)
    requires ParseTrackerBody(input, isUrl).Accepted?
    ensures forall t :: FitsTrackerColumns(Replaced(t, ParseTrackerBody(input, isUrl).value, now))
  {
  }

  /** The caller owns the row stored under `id`. */
  predicate Owns(rows: map<int, Tracker>, id: int, caller: int)
  {
    id in rows && rows[id].userId == Some(caller)
  }

  /** `WHERE trackers.id = id AND trackers.userId = caller`, as the set of matching keys. */
  function Matching(rows: map<int, Tracker>, id: int, caller: int): set<int>
  {
    set k | k in rows && rows[k].id == id && rows[k].userId == Some(caller)
  }

  /** `WHERE trackers.userId = caller`, as the set of matching rows. */
  function OwnedBy(rows: map<int, Tracker>, caller: int): set<Tracker>
  {
    set k | k in rows && rows[k].userId == Some(caller) :: rows[k]
  }

  /** Because id is the primary key, the compound predicate matches the caller's row under `id` or nothing. */
  lemma MatchingIsOwnedKey(rows: map<int, Tracker>, nextId: int, id: int, caller: int)
    requires TrackersInvariant(rows, nextId)
    ensures Matching(rows, id, caller) == if Owns(rows, id, caller) then {id} else {}
  {
    forall k | k in Matching(rows, id, caller) ensures k == id {
    }
  }

  /** The list and the lookup agree: a row is listed for the caller exactly when fetching its id returns it. */
  lemma OwnedByIsLookup(rows: map<int, Tracker>, nextId: int, caller: int, t: Tracker)
    requires TrackersInvariant(rows, nextId)
    ensures t in OwnedBy(rows, caller) <==> Owns(rows, t.id, caller) && rows[t.id] == t
  {
  }

  /** The lists of two different callers never share a row. */
  lemma OwnedByDisjoint(rows: map<int, Tracker>, a: int, b: int)
    requires a != b
    ensures OwnedBy(rows, a) !! OwnedBy(rows, b)
  {
  }

  /** Inserting a row adds it to its owner's list and leaves every other list as it was. */
  lemma {:induction false} OwnedByAfterInsert(rows: map<int, Tracker>, t: Tracker, caller: int)
    requires t.id !in rows
    ensures OwnedBy(rows[t.id := t], caller) == OwnedBy(rows, caller) + (if t.userId == Some(caller) then {t} else {})
  {
    var after := rows[t.id := t];
    forall u | u in OwnedBy(after, caller) ensures u in OwnedBy(rows, caller) || u == t {
      var k :| k in after && after[k].userId == Some(caller) && after[k] == u;
      if k != t.id {
        assert rows[k] == u;
      }
    }
    forall u | u in OwnedBy(rows, caller) ensures u in OwnedBy(after, caller) {
      var k :| k in rows && rows[k].userId == Some(caller) && rows[k] == u;
      assert after[k] == u;
    }
    assert t.userId == Some(caller) ==> after[t.id] == t && t in OwnedBy(after, caller);
  }

  /**
    The `trackers` table. `rows` maps each generated id to its row and
    `nextId` is the next value of the identity column.
   */
  class TrackerTable {
    var rows: map<int, Tracker>
    var nextId: int

    ghost predicate Valid()
      reads this
    {
      TrackersInvariant(rows, nextId)
    }

    constructor ()
      ensures Valid() && rows == map[] && nextId == 1
    {
      rows := map[];
      nextId := 1;
    }

    /**
      POST `/`: validate the body, then insert `{ ...body, userId: caller }`
      and return the inserted row.
     */
    method Create(caller: int, input: TrackerInput, isUrl: string -> bool, now: int, storeFault: bool)
      returns (r: Response)
      requires Valid()
      modifies this
      ensures Valid()
      ensures ParseTrackerBody(input, isUrl).Rejected? ==>
        && r == ValidationFailure(ParseTrackerBody(input, isUrl).paths)
        && rows == old(rows) && nextId == old(nextId)
      ensures ParseTrackerBody(input, isUrl).Accepted? && storeFault ==>
        r == ServerError && rows == old(rows) && nextId == old(nextId)
      ensures ParseTrackerBody(input, isUrl).Accepted? && !storeFault ==>
        && old(nextId) !in old(rows) && old(nextId) in rows
        && rows == old(rows)[old(nextId) := rows[old(nextId)]]
        && nextId == old(nextId) + 1
        && rows[old(nextId)].id == old(nextId)
        && rows[old(nextId)].userId == Some(caller)
        && BodyOf(rows[old(nextId)]) == ParseTrackerBody(input, isUrl).value
        && rows[old(nextId)].createdAt == now && rows[old(nextId)].updatedAt == now
        && r == Response(200, TrackerJson(rows[old(nextId)]))
    {
      match ParseTrackerBody(input, isUrl)
      case Rejected(paths) =>
        r := ValidationFailure(paths);
      case Accepted(body) =>
        if storeFault {
          r := ServerError;
          return;
        }
        var t := Tracker(nextId, Some(caller), body.name, body.cronExpr, body.compareMode,
                         body.websiteUrl, body.selector, now, now);
        rows := rows[nextId := t];
        nextId := nextId + 1;
        r := Response(200, TrackerJson(t));
    }

    /** GET `/`: every row whose owner is the caller. */
    method List(caller: int, storeFault: bool) returns (r: Response)
      requires Valid()
      ensures storeFault ==> r == ServerError
      ensures !storeFault ==>
        && r.status == 200 && r.body.TrackerListJson?
        && forall t :: t in r.body.trackers <==> Owns(rows, t.id, caller) && rows[t.id] == t
    {
      if storeFault {
        return ServerError;
      }
      forall t ensures t in OwnedBy(rows, caller) <==> Owns(rows, t.id, caller) && rows[t.id] == t {
        OwnedByIsLookup(rows, nextId, caller, t);
      }
      r := Response(200, TrackerListJson(OwnedBy(rows, caller)));
    }

    /**
      GET `/:id`: the row matching both id and owner, or 404. A row owned by
      someone else gets the same answer as an id that does not exist.
     */
    method Get(caller: int, id: int, storeFault: bool) returns (r: Response)
      requires Valid()
      ensures storeFault ==> r == ServerError
      ensures !storeFault && Owns(rows, id, caller) ==> r == Response(200, TrackerJson(rows[id]))
      ensures !storeFault && !Owns(rows, id, caller) ==> r == TrackerNotFound
    {
      if storeFault {
        return ServerError;
      }
      var hits := Matching(rows, id, caller);
      MatchingIsOwnedKey(rows, nextId, id, caller);
      if hits == {} {
        r := TrackerNotFound;
      } else {
        var k :| k in hits;
        r := Response(200, TrackerJson(rows[k]));
      }
    }

    /**
      PUT `/:id`: validate the body, then replace the five client fields of
      the row matching both id and owner and stamp updatedAt; 404 when no
      row matches.
     */
    method Update(caller: int, id: int, input: TrackerInput, isUrl: string -> bool, now: int, storeFault: bool)
      returns (r: Response)
      requires Valid()
      modifies this
      ensures Valid() && nextId == old(nextId)
      ensures ParseTrackerBody(input, isUrl).Rejected? ==>
        r == ValidationFailure(ParseTrackerBody(input, isUrl).paths) && rows == old(rows)
      ensures ParseTrackerBody(input, isUrl).Accepted? && storeFault ==>
        r == ServerError && rows == old(rows)
      ensures ParseTrackerBody(input, isUrl).Accepted? && !storeFault && Owns(old(rows), id, caller) ==>
        && rows == old(rows)[id := Replaced(old(rows)[id], ParseTrackerBody(input, isUrl).value, now)]
        && r == Response(200, TrackerJson(rows[id]))
      ensures ParseTrackerBody(input, isUrl).Accepted? && !storeFault && !Owns(old(rows), id, caller) ==>
        r == TrackerNotFound && rows == old(rows)
    {
      match ParseTrackerBody(input, isUrl)
      case Rejected(paths) =>
        r := ValidationFailure(paths);
      case Accepted(body) =>
        if storeFault {
          r := ServerError;
          return;
        }
        AcceptedBodyFits(input, isUrl, now);
        var hits := Matching(rows, id, caller);
        MatchingIsOwnedKey(rows, nextId, id, caller);
        rows := map k | k in rows :: if k in hits then Replaced(rows[k], body, now) else rows[k];
        var updated := set k | k in hits :: rows[k];
        assert hits == {id} ==> updated == {rows[id]};
        if updated == {} {
          r := TrackerNotFound;
        } else {
          var t :| t in updated;
          r := Response(200, TrackerJson(t));
        }
    }

    /**
      DELETE `/:id`: remove the row matching both id and owner and confirm
      with a message rather than the row; 404 when no row matches.
     */
    method Delete(caller: int, id: int, storeFault: bool) returns (r: Response)
      requires Valid()
      modifies this
      ensures Valid() && nextId == old(nextId)
      ensures storeFault ==> r == ServerError && rows == old(rows)
      ensures !storeFault && Owns(old(rows), id, caller) ==> r == TrackerDeleted && rows == old(rows) - {id}
      ensures !storeFault && !Owns(old(rows), id, caller) ==> r == TrackerNotFound && rows == old(rows)
    {
      if storeFault {
        return ServerError;
      }
      var hits := Matching(rows, id, caller);
      MatchingIsOwnedKey(rows, nextId, id, caller);
      rows := rows - hits;
      if hits == {} {
        r := TrackerNotFound;
      } else {
        r := TrackerDeleted;
      }
    }
  }

  /** Creating a tracker and then fetching the returned id answers with the very row that was created. */
  method CreateThenGet(table: TrackerTable, caller: int, input: TrackerInput, isUrl: string -> bool, now: int)
    returns (created: Response, fetched: Response)
    requires table.Valid()
    modifies table
    ensures ParseTrackerBody(input, isUrl).Accepted? ==>
      && created.status == 200 && created.body.TrackerJson?
      && BodyOf(created.body.tracker) == ParseTrackerBody(input, isUrl).value
      && fetched == created
  {
    created := table.Create(caller, input, isUrl, now, false);
    if created.body.TrackerJson? {
      fetched := table.Get(caller, created.body.tracker.id, false);
    } else {
      fetched := created;
    }
  }

  /** The first delete of an id succeeds exactly when the caller owns it; a second one always finds nothing. */
  method DeleteTwice(table: TrackerTable, caller: int, id: int) returns (first: Response, second: Response)
    requires table.Valid()
    modifies table
    ensures first == if Owns(old(table.rows), id, caller) then TrackerDeleted else TrackerNotFound
    ensures second == TrackerNotFound
    ensures table.rows == if Owns(old(table.rows), id, caller) then old(table.rows) - {id} else old(table.rows)
  {
    first := table.Delete(caller, id, false);
    second := table.Delete(caller, id, false);
  }

  /**
    To the caller, another user's row is indistinguishable from an id with
    no row: fetching either gets the same answer.
   */
  method ForeignRowLooksAbsent(table: TrackerTable, caller: int, foreign: int, absent: int, storeFault: bool)
    returns (onForeign: Response, onAbsent: Response)
    requires table.Valid()
    requires foreign in table.rows && table.rows[foreign].userId != Some(caller)
    requires absent !in table.rows
    ensures onForeign == onAbsent
    ensures !storeFault ==> onForeign == TrackerNotFound
  {
    onForeign := table.Get(caller, foreign, storeFault);
    onAbsent := table.Get(caller, absent, storeFault);
  }
}
