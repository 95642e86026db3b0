/** Account analytics, recommendations and collaboration sharing
    (src/routes/advanced.py). Dates are day numbers. */
module AccountAnalytics {
  import opened Common

  // ---------------------------------------------------------------------------
  // Merging breakdown tables
  // ---------------------------------------------------------------------------

  /** `d.get(k, 0)` */
  function Get(m: map<string, int>, k: string): int
  {
    if k in m then m[k] else 0
  }

  /** Adding one record's table into the accumulated one. */
  function AddTable(acc: map<string, int>, t: map<string, int>): (r: map<string, int>)
    ensures r.Keys == acc.Keys + t.Keys
    ensures forall k :: Get(r, k) == Get(acc, k) + Get(t, k)
  {
    map k | k in acc.Keys + t.Keys :: Get(acc, k) + Get(t, k)
  }

  /** The tables of `records`, added up from the first to the last. */
  function Merged(tables: seq<map<string, int>>): map<string, int>
  {
    if tables == [] then map[] else AddTable(Merged(tables[..|tables| - 1]), tables[|tables| - 1])
  }

  /** Some record's table has a bucket `k`. */
  predicate InSome(tables: seq<map<string, int>>, k: string)
  {
    exists i :: 0 <= i < |tables| && k in tables[i]
  }

  /** The count of bucket `k` summed over all tables (0 where a table lacks it). */
  function SumAt(tables: seq<map<string, int>>, k: string): int
  {
    if tables == [] then 0 else SumAt(tables[..|tables| - 1], k) + Get(tables[|tables| - 1], k)
  }

  /** The merged table has as buckets exactly the union of the records' buckets, and each
      bucket holds the sum of that bucket's counts across all records. */
  lemma {:induction false} MergedIsUnionAndSum(tables: seq<map<string, int>>)
    ensures forall k :: k in Merged(tables) <==> InSome(tables, k)
    ensures forall k :: Get(Merged(tables), k) == SumAt(tables, k)
  {
    if tables != [] {
      var init := tables[..|tables| - 1];
      MergedIsUnionAndSum(init);
      forall k | InSome(tables, k) ensures k in Merged(tables) {
        var i :| 0 <= i < |tables| && k in tables[i];
        if i < |tables| - 1 {
          assert k in init[i];
        }
      }
      forall k | k in Merged(tables) ensures InSome(tables, k) {
        if k in Merged(init) {
          var i :| 0 <= i < |init| && k in init[i];
          assert k in tables[i];
        }
      }
    }
  }

  /** Merging in one more record's table only adds counts. */
  lemma MergeOneMore(tables: seq<map<string, int>>, t: map<string, int>)
    ensures Merged(tables + [t]) == AddTable(Merged(tables), t)
  {
    assert (tables + [t])[..|tables|] == tables;
  }

  /** The nested `for` loops that merge one breakdown table of every record. */
  method MergeTables(tables: seq<map<string, int>>) returns (m: map<string, int>)
    ensures m == Merged(tables)
  {
    m := map[];
    var i := 0;
    while i < |tables|
      invariant 0 <= i <= |tables|
      invariant m == Merged(tables[..i])
    {
      var t := tables[i];
      var acc := AddInto(m, t);
      MergeOneMore(tables[..i], t);
      assert tables[..i + 1] == tables[..i] + [t];
      m := acc;
      i := i + 1;
    }
    assert tables[..i] == tables;
  }

  /** The inner loop: `d[k] = d.get(k, 0) + count` for every bucket of one table. */
  method AddInto(m: map<string, int>, t: map<string, int>) returns (acc: map<string, int>)
    ensures acc == AddTable(m, t)
  {
    var pending := t.Keys;
    acc := m;
    while pending != {}
      invariant pending <= t.Keys
      invariant acc.Keys == m.Keys + (t.Keys - pending)
      invariant forall j :: Get(acc, j) == Get(m, j) + (if j in pending then 0 else Get(t, j))
      decreases pending
    {
      var k :| k in pending;
      acc := acc[k := Get(acc, k) + t[k]];
      pending := pending - {k};
    }
    var r := AddTable(m, t);
    assert forall j :: Get(acc, j) == Get(r, j);
    SameTable(acc, r);
  }

  /** Two tables with the same buckets and the same counts are equal. */
  lemma SameTable(a: map<string, int>, b: map<string, int>)
    requires a.Keys == b.Keys && forall j :: Get(a, j) == Get(b, j)
    ensures a == b
  {
    forall j | j in a.Keys ensures a[j] == b[j] {
      assert Get(a, j) == Get(b, j);
    }
  }

  // ---------------------------------------------------------------------------
  // Daily records and the summary
  // ---------------------------------------------------------------------------

  /** A row of `advanced_analytics` (bounce rate and time on page are not modelled). */
  datatype DailyRecord = DailyRecord(
    userId: int,
    date: int,
    totalViews: int,
    uniqueVisitors: int,
    devices: map<string, int>,
    locations: map<string, int>,
    referrers: map<string, int>)

  function SumViews(records: seq<DailyRecord>): int
  {
    if records == [] then 0 else SumViews(records[..|records| - 1]) + records[|records| - 1].totalViews
  }

  function SumVisitors(records: seq<DailyRecord>): int
  {
    if records == [] then 0 else SumVisitors(records[..|records| - 1]) + records[|records| - 1].uniqueVisitors
  }

  function DeviceTables(records: seq<DailyRecord>): (r: seq<map<string, int>>)
    ensures |r| == |records| && forall i :: 0 <= i < |r| ==> r[i] == records[i].devices
  {
    seq(|records|, i requires 0 <= i < |records| => records[i].devices)
  }

  function LocationTables(records: seq<DailyRecord>): (r: seq<map<string, int>>)
    ensures |r| == |records| && forall i :: 0 <= i < |r| ==> r[i] == records[i].locations
  {
    seq(|records|, i requires 0 <= i < |records| => records[i].locations)
  }

  function ReferrerTables(records: seq<DailyRecord>): (r: seq<map<string, int>>)
    ensures |r| == |records| && forall i :: 0 <= i < |r| ==> r[i] == records[i].referrers
  {
    seq(|records|, i requires 0 <= i < |records| => records[i].referrers)
  }

  /** One `time_series` entry. */
  datatype Point = Point(date: int, views: int, visitors: int)

  datatype AccountSummary = AccountSummary(
    totalViews: int,
    totalVisitors: int,
    devices: map<string, int>,
    locations: map<string, int>,
    referrers: map<string, int>,
    timeSeries: seq<Point>)

  predicate ByDate(records: seq<DailyRecord>)
  {
    forall i, j :: 0 <= i < j < |records| ==> records[i].date <= records[j].date
  }

  /** The summary part of `get_analytics_summary` over the records it works on. */
  method SummarizeRecords(records: seq<DailyRecord>) returns (s: AccountSummary)
    ensures s.totalViews == SumViews(records) && s.totalVisitors == SumVisitors(records)
    ensures s.devices == Merged(DeviceTables(records))
    ensures s.locations == Merged(LocationTables(records))
    ensures s.referrers == Merged(ReferrerTables(records))
    ensures |s.timeSeries| == |records|
    ensures forall i :: 0 <= i < |records| ==>
      s.timeSeries[i] == Point(records[i].date, records[i].totalViews, records[i].uniqueVisitors)
    ensures ByDate(records) ==> forall i, j :: 0 <= i < j < |records| ==> s.timeSeries[i].date <= s.timeSeries[j].date
  {
    var views, visitors := 0, 0;
    var i := 0;
    while i < |records|
      invariant 0 <= i <= |records|
      invariant views == SumViews(records[..i]) && visitors == SumVisitors(records[..i])
    {
      assert records[..i + 1][..i] == records[..i];
      views := views + records[i].totalViews;
      visitors := visitors + records[i].uniqueVisitors;
      i := i + 1;
    }
    assert records[..i] == records;
    var devices := MergeTables(DeviceTables(records));
    var locations := MergeTables(LocationTables(records));
    var referrers := MergeTables(ReferrerTables(records));
    var series := seq(|records|, k requires 0 <= k < |records| =>
      Point(records[k].date, records[k].totalViews, records[k].uniqueVisitors));
    s := AccountSummary(views, visitors, devices, locations, referrers, series);
  }

  /** The answer of the range query, in stored order: the user's records dated from `lo`
      to `hi`, both included. */
  function InWindow(records: seq<DailyRecord>, userId: int, lo: int, hi: int): (r: seq<DailyRecord>)
    ensures forall x :: x in r <==> x in records && x.userId == userId && lo <= x.date <= hi
    ensures |r| <= |records|
  {
    if records == [] then []
    else
      var x := records[0];
      (if x.userId == userId && lo <= x.date <= hi then [x] else []) + InWindow(records[1..], userId, lo, hi)
  }

  /** The range query returns each of the user's records in the window as often as it is
      stored, and no other record. */
  lemma {:induction false} InWindowCounts(records: seq<DailyRecord>, userId: int, lo: int, hi: int, x: DailyRecord)
    ensures multiset(InWindow(records, userId, lo, hi))[x] ==
      if x.userId == userId && lo <= x.date <= hi then multiset(records)[x] else 0
  {
    if records != [] {
      InWindowCounts(records[1..], userId, lo, hi, x);
      assert records == [records[0]] + records[1..];
    }
  }

  /** `date.today() - timedelta(days=days)` up to today: a date lies in the window exactly
      when it is at most `days` days before today and not after today. */
  function Window(today: int, days: int): (r: (int, int))
    ensures r.1 == today && r.1 - r.0 == days
    ensures days >= 0 ==> DaysIn(r.0, r.1) == days + 1
    ensures days < 0 ==> DaysIn(r.0, r.1) == 0
  {
    (today - days, today)
  }

  // ---------------------------------------------------------------------------
  // Mock records
  // ---------------------------------------------------------------------------

  /** The random values drawn for one mock day (the float-derived breakdowns included). */
  datatype Draw = Draw(views: int, visitors: int, devices: map<string, int>,
                       locations: map<string, int>, referrers: map<string, int>)

  /** What `random.randint(50, 200)` and `random.randint(30, views)` can return. */
  predicate InRange(d: Draw)
  {
    50 <= d.views <= 200 && 30 <= d.visitors <= d.views
  }

  function DaysIn(start: int, end: int): nat
  {
    if start <= end then end - start + 1 else 0
  }

  /** The records `generate_mock_analytics` builds from its draws: one per day from
      `start` to `end`, both included. */
  function MockRecords(userId: int, start: int, draws: seq<Draw>): (r: seq<DailyRecord>)
    ensures |r| == |draws|
    ensures forall i :: 0 <= i < |r| ==> r[i].date == start + i && r[i].userId == userId
    ensures forall i :: 0 <= i < |r| ==> r[i].totalViews == draws[i].views && r[i].uniqueVisitors == draws[i].visitors
    ensures ByDate(r) && forall i, j :: 0 <= i < j < |r| ==> r[i].date < r[j].date
  {
    seq(|draws|, i requires 0 <= i < |draws| =>
      DailyRecord(userId, start + i, draws[i].views, draws[i].visitors,
                  draws[i].devices, draws[i].locations, draws[i].referrers))
  }

  /** The keyword parameters `AdvancedAnalytics.__init__` declares. */
  const RecordInitParams: set<string> := {"user_id", "date", "total_views", "unique_visitors"}

  /** The keywords `generate_mock_analytics` passes to `AdvancedAnalytics(...)`. */
  const MockRecordArgs: set<string> :=
    {"user_id", "date", "total_views", "unique_visitors", "bounce_rate", "avg_time_on_page"}

  /** Python raises TypeError for a call passing a keyword the function does not declare. */
  predicate InitRaises(args: set<string>)
  {
    exists a :: a in args && a !in RecordInitParams
  }

  /** The mock generator's constructor call raises: it passes `bounce_rate` and
      `avg_time_on_page`, which the constructor does not declare. */
  lemma MockConstructorRaises()
    ensures InitRaises(MockRecordArgs)
    ensures MockRecordArgs - RecordInitParams == {"bounce_rate", "avg_time_on_page"}
  {
    assert "bounce_rate" in MockRecordArgs && "bounce_rate" !in RecordInitParams;
  }

  /** With draws in `randint`'s ranges, the totals of n mock days lie between 50n and 200n
      views, and there are never more visitors than views. */
  lemma {:induction false} MockTotalsBounded(records: seq<DailyRecord>, draws: seq<Draw>, userId: int, start: int)
    requires records == MockRecords(userId, start, draws)
    requires forall i :: 0 <= i < |draws| ==> InRange(draws[i])
    ensures 50 * |records| <= SumViews(records) <= 200 * |records|
    ensures 30 * |records| <= SumVisitors(records) <= SumViews(records)
  {
    if records != [] {
      var n := |records| - 1;
      assert records[..n] == MockRecords(userId, start, draws[..n]);
      MockTotalsBounded(records[..n], draws[..n], userId, start);
      assert InRange(draws[n]);
    }
  }

  // ---------------------------------------------------------------------------
  // Recommendations and collaborations
  // ---------------------------------------------------------------------------

  /** The kinds `generate_recommendations` creates, in order, for the requested type
      (`data.get('type', 'all')`). */
  function RecommendationKinds(requested: Option<Json>): (r: seq<string>)
    ensures requested.None? || requested == Some(JStr("all")) ==> r == ["layout", "content", "theme"]
    ensures requested.Some? && requested.value.JStr? && requested.value.s in ["layout", "content", "theme"] ==>
      r == [requested.value.s]
    ensures !(requested.None? || (requested.value.JStr? && requested.value.s in ["all", "layout", "content", "theme"])) ==> r == []
    ensures forall i, j :: 0 <= i < j < |r| ==> r[i] != r[j]
  {
    var t := if requested.Some? then requested.value else JStr("all");
    (if t in [JStr("all"), JStr("layout")] then ["layout"] else [])
    + (if t in [JStr("all"), JStr("content")] then ["content"] else [])
    + (if t in [JStr("all"), JStr("theme")] then ["theme"] else [])
  }

  datatype Recommendation = Recommendation(userId: int, kind: string, isApplied: bool)

  /** A row of `collaborations`; the request's values are stored as sent. */
  datatype Collaboration = Collaboration(
    ownerId: int, collaboratorId: int, resourceType: Json, resourceId: Json, permissionLevel: Json)

  datatype CollabOutcome =
    | CollabSaved(id: int, record: Collaboration)   // 201 on create, 200 on update
    | MissingFields                                 // 400
    | UnknownUser                                   // 404 'User not found'
    | NotYours                                      // 404
    | AlreadyShared                                 // 409
    | SaveFailed                                    // 500, after a rollback
    | LookupFailed                                  // 500: a lookup query raised outside the try block

  const RequiredCollabFields: seq<string> := ["collaborator_email", "resource_type", "resource_id", "permission_level"]

  /** The body carries every field `create_collaboration` requires. */
  predicate HasCollabFields(body: Body)
  {
    !Missing(body) && forall f :: f in RequiredCollabFields ==> f in body.value
  }

  /** The collaborator's email names a known user. */
  predicate KnownCollaborator(body: Body, usersByEmail: map<string, int>)
  {
    HasCollabFields(body) && body.value["collaborator_email"].JStr? && body.value["collaborator_email"].s in usersByEmail
  }

  /** The user the collaborator's email names. */
  function CollaboratorOf(body: Body, usersByEmail: map<string, int>): int
    requires KnownCollaborator(body, usersByEmail)
  {
    usersByEmail[body.value["collaborator_email"].s]
  }

  /** The owner already shares the resource the body names with this collaborator. */
  predicate AlreadyExists(collaborations: map<int, Collaboration>, ownerId: int, body: Body, usersByEmail: map<string, int>)
    requires KnownCollaborator(body, usersByEmail)
  {
    exists id :: id in collaborations && collaborations[id].ownerId == ownerId
      && collaborations[id].collaboratorId == CollaboratorOf(body, usersByEmail)
      && collaborations[id].resourceType == body.value["resource_type"]
      && collaborations[id].resourceId == body.value["resource_id"]
  }

  /** The existence query cannot bind the resource the body names (a list or an object). */
  predicate LookupUnbindable(d: map<string, Json>)
    requires "resource_type" in d && "resource_id" in d
  {
    Unbindable(d["resource_type"]) || Unbindable(d["resource_id"])
  }

  /** The commit fails: a NOT NULL column would receive NULL, or a column a list or an
      object. */
  predicate NullColumn(d: map<string, Json>)
    requires "resource_type" in d && "resource_id" in d && "permission_level" in d
  {
    || d["resource_type"] == JNull || d["resource_id"] == JNull || d["permission_level"] == JNull
    || LookupUnbindable(d) || Unbindable(d["permission_level"])
  }

  /** The store behind the analytics, recommendation and collaboration tables. */
  class AdvancedStore {
    var analytics: seq<DailyRecord>
    var recommendations: seq<Recommendation>
    var collaborations: map<int, Collaboration>
    var nextCollabId: int

    constructor ()
      ensures analytics == [] && recommendations == [] && collaborations == map[] && nextCollabId == 1
    {
      analytics, recommendations := [], [];
      collaborations, nextCollabId := map[], 1;
    }

    /** `generate_mock_analytics` as evidently intended, with a record constructor that
        accepts the two float columns: builds one record per day from `start` to `end` and
        stores them; when the commit fails nothing is stored and the result is empty. */
    method GenerateMockAnalytics(userId: int, start: int, end: int, draws: seq<Draw>, commitFails: bool)
      returns (records: seq<DailyRecord>)
      requires |draws| == DaysIn(start, end)
      modifies this`analytics
      ensures commitFails ==> records == [] && analytics == old(analytics)
      ensures !commitFails ==> records == MockRecords(userId, start, draws) && analytics == old(analytics) + records
    {
      var built: seq<DailyRecord> := [];
      var day := start;
      while day <= end
        invariant start <= day || built == []
        invariant |built| == (if start <= day then day - start else 0) <= |draws|
        invariant built == MockRecords(userId, start, draws[..|built|])
        invariant start <= end ==> day <= end + 1
        decreases end - day
      {
        var d := draws[day - start];
        built := built + [DailyRecord(userId, day, d.views, d.visitors, d.devices, d.locations, d.referrers)];
        assert draws[..|built|] == draws[..|built| - 1] + [d];
        day := day + 1;
      }
      assert draws[..|built|] == draws;
      if commitFails {
        return [];
      }
      analytics := analytics + built;
      records := built;
    }

    /** `get_analytics_summary` as written. `rows` is the answer of the range query: each
        of the user's records dated inside the window once, in date order. With none, the
        route calls `generate_mock_analytics`, whose first `AdvancedAnalytics(...)` call
        raises TypeError outside its `try` (MockConstructorRaises): a window of at least
        one day then answers 500 (None) with nothing stored, and an empty window (a
        negative `days`) summarises no records. */
    method GetAnalyticsSummary(userId: int, today: int, days: Option<int>, rows: seq<DailyRecord>)
      returns (s: Option<AccountSummary>)
      requires var w := Window(today, if days.Some? then days.value else 30);
        && multiset(rows) == multiset(InWindow(analytics, userId, w.0, w.1))
        && ByDate(rows)
      ensures var w := Window(today, if days.Some? then days.value else 30);
        && (s.None? <==> rows == [] && DaysIn(w.0, w.1) > 0 && InitRaises(MockRecordArgs))
        && (s.Some? ==>
              && s.value.totalViews == SumViews(rows) && s.value.totalVisitors == SumVisitors(rows)
              && s.value.devices == Merged(DeviceTables(rows))
              && s.value.locations == Merged(LocationTables(rows))
              && s.value.referrers == Merged(ReferrerTables(rows))
              && |s.value.timeSeries| == |rows|
              && (forall i :: 0 <= i < |rows| ==>
                    s.value.timeSeries[i] == Point(rows[i].date, rows[i].totalViews, rows[i].uniqueVisitors))
              && (forall i, j :: 0 <= i < j < |rows| ==> s.value.timeSeries[i].date <= s.value.timeSeries[j].date))
    {
      var w := Window(today, if days.Some? then days.value else 30);
      MockConstructorRaises();
      if rows == [] && w.0 <= w.1 {
        return None;   // TypeError from the mock generator
      }
      var summary := SummarizeRecords(rows);
      s := Some(summary);
    }

    /** `generate_recommendations`: a request without a JSON body fails (500, None); otherwise
        one unapplied recommendation per selected kind is stored and returned. */
    method GenerateRecommendations(userId: int, body: Body) returns (created: Option<seq<Recommendation>>)
      modifies this`recommendations
      ensures body.None? ==> created.None? && recommendations == old(recommendations)
      ensures body.Some? ==>
        && created.Some?
        && var kinds := RecommendationKinds(if "type" in body.value then Some(body.value["type"]) else None);
           && |created.value| == |kinds|
           && (forall i :: 0 <= i < |kinds| ==> created.value[i] == Recommendation(userId, kinds[i], false))
           && recommendations == old(recommendations) + created.value
    {
      if body.None? {
        return None;
      }
      var kinds := RecommendationKinds(if "type" in body.value then Some(body.value["type"]) else None);
      var made := seq(|kinds|, i requires 0 <= i < |kinds| => Recommendation(userId, kinds[i], false));
      recommendations := recommendations + made;
      created := Some(made);
    }

    /** `create_collaboration`. `usersByEmail` stands for the users table. */
    method CreateCollaboration(ownerId: int, body: Body, usersByEmail: map<string, int>) returns (out: CollabOutcome)
      modifies this`collaborations, this`nextCollabId
      ensures !out.CollabSaved? ==> collaborations == old(collaborations) && nextCollabId == old(nextCollabId)
      ensures out != NotYours
      ensures out == MissingFields <==> !HasCollabFields(body)
      ensures out == UnknownUser <==>
        HasCollabFields(body) && !Unbindable(body.value["collaborator_email"]) && !KnownCollaborator(body, usersByEmail)
      ensures out == LookupFailed <==>
        && HasCollabFields(body)
        && (Unbindable(body.value["collaborator_email"])
            || (KnownCollaborator(body, usersByEmail) && LookupUnbindable(body.value)))
      ensures out == AlreadyShared <==>
        && KnownCollaborator(body, usersByEmail) && !LookupUnbindable(body.value)
        && AlreadyExists(old(collaborations), ownerId, body, usersByEmail)
      ensures out == SaveFailed <==>
        && KnownCollaborator(body, usersByEmail) && !LookupUnbindable(body.value)
        && !AlreadyExists(old(collaborations), ownerId, body, usersByEmail)
        && NullColumn(body.value)
      ensures out.CollabSaved? ==>
        && KnownCollaborator(body, usersByEmail)
        && var d := body.value;
           var c := Collaboration(ownerId, CollaboratorOf(body, usersByEmail),
                                  d["resource_type"], d["resource_id"], d["permission_level"]);
           && out.id == old(nextCollabId) && out.record == c
           && collaborations == old(collaborations)[out.id := c] && nextCollabId == old(nextCollabId) + 1
    {
      if Missing(body) || exists f :: f in RequiredCollabFields && f !in body.value {
        return MissingFields;
      }
      var d := body.value;
      var email := d["collaborator_email"];
      if Unbindable(email) {
        return LookupFailed;
      }
      if !(email.JStr? && email.s in usersByEmail) {
        return UnknownUser;
      }
      if LookupUnbindable(d) {
        return LookupFailed;
      }
      if AlreadyExists(collaborations, ownerId, body, usersByEmail) {
        return AlreadyShared;
      }
      if NullColumn(d) {
        return SaveFailed;   // NOT NULL columns
      }
      var c := Collaboration(ownerId, CollaboratorOf(body, usersByEmail), d["resource_type"], d["resource_id"], d["permission_level"]);
      out := CollabSaved(nextCollabId, c);
      collaborations := collaborations[nextCollabId := c];
      nextCollabId := nextCollabId + 1;
    }

    /** `update_collaboration`: only the owner may update, and only `permission_level`
        changes, and only when the body carries it. */
    method UpdateCollaboration(ownerId: int, id: int, body: Body) returns (out: CollabOutcome)
      modifies this`collaborations
      ensures !out.CollabSaved? ==> collaborations == old(collaborations)
      ensures out == NotYours <==> id !in old(collaborations) || old(collaborations)[id].ownerId != ownerId
      ensures out == MissingFields <==> id in old(collaborations) && old(collaborations)[id].ownerId == ownerId && Missing(body)
      ensures out.CollabSaved? ==>
        && id in old(collaborations) && out.id == id
        && var c := old(collaborations)[id];
           && out.record == (if "permission_level" in body.value then c.(permissionLevel := body.value["permission_level"]) else c)
           && collaborations == old(collaborations)[id := out.record]
      ensures out == SaveFailed <==>
        && id in old(collaborations) && old(collaborations)[id].ownerId == ownerId && !Missing(body)
        && "permission_level" in body.value
        && (body.value["permission_level"] == JNull || Unbindable(body.value["permission_level"]))
      ensures out in {NotYours, MissingFields, SaveFailed} || out.CollabSaved?
    {
      if id !in collaborations || collaborations[id].ownerId != ownerId {
        return NotYours;
      }
      if Missing(body) {
        return MissingFields;
      }
      var c := collaborations[id];
      if "permission_level" in body.value {
        if body.value["permission_level"] == JNull || Unbindable(body.value["permission_level"]) {
          return SaveFailed;   // NOT NULL column, or a list or object
        }
        c := c.(permissionLevel := body.value["permission_level"]);
      }
      collaborations := collaborations[id := c];
      out := CollabSaved(id, c);
    }
  }
}
