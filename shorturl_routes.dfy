/** The short-link HTTP handlers (src/routes/shorturl.py) over the link table.
    `now` is the current time in seconds; a day is 86400 seconds. */
module ShortUrlRoutes {
  import opened Common
  import opened ShortUrlModel

  const Day: int := 86400

  // ---------------------------------------------------------------------------
  // Creating a short link
  // ---------------------------------------------------------------------------

  datatype ShortenOutcome =
    | Created(record: ShortUrl)   // 201
    | MissingUrl                  // 400 'Missing URL parameter'
    | InvalidUrl                  // 400 'Invalid URL format'
    | AliasInUse                  // 409
    | CommitFailed                // 500, after a rollback
    | CodesExhausted              // the supply of random attempts ran out

  /** `data.get(key)` read into a text column: a JSON string, or NULL for anything else. */
  function TextField(body: map<string, Json>, key: string): Option<string>
  {
    if key in body then TextOf(body[key]) else None
  }

  /** The body's `domain` is a list or an object, which the commit cannot store. */
  predicate BadDomain(body: map<string, Json>)
  {
    "domain" in body && Unbindable(body["domain"])
  }

  /** The URL to shorten, when the body has one that the validator accepts. */
  function ValidatedUrl(body: map<string, Json>, isUrl: string -> bool): Option<string>
  {
    if "url" in body && body["url"].JStr? && isUrl(body["url"].s) then Some(body["url"].s) else None
  }

  /** `expires_days and isinstance(expires_days, int)`: a non-zero integer (or `true`,
      which Python counts as the integer 1) sets the expiry that many days ahead. */
  function ExpiryFrom(expiresDays: Option<Json>, now: int): (r: Option<int>)
    ensures r.Some? <==> expiresDays.Some? && Truthy(expiresDays.value) && (expiresDays.value.JInt? || expiresDays.value.JBool?)
    ensures expiresDays == Some(JBool(true)) ==> r == Some(now + Day)
    ensures r.Some? && expiresDays.value.JInt? ==> r.value == now + expiresDays.value.i * Day
  {
    match expiresDays
    case Some(JInt(d)) => if d != 0 then Some(now + d * Day) else None
    case Some(JBool(b)) => if b then Some(now + Day) else None
    case _ => None
  }

  /** `shorten_url`. `isUrl` stands for `validators.url`, `userId` for the logged-in user
      (None for an anonymous call), `rolls` for the random attempts of the code generator. */
  method ShortenUrl(store: LinkStore, body: Body, isUrl: string -> bool, userId: Option<int>,
                    now: int, rolls: seq<seq<int>>) returns (out: ShortenOutcome)
    requires store.Valid() && ValidRolls(rolls, DefaultCodeLength)
    modifies store
    ensures store.Valid() && store.clicks == old(store.clicks)
    ensures !out.Created? ==> store.urls == old(store.urls) && store.nextId == old(store.nextId)
    ensures out == MissingUrl <==> Missing(body) || "url" !in body.value
    ensures out == InvalidUrl <==> !Missing(body) && "url" in body.value && ValidatedUrl(body.value, isUrl).None?
    ensures out == AliasInUse <==>
      && !Missing(body) && ValidatedUrl(body.value, isUrl).Some?
      && var alias := TextField(body.value, "custom_alias");
         alias.Some? && alias.value != "" && alias.value in old(store.Aliases())
    ensures out == CodesExhausted <==>
      && !Missing(body) && ValidatedUrl(body.value, isUrl).Some?
      && var alias := TextField(body.value, "custom_alias");
         && (alias.None? || alias.value == "")
         && FirstFreeRoll(rolls, DefaultCodeLength, old(store.Codes())).None?
    ensures out.Created? || out == CommitFailed ==>
      && var alias := TextField(body.value, "custom_alias");
         && ValidatedUrl(body.value, isUrl).Some?
         && (alias.Some? && alias.value != "" ==> alias.value !in old(store.Aliases()))
    ensures out == CommitFailed ==>
      var alias := TextField(body.value, "custom_alias");
      || (alias.Some? && alias.value != "" && alias.value in old(store.Codes()))
      || (alias == Some("") && "" in old(store.Aliases()))
      || BadDomain(body.value)
    ensures out.Created? ==>
      && var r := out.record;
         var alias := TextField(body.value, "custom_alias");
         && !BadDomain(body.value)
         && r.id == old(store.nextId)
         && store.urls == old(store.urls)[r.id := r]
         && r.originalUrl == ValidatedUrl(body.value, isUrl).value
         && r.customAlias == alias
         && r.domain == TextField(body.value, "domain")
         && r.userId == userId
         && r.createdAt == now
         && r.expiresAt == ExpiryFrom(if "expires_days" in body.value then Some(body.value["expires_days"]) else None, now)
         && r.clickCount == 0 && r.isActive
         && (alias.Some? && alias.value != "" ==> r.shortCode == alias.value)
         && (alias.None? || alias.value == "" ==>
               r.shortCode !in old(store.Codes()) && |r.shortCode| == DefaultCodeLength
               && FirstFreeRoll(rolls, DefaultCodeLength, old(store.Codes())).Some?
               && r.shortCode == CodeFromRoll(rolls[FirstFreeRoll(rolls, DefaultCodeLength, old(store.Codes())).value]))
  {
    if Missing(body) || "url" !in body.value {
      return MissingUrl;
    }
    var data := body.value;
    var url := ValidatedUrl(data, isUrl);
    if url.None? {
      return InvalidUrl;
    }
    var expiresAt := ExpiryFrom(if "expires_days" in data then Some(data["expires_days"]) else None, now);
    var alias := TextField(data, "custom_alias");
    if alias.Some? && alias.value != "" && alias.value in store.Aliases() {
      return AliasInUse;
    }
    var code: string;
    if alias.Some? && alias.value != "" {
      code := alias.value;
    } else {
      var generated := store.GenerateShortCode(rolls, DefaultCodeLength);
      if generated.None? {
        return CodesExhausted;
      }
      code := generated.value;
    }
    if BadDomain(data) {
      return CommitFailed;
    }
    var record := ShortUrl(0, url.value, code, alias, TextField(data, "domain"), userId, now, expiresAt, 0, true);
    var id := store.Insert(record);
    if id.None? {
      return CommitFailed;
    }
    out := Created(record.(id := id.value));
  }

  // ---------------------------------------------------------------------------
  // Following a short link
  // ---------------------------------------------------------------------------

  datatype ResolveOutcome =
    | Redirect(location: string)   // 302
    | NotFound                     // 404
    | Gone                         // 410

  /** A link resolves while it is active and its expiry, if any, is not strictly in the past. */
  predicate Live(u: ShortUrl, now: int)
  {
    u.isActive && !(u.expiresAt.Some? && u.expiresAt.value < now)
  }

  /** `redirect_to_url`: an unknown code is 404, an inactive or expired link is 410;
      otherwise exactly one click row is recorded, the counter goes up by one, and the
      caller is sent to the original URL. */
  method RedirectToUrl(store: LinkStore, code: string, now: int, referrer: Option<string>,
                       userAgent: Option<string>, ipAddress: Option<string>) returns (out: ResolveOutcome)
    requires store.Valid()
    modifies store
    ensures store.Valid() && store.nextId == old(store.nextId)
    ensures out.Redirect? <==> exists id :: id in old(store.urls) && old(store.urls)[id].shortCode == code && Live(old(store.urls)[id], now)
    ensures out == NotFound <==> code !in old(store.Codes())
    ensures !out.Redirect? ==> store.urls == old(store.urls) && store.clicks == old(store.clicks)
    ensures forall id :: id in old(store.urls) && old(store.urls)[id].shortCode == code && out.Redirect? ==>
      var u := old(store.urls)[id];
      && out.location == u.originalUrl
      && store.urls == old(store.urls)[id := u.(clickCount := u.clickCount + 1)]
      && store.clicks == old(store.clicks) + [NewClickEvent(id, now, referrer, userAgent, ipAddress)]
  {
    if code !in store.Codes() {
      return NotFound;
    }
    var id :| id in store.urls && store.urls[id].shortCode == code;
    var u := store.urls[id];
    if !u.isActive {
      return Gone;
    }
    if u.expiresAt.Some? && u.expiresAt.value < now {
      return Gone;
    }
    var analytics := new UrlAnalytics(id, now, referrer, userAgent, ipAddress);
    store.AddClick(analytics.Row());
    store.IncrementClick(id);
    out := Redirect(u.originalUrl);
  }

  /** The expiry test is strict: a link is still followed at the very second it expires. */
  lemma ExpiryIsStrict(u: ShortUrl, now: int)
    requires u.isActive && u.expiresAt == Some(now)
    ensures Live(u, now) && !Live(u, now + 1)
  {
  }

  // ---------------------------------------------------------------------------
  // Per-link analytics summary
  // ---------------------------------------------------------------------------

  /** `d[key] = d.get(key, 0) + 1` */
  function Bump<K>(m: map<K, int>, key: K): (r: map<K, int>)
    ensures r.Keys == m.Keys + {key}
  {
    m[key := (if key in m then m[key] else 0) + 1]
  }

  /** The frequency table the loop builds from a sequence of bucket names. */
  function Tally<K>(keys: seq<K>): map<K, int>
  {
    if keys == [] then map[] else Bump(Tally(keys[..|keys| - 1]), keys[|keys| - 1])
  }

  /** The table has a bucket for exactly the names that occur, holding how often each occurs. */
  lemma {:induction false} TallyCounts<K>(keys: seq<K>)
    ensures forall k :: k in Tally(keys) <==> k in keys
    ensures forall k :: k in Tally(keys) ==> Tally(keys)[k] == multiset(keys)[k]
  {
    if keys != [] {
      var init := keys[..|keys| - 1];
      assert keys == init + [keys[|keys| - 1]];
      TallyCounts(init);
    }
  }

  /** The sum of a table's counts. */
  ghost function Total<K>(m: map<K, int>): int
    decreases |m.Keys|
  {
    if m == map[] then 0
    else
      var k :| k in m;
      assert m.Keys - {k} < m.Keys;
      m[k] + Total(m - {k})
  }

  lemma {:induction false} TotalWithout<K>(m: map<K, int>, k: K)
    requires k in m
    ensures Total(m) == m[k] + Total(m - {k})
    decreases |m.Keys|
  {
    var j :| j in m && Total(m) == m[j] + Total(m - {j});
    if j != k {
      assert (m - {j})[k] == m[k];
      assert (m - {k})[j] == m[j];
      TotalWithout(m - {j}, k);
      TotalWithout(m - {k}, j);
      assert m - {j} - {k} == m - {k} - {j};
    }
  }

  lemma TotalBump<K>(m: map<K, int>, key: K)
    ensures Total(Bump(m, key)) == Total(m) + 1
  {
    var b := Bump(m, key);
    TotalWithout(b, key);
    if key in m {
      TotalWithout(m, key);
      assert b - {key} == m - {key};
    } else {
      assert b - {key} == m;
    }
  }

  /** Every table sums to the number of rows it was built from. */
  lemma {:induction false} TallyTotal<K>(keys: seq<K>)
    ensures Total(Tally(keys)) == |keys|
  {
    if keys == [] {
      assert Tally(keys) == map[];
    } else {
      var init := keys[..|keys| - 1];
      TallyTotal(init);
      TotalBump(Tally(init), keys[|keys| - 1]);
    }
  }

  /** `entry.x or default` for one column of each row. */
  function Column(rows: seq<ClickEvent>, key: ClickEvent -> string): (r: seq<string>)
    ensures |r| == |rows| && forall i :: 0 <= i < |rows| ==> r[i] == key(rows[i])
  {
    seq(|rows|, i requires 0 <= i < |rows| => key(rows[i]))
  }

  function DeviceKey(e: ClickEvent): string { OrDefault(e.deviceType, "unknown") }
  function BrowserKey(e: ClickEvent): string { OrDefault(e.browser, "unknown") }
  function CountryKey(e: ClickEvent): string { OrDefault(e.country, "unknown") }
  function ReferrerKey(e: ClickEvent): string { OrDefault(e.referrer, "direct") }

  /** `click_time.strftime('%Y-%m-%d')`, as a day number. */
  function DayOf(e: ClickEvent): int { e.clickTime / Day }

  function Days(rows: seq<ClickEvent>): (r: seq<int>)
    ensures |r| == |rows| && forall i :: 0 <= i < |rows| ==> r[i] == DayOf(rows[i])
  {
    seq(|rows|, i requires 0 <= i < |rows| => DayOf(rows[i]))
  }

  datatype Summary = Summary(
    totalClicks: int,
    devices: map<string, int>,
    browsers: map<string, int>,
    countries: map<string, int>,
    referrers: map<string, int>,
    clicksOverTime: map<int, int>)

  /** The summary loop of `get_url_details` over the link's click rows. `total_clicks`
      is the stored counter, not the number of rows. */
  method Summarize(rows: seq<ClickEvent>, clickCount: int) returns (s: Summary)
    ensures s.totalClicks == clickCount
    ensures s.devices == Tally(Column(rows, DeviceKey))
    ensures s.browsers == Tally(Column(rows, BrowserKey))
    ensures s.countries == Tally(Column(rows, CountryKey))
    ensures s.referrers == Tally(Column(rows, ReferrerKey))
    ensures s.clicksOverTime == Tally(Days(rows))
  {
    var devices, browsers, countries, referrers := map[], map[], map[], map[];
    var perDay := map[];
    var i := 0;
    while i < |rows|
      invariant 0 <= i <= |rows|
      invariant devices == Tally(Column(rows[..i], DeviceKey))
      invariant browsers == Tally(Column(rows[..i], BrowserKey))
      invariant countries == Tally(Column(rows[..i], CountryKey))
      invariant referrers == Tally(Column(rows[..i], ReferrerKey))
      invariant perDay == Tally(Days(rows[..i]))
    {
      var e := rows[i];
      ColumnStep(rows, i, DeviceKey);
      ColumnStep(rows, i, BrowserKey);
      ColumnStep(rows, i, CountryKey);
      ColumnStep(rows, i, ReferrerKey);
      DaysStep(rows, i);
      devices := Bump(devices, DeviceKey(e));
      browsers := Bump(browsers, BrowserKey(e));
      countries := Bump(countries, CountryKey(e));
      referrers := Bump(referrers, ReferrerKey(e));
      perDay := Bump(perDay, DayOf(e));
      i := i + 1;
    }
    assert rows[..i] == rows;
    s := Summary(clickCount, devices, browsers, countries, referrers, perDay);
  }

  lemma ColumnStep(rows: seq<ClickEvent>, i: nat, key: ClickEvent -> string)
    requires i < |rows|
    ensures Tally(Column(rows[..i + 1], key)) == Bump(Tally(Column(rows[..i], key)), key(rows[i]))
  {
    var c := Column(rows[..i + 1], key);
    assert c[..|c| - 1] == Column(rows[..i], key);
  }

  lemma DaysStep(rows: seq<ClickEvent>, i: nat)
    requires i < |rows|
    ensures Tally(Days(rows[..i + 1])) == Bump(Tally(Days(rows[..i])), DayOf(rows[i]))
  {
    var c := Days(rows[..i + 1]);
    assert c[..|c| - 1] == Days(rows[..i]);
  }

  /** A column's table counts every row exactly once. */
  lemma ColumnTableCountsRows(rows: seq<ClickEvent>, key: ClickEvent -> string)
    ensures Total(Tally(Column(rows, key))) == |rows|
    ensures forall i :: 0 <= i < |rows| ==> key(rows[i]) in Tally(Column(rows, key))
  {
    var c := Column(rows, key);
    TallyTotal(c);
    TallyCounts(c);
    assert forall i :: 0 <= i < |rows| ==> c[i] in c;
  }

  /** Each table of the summary counts every row exactly once, with rows lacking a value
      counted under 'unknown' (or 'direct' for the referrer). */
  lemma SummaryTablesCountEveryRow(rows: seq<ClickEvent>, s: Summary)
    requires s.devices == Tally(Column(rows, DeviceKey))
    requires s.browsers == Tally(Column(rows, BrowserKey))
    requires s.countries == Tally(Column(rows, CountryKey))
    requires s.referrers == Tally(Column(rows, ReferrerKey))
    requires s.clicksOverTime == Tally(Days(rows))
    ensures Total(s.devices) == |rows| && Total(s.browsers) == |rows| && Total(s.countries) == |rows|
    ensures Total(s.referrers) == |rows| && Total(s.clicksOverTime) == |rows|
    ensures forall i :: 0 <= i < |rows| && !Truthful(rows[i].deviceType) ==> "unknown" in s.devices
    ensures forall i :: 0 <= i < |rows| && !Truthful(rows[i].referrer) ==> "direct" in s.referrers
  {
    ColumnTableCountsRows(rows, DeviceKey);
    ColumnTableCountsRows(rows, BrowserKey);
    ColumnTableCountsRows(rows, CountryKey);
    ColumnTableCountsRows(rows, ReferrerKey);
    TallyTotal(Days(rows));
    forall i | 0 <= i < |rows| && !Truthful(rows[i].deviceType) ensures "unknown" in s.devices {
      assert DeviceKey(rows[i]) == "unknown";
    }
    forall i | 0 <= i < |rows| && !Truthful(rows[i].referrer) ensures "direct" in s.referrers {
      assert ReferrerKey(rows[i]) == "direct";
    }
  }

  /** `analytics[:10]` */
  function RecentClicks(rows: seq<ClickEvent>): (r: seq<ClickEvent>)
    ensures |r| == if |rows| < 10 then |rows| else 10
    ensures r == rows[..|r|]
  {
    if |rows| < 10 then rows else rows[..10]
  }

  /** The click rows of link `id`, in table order. */
  function ClicksFor(clicks: seq<ClickEvent>, id: int): (r: seq<ClickEvent>)
    ensures forall e :: e in r <==> e in clicks && e.shortUrlId == id
  {
    if clicks == [] then []
    else if clicks[0].shortUrlId == id then [clicks[0]] + ClicksFor(clicks[1..], id)
    else ClicksFor(clicks[1..], id)
  }

  predicate NewestFirst(rows: seq<ClickEvent>)
  {
    forall i, j :: 0 <= i < j < |rows| ==> rows[i].clickTime >= rows[j].clickTime
  }

  datatype Details = Details(url: UrlDict, summary: Summary, recent: seq<ClickEvent>)

  /** `get_url_details`. `rows` is the answer of the analytics query: the link's click
      rows ordered newest first. Another user's link, or an unknown id, is 404 (None). */
  method GetUrlDetails(store: LinkStore, urlId: int, userId: int, rows: seq<ClickEvent>)
    returns (out: Option<Details>)
    requires multiset(rows) == multiset(ClicksFor(store.clicks, urlId)) && NewestFirst(rows)
    ensures out.None? <==> urlId !in store.urls || store.urls[urlId].userId != Some(userId)
    ensures out.Some? ==>
      && out.value.url == ToDict(store.urls[urlId])
      && out.value.summary.totalClicks == store.urls[urlId].clickCount
      && out.value.summary.devices == Tally(Column(rows, DeviceKey))
      && out.value.summary.browsers == Tally(Column(rows, BrowserKey))
      && out.value.summary.countries == Tally(Column(rows, CountryKey))
      && out.value.summary.referrers == Tally(Column(rows, ReferrerKey))
      && out.value.summary.clicksOverTime == Tally(Days(rows))
      && out.value.recent == RecentClicks(rows)
      && |out.value.recent| <= 10 && NewestFirst(out.value.recent)
  {
    if urlId !in store.urls || store.urls[urlId].userId != Some(userId) {
      return None;
    }
    var u := store.urls[urlId];
    var summary := Summarize(rows, u.clickCount);
    out := Some(Details(ToDict(u), summary, RecentClicks(rows)));
  }

  // ---------------------------------------------------------------------------
  // Updating a short link
  // ---------------------------------------------------------------------------

  datatype UpdateOutcome =
    | Updated(dict: UrlDict)   // 200
    | NotOwned                 // 404
    | NoData                   // 400
    | AliasTaken               // 409
    | BadExpiry                // 500: `int(...)` raised outside the try block
    | UpdateFailed             // 500, after a rollback

  /** The alias change `update_url` attempts: present in the body and different from the
      current one. The new value is a JSON string or, for anything else, NULL. */
  function AliasChange(u: ShortUrl, data: map<string, Json>): Option<Option<string>>
  {
    if "custom_alias" in data && TextOf(data["custom_alias"]) != u.customAlias
    then Some(TextOf(data["custom_alias"])) else None
  }

  /** `int(data['expires_days'])` does not raise whenever it is evaluated, that is, when
      the value is truthy. */
  predicate ExpiryReadable(data: map<string, Json>)
  {
    "expires_days" in data && Truthy(data["expires_days"]) ==> PyInt(data["expires_days"]).Some?
  }

  /** The record after the field assignments of `update_url`: each field present in the
      body is overwritten, every other field is kept. */
  function Patched(u: ShortUrl, data: map<string, Json>, now: int): (r: ShortUrl)
    requires ExpiryReadable(data)
    ensures r.id == u.id && r.originalUrl == u.originalUrl && r.userId == u.userId
    ensures r.createdAt == u.createdAt && r.clickCount == u.clickCount
    ensures "domain" !in data ==> r.domain == u.domain
    ensures "is_active" !in data ==> r.isActive == u.isActive
    ensures "expires_days" !in data ==> r.expiresAt == u.expiresAt
    ensures "is_active" in data ==> r.isActive == Truthy(data["is_active"])
    ensures "expires_days" in data && !Truthy(data["expires_days"]) ==> r.expiresAt.None?
    ensures "expires_days" in data && Truthy(data["expires_days"]) ==>
      r.expiresAt == Some(now + PyInt(data["expires_days"]).value * Day)
    ensures "domain" in data ==> r.domain == TextOf(data["domain"])
    ensures var change := AliasChange(u, data);
      && (change.None? ==> r.customAlias == u.customAlias && r.shortCode == u.shortCode)
      && (change.Some? && change.value.Some? ==> r.customAlias == change.value && r.shortCode == change.value.value)
  {
    var change := AliasChange(u, data);
    var aliased :=
      if change.Some? && change.value.Some? then u.(customAlias := change.value, shortCode := change.value.value)
      else u;
    var withDomain := if "domain" in data then aliased.(domain := TextOf(data["domain"])) else aliased;
    var withActive := if "is_active" in data then withDomain.(isActive := Truthy(data["is_active"])) else withDomain;
    if "expires_days" in data then
      withActive.(expiresAt :=
        if Truthy(data["expires_days"]) then Some(now + PyInt(data["expires_days"]).value * Day) else None)
    else withActive
  }

  /** Sending the same update twice at the same instant changes nothing the second time. */
  lemma PatchIsIdempotent(u: ShortUrl, data: map<string, Json>, now: int)
    requires ExpiryReadable(data)
    requires var c := AliasChange(u, data); c.None? || c.value.Some?
    ensures Patched(Patched(u, data, now), data, now) == Patched(u, data, now)
  {
    var once := Patched(u, data, now);
    assert AliasChange(once, data).None?;
  }

  /** Replacing one record by a version whose code and alias no other record holds keeps
      ids, codes and aliases unique. */
  lemma ReplaceKeepsUnique(urls: map<int, ShortUrl>, urlId: int, r: ShortUrl)
    requires urlId in urls && r.id == urls[urlId].id
    requires forall id :: id in urls ==> urls[id].id == id
    requires forall a, b :: a in urls && b in urls && urls[a].shortCode == urls[b].shortCode ==> a == b
    requires forall a, b ::
      a in urls && b in urls && urls[a].customAlias.Some? && urls[a].customAlias == urls[b].customAlias ==> a == b
    requires forall other :: other in urls && other != urlId ==>
      urls[other].shortCode != r.shortCode && (r.customAlias.Some? ==> urls[other].customAlias != r.customAlias)
    ensures var after := urls[urlId := r];
      && (forall id :: id in after ==> after[id].id == id)
      && (forall a, b :: a in after && b in after && after[a].shortCode == after[b].shortCode ==> a == b)
      && (forall a, b ::
            a in after && b in after && after[a].customAlias.Some? && after[a].customAlias == after[b].customAlias ==> a == b)
  {
  }

  /** The caller owns link `urlId`. */
  predicate Owns(urls: map<int, ShortUrl>, urlId: int, userId: int)
  {
    urlId in urls && urls[urlId].userId == Some(userId)
  }

  /** A record other than `urlId` holds `alias` (NULL matches the records without one). */
  predicate AliasHeld(urls: map<int, ShortUrl>, urlId: int, alias: Option<string>)
  {
    exists other :: other in urls && other != urlId && urls[other].customAlias == alias
  }

  /** The alias check of `update_url` lets the request through and the alias, if it
      changes, is not NULL. */
  predicate AliasFree(urls: map<int, ShortUrl>, urlId: int, data: map<string, Json>)
    requires urlId in urls
  {
    var change := AliasChange(urls[urlId], data);
    change.None? || (!AliasHeld(urls, urlId, change.value) && change.value.Some?)
  }

  /** A record other than `urlId` already holds the short code or the alias of `r`, so
      the unique columns refuse the commit. */
  predicate Clashes(urls: map<int, ShortUrl>, urlId: int, r: ShortUrl)
  {
    exists other :: other in urls && other != urlId &&
      (urls[other].shortCode == r.shortCode || (r.customAlias.Some? && urls[other].customAlias == r.customAlias))
  }

  /** `update_url`. The alias check looks for another record holding the requested alias
      (a NULL alias matches the records whose alias is NULL); setting a NULL short code, or
      a code or alias another record holds, fails at commit and rolls back. */
  method UpdateUrl(store: LinkStore, urlId: int, userId: int, body: Body, now: int) returns (out: UpdateOutcome)
    requires store.Valid()
    modifies store
    ensures store.Valid() && store.clicks == old(store.clicks) && store.nextId == old(store.nextId)
    ensures !out.Updated? ==> store.urls == old(store.urls)
    ensures out == NotOwned <==> !Owns(old(store.urls), urlId, userId)
    ensures out == NoData <==> Owns(old(store.urls), urlId, userId) && Missing(body)
    ensures out == AliasTaken <==>
      && Owns(old(store.urls), urlId, userId) && !Missing(body)
      && var change := AliasChange(old(store.urls)[urlId], body.value);
         change.Some? && AliasHeld(old(store.urls), urlId, change.value)
    ensures out == BadExpiry <==>
      && Owns(old(store.urls), urlId, userId) && !Missing(body)
      && AliasFree(old(store.urls), urlId, body.value) && !ExpiryReadable(body.value)
    ensures out == UpdateFailed <==>
      && Owns(old(store.urls), urlId, userId) && !Missing(body)
      && var change := AliasChange(old(store.urls)[urlId], body.value);
         || (change.Some? && !AliasHeld(old(store.urls), urlId, change.value) && change.value.None?)
         || (&& AliasFree(old(store.urls), urlId, body.value) && ExpiryReadable(body.value)
             && (BadDomain(body.value) || Clashes(old(store.urls), urlId, Patched(old(store.urls)[urlId], body.value, now))))
    ensures out.Updated? <==>
      && Owns(old(store.urls), urlId, userId) && !Missing(body)
      && AliasFree(old(store.urls), urlId, body.value) && ExpiryReadable(body.value) && !BadDomain(body.value)
      && !Clashes(old(store.urls), urlId, Patched(old(store.urls)[urlId], body.value, now))
    ensures out.Updated? ==>
      && var r := Patched(old(store.urls)[urlId], body.value, now);
         && store.urls == old(store.urls)[urlId := r]
         && out.dict == ToDict(r)
         && var change := AliasChange(old(store.urls)[urlId], body.value);
            change.Some? ==> change.value.Some? && change.value.value !in old(store.Aliases())
  {
    if !Owns(store.urls, urlId, userId) {
      return NotOwned;
    }
    if Missing(body) {
      return NoData;
    }
    var data := body.value;
    var u := store.urls[urlId];
    var change := AliasChange(u, data);
    if change.Some? {
      if AliasHeld(store.urls, urlId, change.value) {
        return AliasTaken;
      }
      if change.value.None? {
        return UpdateFailed;    // short_code may not be NULL
      }
    }
    if !ExpiryReadable(data) {
      return BadExpiry;
    }
    var r := Patched(u, data, now);
    if BadDomain(data) || Clashes(store.urls, urlId, r) {
      return UpdateFailed;    // a list or object domain, or a unique column taken
    }
    if change.Some? {
      forall id | id in store.urls ensures store.urls[id].customAlias != change.value {
      }
    }
    ReplaceKeepsUnique(store.urls, urlId, r);
    store.urls := store.urls[urlId := r];
    out := Updated(ToDict(r));
  }

  // ---------------------------------------------------------------------------
  // Deleting a short link
  // ---------------------------------------------------------------------------

  /** `delete_url`: the owner's link is removed together with its click rows; anything
      else is 404 (false) and changes nothing. */
  method DeleteUrl(store: LinkStore, urlId: int, userId: int) returns (deleted: bool)
    requires store.Valid()
    modifies store
    ensures store.Valid()
    ensures deleted <==> urlId in old(store.urls) && old(store.urls)[urlId].userId == Some(userId)
    ensures deleted ==> store.urls == old(store.urls) - {urlId} && store.clicks == ClicksWithout(old(store.clicks), urlId)
    ensures !deleted ==> store.urls == old(store.urls) && store.clicks == old(store.clicks)
  {
    if urlId !in store.urls || store.urls[urlId].userId != Some(userId) {
      return false;
    }
    store.Delete(urlId);
    deleted := true;
  }
}
