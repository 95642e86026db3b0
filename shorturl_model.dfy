/** Short-link records, their click rows and the table that holds both
    (src/models/shorturl.py). Times are integer seconds. */
module ShortUrlModel {
  import opened Common

  // ---------------------------------------------------------------------------
  // Records
  // ---------------------------------------------------------------------------

  /** A row of `short_urls`. */
  datatype ShortUrl = ShortUrl(
    id: int,
    originalUrl: string,
    shortCode: string,
    customAlias: Option<string>,
    domain: Option<string>,
    userId: Option<int>,
    createdAt: int,
    expiresAt: Option<int>,
    clickCount: int,
    isActive: bool)

  const DefaultDomain: string := "linkak.com"

  /** The host a short URL is served from: its own domain, or the default one. */
  function Host(u: ShortUrl): string
  {
    OrDefault(u.domain, DefaultDomain)
  }

  /** `get_full_shortened_url` */
  function FullShortUrl(u: ShortUrl): string
  {
    "https://" + Host(u) + "/" + u.shortCode
  }

  /** The full short URL is an https URL on the record's host (the default host when the
      domain is empty or absent) whose last path segment gives the short code back. */
  lemma FullShortUrlParts(u: ShortUrl)
    requires '/' !in u.shortCode
    ensures StartsWith(FullShortUrl(u), "https://")
    ensures AfterLast(FullShortUrl(u), '/') == u.shortCode
    ensures FullShortUrl(u)[8..|FullShortUrl(u)| - |u.shortCode| - 1] == Host(u)
    ensures u.domain.None? || u.domain == Some("") ==> Host(u) == DefaultDomain
  {
    var url := FullShortUrl(u);
    assert url == ("https://" + Host(u)) + ['/'] + u.shortCode;
    AfterLastRecovers("https://" + Host(u), '/', u.shortCode);
    assert url[..8] == "https://";
  }

  /** The dictionary `to_dict` returns. */
  datatype UrlDict = UrlDict(
    id: int,
    originalUrl: string,
    shortCode: string,
    customAlias: Option<string>,
    domain: Option<string>,
    fullShortUrl: string,
    createdAt: Option<int>,
    expiresAt: Option<int>,
    clickCount: int,
    isActive: bool)

  function ToDict(u: ShortUrl): (d: UrlDict)
    ensures d.fullShortUrl == FullShortUrl(u)
  {
    UrlDict(u.id, u.originalUrl, u.shortCode, u.customAlias, u.domain, FullShortUrl(u),
            Some(u.createdAt), u.expiresAt, u.clickCount, u.isActive)
  }

  /** Reads a record back from its dictionary (the user id is not in the dictionary). */
  function FromDict(d: UrlDict, userId: Option<int>): ShortUrl
    requires d.createdAt.Some?
  {
    ShortUrl(d.id, d.originalUrl, d.shortCode, d.customAlias, d.domain, userId,
             d.createdAt.value, d.expiresAt, d.clickCount, d.isActive)
  }

  /** The dictionary loses nothing but the owner: every other column can be read back. */
  lemma ToDictRoundTrip(u: ShortUrl)
    ensures ToDict(u).createdAt.Some? && FromDict(ToDict(u), u.userId) == u
  {
  }

  // ---------------------------------------------------------------------------
  // Short codes
  // ---------------------------------------------------------------------------

  /** `string.ascii_letters + string.digits`: a-z, A-Z, 0-9. */
  const Alphabet: string := CharRange('a', 26) + CharRange('A', 26) + CharRange('0', 10)

  /** The `n` consecutive characters starting at `first`. */
  function CharRange(first: char, n: nat): (r: string)
    requires first as int + n <= 0xD800
    ensures |r| == n && forall i :: 0 <= i < n ==> r[i] as int == first as int + i
  {
    seq(n, i requires 0 <= i < n => (first as int + i) as char)
  }

  const DefaultCodeLength: nat := 6

  predicate IsAlnum(c: char)
  {
    'a' <= c <= 'z' || 'A' <= c <= 'Z' || '0' <= c <= '9'
  }

  /** The generator's attempts: each is `length` draws of `random.choice`, every draw an
      index into the alphabet. */
  predicate ValidRolls(rolls: seq<seq<int>>, length: nat)
  {
    forall k :: 0 <= k < |rolls| ==> |rolls[k]| == length && InAlphabet(rolls[k])
  }

  predicate InAlphabet(roll: seq<int>)
  {
    forall j :: 0 <= j < |roll| ==> 0 <= roll[j] < |Alphabet|
  }

  lemma AlphabetIsAlnum()
    ensures |Alphabet| == 62
    ensures forall k :: 0 <= k < |Alphabet| ==> IsAlnum(Alphabet[k])
  {
    forall k | 0 <= k < |Alphabet| ensures IsAlnum(Alphabet[k]) {
      if k < 26 {
        assert Alphabet[k] == CharRange('a', 26)[k];
      } else if k < 52 {
        assert Alphabet[k] == CharRange('A', 26)[k - 26];
      } else {
        assert Alphabet[k] == CharRange('0', 10)[k - 52];
      }
    }
  }

  /** The code an attempt spells. */
  function CodeFromRoll(roll: seq<int>): (code: string)
    requires InAlphabet(roll)
    ensures |code| == |roll|
    ensures forall j :: 0 <= j < |code| ==> IsAlnum(code[j])
  {
    AlphabetIsAlnum();
    seq(|roll|, j requires 0 <= j < |roll| => Alphabet[roll[j]])
  }

  /** The index of the first attempt whose code is not taken. */
  function FirstFreeRoll(rolls: seq<seq<int>>, length: nat, taken: set<string>): (r: Option<nat>)
    requires ValidRolls(rolls, length)
    ensures r.Some? ==> r.value < |rolls| && CodeFromRoll(rolls[r.value]) !in taken
    ensures r.Some? ==> forall k :: 0 <= k < r.value ==> CodeFromRoll(rolls[k]) in taken
    ensures r.None? <==> forall k :: 0 <= k < |rolls| ==> CodeFromRoll(rolls[k]) in taken
  {
    if rolls == [] then None
    else if CodeFromRoll(rolls[0]) !in taken then Some(0)
    else match FirstFreeRoll(rolls[1..], length, taken)
      case None => None
      case Some(k) => Some(k + 1)
  }

  // ---------------------------------------------------------------------------
  // User-agent classification
  // ---------------------------------------------------------------------------

  /** One `if`/`elif` arm of `parse_user_agent`: any keyword selects the label. */
  datatype Rule = Rule(keywords: seq<string>, name: string)

  predicate Fires(text: string, rule: Rule)
  {
    exists k :: 0 <= k < |rule.keywords| && Contains(text, rule.keywords[k])
  }

  /** The index of the first arm that fires. */
  function FirstFiring(text: string, rules: seq<Rule>): (r: Option<nat>)
    ensures r.Some? ==> r.value < |rules| && Fires(text, rules[r.value])
    ensures r.Some? ==> forall j :: 0 <= j < r.value ==> !Fires(text, rules[j])
    ensures r.None? <==> forall j :: 0 <= j < |rules| ==> !Fires(text, rules[j])
  {
    if rules == [] then None
    else if Fires(text, rules[0]) then Some(0)
    else match FirstFiring(text, rules[1..])
      case None => None
      case Some(j) => Some(j + 1)
  }

  /** An `if`/`elif`/`else` chain over the lower-cased user agent. */
  function Classify(ua: string, rules: seq<Rule>, fallback: string): (r: string)
    ensures r == fallback || exists j :: 0 <= j < |rules| && r == rules[j].name
  {
    match FirstFiring(Lower(ua), rules)
    case Some(j) => rules[j].name
    case None => fallback
  }

  /** When arm `j` fires and no earlier arm does, arm `j` decides. */
  lemma ClassifyByFirstArm(ua: string, rules: seq<Rule>, fallback: string, j: nat)
    requires j < |rules| && Fires(Lower(ua), rules[j])
    requires forall i :: 0 <= i < j ==> !Fires(Lower(ua), rules[i])
    ensures Classify(ua, rules, fallback) == rules[j].name
  {
    var r := FirstFiring(Lower(ua), rules);
    assert r.Some?;
  }

  const DeviceRules: seq<Rule> := [
    Rule(["mobile", "android", "iphone"], "mobile"),
    Rule(["tablet", "ipad"], "tablet")]

  const BrowserRules: seq<Rule> := [
    Rule(["chrome"], "Chrome"),
    Rule(["firefox"], "Firefox"),
    Rule(["safari"], "Safari"),
    Rule(["edge"], "Edge"),
    Rule(["opera"], "Opera")]

  const OsRules: seq<Rule> := [
    Rule(["windows"], "Windows"),
    Rule(["mac"], "MacOS"),
    Rule(["linux"], "Linux"),
    Rule(["android"], "Android"),
    Rule(["ios", "iphone", "ipad"], "iOS")]

  function DeviceType(ua: string): (r: string)
    ensures r in {"mobile", "tablet", "desktop"}
  {
    Classify(ua, DeviceRules, "desktop")
  }

  function Browser(ua: string): (r: string)
    ensures r in {"Chrome", "Firefox", "Safari", "Edge", "Opera", "Other"}
  {
    Classify(ua, BrowserRules, "Other")
  }

  function OperatingSystem(ua: string): (r: string)
    ensures r in {"Windows", "MacOS", "Linux", "Android", "iOS", "Other"}
  {
    Classify(ua, OsRules, "Other")
  }

  /** The mobile test runs first: an iPad agent that also says "Mobile" is a phone. */
  lemma MobileBeatsTablet(ua: string)
    requires Contains(Lower(ua), "ipad") && Contains(Lower(ua), "mobile")
    ensures DeviceType(ua) == "mobile"
  {
    assert Fires(Lower(ua), DeviceRules[0]) by {
      assert DeviceRules[0].keywords[0] == "mobile";
    }
    ClassifyByFirstArm(ua, DeviceRules, "desktop", 0);
  }

  /** A tablet keyword without any phone keyword gives "tablet". */
  lemma TabletWithoutPhoneKeywords(ua: string)
    requires Contains(Lower(ua), "ipad")
    requires !Contains(Lower(ua), "mobile") && !Contains(Lower(ua), "android") && !Contains(Lower(ua), "iphone")
    ensures DeviceType(ua) == "tablet"
  {
    assert Fires(Lower(ua), DeviceRules[1]) by {
      assert DeviceRules[1].keywords[1] == "ipad";
    }
    assert !Fires(Lower(ua), DeviceRules[0]) by {
      assert DeviceRules[0].keywords == ["mobile", "android", "iphone"];
    }
    ClassifyByFirstArm(ua, DeviceRules, "desktop", 1);
  }

  /** Chrome is matched first: a Chrome agent that also says "Safari" (or "Edge") is Chrome. */
  lemma ChromeBeatsSafari(ua: string)
    requires Contains(Lower(ua), "chrome")
    ensures Browser(ua) == "Chrome"
  {
    assert Fires(Lower(ua), BrowserRules[0]) by {
      assert BrowserRules[0].keywords[0] == "chrome";
    }
    ClassifyByFirstArm(ua, BrowserRules, "Other", 0);
  }

  /** Linux is matched before Android: an Android agent that says "Linux" (and neither
      "Windows" nor "Mac") is classified Linux. */
  lemma LinuxBeatsAndroid(ua: string)
    requires Contains(Lower(ua), "linux")
    requires !Contains(Lower(ua), "windows") && !Contains(Lower(ua), "mac")
    ensures OperatingSystem(ua) == "Linux"
  {
    assert Fires(Lower(ua), OsRules[2]) by {
      assert OsRules[2].keywords[0] == "linux";
    }
    assert !Fires(Lower(ua), OsRules[0]) by {
      assert OsRules[0].keywords == ["windows"];
    }
    assert !Fires(Lower(ua), OsRules[1]) by {
      assert OsRules[1].keywords == ["mac"];
    }
    ClassifyByFirstArm(ua, OsRules, "Other", 2);
  }

  /** A user agent with no keyword at all is a desktop of browser and OS "Other". */
  lemma UnknownAgent(ua: string)
    requires forall j :: 0 <= j < |DeviceRules| ==> !Fires(Lower(ua), DeviceRules[j])
    requires forall j :: 0 <= j < |BrowserRules| ==> !Fires(Lower(ua), BrowserRules[j])
    requires forall j :: 0 <= j < |OsRules| ==> !Fires(Lower(ua), OsRules[j])
    ensures DeviceType(ua) == "desktop" && Browser(ua) == "Other" && OperatingSystem(ua) == "Other"
  {
  }

  // ---------------------------------------------------------------------------
  // Click rows
  // ---------------------------------------------------------------------------

  /** A row of `url_analytics`. */
  datatype ClickEvent = ClickEvent(
    shortUrlId: int,
    clickTime: int,
    referrer: Option<string>,
    userAgent: Option<string>,
    ipAddress: Option<string>,
    country: Option<string>,
    city: Option<string>,
    deviceType: Option<string>,
    browser: Option<string>,
    os: Option<string>)

  predicate Truthful(s: Option<string>)
  {
    s.Some? && s.value != ""
  }

  /** The row `URLAnalytics(...)` produces: classification only for a non-empty user agent,
      the placeholder location only for a non-empty address. */
  function NewClickEvent(shortUrlId: int, now: int, referrer: Option<string>,
                         userAgent: Option<string>, ipAddress: Option<string>): (e: ClickEvent)
    ensures e.shortUrlId == shortUrlId && e.clickTime == now
    ensures e.referrer == referrer && e.userAgent == userAgent && e.ipAddress == ipAddress
    ensures e.deviceType.Some? <==> Truthful(userAgent)
    ensures e.browser.Some? <==> Truthful(userAgent)
    ensures e.os.Some? <==> Truthful(userAgent)
    ensures Truthful(userAgent) ==>
      e.deviceType == Some(DeviceType(userAgent.value)) && e.browser == Some(Browser(userAgent.value))
      && e.os == Some(OperatingSystem(userAgent.value))
    ensures e.country.Some? <==> Truthful(ipAddress)
    ensures e.city.Some? <==> Truthful(ipAddress)
  {
    var ua := if Truthful(userAgent) then userAgent.value else "";
    var parsed := Truthful(userAgent);
    var located := Truthful(ipAddress);
    ClickEvent(shortUrlId, now, referrer, userAgent, ipAddress,
               if located then Some("US") else None,
               if located then Some("New York") else None,
               if parsed then Some(DeviceType(ua)) else None,
               if parsed then Some(Browser(ua)) else None,
               if parsed then Some(OperatingSystem(ua)) else None)
  }

  /** `URLAnalytics`, whose constructor fills in the parsed and located columns. */
  class UrlAnalytics {
    var shortUrlId: int
    var clickTime: int
    var referrer: Option<string>
    var userAgent: Option<string>
    var ipAddress: Option<string>
    var country: Option<string>
    var city: Option<string>
    var deviceType: Option<string>
    var browser: Option<string>
    var os: Option<string>

    function Row(): ClickEvent
      reads this
    {
      ClickEvent(shortUrlId, clickTime, referrer, userAgent, ipAddress, country, city, deviceType, browser, os)
    }

    constructor (shortUrlId: int, now: int, referrer: Option<string>,
                 userAgent: Option<string>, ipAddress: Option<string>)
      ensures Row() == NewClickEvent(shortUrlId, now, referrer, userAgent, ipAddress)
    {
      this.shortUrlId := shortUrlId;
      clickTime := now;
      this.referrer := referrer;
      this.userAgent := userAgent;
      this.ipAddress := ipAddress;
      country, city := None, None;
      deviceType, browser, os := None, None, None;
      new;
      if userAgent.Some? && userAgent.value != "" {
        ParseUserAgent(userAgent.value);
      }
      if ipAddress.Some? && ipAddress.value != "" {
        country, city := Some("US"), Some("New York");
      }
    }

    /** `parse_user_agent`: sets the three classified columns and nothing else. */
    method ParseUserAgent(ua: string)
      modifies this
      ensures deviceType == Some(DeviceType(ua)) && browser == Some(Browser(ua)) && os == Some(OperatingSystem(ua))
      ensures Row() == old(Row()).(deviceType := deviceType, browser := browser, os := os)
    {
      deviceType := Some(DeviceType(ua));
      browser := Some(Browser(ua));
      os := Some(OperatingSystem(ua));
    }
  }

  /** The click rows that do not belong to link `id`, in order. */
  function ClicksWithout(clicks: seq<ClickEvent>, id: int): (r: seq<ClickEvent>)
    ensures |r| <= |clicks|
    ensures forall e :: e in r <==> e in clicks && e.shortUrlId != id
  {
    if clicks == [] then []
    else if clicks[0].shortUrlId == id then ClicksWithout(clicks[1..], id)
    else [clicks[0]] + ClicksWithout(clicks[1..], id)
  }

  // ---------------------------------------------------------------------------
  // The table
  // ---------------------------------------------------------------------------

  /** The `short_urls` and `url_analytics` tables. Ids are assigned in increasing order. */
  class LinkStore {
    var urls: map<int, ShortUrl>
    var clicks: seq<ClickEvent>
    var nextId: int

    /** Primary keys match, `short_code` and `custom_alias` are unique, and every click
        row refers to a stored link. */
    predicate Valid()
      reads this
    {
      && nextId >= 1
      && (forall id :: id in urls ==> urls[id].id == id && 0 < id < nextId)
      && (forall a, b :: a in urls && b in urls && urls[a].shortCode == urls[b].shortCode ==> a == b)
      && (forall a, b ::
            a in urls && b in urls && urls[a].customAlias.Some? && urls[a].customAlias == urls[b].customAlias ==> a == b)
      && (forall i :: 0 <= i < |clicks| ==> clicks[i].shortUrlId in urls)
    }

    function Codes(): set<string>
      reads this
    {
      set id | id in urls :: urls[id].shortCode
    }

    function Aliases(): set<string>
      reads this
    {
      set id | id in urls && urls[id].customAlias.Some? :: urls[id].customAlias.value
    }

    constructor ()
      ensures urls == map[] && clicks == [] && nextId == 1 && Valid()
    {
      urls := map[];
      clicks := [];
      nextId := 1;
    }

    /** `generate_short_code`: the first attempt whose code no stored link uses. The source
        retries without bound; here the attempts are a finite supply and running out of
        them gives None. */
    method GenerateShortCode(rolls: seq<seq<int>>, length: nat) returns (code: Option<string>)
      requires ValidRolls(rolls, length)
      ensures code.Some? ==> code.value !in Codes() && |code.value| == length
      ensures code.Some? ==> forall j :: 0 <= j < |code.value| ==> IsAlnum(code.value[j])
      ensures code.None? <==> FirstFreeRoll(rolls, length, Codes()).None?
      ensures code.Some? ==> code.value == CodeFromRoll(rolls[FirstFreeRoll(rolls, length, Codes()).value])
    {
      var k := 0;
      while k < |rolls|
        invariant 0 <= k <= |rolls|
        invariant forall j :: 0 <= j < k ==> CodeFromRoll(rolls[j]) in Codes()
      {
        var candidate := CodeFromRoll(rolls[k]);
        if candidate !in Codes() {
          FirstFreeIsFirst(rolls, length, Codes(), k);
          return Some(candidate);
        }
        k := k + 1;
      }
      return None;
    }

    /** `increment_click`: the counter of one link goes up by exactly one; nothing else changes. */
    method IncrementClick(id: int)
      requires id in urls
      modifies this`urls
      ensures urls == old(urls)[id := old(urls)[id].(clickCount := old(urls)[id].clickCount + 1)]
    {
      urls := urls[id := urls[id].(clickCount := urls[id].clickCount + 1)];
    }

    /** Adding a link and committing: the commit fails, leaving the table as it was, when
        the new code or alias is already stored. */
    method Insert(u: ShortUrl) returns (id: Option<int>)
      requires Valid()
      modifies this
      ensures Valid()
      ensures id.None? <==> u.shortCode in old(Codes()) || (u.customAlias.Some? && u.customAlias.value in old(Aliases()))
      ensures id.None? ==> urls == old(urls) && nextId == old(nextId)
      ensures id.Some? ==>
        id.value == old(nextId) && nextId == old(nextId) + 1 && urls == old(urls)[id.value := u.(id := id.value)]
      ensures clicks == old(clicks)
    {
      if u.shortCode in Codes() || (u.customAlias.Some? && u.customAlias.value in Aliases()) {
        return None;
      }
      forall a | a in urls
        ensures urls[a].shortCode != u.shortCode
        ensures urls[a].customAlias.Some? ==> urls[a].customAlias != u.customAlias
      {
        assert urls[a].shortCode in Codes();
        if urls[a].customAlias.Some? {
          assert urls[a].customAlias.value in Aliases();
        }
      }
      id := Some(nextId);
      urls := urls[nextId := u.(id := nextId)];
      nextId := nextId + 1;
    }

    /** Adding a click row for a stored link. */
    method AddClick(e: ClickEvent)
      requires Valid() && e.shortUrlId in urls
      modifies this`clicks
      ensures Valid() && clicks == old(clicks) + [e]
    {
      clicks := clicks + [e];
    }

    /** Deleting a link deletes its click rows with it (`cascade="all, delete-orphan"`). */
    method Delete(id: int)
      requires Valid()
      modifies this
      ensures Valid()
      ensures urls == old(urls) - {id} && clicks == ClicksWithout(old(clicks), id) && nextId == old(nextId)
    {
      urls := urls - {id};
      clicks := ClicksWithout(clicks, id);
      forall i | 0 <= i < |clicks| ensures clicks[i].shortUrlId in urls {
        assert clicks[i] in old(clicks);
      }
    }
  }

  lemma FirstFreeIsFirst(rolls: seq<seq<int>>, length: nat, taken: set<string>, k: nat)
    requires ValidRolls(rolls, length)
    requires k < |rolls| && CodeFromRoll(rolls[k]) !in taken
    requires forall j :: 0 <= j < k ==> CodeFromRoll(rolls[j]) in taken
    ensures FirstFreeRoll(rolls, length, taken) == Some(k)
  {
    var r := FirstFreeRoll(rolls, length, taken);
    assert r.Some?;
  }
}
