/**
 * The live-client side (src/main/league.ts): reading the client's lockfile,
 * the request the client wrapper dispatches, and the normalisation `getSkins`
 * applies to the champion-select skin carousel the client returns.
 */
module League {
  import opened Wrappers
  import opened Decimal
  import opened Strings
  import Metadata

  /** The client endpoint listing the skins of the champion being picked. */
  const CarouselPath: string := "/lol-champ-select/v1/skin-carousel-skins"

  datatype ChildSkin = ChildSkin(id: nat, championId: nat, index: int, colors: seq<string>)

  /** A skin of the carousel, before and after `getSkins` rewrites it. */
  datatype LiveSkin = LiveSkin(
    id: nat,
    championId: nat,
    championName: string,
    name: string,
    splashPath: string,
    loadingURL: string,
    childSkins: seq<ChildSkin>)

  // ---------------------------------------------------------------------
  // getAuthDetails and fetchLeague
  // ---------------------------------------------------------------------

  /** The credentials read from the lockfile; a missing field is `undefined`. */
  datatype AuthDetails = AuthDetails(username: string, port: Option<string>, password: Option<string>, protocol: Option<string>)

  /**
   * `getAuthDetails`: `lockfile` is the file's text, `None` when it cannot
   * be read. The fields at indices 2, 3 and 4 of its `:`-split are the port,
   * the password and the protocol; the user name is always `riot`.
   */
  function GetAuthDetails(lockfile: Option<string>): (auth: Option<AuthDetails>)
    ensures auth.None? <==> lockfile.None?
    ensures auth.Some? ==> auth.value.username == "riot"
  {
    match lockfile
    case None => None
    case Some(text) =>
      var parts := Split(text, ':');
      Some(AuthDetails("riot", At(parts, 2), At(parts, 3), At(parts, 4)))
  }

  /**
   * A lockfile line `name:pid:port:password:protocol` (possibly with more
   * fields after) gives exactly its third, fourth and fifth fields.
   */
  lemma LockfileFields(fields: seq<string>)
    requires |fields| >= 5
    requires forall k :: 0 <= k < |fields| ==> ':' !in fields[k]
    ensures GetAuthDetails(Some(Join(fields, ':'))) ==
            Some(AuthDetails("riot", Some(fields[2]), Some(fields[3]), Some(fields[4])))
  {
    SplitJoin(fields, ':');
  }

  /** A line with fewer than five fields leaves the missing ones `undefined`. */
  lemma LockfileShortLine(fields: seq<string>)
    requires 1 <= |fields| < 5
    requires forall k :: 0 <= k < |fields| ==> ':' !in fields[k]
    ensures GetAuthDetails(Some(Join(fields, ':'))).value.protocol.None?
  {
    SplitJoin(fields, ':');
  }

  /** `${value}` in a template literal: `undefined` prints as "undefined". */
  function Text(value: Option<string>): (r: string)
  {
    match value
    case None => "undefined"
    case Some(v) => v
  }

  /**
   * The HTTPS request `fetchLeague` sends. The Basic authorisation header
   * carries `credentials` (the base64 encoding itself is not modelled).
   */
  datatype Request = Request(verb: string, url: string, contentType: string, credentials: string)

  /** What `fetchLeague` does: answer locally without any network call, or send a request. */
  datatype Dispatch = LocalResponse(status: int, message: string) | Send(request: Request)

  /**
   * `fetchLeague`: without credentials, a local 404 "Lockfile not found";
   * otherwise a request to the client on the loopback address at the
   * lockfile's protocol and port.
   */
  function FetchLeague(auth: Option<AuthDetails>, path: string, verb: string): (d: Dispatch)
    ensures d.LocalResponse? <==> auth.None?
    ensures d.LocalResponse? ==> d.status == 404
  {
    match auth
    case None => LocalResponse(404, "Lockfile not found")
    case Some(a) =>
      Send(Request(
        verb,
        Text(a.protocol) + "://127.0.0.1:" + Text(a.port) + path,
        "application/json",
        a.username + ":" + Text(a.password)))
  }

  /**
   * Reading a well-formed lockfile and fetching `path`: the request goes to
   * `<protocol>://127.0.0.1:<port><path>` with the credentials `riot:<password>`.
   */
  lemma LockfileToRequest(fields: seq<string>, path: string, verb: string)
    requires |fields| >= 5
    requires forall k :: 0 <= k < |fields| ==> ':' !in fields[k]
    ensures FetchLeague(GetAuthDetails(Some(Join(fields, ':'))), path, verb) ==
            Send(Request(verb, fields[4] + "://127.0.0.1:" + fields[2] + path, "application/json", "riot:" + fields[3]))
  {
    LockfileFields(fields);
    var auth := AuthDetails("riot", Some(fields[2]), Some(fields[3]), Some(fields[4]));
    assert GetAuthDetails(Some(Join(fields, ':'))) == Some(auth);
    assert "riot" + ":" == "riot:";
  }

  // ---------------------------------------------------------------------
  // getSkins
  // ---------------------------------------------------------------------

  /**
   * What the network call produced: it failed (the promise rejects), or a
   * response arrived with a status and a body that is either the carousel
   * array or, when `response.json()` fails, `None`.
   */
  datatype Reply = Unreachable | Responded(status: int, body: Option<seq<LiveSkin>>)

  /** `response.ok`. */
  predicate Ok(status: int)
  {
    200 <= status <= 299
  }

  lemma ReplaceFirstKeepsDigits(s: string, pat: string)
    requires IsDigits(s)
    ensures IsDigits(ReplaceFirst(s, pat, ""))
  {
    var r := ReplaceFirst(s, pat, "");
    forall k | 0 <= k < |r| ensures IsDigit(r[k]) {
      assert r[k] in s;
    }
  }

  /**
   * `Number(id.toString().replace(championId.toString(), ''))`: the decimal
   * text of the id with the first occurrence of the champion id's text
   * removed, read back as a number (the empty text reads as 0).
   */
  function LocalId(id: nat, championId: nat): (local: nat)
  {
    ReplaceFirstKeepsDigits(Show(id), Show(championId));
    Value(ReplaceFirst(Show(id), Show(championId), ""))
  }

  /**
   * Stripping the champion's digits from a flat id gives the local skin id
   * back, for every champion id from 1 up and local id 0..999: the id's
   * text is the champion's text followed by the local id padded to three
   * digits, and the champion's text occurs first at the start.
   */
  lemma LocalIdStripsChampion(championId: nat, skinId: nat)
    requires 1 <= championId && skinId < 1000
    ensures LocalId(championId * 1000 + skinId, championId) == skinId
  {
    var id := championId * 1000 + skinId;
    var head := Show(championId);
    var tail := PadStart(Show(skinId), 3, '0');
    assert ReplaceFirst(Show(id), head, "") == tail by {
      ShowFlatId(championId, skinId);
      ReplaceLeadingOccurrence(head, tail);
    }
    assert Value(tail) == skinId by {
      ValueShow(skinId);
      PadStartValue(Show(skinId), 3);
    }
  }

  /**
   * The live client and the metadata feed agree: for a flat id of champion
   * 1..999 and local skin 0..999, stripping the champion's digits gives the
   * same local id as the zero-padding decode of the feed.
   */
  lemma LocalIdAgreesWithDecode(championId: nat, skinId: nat)
    requires 1 <= championId < 1000 && skinId < 1000
    ensures LocalId(championId * 1000 + skinId, championId) == skinId
    ensures Metadata.DecodeSkinId(championId * 1000 + skinId).skinId == skinId
  {
    LocalIdStripsChampion(championId, skinId);
    Metadata.DecodeEncode(championId, skinId);
  }

  /** The decimal text of a flat id is the champion's text then the local id padded to three digits. */
  lemma ShowFlatId(championId: nat, skinId: nat)
    requires 1 <= championId && skinId < 1000
    ensures Show(championId * 1000 + skinId) == Show(championId) + PadStart(Show(skinId), 3, '0')
  {
    var head := Show(championId);
    var tail := PadStart(Show(skinId), 3, '0');
    var t := head + tail;
    assert Value(head) == championId && head[0] != '0' by {
      ValueShow(championId);
    }
    assert IsDigits(tail) && |tail| == 3 && Value(tail) == skinId by {
      ValueShow(skinId);
      PadStartValue(Show(skinId), 3);
      assert Pow10(3) == 1000;
      ShowLength(skinId, 3);
    }
    assert IsDigits(t) && Value(t) == championId * 1000 + skinId by {
      ValueAppend(head, tail);
      assert Pow10(3) == 1000;
    }
    assert t[0] == head[0];
    ShowValue(t);
  }

  /** An id whose text does not contain the champion's text is kept as it is. */
  lemma LocalIdWithoutChampionDigits(id: nat, championId: nat)
    requires forall j :: !OccursAt(Show(id), Show(championId), j)
    ensures LocalId(id, championId) == id
  {
    ValueShow(id);
  }

  /** `Number(splashPath.match(/\d+/))`: the value of the first digit run, 0 when there is none. */
  function SplashNumber(splashPath: string): (n: nat)
  {
    match FirstDigitRun(splashPath)
    case None => 0
    case Some(run) => Value(run)
  }

  /** The number is 0 without digits, and otherwise the value of the leftmost maximal digit run. */
  lemma SplashNumberIsFirstRun(splashPath: string)
    ensures (forall k :: 0 <= k < |splashPath| ==> !IsDigit(splashPath[k])) ==> SplashNumber(splashPath) == 0
    ensures (exists k :: 0 <= k < |splashPath| && IsDigit(splashPath[k])) ==>
              exists i, run :: LeftmostDigitRun(splashPath, i, run) && SplashNumber(splashPath) == Value(run)
  {
    match FirstDigitRun(splashPath)
    case None =>
    case Some(run) =>
      var i :| LeftmostDigitRun(splashPath, i, run);
  }

  /** `splashPath.split('/')[5]` of the first skin, printed by a template literal. */
  function PlainName(splashPath: string): (r: string)
  {
    Text(At(Split(splashPath, '/'), 5))
  }

  /** The loading-screen image URL built from the plain champion name and a skin's splash path. */
  function LoadingURL(plainName: string, splashPath: string): (url: string)
  {
    Metadata.LoadingImageBase + plainName + "_" + Show(SplashNumber(splashPath)) + ".jpg"
  }

  /**
   * The URL names the champion by the sixth `/`-segment of the first
   * skin's splash path ("undefined" when there is none) and ends with
   * `_<number>.jpg`, the number taken from this skin's own splash path.
   */
  lemma LoadingURLShape(firstSplash: string, splashPath: string)
    ensures var url := LoadingURL(PlainName(firstSplash), splashPath);
      var head := Metadata.LoadingImageBase + PlainName(firstSplash);
      var tail := "_" + Show(SplashNumber(splashPath)) + ".jpg";
      && |url| == |head| + |tail|
      && url[..|head|] == head
      && url[|head|..] == tail
    ensures |Split(firstSplash, '/')| > 5 ==> PlainName(firstSplash) == Split(firstSplash, '/')[5]
    ensures Count(firstSplash, '/') < 5 ==> PlainName(firstSplash) == "undefined"
  {
    var head := Metadata.LoadingImageBase + PlainName(firstSplash);
    var tail := "_" + Show(SplashNumber(splashPath)) + ".jpg";
    assert LoadingURL(PlainName(firstSplash), splashPath) == head + tail;
  }

  /** A child skin (chroma) with its id made local; every other field is kept. */
  function NormalizeChild(child: ChildSkin): (r: ChildSkin)
  {
    child.(id := LocalId(child.id, child.championId))
  }

  /** One element of `skins.map(...)`: the spread keeps every field not rewritten. */
  function NormalizeSkin(skin: LiveSkin, championName: string, plainName: string): (r: LiveSkin)
  {
    skin.(
      id := LocalId(skin.id, skin.championId),
      championName := championName,
      loadingURL := LoadingURL(plainName, skin.splashPath),
      childSkins := seq(|skin.childSkins|, k requires 0 <= k < |skin.childSkins| => NormalizeChild(skin.childSkins[k])))
  }

  /** The rewrite of a non-empty carousel; the name and plain name come from its first skin. */
  function NormalizeCarousel(skins: seq<LiveSkin>): (r: seq<LiveSkin>)
    requires skins != []
  {
    var championName := skins[0].name;
    var plainName := PlainName(skins[0].splashPath);
    seq(|skins|, k requires 0 <= k < |skins| => NormalizeSkin(skins[k], championName, plainName))
  }

  /** The response `getSkins` works on: the local 404 when there are no credentials. */
  function CarouselReply(lockfile: Option<string>, reply: Reply): (r: Reply)
  {
    match FetchLeague(GetAuthDetails(lockfile), CarouselPath, "GET")
    case LocalResponse(status, _) => Responded(status, None)
    case Send(_) => reply
  }

  /** Whether the carousel reached `getSkins` as a non-empty array. */
  predicate Served(lockfile: Option<string>, reply: Reply)
  {
    && lockfile.Some?
    && reply.Responded?
    && Ok(reply.status)
    && reply.body.Some?
    && reply.body.value != []
  }

  /**
   * `getSkins`: `lockfile` is the lockfile's text as read, and `reply` what
   * the network call to the carousel endpoint produced when one is made.
   */
  function GetSkins(lockfile: Option<string>, reply: Reply): (skins: seq<LiveSkin>)
  {
    match CarouselReply(lockfile, reply)
    case Unreachable => []
    case Responded(status, body) =>
      if !Ok(status) then []
      else if body.None? then []
      else if body.value == [] then []
      else NormalizeCarousel(body.value)
  }

  /**
   * Every error path gives `[]` and nothing else does: no lockfile, a failed
   * request, a non-ok status, an unreadable body or an empty carousel.
   */
  lemma GetSkinsEmptyExactly(lockfile: Option<string>, reply: Reply)
    ensures GetSkins(lockfile, reply) == [] <==> !Served(lockfile, reply)
  {
    if Served(lockfile, reply) {
      assert |GetSkins(lockfile, reply)| == |reply.body.value|;
    }
  }

  /** Without a lockfile the result is `[]` whatever the network would have answered. */
  lemma NoLockfileNoSkins(reply: Reply)
    ensures GetSkins(None, reply) == []
    ensures FetchLeague(GetAuthDetails(None), CarouselPath, "GET") == LocalResponse(404, "Lockfile not found")
  {
  }

  /**
   * A served carousel keeps its length and order; each skin keeps its
   * champion id, name and splash path, takes the FIRST skin's name as its
   * champion name, has its id made local and its loading URL rebuilt, and
   * its child skins are rewritten one for one.
   */
  lemma GetSkinsMapsCarousel(lockfile: Option<string>, reply: Reply, k: nat)
    requires Served(lockfile, reply)
    requires k < |reply.body.value|
    ensures var body := reply.body.value;
      var skins := GetSkins(lockfile, reply);
      && |skins| == |body|
      && skins[k].championId == body[k].championId
      && skins[k].name == body[k].name
      && skins[k].splashPath == body[k].splashPath
      && skins[k].championName == body[0].name
      && skins[k].id == LocalId(body[k].id, body[k].championId)
      && skins[k].loadingURL == LoadingURL(PlainName(body[0].splashPath), body[k].splashPath)
      && |skins[k].childSkins| == |body[k].childSkins|
  {
  }

  /** Child skins keep their order, champion id, index and colours; only the id is made local. */
  lemma ChildSkinsRewritten(lockfile: Option<string>, reply: Reply, k: nat, c: nat)
    requires Served(lockfile, reply)
    requires k < |reply.body.value| && c < |reply.body.value[k].childSkins|
    ensures var child := reply.body.value[k].childSkins[c];
      var skins := GetSkins(lockfile, reply);
      && k < |skins| && c < |skins[k].childSkins|
      && skins[k].childSkins[c] == child.(id := LocalId(child.id, child.championId))
  {
  }

  /** Every rewritten skin carries the same champion name. */
  lemma OneChampionName(lockfile: Option<string>, reply: Reply)
    ensures var skins := GetSkins(lockfile, reply);
      forall a, b :: 0 <= a < |skins| && 0 <= b < |skins| ==> skins[a].championName == skins[b].championName
  {
  }

  /**
   * For well-formed flat ids (champion 1..999, local id 0..999) the live
   * client's local ids agree with the metadata decode.
   */
  lemma ServedIdsAgreeWithCatalog(lockfile: Option<string>, reply: Reply, k: nat, skinId: nat)
    requires Served(lockfile, reply)
    requires k < |reply.body.value|
    requires var s := reply.body.value[k];
      1 <= s.championId < 1000 && skinId < 1000 && s.id == s.championId * 1000 + skinId
    ensures var skins := GetSkins(lockfile, reply);
      k < |skins| && skins[k].id == skinId == Metadata.DecodeSkinId(reply.body.value[k].id).skinId
  {
    var s := reply.body.value[k];
    LocalIdAgreesWithDecode(s.championId, skinId);
  }
}
