/**
 * The champion/skin catalog built from the community metadata feed
 * (src/main/metadata.ts): the flat skin-identifier decode, the champion key
 * taken from a splash-art path, and the two list builders.
 */
module Metadata {
  import opened Wrappers
  import opened Decimal
  import opened Strings

  /** Base of every loading-screen image URL. */
  const LoadingImageBase: string := "https://ddragon.leagueoflegends.com/cdn/img/champion/loading/"

  datatype Champion = Champion(id: nat, name: string, image: string)

  datatype Chroma = Chroma(id: nat, championId: nat, championName: string, colors: seq<string>)

  datatype Skin = Skin(
    id: nat,
    championId: nat,
    championName: string,
    name: string,
    image: string,
    chromas: seq<Chroma>)

  datatype RawChroma = RawChroma(id: nat, colors: seq<string>)

  /** One record of the feed; `chromas` may be absent. */
  datatype SkinRaw = SkinRaw(id: nat, name: string, splashPath: string, chromas: Option<seq<RawChroma>>)

  /**
   * The feed file as read: `None` when it is missing or is not JSON,
   * otherwise the values of its top-level object, in order.
   */
  type Feed = Option<seq<SkinRaw>>

  datatype ChampSkinId = ChampSkinId(championId: nat, skinId: nat)

  function Max(a: nat, b: nat): (r: nat) { if a >= b then a else b }

  /** The flat identifier of a (champion, local skin) pair within six digits. */
  ghost function Encode(championId: nat, skinId: nat): nat
  {
    championId * 1000 + skinId
  }

  /**
   * `getChampSkinIdFromSkinId`: pad the decimal text of the id with zeros to
   * six characters and cut it after the third; the two halves, read as
   * numbers, are the champion id and the skin id local to that champion.
   */
  function DecodeSkinId(skinId: nat): (ids: ChampSkinId)
  {
    var padded := PadStart(Show(skinId), 6, '0');
    PadStartValue(Show(skinId), 6);
    ChampSkinId(Value(padded[..3]), Value(padded[3..]))
  }

  /** The width `padStart(6, '0')` gives the decimal text of `n`. */
  function PaddedWidth(n: nat): (r: nat)
  {
    Max(6, |Show(n)|)
  }

  /**
   * The decode is arithmetic: with w the padded width (six, or more for an
   * id of seven digits or more), the champion id is the id divided by
   * 10^(w-3) and the local skin id the remainder.
   */
  lemma DecodeIsDivMod(n: nat)
    ensures DecodeSkinId(n).championId == n / Pow10(PaddedWidth(n) - 3)
    ensures DecodeSkinId(n).skinId == n % Pow10(PaddedWidth(n) - 3)
  {
    var padded := PadStart(Show(n), 6, '0');
    PaddedDigits(n);
    SplitValue(padded, 3);
  }

  /** The padded text of `n` is a digit string of width PaddedWidth(n) whose value is `n`. */
  lemma PaddedDigits(n: nat)
    ensures var padded := PadStart(Show(n), 6, '0');
      IsDigits(padded) && |padded| == PaddedWidth(n) && Value(padded) == n
  {
    ValueShow(n);
    PadStartValue(Show(n), 6);
  }

  /** Cutting a digit string at `k` splits its value by 10^(|s|-k). */
  lemma SplitValue(s: string, k: nat)
    requires IsDigits(s) && k <= |s|
    ensures IsDigits(s[..k]) && IsDigits(s[k..])
    ensures Value(s[..k]) == Value(s) / Pow10(|s| - k)
    ensures Value(s[k..]) == Value(s) % Pow10(|s| - k)
  {
    var high, low := s[..k], s[k..];
    var unit := Pow10(|s| - k);
    assert IsDigits(high) && IsDigits(low) && Value(s) == Value(high) * unit + Value(low) by {
      assert s == high + low;
      assert |low| == |s| - k;
      ValueAppend(high, low);
    }
    assert Value(low) < unit by { ValueBound(low); }
    DivModUnique(Value(s), unit, Value(high), Value(low));
  }

  lemma DivModUnique(n: int, d: int, q: int, r: int)
    requires d > 0 && 0 <= r < d && n == q * d + r
    ensures q == n / d && r == n % d
  {
    var q', r' := n / d, n % d;
    assert (q - q') * d == r' - r;
    MulAtLeast(q - q', d);
  }

  /** A non-zero multiple of a positive `d` is at least `d` away from zero. */
  lemma MulAtLeast(x: int, d: int)
    requires d > 0
    ensures x >= 1 ==> x * d >= d
    ensures x <= -1 ==> x * d <= -d
  {
  }

  /** Ids below one million decode by division and remainder by 1000. */
  lemma DecodeSixDigits(n: nat)
    requires n < 1000000
    ensures DecodeSkinId(n) == ChampSkinId(n / 1000, n % 1000)
  {
    ShowLength(n, 6);
    DecodeIsDivMod(n);
  }

  /** Round trip: decoding the flat id of a pair within three digits each gives the pair. */
  lemma DecodeEncode(championId: nat, skinId: nat)
    requires championId < 1000 && skinId < 1000
    ensures DecodeSkinId(Encode(championId, skinId)) == ChampSkinId(championId, skinId)
  {
    DecodeSixDigits(Encode(championId, skinId));
  }

  /** Ids of seven digits or more are not padded: the first three digits and the rest. */
  lemma DecodeLongId(n: nat)
    requires n >= 1000000
    ensures var s := Show(n);
      |s| > 6 && DecodeSkinId(n) == ChampSkinId(Value(s[..3]), Value(s[3..]))
  {
    var s := Show(n);
    ValueShow(n);
    if |s| <= 6 {
      ValueBound(s);
      assert Pow10(|s|) <= Pow10(6) by { Pow10Monotone(|s|, 6); }
      assert false;
    }
  }

  lemma {:induction false} Pow10Monotone(a: nat, b: nat)
    requires a <= b
    ensures Pow10(a) <= Pow10(b)
    decreases b
  {
    if a < b {
      Pow10Monotone(a, b - 1);
    }
  }

  function ChampionIdOf(raw: SkinRaw): (r: nat)
  {
    DecodeSkinId(raw.id).championId
  }

  // ---------------------------------------------------------------------
  // The champion key in a splash-art path: /Characters\/([^/]+)/
  // ---------------------------------------------------------------------

  const CharactersDir: string := "Characters/"

  /** The pattern matches at `i`: `Characters/` followed by at least one non-`/` character. */
  ghost predicate KeyMatchAt(path: string, i: int)
  {
    0 <= i && i + |CharactersDir| < |path|
    && path[i..i + |CharactersDir|] == CharactersDir
    && path[i + |CharactersDir|] != '/'
  }

  /** The leftmost position at or after `from` where the pattern matches. */
  function KeyMatchFrom(path: string, from: nat): (r: Option<nat>)
    ensures r.Some? ==> from <= r.value && KeyMatchAt(path, r.value)
    ensures r.Some? ==> forall j :: from <= j < r.value ==> !KeyMatchAt(path, j)
    ensures r.None? ==> forall j :: from <= j ==> !KeyMatchAt(path, j)
    decreases |path| - from
  {
    if from + |CharactersDir| >= |path| then None
    else if path[from..from + |CharactersDir|] == CharactersDir && path[from + |CharactersDir|] != '/' then Some(from)
    else KeyMatchFrom(path, from + 1)
  }

  /** The greedy capture `[^/]+`: the longest prefix without a `/`. */
  function TakeSegment(s: string): (r: string)
    ensures |r| <= |s| && r == s[..|r|] && '/' !in r
    ensures |r| < |s| ==> s[|r|] == '/'
  {
    if s == [] || s[0] == '/' then "" else [s[0]] + TakeSegment(s[1..])
  }

  /** The feed spells one key differently from the image server. */
  function FixKeySpelling(key: string): (r: string)
  {
    if key == "KhaZix" then "Khazix" else key
  }

  /**
   * `getChampionKeyFromSplashArt`: the non-empty, slash-free segment after
   * the first `Characters/` that is followed by one, with `KhaZix` respelled
   * `Khazix`; `None` (JavaScript `null`) when there is no such segment.
   */
  function ChampionKeyFromSplashArt(path: string): (key: Option<string>)
  {
    match KeyMatchFrom(path, 0)
    case None => None
    case Some(i) => Some(FixKeySpelling(TakeSegment(path[i + |CharactersDir|..])))
  }

  /**
   * What `getChampionKeyFromSplashArt` returns: `None` exactly when the
   * pattern matches nowhere, otherwise the respelled segment of the
   * leftmost match.
   */
  lemma SplashKeyIsLeftmostSegment(path: string)
    ensures ChampionKeyFromSplashArt(path).None? <==> forall j :: !KeyMatchAt(path, j)
    ensures ChampionKeyFromSplashArt(path).Some? ==> exists i :: FirstKeyAt(path, i, ChampionKeyFromSplashArt(path).value)
  {
    var m := KeyMatchFrom(path, 0);
    if m.Some? {
      var i := m.value;
      var segment := TakeSegment(path[i + |CharactersDir|..]);
      assert ChampionKeyFromSplashArt(path) == Some(FixKeySpelling(segment));
      assert FirstKeyAt(path, i, FixKeySpelling(segment)) by {
        SegmentAfterMatch(path, i);
      }
    }
  }

  /**
   * `segment` is a whole capture of `[^/]+` starting at `start`: non-empty,
   * free of `/`, and followed by a `/` or by the end of the path.
   */
  ghost predicate SegmentAt(path: string, start: nat, segment: string)
  {
    && segment != []
    && '/' !in segment
    && start + |segment| <= |path|
    && path[start..start + |segment|] == segment
    && (start + |segment| == |path| || path[start + |segment|] == '/')
  }

  /** After a match at `i` the greedy capture is a whole segment. */
  lemma SegmentAfterMatch(path: string, i: nat)
    requires KeyMatchAt(path, i)
    ensures SegmentAt(path, i + |CharactersDir|, TakeSegment(path[i + |CharactersDir|..]))
  {
    var start := i + |CharactersDir|;
    var rest := path[start..];
    var segment := TakeSegment(rest);
    assert rest[0] == path[start];
    assert path[start..start + |segment|] == rest[..|segment|];
    if start + |segment| < |path| {
      assert rest[|segment|] == path[start + |segment|];
    }
  }

  /**
   * `key` comes from the leftmost match at `i`: the whole `/`-free segment
   * after `Characters/`, respelled by `FixKeySpelling`.
   */
  ghost predicate FirstKeyAt(path: string, i: nat, key: string)
  {
    && KeyMatchAt(path, i)
    && (forall j :: 0 <= j < i ==> !KeyMatchAt(path, j))
    && exists segment :: SegmentAt(path, i + |CharactersDir|, segment) && key == FixKeySpelling(segment)
  }

  /** The key is never the feed's `KhaZix` spelling, and never empty or containing `/`. */
  lemma KeyIsClean(path: string)
    requires ChampionKeyFromSplashArt(path).Some?
    ensures var key := ChampionKeyFromSplashArt(path).value;
      key != "KhaZix" && key != [] && '/' !in key
  {
    var key := ChampionKeyFromSplashArt(path).value;
    SplashKeyIsLeftmostSegment(path);
    var i: nat :| FirstKeyAt(path, i, key);
    var segment :| SegmentAt(path, i + |CharactersDir|, segment) && key == FixKeySpelling(segment);
  }

  /** `${key}` in a template literal: `null` prints as "null". */
  function KeyText(key: Option<string>): (r: string)
  {
    match key
    case None => "null"
    case Some(k) => k
  }

  /** The loading-screen image URL for a splash path and a skin number text. */
  function LoadingImage(splashPath: string, number: string): (url: string)
  {
    LoadingImageBase + KeyText(ChampionKeyFromSplashArt(splashPath)) + "_" + number + ".jpg"
  }

  // ---------------------------------------------------------------------
  // listChampions
  // ---------------------------------------------------------------------

  /** `loadSkinData`: a missing or unparsable file gives no records. */
  function LoadSkinData(feed: Feed): (raws: seq<SkinRaw>)
    ensures feed.None? ==> raws == []
    ensures feed.Some? ==> raws == feed.value
  {
    match feed
    case None => []
    case Some(records) => records
  }

  /** The champion a record introduces when it is the first of its champion id. */
  function ChampionFrom(raw: SkinRaw): (champion: Champion)
  {
    Champion(ChampionIdOf(raw), raw.name, LoadingImage(raw.splashPath, "0"))
  }

  predicate HasChampion(champions: seq<Champion>, id: nat)
  {
    exists k :: 0 <= k < |champions| && champions[k].id == id
  }

  lemma HasChampionAppend(champions: seq<Champion>, c: Champion)
    ensures forall id :: HasChampion(champions + [c], id) <==> HasChampion(champions, id) || id == c.id
  {
    var cs := champions + [c];
    forall id | HasChampion(champions, id) ensures HasChampion(cs, id) {
      var k :| 0 <= k < |champions| && champions[k].id == id;
      assert cs[k] == champions[k];
    }
    assert cs[|champions|] == c;
  }

  /*
   * The two list builders below are stated for any way `idOf` of reading a
   * record's champion id and any way `make` of building the list element,
   * so that the reasoning about order and first occurrences is independent
   * of the text processing; the program's own instances are ChampionIdOf,
   * ChampionFrom and SkinFrom.
   */

  /**
   * The values of an insertion-ordered map filled by walking `raws` and
   * adding `make(raw)` under `idOf(raw)` unless that id is already present.
   */
  function FirstPerId(raws: seq<SkinRaw>, idOf: SkinRaw -> nat, make: SkinRaw -> Champion): (champions: seq<Champion>)
  {
    if raws == [] then []
    else
      var before := FirstPerId(raws[..|raws| - 1], idOf, make);
      var raw := raws[|raws| - 1];
      if HasChampion(before, idOf(raw)) then before else before + [make(raw)]
  }

  ghost predicate Occurs(raws: seq<SkinRaw>, idOf: SkinRaw -> nat, championId: nat)
  {
    exists k :: 0 <= k < |raws| && idOf(raws[k]) == championId
  }

  /** The index of the first record with the given champion id. */
  ghost function FirstIndex(raws: seq<SkinRaw>, idOf: SkinRaw -> nat, championId: nat): (k: nat)
    requires Occurs(raws, idOf, championId)
    ensures k < |raws| && idOf(raws[k]) == championId
    ensures forall j :: 0 <= j < k ==> idOf(raws[j]) != championId
  {
    if idOf(raws[0]) == championId then 0
    else
      assert Occurs(raws[1..], idOf, championId) by {
        var k :| 0 <= k < |raws| && idOf(raws[k]) == championId;
        assert raws[1..][k - 1] == raws[k];
      }
      1 + FirstIndex(raws[1..], idOf, championId)
  }

  /** The first index is determined by its two defining properties. */
  lemma FirstIndexUnique(raws: seq<SkinRaw>, idOf: SkinRaw -> nat, championId: nat, k: nat)
    requires k < |raws| && idOf(raws[k]) == championId
    requires forall j :: 0 <= j < k ==> idOf(raws[j]) != championId
    ensures Occurs(raws, idOf, championId) && FirstIndex(raws, idOf, championId) == k
  {
    assert Occurs(raws, idOf, championId);
    var f := FirstIndex(raws, idOf, championId);
  }

  /** Extending the records keeps the first index of every id of the prefix. */
  lemma FirstIndexExtend(raws: seq<SkinRaw>, idOf: SkinRaw -> nat, championId: nat, n: nat)
    requires n <= |raws| && Occurs(raws[..n], idOf, championId)
    ensures Occurs(raws, idOf, championId)
    ensures FirstIndex(raws, idOf, championId) == FirstIndex(raws[..n], idOf, championId)
  {
    var prefix := raws[..n];
    var k := FirstIndex(prefix, idOf, championId);
    assert raws[k] == prefix[k];
    assert forall j :: 0 <= j < k ==> raws[j] == prefix[j];
    FirstIndexUnique(raws, idOf, championId, k);
  }

  /** Every id of the records has an element. */
  lemma {:induction false} FirstPerIdCovers(raws: seq<SkinRaw>, idOf: SkinRaw -> nat, make: SkinRaw -> Champion)
    requires forall raw :: make(raw).id == idOf(raw)
    ensures forall j :: 0 <= j < |raws| ==> HasChampion(FirstPerId(raws, idOf, make), idOf(raws[j]))
    decreases |raws|
  {
    if raws != [] {
      var n := |raws| - 1;
      var prefix := raws[..n];
      var before := FirstPerId(prefix, idOf, make);
      var cs := FirstPerId(raws, idOf, make);
      FirstPerIdCovers(prefix, idOf, make);
      HasChampionAppend(before, make(raws[n]));
      forall j | 0 <= j < |raws| ensures HasChampion(cs, idOf(raws[j])) {
        if j < n {
          assert raws[j] == prefix[j];
        }
      }
    }
  }

  /** Every element's id occurs, and each element is built from the FIRST record of its id. */
  lemma {:induction false} FirstPerIdFromFirst(raws: seq<SkinRaw>, idOf: SkinRaw -> nat, make: SkinRaw -> Champion)
    requires forall raw :: make(raw).id == idOf(raw)
    ensures var cs := FirstPerId(raws, idOf, make);
      && (forall k :: 0 <= k < |cs| ==> Occurs(raws, idOf, cs[k].id))
      && (forall k :: 0 <= k < |cs| ==> cs[k] == make(raws[FirstIndex(raws, idOf, cs[k].id)]))
    decreases |raws|
  {
    if raws != [] {
      var n := |raws| - 1;
      var prefix := raws[..n];
      var raw := raws[n];
      var before := FirstPerId(prefix, idOf, make);
      var cs := FirstPerId(raws, idOf, make);
      FirstPerIdFromFirst(prefix, idOf, make);
      assert before == FirstPerId(prefix, idOf, make);
      assert forall k :: 0 <= k < |before| ==> Occurs(prefix, idOf, before[k].id);
      assert forall k :: 0 <= k < |before| ==> before[k] == make(prefix[FirstIndex(prefix, idOf, before[k].id)]);
      var id := idOf(raw);
      if cs != before {
        FirstPerIdCovers(prefix, idOf, make);
        forall j | 0 <= j < n ensures idOf(raws[j]) != id {
          assert raws[j] == prefix[j];
        }
        FirstIndexUnique(raws, idOf, id, n);
        assert cs == before + [make(raw)];
      }
      forall k | 0 <= k < |cs|
        ensures Occurs(raws, idOf, cs[k].id)
        ensures cs[k] == make(raws[FirstIndex(raws, idOf, cs[k].id)])
      {
        if k < |before| {
          assert cs[k] == before[k];
          FirstIndexExtend(raws, idOf, before[k].id, n);
          var f := FirstIndex(prefix, idOf, before[k].id);
          assert raws[f] == prefix[f];
        }
      }
    }
  }

  /** The elements are ordered by the first occurrences of their ids. */
  lemma {:induction false} FirstPerIdOrdered(raws: seq<SkinRaw>, idOf: SkinRaw -> nat, make: SkinRaw -> Champion)
    requires forall raw :: make(raw).id == idOf(raw)
    ensures var cs := FirstPerId(raws, idOf, make);
      && (forall k :: 0 <= k < |cs| ==> Occurs(raws, idOf, cs[k].id))
      && (forall a, b :: 0 <= a < b < |cs| ==> FirstIndex(raws, idOf, cs[a].id) < FirstIndex(raws, idOf, cs[b].id))
    decreases |raws|
  {
    FirstPerIdFromFirst(raws, idOf, make);
    if raws != [] {
      var n := |raws| - 1;
      var prefix := raws[..n];
      var before := FirstPerId(prefix, idOf, make);
      var cs := FirstPerId(raws, idOf, make);
      FirstPerIdOrdered(prefix, idOf, make);
      assert before == FirstPerId(prefix, idOf, make);
      assert forall k :: 0 <= k < |before| ==> Occurs(prefix, idOf, before[k].id);
      var id := idOf(raws[n]);
      if cs != before {
        FirstPerIdCovers(prefix, idOf, make);
        forall j | 0 <= j < n ensures idOf(raws[j]) != id {
          assert raws[j] == prefix[j];
        }
        FirstIndexUnique(raws, idOf, id, n);
        assert cs == before + [make(raws[n])];
      }
      forall a, b | 0 <= a < b < |cs| ensures FirstIndex(raws, idOf, cs[a].id) < FirstIndex(raws, idOf, cs[b].id) {
        assert cs[a] == before[a];
        FirstIndexExtend(raws, idOf, before[a].id, n);
        if b < |before| {
          assert cs[b] == before[b];
          FirstIndexExtend(raws, idOf, before[b].id, n);
        } else {
          assert cs[b].id == id;
        }
      }
    }
  }

  /**
   * First wins: every id of the records has an element, every element's id
   * occurs, each element is built from the FIRST record of its id, and the
   * elements are ordered by the first occurrence of their ids.
   */
  lemma FirstPerIdFirstWins(raws: seq<SkinRaw>, idOf: SkinRaw -> nat, make: SkinRaw -> Champion)
    requires forall raw :: make(raw).id == idOf(raw)
    ensures var cs := FirstPerId(raws, idOf, make);
      && (forall j :: 0 <= j < |raws| ==> HasChampion(cs, idOf(raws[j])))
      && (forall k :: 0 <= k < |cs| ==> Occurs(raws, idOf, cs[k].id))
      && (forall k :: 0 <= k < |cs| ==> cs[k] == make(raws[FirstIndex(raws, idOf, cs[k].id)]))
      && (forall a, b :: 0 <= a < b < |cs| ==> FirstIndex(raws, idOf, cs[a].id) < FirstIndex(raws, idOf, cs[b].id))
  {
    FirstPerIdCovers(raws, idOf, make);
    FirstPerIdFromFirst(raws, idOf, make);
    FirstPerIdOrdered(raws, idOf, make);
  }

  /** What the loop of `listChampions` builds over `raws`. */
  function ChampionsOf(raws: seq<SkinRaw>): (champions: seq<Champion>)
  {
    FirstPerId(raws, ChampionIdOf, ChampionFrom)
  }

  /**
   * What `listChampions` returns, characterised without the loop: one
   * champion per distinct decoded champion id of the records, each built
   * from the FIRST record with that id (later records never overwrite it),
   * listed in the order in which the ids first occur.
   */
  lemma ChampionsOfFirstWins(raws: seq<SkinRaw>)
    ensures var cs := ChampionsOf(raws);
      && (forall j :: 0 <= j < |raws| ==> HasChampion(cs, ChampionIdOf(raws[j])))
      && (forall k :: 0 <= k < |cs| ==> Occurs(raws, ChampionIdOf, cs[k].id))
      && (forall k :: 0 <= k < |cs| ==> cs[k] == ChampionFrom(raws[FirstIndex(raws, ChampionIdOf, cs[k].id)]))
      && (forall a, b :: 0 <= a < b < |cs| ==>
            FirstIndex(raws, ChampionIdOf, cs[a].id) < FirstIndex(raws, ChampionIdOf, cs[b].id))
  {
    FirstPerIdFirstWins(raws, ChampionIdOf, ChampionFrom);
  }

  /** No two champions of `listChampions` share an id. */
  lemma ChampionIdsDistinct(raws: seq<SkinRaw>)
    ensures var cs := ChampionsOf(raws);
      forall a, b :: 0 <= a < b < |cs| ==> cs[a].id != cs[b].id
  {
    ChampionsOfFirstWins(raws);
  }

  /**
   * `listChampions`: walk the records once, keeping the first champion seen
   * for each decoded champion id in an insertion-ordered map.
   */
  method ListChampions(feed: Feed) returns (champions: seq<Champion>)
    ensures champions == ChampionsOf(LoadSkinData(feed))
    ensures feed.None? ==> champions == []
  {
    var rawSkins := LoadSkinData(feed);
    // championsMap's keys; `champions` holds its values in insertion order.
    var championsMap: map<nat, Champion> := map[];
    champions := [];
    for i := 0 to |rawSkins|
      invariant champions == ChampionsOf(rawSkins[..i])
      invariant forall id :: id in championsMap <==> HasChampion(champions, id)
    {
      assert rawSkins[..i + 1][..i] == rawSkins[..i];
      var championId := DecodeSkinId(rawSkins[i].id).championId;
      if championId in championsMap {
        continue;
      }
      var champion := Champion(championId, rawSkins[i].name, LoadingImage(rawSkins[i].splashPath, "0"));
      championsMap := championsMap[championId := champion];
      HasChampionAppend(champions, champion);
      champions := champions + [champion];
    }
    assert rawSkins[..|rawSkins|] == rawSkins;
  }

  // ---------------------------------------------------------------------
  // listSkins
  // ---------------------------------------------------------------------

  /** `new Map(champions.map(c => [c.id, c]))`: a later entry with the same id overwrites. */
  function IndexById(champions: seq<Champion>): (m: map<nat, Champion>)
    ensures forall id :: id in m <==> HasChampion(champions, id)
    ensures forall k :: 0 <= k < |champions| ==> champions[k].id in m
    ensures forall id :: id in m ==> m[id].id == id
  {
    if champions == [] then map[]
    else
      var n := |champions| - 1;
      var before := IndexById(champions[..n]);
      var m := before[champions[n].id := champions[n]];
      assert forall k :: 0 <= k < n ==> champions[..n][k] == champions[k];
      m
  }

  /** With distinct ids nothing is overwritten: each champion is found under its own id. */
  lemma {:induction false} IndexByIdDistinct(champions: seq<Champion>)
    requires forall a, b :: 0 <= a < b < |champions| ==> champions[a].id != champions[b].id
    ensures forall k :: 0 <= k < |champions| ==> IndexById(champions)[champions[k].id] == champions[k]
    decreases |champions|
  {
    if champions != [] {
      var n := |champions| - 1;
      var prefix := champions[..n];
      assert forall k :: 0 <= k < n ==> prefix[k] == champions[k];
      IndexByIdDistinct(prefix);
    }
  }

  /**
   * The chromas of a skin: an absent list gives none; otherwise one chroma
   * per raw chroma, in order, each with its decoded local id, the parent's
   * champion id and name, and its colours unchanged.
   */
  function ChromasOf(raw: Option<seq<RawChroma>>, championId: nat, championName: string): (r: seq<Chroma>)
    ensures raw.None? ==> r == []
    ensures raw.Some? ==> |r| == |raw.value|
    ensures raw.Some? ==> forall k :: 0 <= k < |r| ==>
              && r[k].id == DecodeSkinId(raw.value[k].id).skinId
              && r[k].championId == championId
              && r[k].championName == championName
              && r[k].colors == raw.value[k].colors
  {
    var list := if raw.None? then [] else raw.value;
    seq(|list|, k requires 0 <= k < |list| =>
      Chroma(DecodeSkinId(list[k].id).skinId, championId, championName, list[k].colors))
  }

  /** The skin `listSkins` pushes for a record whose champion was found. */
  function SkinFrom(raw: SkinRaw, champion: Champion): (skin: Skin)
  {
    var ids := DecodeSkinId(raw.id);
    Skin(
      ids.skinId,
      ids.championId,
      champion.name,
      raw.name,
      LoadingImage(raw.splashPath, Show(ids.skinId)),
      ChromasOf(raw.chromas, ids.championId, champion.name))
  }

  /**
   * The array filled by walking `raws` and pushing `make(raw, champion)`
   * for each record whose id `championsById` knows; other records are skipped.
   */
  function KnownOnly(raws: seq<SkinRaw>, idOf: SkinRaw -> nat, championsById: map<nat, Champion>,
                     make: (SkinRaw, Champion) -> Skin): (skins: seq<Skin>)
  {
    if raws == [] then []
    else
      var before := KnownOnly(raws[..|raws| - 1], idOf, championsById, make);
      var raw := raws[|raws| - 1];
      if idOf(raw) in championsById then before + [make(raw, championsById[idOf(raw)])] else before
  }

  /** Never more elements than records, and none when no record's id is known. */
  lemma {:induction false} KnownOnlyBound(raws: seq<SkinRaw>, idOf: SkinRaw -> nat, championsById: map<nat, Champion>,
                                          make: (SkinRaw, Champion) -> Skin)
    ensures |KnownOnly(raws, idOf, championsById, make)| <= |raws|
    ensures (forall j :: 0 <= j < |raws| ==> idOf(raws[j]) !in championsById) ==>
              KnownOnly(raws, idOf, championsById, make) == []
    decreases |raws|
  {
    if raws != [] {
      var n := |raws| - 1;
      assert forall j :: 0 <= j < n ==> raws[..n][j] == raws[j];
      KnownOnlyBound(raws[..n], idOf, championsById, make);
    }
  }

  /** When every record's id is known, the element at `j` is built from record `j`. */
  lemma {:induction false} KnownOnlyAt(raws: seq<SkinRaw>, idOf: SkinRaw -> nat, championsById: map<nat, Champion>,
                                       make: (SkinRaw, Champion) -> Skin, j: nat)
    requires forall i :: 0 <= i < |raws| ==> idOf(raws[i]) in championsById
    requires j < |raws|
    ensures var skins := KnownOnly(raws, idOf, championsById, make);
      |skins| == |raws| && skins[j] == make(raws[j], championsById[idOf(raws[j])])
    decreases |raws|
  {
    var n := |raws| - 1;
    var prefix := raws[..n];
    assert forall i :: 0 <= i < n ==> prefix[i] == raws[i];
    if n == 0 {
    } else if j < n {
      KnownOnlyAt(prefix, idOf, championsById, make, j);
    } else {
      KnownOnlyAt(prefix, idOf, championsById, make, 0);
    }
  }

  /** The records whose id `championsById` knows, in their order. */
  function KnownRecords(raws: seq<SkinRaw>, idOf: SkinRaw -> nat, championsById: map<nat, Champion>): (known: seq<SkinRaw>)
    ensures |known| <= |raws|
    ensures forall k :: 0 <= k < |known| ==> idOf(known[k]) in championsById
    ensures forall raw :: raw in known <==> raw in raws && idOf(raw) in championsById
  {
    if raws == [] then []
    else
      var before := KnownRecords(raws[..|raws| - 1], idOf, championsById);
      var raw := raws[|raws| - 1];
      assert raws == raws[..|raws| - 1] + [raw];
      if idOf(raw) in championsById then before + [raw] else before
  }

  /** Skipping unknown records while walking is walking the known records only. */
  lemma {:induction false} KnownOnlyFilters(raws: seq<SkinRaw>, idOf: SkinRaw -> nat, championsById: map<nat, Champion>,
                                            make: (SkinRaw, Champion) -> Skin)
    ensures KnownOnly(raws, idOf, championsById, make)
         == KnownOnly(KnownRecords(raws, idOf, championsById), idOf, championsById, make)
    decreases |raws|
  {
    if raws != [] {
      var n := |raws| - 1;
      KnownOnlyFilters(raws[..n], idOf, championsById, make);
      var known := KnownRecords(raws[..n], idOf, championsById);
      if idOf(raws[n]) in championsById {
        var grown := known + [raws[n]];
        assert grown[..|grown| - 1] == known;
      }
    }
  }

  /** The `skins` array the loop of `listSkins` builds over `raws`. */
  function SkinsOf(raws: seq<SkinRaw>, championsById: map<nat, Champion>): (skins: seq<Skin>)
  {
    KnownOnly(raws, ChampionIdOf, championsById, SkinFrom)
  }

  /**
   * When every record's champion is known, no record is dropped: one skin
   * per record, in record order, each built from its own record.
   */
  lemma SkinsOfKeepsAll(raws: seq<SkinRaw>, championsById: map<nat, Champion>)
    requires forall j :: 0 <= j < |raws| ==> ChampionIdOf(raws[j]) in championsById
    ensures var skins := SkinsOf(raws, championsById);
      && |skins| == |raws|
      && forall j :: 0 <= j < |raws| ==> skins[j] == SkinFrom(raws[j], championsById[ChampionIdOf(raws[j])])
  {
    if raws != [] {
      KnownOnlyAt(raws, ChampionIdOf, championsById, SkinFrom, 0);
    }
    forall j | 0 <= j < |raws|
      ensures SkinsOf(raws, championsById)[j] == SkinFrom(raws[j], championsById[ChampionIdOf(raws[j])])
    {
      KnownOnlyAt(raws, ChampionIdOf, championsById, SkinFrom, j);
    }
  }

  /** A record whose champion is unknown is skipped, so never more skins than records. */
  lemma SkinsOfBound(raws: seq<SkinRaw>, championsById: map<nat, Champion>)
    ensures |SkinsOf(raws, championsById)| <= |raws|
    ensures (forall j :: 0 <= j < |raws| ==> ChampionIdOf(raws[j]) !in championsById) ==> SkinsOf(raws, championsById) == []
  {
    KnownOnlyBound(raws, ChampionIdOf, championsById, SkinFrom);
  }

  /**
   * Records whose champion is unknown are dropped and the others kept: one
   * skin per known record, in record order, each built from its own record,
   * so every skin's champion is one the map knows.
   */
  lemma SkinsOfDropsUnknown(raws: seq<SkinRaw>, championsById: map<nat, Champion>)
    ensures var known := KnownRecords(raws, ChampionIdOf, championsById);
      var skins := SkinsOf(raws, championsById);
      && |skins| == |known|
      && (forall k :: 0 <= k < |skins| ==> skins[k] == SkinFrom(known[k], championsById[ChampionIdOf(known[k])]))
      && (forall k :: 0 <= k < |skins| ==> skins[k].championId in championsById)
  {
    KnownOnlyFilters(raws, ChampionIdOf, championsById, SkinFrom);
    SkinsOfKeepsAll(KnownRecords(raws, ChampionIdOf, championsById), championsById);
  }

  /**
   * `listSkins`: the records are read once directly and once more inside
   * `listChampions` (two reads of the same file, `skinFeed` and
   * `championFeed`); each record whose champion is found becomes one skin.
   */
  method ListSkins(skinFeed: Feed, championFeed: Feed) returns (skins: seq<Skin>)
    ensures skins == SkinsOf(LoadSkinData(skinFeed), IndexById(ChampionsOf(LoadSkinData(championFeed))))
  {
    var rawSkins := LoadSkinData(skinFeed);
    var champions := ListChampions(championFeed);
    var championsById := IndexById(champions);
    skins := [];
    for i := 0 to |rawSkins|
      invariant skins == SkinsOf(rawSkins[..i], championsById)
    {
      assert rawSkins[..i + 1][..i] == rawSkins[..i];
      var ids := DecodeSkinId(rawSkins[i].id);
      if ids.championId !in championsById {
        continue;
      }
      var champion := championsById[ids.championId];
      skins := skins + [Skin(
        ids.skinId,
        ids.championId,
        champion.name,
        rawSkins[i].name,
        LoadingImage(rawSkins[i].splashPath, Show(ids.skinId)),
        ChromasOf(rawSkins[i].chromas, ids.championId, champion.name))];
    }
    assert rawSkins[..|rawSkins|] == rawSkins;
  }

  /**
   * When both reads see the same file, every record yields exactly one skin,
   * in record order, built from the record itself and the champion of the
   * FIRST record with the same champion id.
   */
  lemma SameFeedKeepsEverySkin(raws: seq<SkinRaw>)
    ensures var skins := SkinsOf(raws, IndexById(ChampionsOf(raws)));
      && |skins| == |raws|
      && forall j :: 0 <= j < |raws| ==>
           && Occurs(raws, ChampionIdOf, ChampionIdOf(raws[j]))
           && skins[j] == SkinFrom(raws[j], ChampionFrom(raws[FirstIndex(raws, ChampionIdOf, ChampionIdOf(raws[j]))]))
  {
    var cs := ChampionsOf(raws);
    var byId := IndexById(cs);
    ChampionsOfFirstWins(raws);
    ChampionIdsDistinct(raws);
    IndexByIdDistinct(cs);
    SkinsOfKeepsAll(raws, byId);
    forall j | 0 <= j < |raws|
      ensures byId[ChampionIdOf(raws[j])] == ChampionFrom(raws[FirstIndex(raws, ChampionIdOf, ChampionIdOf(raws[j]))])
    {
      var k :| 0 <= k < |cs| && cs[k].id == ChampionIdOf(raws[j]);
      assert byId[cs[k].id] == cs[k];
    }
  }

  /**
   * The fields of the skin `listSkins` makes of record `j` when both reads
   * see the same file: the decoded local and champion ids, the name of the
   * first record of its champion, the record's own name, an image ending in
   * `_<local id>.jpg`, and the record's chromas decoded under that champion.
   */
  lemma SameFeedSkinFields(raws: seq<SkinRaw>, j: nat)
    requires j < |raws|
    ensures var skins := SkinsOf(raws, IndexById(ChampionsOf(raws)));
      var ids := DecodeSkinId(raws[j].id);
      && Occurs(raws, ChampionIdOf, ids.championId)
      && var first := raws[FirstIndex(raws, ChampionIdOf, ids.championId)];
      && j < |skins|
      && skins[j].id == ids.skinId
      && skins[j].championId == ids.championId
      && skins[j].championName == first.name
      && skins[j].name == raws[j].name
      && EndsWith(skins[j].image, "_" + Show(ids.skinId) + ".jpg")
      && skins[j].chromas == ChromasOf(raws[j].chromas, ids.championId, first.name)
  {
    SameFeedKeepsEverySkin(raws);
    var first := raws[FirstIndex(raws, ChampionIdOf, ChampionIdOf(raws[j]))];
    SkinFromImage(raws[j], ChampionFrom(first));
  }

  /** The image of a skin ends in `_<local id>.jpg`. */
  lemma SkinFromImage(raw: SkinRaw, champion: Champion)
    ensures EndsWith(SkinFrom(raw, champion).image, "_" + Show(DecodeSkinId(raw.id).skinId) + ".jpg")
  {
    LoadingImageEnds(raw.splashPath, Show(DecodeSkinId(raw.id).skinId));
  }

  /** A loading image URL ends in `_<number>.jpg`. */
  lemma LoadingImageEnds(splashPath: string, number: string)
    ensures EndsWith(LoadingImage(splashPath, number), "_" + number + ".jpg")
  {
    var prefix := LoadingImageBase + KeyText(ChampionKeyFromSplashArt(splashPath));
    var suffix := "_" + number + ".jpg";
    var image := LoadingImage(splashPath, number);
    assert image == prefix + suffix;
    assert image[|prefix|..] == suffix;
  }

  predicate EndsWith(s: string, suffix: string)
  {
    |suffix| <= |s| && s[|s| - |suffix|..] == suffix
  }
}
