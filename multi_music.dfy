/** The multi-platform song request plugin: the current platform, the
    per-user table of search results, the conversion of a search payload
    into song records, and the play links. */
module MultiMusic {
  import opened Wrappers
  import opened SeqFacts
  import opened Text

  // ---------------------------------------------------------------------
  // Decoded JSON

  /** A decoded JSON value (numbers are integers). */
  datatype Json =
    | JNull
    | JBool(b: bool)
    | JInt(n: int)
    | JStr(s: string)
    | JList(items: seq<Json>)
    | JObject(fields: map<string, Json>)

  /** Python truthiness of a decoded value. */
  predicate Truthy(v: Json) {
    match v
    case JNull => false
    case JBool(b) => b
    case JInt(n) => n != 0
    case JStr(s) => s != []
    case JList(items) => items != []
    case JObject(fields) => |fields| != 0
  }

  /** Python's `str(v)` for scalar values; arrays and objects are rendered
      as fixed placeholders. */
  function Render(v: Json): (r: string)
    ensures v.JStr? ==> r == v.s
  {
    match v
    case JNull => "None"
    case JBool(b) => if b then "True" else "False"
    case JInt(n) => IntToString(n)
    case JStr(s) => s
    case JList(_) => "[...]"
    case JObject(_) => "{...}"
  }

  /** `d.get(name, default)` on an object. */
  function GetOr(fields: map<string, Json>, name: string, default: Json): Json {
    if name in fields then fields[name] else default
  }

  // ---------------------------------------------------------------------
  // Song records

  /** One search result: `name`, `artist` and `id`, plus `mid` for QQ
      results (None for NetEase results, which have no `mid` key). */
  datatype SongRecord = SongRecord(name: Json, artist: Json, id: Json, mid: Option<Json>)

  /** `"grp" in song and song["grp"]` then `song["grp"][0]`, else the song
      itself; None where Python raises (a song that is not an object, a
      truthy `grp` that is not a list). */
  function QqSongInfo(song: Json): Option<Json> {
    match song
    case JObject(f) =>
      if "grp" in f && Truthy(f["grp"]) then
        match f["grp"]
        case JList(versions) => Some(versions[0])
        case _ => None
      else Some(song)
    case _ => None
  }

  /** The QQ result record for one song entry; None where a key is missing
      or the entry is not an object. */
  function QqRecord(info: Json): (r: Option<SongRecord>)
    ensures r.Some? ==> r.value.mid.Some?
  {
    match info
    case JObject(f) =>
      if "song" in f && "singer" in f && "id" in f
      then Some(SongRecord(f["song"], f["singer"], f["id"], Some(GetOr(f, "mid", JStr("")))))
      else None
    case _ => None
  }

  /** The NetEase result record for one song entry. */
  function NeteaseRecord(song: Json): (r: Option<SongRecord>)
    ensures r.Some? ==> r.value.mid.None?
  {
    match song
    case JObject(f) =>
      if "song" in f && "singer" in f && "id" in f
      then Some(SongRecord(f["song"], f["singer"], f["id"], None))
      else None
    case _ => None
  }

  /** The record for one QQ song entry, the first version preferred. */
  function QqEntry(song: Json): Option<SongRecord> {
    match QqSongInfo(song)
    case Some(info) => QqRecord(info)
    case None => None
  }

  /** Converting a list of entries: one record per entry, in order, or None
      when any entry raises. */
  function ConvertAll(songs: seq<Json>, netease: bool): (r: Option<seq<SongRecord>>)
    ensures r.Some? ==> |r.value| == |songs|
    ensures r.Some? <==> forall i :: 0 <= i < |songs| ==> Entry(songs[i], netease).Some?
  {
    if songs == [] then Some([])
    else
      var rest := ConvertAll(songs[1..], netease);
      assert forall i :: 1 <= i < |songs| ==> songs[i] == songs[1..][i - 1];
      match Entry(songs[0], netease)
      case None => None
      case Some(rec) => if rest.None? then None else Some([rec] + rest.value)
  }

  function Entry(song: Json, netease: bool): Option<SongRecord> {
    if netease then NeteaseRecord(song) else QqEntry(song)
  }

  /** Each converted record is the record of the entry at the same place. */
  lemma {:induction false} ConvertAllPointwise(songs: seq<Json>, netease: bool, i: int)
    requires ConvertAll(songs, netease).Some? && 0 <= i < |songs|
    ensures Some(ConvertAll(songs, netease).value[i]) == Entry(songs[i], netease)
  {
    if i > 0 {
      assert songs[1..][i - 1] == songs[i];
      ConvertAllPointwise(songs[1..], netease, i - 1);
    }
  }

  /** The song list `search_qq_music` returns for a decoded payload: [] for
      a payload that is not an object, a `code` other than 200, a `data`
      member that is not a non-empty list, or an entry that raises. */
  function QqResults(payload: Json): seq<SongRecord> {
    match payload
    case JObject(f) =>
      if GetOr(f, "code", JNull) != JInt(200) then []
      else
        (match GetOr(f, "data", JList([]))
         case JList(songs) => ConvertAll(songs, false).GetOr([])
         case _ => [])
    case _ => []
  }

  /** The `data` member of a NetEase payload as a list: a single object is
      wrapped in a one-element list; any other non-list iterates to nothing
      usable. */
  function NeteaseSongs(data: Json): Option<seq<Json>> {
    match data
    case JList(songs) => Some(songs)
    case JObject(_) => Some([data])
    case _ => None
  }

  /** The song list `search_163_music` returns for a decoded payload. */
  function NeteaseResults(payload: Json): seq<SongRecord> {
    match payload
    case JObject(f) =>
      if GetOr(f, "code", JNull) != JInt(200) then []
      else
        (match NeteaseSongs(GetOr(f, "data", JList([])))
         case Some(songs) => ConvertAll(songs, true).GetOr([])
         case None => [])
    case _ => []
  }

  /** Every QQ record carries a `mid`, so the QQ play link is always built
      from it and never from the `id`. */
  lemma QqResultsHaveMid(payload: Json, i: int)
    requires payload.JObject? && 0 <= i < |QqResults(payload)|
    ensures QqResults(payload)[i].mid.Some?
  {
    var f := payload.fields;
    var songs := GetOr(f, "data", JList([])).items;
    ConvertAllPointwise(songs, false, i);
  }

  /** A QQ entry with a non-empty `grp` list is recorded from its first
      version, with `mid` defaulting to "". */
  lemma QqPrefersFirstVersion(payload: Json, i: int)
    requires payload.JObject? && 0 <= i < |QqResults(payload)|
    ensures var songs := GetOr(payload.fields, "data", JList([])).items;
      var f := songs[i].fields;
      && |QqResults(payload)| == |songs|
      && songs[i].JObject?
      && ("grp" in f && Truthy(f["grp"]) ==>
            f["grp"].JList? && QqRecord(f["grp"].items[0]) == Some(QqResults(payload)[i]))
      && (!("grp" in f && Truthy(f["grp"])) ==> QqRecord(songs[i]) == Some(QqResults(payload)[i]))
      && QqResults(payload)[i].mid.value ==
           (var info := if "grp" in f && Truthy(f["grp"]) then f["grp"].items[0] else songs[i];
            GetOr(info.fields, "mid", JStr("")))
  {
    var songs := GetOr(payload.fields, "data", JList([])).items;
    ConvertAllPointwise(songs, false, i);
  }

  /** A single song object in a NetEase payload gives the same results as a
      list holding just that object. */
  lemma NeteaseSingleObject(code: Json, song: map<string, Json>)
    ensures NeteaseResults(JObject(map["code" := code, "data" := JObject(song)]))
         == NeteaseResults(JObject(map["code" := code, "data" := JList([JObject(song)])]))
  {
  }

  /** Any payload whose `code` is not 200 gives no results on either
      platform. */
  lemma CodeGuard(f: map<string, Json>)
    requires GetOr(f, "code", JNull) != JInt(200)
    ensures QqResults(JObject(f)) == [] && NeteaseResults(JObject(f)) == []
  {
  }

  // ---------------------------------------------------------------------
  // Play links

  const QqUrlPrefix: string := "https://ws.stream.qqmusic.qq.com/"
  const QqUrlSuffix: string := ".m4a?fromtag=0&guid=126548448"
  const NeteaseUrlPrefix: string := "http://music.163.com/song/media/outer/url?id="
  const NeteaseUrlSuffix: string := ".mp3"

  /** The platform codes `set_platform` accepts. */
  const Platforms: set<string> := {"qq", "163"}

  /** `get_qq_music_url`: no link for a falsy `mid`. */
  function QqMusicUrl(mid: Json): (r: Option<string>)
    ensures r.None? <==> !Truthy(mid)
  {
    if !Truthy(mid) then None else Some(QqUrlPrefix + Render(mid) + QqUrlSuffix)
  }

  /** `get_163_music_url`: no link for a falsy `id`. */
  function NeteaseMusicUrl(songId: Json): (r: Option<string>)
    ensures r.None? <==> !Truthy(songId)
  {
    if !Truthy(songId) then None else Some(NeteaseUrlPrefix + Render(songId) + NeteaseUrlSuffix)
  }

  /** The text between a known prefix and suffix, when both are there. */
  function Between(url: string, prefix: string, suffix: string): Option<string> {
    if |prefix| + |suffix| <= |url| && url[..|prefix|] == prefix && url[|url| - |suffix|..] == suffix
    then Some(url[|prefix|..|url| - |suffix|])
    else None
  }

  /** The id a play link was built from can be read back from the link. */
  lemma PlayUrlsCarryId(v: Json)
    requires Truthy(v)
    ensures Between(QqMusicUrl(v).value, QqUrlPrefix, QqUrlSuffix) == Some(Render(v))
    ensures Between(NeteaseMusicUrl(v).value, NeteaseUrlPrefix, NeteaseUrlSuffix) == Some(Render(v))
  {
    var q := QqMusicUrl(v).value;
    assert q[..|QqUrlPrefix|] == QqUrlPrefix;
    assert q[|q| - |QqUrlSuffix|..] == QqUrlSuffix;
    assert q[|QqUrlPrefix|..|q| - |QqUrlSuffix|] == Render(v);
    var n := NeteaseMusicUrl(v).value;
    assert n[..|NeteaseUrlPrefix|] == NeteaseUrlPrefix;
    assert n[|n| - |NeteaseUrlSuffix|..] == NeteaseUrlSuffix;
    assert n[|NeteaseUrlPrefix|..|n| - |NeteaseUrlSuffix|] == Render(v);
  }

  /** The play link for a selected song on the current platform: on "qq",
      `song.get('mid', song.get('id'))`; on "163", the `id`. */
  function PlayUrl(platform: string, song: SongRecord): Option<string> {
    if platform == "qq" then QqMusicUrl(if song.mid.Some? then song.mid.value else song.id)
    else if platform == "163" then NeteaseMusicUrl(song.id)
    else None
  }

  // ---------------------------------------------------------------------
  // Platforms

  /** `get_platform_name`. */
  function PlatformName(platform: string): string {
    if platform == "qq" then "QQ音乐"
    else if platform == "163" then "网易云音乐"
    else "未知平台"
  }

  /** The songs a search on `platform` lists for the decoded payload. */
  function SongsFor(platform: string, payload: Json): seq<SongRecord> {
    if platform == "163" then NeteaseResults(payload) else QqResults(payload)
  }

  /** Each display name belongs to exactly one case of the platform code. */
  lemma PlatformNames(platform: string)
    ensures platform == "qq" <==> PlatformName(platform) == "QQ音乐"
    ensures platform == "163" <==> PlatformName(platform) == "网易云音乐"
    ensures platform != "qq" && platform != "163" <==> PlatformName(platform) == "未知平台"
  {
  }

  /** The link of a song listed by a search on the current platform: on
      "qq" the song has a `mid` and the link exists exactly when that `mid`
      is truthy and carries it; on "163" the song has no `mid` and the link
      exists exactly when the `id` is truthy and carries it; any other
      platform gives no link. */
  lemma SearchResultLinks(platform: string, payload: Json, i: int)
    requires 0 <= i < |SongsFor(platform, payload)|
    ensures var song := SongsFor(platform, payload)[i];
      var url := PlayUrl(platform, song);
      && (platform == "qq" ==>
            && song.mid.Some?
            && (url.Some? <==> Truthy(song.mid.value))
            && (url.Some? ==> Between(url.value, QqUrlPrefix, QqUrlSuffix) == Some(Render(song.mid.value))))
      && (platform == "163" ==>
            && song.mid.None?
            && (url.Some? <==> Truthy(song.id))
            && (url.Some? ==> Between(url.value, NeteaseUrlPrefix, NeteaseUrlSuffix) == Some(Render(song.id))))
      && (platform !in Platforms ==> url.None?)
  {
    var song := SongsFor(platform, payload)[i];
    if platform == "qq" {
      QqResultsHaveMid(payload, i);
      if Truthy(song.mid.value) {
        PlayUrlsCarryId(song.mid.value);
      }
    } else if platform == "163" {
      var songs := NeteaseSongs(GetOr(payload.fields, "data", JList([]))).value;
      ConvertAllPointwise(songs, true, i);
      if Truthy(song.id) {
        PlayUrlsCarryId(song.id);
      }
    }
  }

  /** The platform chosen by the `default_api` setting. */
  function InitialPlatform(defaultApi: string): (r: string)
    ensures r == "163" <==> defaultApi == "netease"
    ensures r == "qq" || r == "163"
  {
    if defaultApi == "netease" then "163" else if defaultApi == "qqmusic" then "qq" else "qq"
  }

  /** What `dian` answers. */
  datatype SearchOutcome =
    | AskForName(platformName: string)        // the song name is empty
    | SearchFailed                            // the request itself raised
    | NoSongs(platformName: string, query: string)
    | Listed(platformName: string, songs: seq<SongRecord>)

  /** What `handle_message` does with a message. */
  datatype SelectOutcome =
    | NotASelection                           // no stored results, or not all digits
    | OutOfRange                              // a number outside 1..len
    | Selected(song: SongRecord, playUrl: Option<string>)   // None: the link could not be built

  /** What `set_music_platform` answers. */
  datatype PlatformOutcome = ShowPlatforms(current: string) | Switched(name: string) | Unsupported(platform: string)

  /** The plugin's state: the current platform and each user's last
      non-empty search results. */
  class MusicPlugin {
    var currentPlatform: string
    var searchResults: map<string, seq<SongRecord>>

    ghost predicate Valid()
      reads this
    {
      && currentPlatform in Platforms
      && forall u :: u in searchResults ==> searchResults[u] != []
    }

    constructor (defaultApi: string)
      ensures Valid()
      ensures currentPlatform == InitialPlatform(defaultApi) && searchResults == map[]
    {
      currentPlatform := "qq";
      searchResults := map[];
      if defaultApi == "netease" {
        currentPlatform := "163";
      } else if defaultApi == "qqmusic" {
        currentPlatform := "qq";
      } else {
        currentPlatform := "qq";
      }
    }

    /** `set_platform`: exactly "qq" and "163" are accepted. */
    method SetPlatform(platform: string) returns (ok: bool)
      requires Valid()
      modifies this
      ensures Valid()
      ensures ok <==> platform == "qq" || platform == "163"
      ensures currentPlatform == (if ok then platform else old(currentPlatform))
      ensures searchResults == old(searchResults)
    {
      if platform in ["qq", "163"] {
        currentPlatform := platform;
        return true;
      }
      return false;
    }

    /** `set_music_platform`: an empty argument shows the current platform;
        otherwise switch when the platform is supported. */
    method SetMusicPlatform(rawMessage: string) returns (outcome: PlatformOutcome)
      requires Valid()
      modifies this
      ensures Valid()
      ensures var p := Strip(rawMessage);
        && (p == [] ==> outcome == ShowPlatforms(PlatformName(currentPlatform)) && currentPlatform == old(currentPlatform))
        && (p != [] && (p == "qq" || p == "163") ==> outcome == Switched(PlatformName(p)) && currentPlatform == p)
        && (p != [] && p != "qq" && p != "163" ==> outcome == Unsupported(p) && currentPlatform == old(currentPlatform))
      ensures searchResults == old(searchResults)
    {
      var platform := Strip(rawMessage);
      if platform == [] {
        return ShowPlatforms(PlatformName(currentPlatform));
      }
      var ok := SetPlatform(platform);
      if ok {
        outcome := Switched(PlatformName(platform));
      } else {
        outcome := Unsupported(platform);
      }
    }

    /** `search_qq_music` on a decoded payload: the conversion loop. */
    static method SearchQqMusic(payload: Json) returns (results: seq<SongRecord>)
      ensures results == QqResults(payload)
    {
      if !payload.JObject? || GetOr(payload.fields, "code", JNull) != JInt(200) {
        return [];
      }
      var data := GetOr(payload.fields, "data", JList([]));
      if !data.JList? {
        return [];
      }
      var songs := data.items;
      results := [];
      for i := 0 to |songs|
        invariant ConvertAll(songs[..i], false) == Some(results)
      {
        ConvertSnoc(songs, i, false);
        var songInfo: Json;
        var song := songs[i];
        if song.JObject? && "grp" in song.fields && Truthy(song.fields["grp"]) {
          var grp := song.fields["grp"];
          if !grp.JList? {
            ConvertFails(songs, i, false);
            return [];
          }
          songInfo := grp.items[0];
        } else if song.JObject? {
          songInfo := song;
        } else {
          ConvertFails(songs, i, false);
          return [];
        }
        if !(songInfo.JObject? && "song" in songInfo.fields && "singer" in songInfo.fields && "id" in songInfo.fields) {
          ConvertFails(songs, i, false);
          return [];
        }
        var f := songInfo.fields;
        results := results + [SongRecord(f["song"], f["singer"], f["id"], Some(GetOr(f, "mid", JStr(""))))];
      }
      assert songs[..|songs|] == songs;
    }

    /** `search_163_music` on a decoded payload: the conversion loop. */
    static method Search163Music(payload: Json) returns (results: seq<SongRecord>)
      ensures results == NeteaseResults(payload)
    {
      if !payload.JObject? || GetOr(payload.fields, "code", JNull) != JInt(200) {
        return [];
      }
      var data := GetOr(payload.fields, "data", JList([]));
      var songs: seq<Json>;
      if data.JObject? {
        songs := [data];
      } else if data.JList? {
        songs := data.items;
      } else {
        return [];
      }
      results := [];
      for i := 0 to |songs|
        invariant ConvertAll(songs[..i], true) == Some(results)
      {
        ConvertSnoc(songs, i, true);
        var song := songs[i];
        if !(song.JObject? && "song" in song.fields && "singer" in song.fields && "id" in song.fields) {
          ConvertFails(songs, i, true);
          return [];
        }
        var f := song.fields;
        results := results + [SongRecord(f["song"], f["singer"], f["id"], None)];
      }
      assert songs[..|songs|] == songs;
    }

    /** The search `dian` runs on `platform`: any platform other than "163"
        searches QQ Music. */
    static method SearchOn(platform: string, payload: Json) returns (songs: seq<SongRecord>)
      ensures songs == SongsFor(platform, payload)
    {
      if platform == "163" {
        songs := Search163Music(payload);
      } else {
        songs := SearchQqMusic(payload);
      }
    }

    /** `dian` for the sender `userId`, given the decoded search payload
        (None when the request itself raised): search on the current
        platform and store a non-empty result list for the sender. */
    method Dian(userId: string, rawMessage: string, payload: Option<Json>) returns (outcome: SearchOutcome)
      requires Valid()
      modifies this
      ensures Valid()
      ensures currentPlatform == old(currentPlatform)
      ensures Strip(rawMessage) == [] ==>
        outcome == AskForName(PlatformName(currentPlatform)) && searchResults == old(searchResults)
      ensures Strip(rawMessage) != [] && payload.None? ==>
        outcome == SearchFailed && searchResults == old(searchResults)
      ensures Strip(rawMessage) != [] && payload.Some? && SongsFor(currentPlatform, payload.value) == [] ==>
        outcome == NoSongs(PlatformName(currentPlatform), Strip(rawMessage)) && searchResults == old(searchResults)
      ensures Strip(rawMessage) != [] && payload.Some? && SongsFor(currentPlatform, payload.value) != [] ==>
        var songs := SongsFor(currentPlatform, payload.value);
        outcome == Listed(PlatformName(currentPlatform), songs) && searchResults == old(searchResults)[userId := songs]
    {
      var message := Strip(rawMessage);
      var name := PlatformName(currentPlatform);
      if message == [] {
        return AskForName(name);
      }
      if payload.None? {
        return SearchFailed;
      }
      var songs := SearchOn(currentPlatform, payload.value);
      if songs == [] {
        return NoSongs(name, message);
      }
      searchResults := searchResults[userId := songs];
      outcome := Listed(name, songs);
    }

    /** `handle_message` for the sender `userId`: a number in 1..len picks
        that song from the sender's stored results and consumes them; any
        other message changes nothing. */
    method HandleMessage(userId: string, rawMessage: string) returns (outcome: SelectOutcome)
      requires Valid()
      modifies this
      ensures Valid()
      ensures currentPlatform == old(currentPlatform)
      ensures !(userId in old(searchResults) && IsDigits(Strip(rawMessage))) ==>
                outcome == NotASelection && searchResults == old(searchResults)
      ensures userId in old(searchResults) && IsDigits(Strip(rawMessage)) ==>
                var index := DigitsValue(Strip(rawMessage));
                (index < 1 || index > |old(searchResults)[userId]|) ==>
                  outcome == OutOfRange && searchResults == old(searchResults)
      ensures userId in old(searchResults) && IsDigits(Strip(rawMessage)) ==>
                var songs, index := old(searchResults)[userId], DigitsValue(Strip(rawMessage));
                1 <= index <= |songs| ==>
                  && searchResults == old(searchResults) - {userId}
                  && outcome == Selected(songs[index - 1], PlayUrl(currentPlatform, songs[index - 1]))
    {
      var message := Strip(rawMessage);
      if !(userId in searchResults && IsDigits(message)) {
        return NotASelection;
      }
      ParseDigits(message);
      var index := ParseInt(message).value;
      var songs := searchResults[userId];
      if index < 1 || index > |songs| {
        return OutOfRange;
      }
      var song := songs[index - 1];
      var playUrl := FetchPlayUrl(currentPlatform, song);
      searchResults := searchResults - {userId};
      outcome := Selected(song, playUrl);
    }

    /** The platform dispatch of `handle_message`: the QQ link is built from
        `mid` (falling back to `id`), the NetEase link from `id`. */
    static method FetchPlayUrl(platform: string, song: SongRecord) returns (playUrl: Option<string>)
      ensures playUrl == PlayUrl(platform, song)
    {
      playUrl := None;
      if platform == "qq" {
        playUrl := QqMusicUrl(if song.mid.Some? then song.mid.value else song.id);
      } else if platform == "163" {
        playUrl := NeteaseMusicUrl(song.id);
      }
    }
  }

  lemma {:induction false} ConvertSnoc(songs: seq<Json>, i: int, netease: bool)
    requires 0 <= i < |songs|
    ensures ConvertAll(songs[..i + 1], netease) ==
      match ConvertAll(songs[..i], netease)
      case None => None
      case Some(rs) => if Entry(songs[i], netease).None? then None else Some(rs + [Entry(songs[i], netease).value])
  {
    if i > 0 {
      assert songs[..i + 1][1..] == songs[1..][..i];
      assert songs[..i][1..] == songs[1..][..i - 1];
      assert songs[..i + 1][0] == songs[0] && songs[..i][0] == songs[0];
      assert songs[1..][i - 1] == songs[i];
      ConvertSnoc(songs[1..], i - 1, netease);
      var tail := ConvertAll(songs[1..][..i - 1], netease);
      var mid := ConvertAll(songs[1..][..i], netease);
      assert mid == (if tail.None? || Entry(songs[i], netease).None? then None
                     else Some(tail.value + [Entry(songs[i], netease).value]));
      if Entry(songs[0], netease).Some? && tail.Some? && Entry(songs[i], netease).Some? {
        var rec, x := Entry(songs[0], netease).value, Entry(songs[i], netease).value;
        assert [rec] + (tail.value + [x]) == ([rec] + tail.value) + [x];
      }
    } else {
      var one := songs[..1];
      assert one[0] == songs[0] && one[1..] == [] && songs[..0] == [];
      assert ConvertAll(one[1..], netease) == Some([]);
      assert ConvertAll(songs[..0], netease) == Some([]);
      if Entry(songs[0], netease).Some? {
        var x := Entry(songs[0], netease).value;
        assert ConvertAll(one, netease) == Some([x] + []);
        assert [x] + [] == [] + [x];
      }
    }
  }

  /** An entry that raises makes the whole conversion give nothing. */
  lemma ConvertFails(songs: seq<Json>, i: int, netease: bool)
    requires 0 <= i < |songs| && Entry(songs[i], netease).None?
    ensures ConvertAll(songs, netease) == None
  {
  }
}
