/**
 * src/pages/QrCodesPage.tsx: the URL encoded in each room's QR code, and the
 * list of codes the page renders, one per room of each listed site.
 * `enc` stands for `encodeURIComponent`.
 */
module QrCodesPage {
  import opened JsString
  import opened ApiTypes

  /** The customer room page of a room, with both slugs URI-encoded. */
  function EncodedRoomPath(siteSlug: string, roomSlug: string, enc: string -> string): string {
    "/s/" + enc(siteSlug) + "/r/" + enc(roomSlug)
  }

  /** `buildRoomUrl(origin, siteSlug, roomSlug)`. */
  function BuildRoomUrl(origin: string, siteSlug: string, roomSlug: string, enc: string -> string): (r: string)
    ensures |origin| <= |r| && r[..|origin|] == origin
    ensures r[|origin|..] == EncodedRoomPath(siteSlug, roomSlug, enc)
  {
    origin + EncodedRoomPath(siteSlug, roomSlug, enc)
  }

  /** The path of a room URL has exactly the segments "", "s", the site, "r" and the room. */
  lemma EncodedRoomPathSegments(siteSlug: string, roomSlug: string, enc: string -> string)
    requires IsUriComponentEncoder(enc)
    ensures Split(EncodedRoomPath(siteSlug, roomSlug, enc), '/') == ["", "s", enc(siteSlug), "r", enc(roomSlug)]
  {
    var site := enc(siteSlug);
    var room := enc(roomSlug);
    assert '/' !in site && '/' !in room;
    SplitRoomPath(site, room);
  }

  lemma SplitRoomPath(site: string, room: string)
    requires '/' !in site && '/' !in room
    ensures Split("/s/" + site + "/r/" + room, '/') == ["", "s", site, "r", room]
  {
    var rest := site + "/r/" + room;
    SplitSiteAndRoom(site, room);
    SplitAtFirstSeparator("s", '/', rest);
    SplitAtFirstSeparator("", '/', "s" + ['/'] + rest);
    assert "" + ['/'] + ("s" + ['/'] + rest) == "/s/" + site + "/r/" + room;
  }

  lemma SplitSiteAndRoom(site: string, room: string)
    requires '/' !in site && '/' !in room
    ensures Split(site + "/r/" + room, '/') == [site, "r", room]
  {
    SplitWithoutSeparator(room, '/');
    SplitAtFirstSeparator("r", '/', room);
    SplitAtFirstSeparator(site, '/', "r" + ['/'] + room);
    assert site + ['/'] + ("r" + ['/'] + room) == site + "/r/" + room;
  }

  /** For one origin, distinct (site, room) pairs get distinct URLs. */
  lemma BuildRoomUrlInjective(origin: string, s1: string, r1: string, s2: string, r2: string, enc: string -> string)
    requires IsUriComponentEncoder(enc)
    ensures BuildRoomUrl(origin, s1, r1, enc) == BuildRoomUrl(origin, s2, r2, enc) <==> s1 == s2 && r1 == r2
  {
    if BuildRoomUrl(origin, s1, r1, enc) == BuildRoomUrl(origin, s2, r2, enc) {
      EncodedRoomPathSegments(s1, r1, enc);
      EncodedRoomPathSegments(s2, r2, enc);
      assert EncodedRoomPath(s1, r1, enc) == EncodedRoomPath(s2, r2, enc);
      assert enc(s1) == enc(s2) && enc(r1) == enc(r2);
    }
  }

  /** The URLs of one site's rooms, in catalogue order. */
  function SiteRoomUrls(origin: string, site: SiteCatalogDto, enc: string -> string): (r: seq<string>)
    ensures |r| == |site.rooms|
    ensures forall i :: 0 <= i < |r| ==> r[i] == BuildRoomUrl(origin, site.siteSlug, site.rooms[i].roomSlug, enc)
  {
    seq(|site.rooms|, i requires 0 <= i < |site.rooms| => BuildRoomUrl(origin, site.siteSlug, site.rooms[i].roomSlug, enc))
  }

  /** The URLs the page renders: `sites.map(site => site.rooms.map(room => buildRoomUrl(...)))`, flattened. */
  function RoomUrls(origin: string, sites: seq<SiteCatalogDto>, enc: string -> string): (r: seq<string>)
    ensures |r| == TotalRooms(sites)
  {
    if sites == [] then [] else SiteRoomUrls(origin, sites[0], enc) + RoomUrls(origin, sites[1..], enc)
  }

  function TotalRooms(sites: seq<SiteCatalogDto>): nat {
    if sites == [] then 0 else |sites[0].rooms| + TotalRooms(sites[1..])
  }

  /** Every room of every listed site gets its code. */
  lemma {:induction false} RoomUrlsCoverEveryRoom(origin: string, sites: seq<SiteCatalogDto>, enc: string -> string, i: int, j: int)
    requires 0 <= i < |sites| && 0 <= j < |sites[i].rooms|
    ensures BuildRoomUrl(origin, sites[i].siteSlug, sites[i].rooms[j].roomSlug, enc) in RoomUrls(origin, sites, enc)
  {
    if i == 0 {
      assert SiteRoomUrls(origin, sites[0], enc)[j] == BuildRoomUrl(origin, sites[0].siteSlug, sites[0].rooms[j].roomSlug, enc);
    } else {
      RoomUrlsCoverEveryRoom(origin, sites[1..], enc, i - 1, j);
    }
  }

  /** Every code encodes a room of a listed site. */
  lemma {:induction false} RoomUrlsOnlyListedRooms(origin: string, sites: seq<SiteCatalogDto>, enc: string -> string, url: string)
    requires url in RoomUrls(origin, sites, enc)
    ensures exists i, j ::
      0 <= i < |sites| && 0 <= j < |sites[i].rooms| && url == BuildRoomUrl(origin, sites[i].siteSlug, sites[i].rooms[j].roomSlug, enc)
  {
    if url in SiteRoomUrls(origin, sites[0], enc) {
      var j :| 0 <= j < |sites[0].rooms| && SiteRoomUrls(origin, sites[0], enc)[j] == url;
      assert url == BuildRoomUrl(origin, sites[0].siteSlug, sites[0].rooms[j].roomSlug, enc);
    } else {
      RoomUrlsOnlyListedRooms(origin, sites[1..], enc, url);
      var i, j :| 0 <= i < |sites[1..]| && 0 <= j < |sites[1..][i].rooms|
        && url == BuildRoomUrl(origin, sites[1..][i].siteSlug, sites[1..][i].rooms[j].roomSlug, enc);
      assert sites[1..][i] == sites[i + 1];
    }
  }
}
