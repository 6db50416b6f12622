/** The home feed of frontend/app/page.tsx: the search filter, the merge of
    the ads stored remotely ahead of the built-in ads, and the handlers that
    like, delete, upload and open an ad for remixing. The page's React
    state and the `adPagesData` entry of `localStorage` are the fields of a
    `FeedPage`; the replies of the database helpers are inputs. */
module Feed {
  import opened Wrappers
  import opened Strings
  import opened Vendor
  import VideoUtils

  /** Built-in ads have numeric ids, stored ads string ids; `===` never
      equates the two kinds. */
  datatype AdId = NumId(n: int) | StrId(s: string)

  datatype Comment = Comment(user: string, text: string, likes: int)

  /** An ad card of the feed. `image` is `None` when the stored ad has no
      media URL at all. */
  datatype Ad = Ad(
    id: AdId,
    brand: string,
    location: string,
    image: Option<string>,
    caption: string,
    remixCount: int,
    likes: int,
    isLiked: bool,
    comments: int,
    category: string,
    topComments: seq<Comment>,
    isUserCreated: bool)

  const AppleCaption: string := "Innovation that moves the world forward. Beautifully designed, simply powerful."
  const TeslaCaption: string := "The future is electric. Sustainable energy for everyone. #Tesla #ElectricVehicle"
  const SpotifyCaption: string := "Music for everyone. Discover, stream, and share the soundtrack to your life."

  /** The three built-in ads. */
  const MockAds: seq<Ad> := [
    Ad(NumId(2), "Apple", "Cupertino, California", Some("/apple-iphone-product-advertisement.jpg"),
       AppleCaption, 2891, 5234, false, 289, "Tech",
       [Comment("tech_enthusiast", "Can't wait to remix this!", 67), Comment("designer_emma", "The minimalism is stunning", 52)],
       false),
    Ad(NumId(4), "Tesla", "Austin, Texas", Some("/tesla-electric-car-advertisement.jpg"),
       TeslaCaption, 1823, 4123, false, 201, "Tech",
       [Comment("eco_warrior", "This is the future!", 38)],
       false),
    Ad(NumId(6), "Spotify", "Stockholm, Sweden", Some("/spotify-music-streaming-advertisement.jpg"),
       SpotifyCaption, 2134, 4567, false, 234, "Viral",
       [Comment("music_lover", "The colors are amazing!", 56), Comment("dj_alex", "Perfect vibe", 41)],
       false)]

  // ------------------------------------------------------------- search

  /** The brand, the caption or the category contains the query, ignoring
      case. */
  predicate Matches(ad: Ad, query: string) {
    ContainsIgnoreCase(ad.brand, query) || ContainsIgnoreCase(ad.caption, query) || ContainsIgnoreCase(ad.category, query)
  }

  /** `ads.filter(ad => Matches(ad, query))`. */
  function FilterMatching(ads: seq<Ad>, query: string): (r: seq<Ad>)
    ensures |r| <= |ads|
    ensures forall a :: a in r <==> a in ads && Matches(a, query)
  {
    if |ads| == 0 then []
    else
      var rest := FilterMatching(ads[1..], query);
      assert forall a :: a in ads <==> a == ads[0] || a in ads[1..];
      if Matches(ads[0], query) then [ads[0]] + rest else rest
  }

  /** `filteredAds`: every ad for an empty query, the matching ads otherwise. */
  function FilteredAds(ads: seq<Ad>, query: string): (r: seq<Ad>)
    ensures |r| <= |ads|
    ensures forall a :: a in r ==> a in ads
  {
    if query == "" then ads else FilterMatching(ads, query)
  }

  /** Filtering keeps the order: the matches of a concatenation are the
      matches of each part, in turn. */
  lemma {:induction false} FilterAppend(a: seq<Ad>, b: seq<Ad>, query: string)
    ensures FilterMatching(a + b, query) == FilterMatching(a, query) + FilterMatching(b, query)
  {
    if |a| > 0 {
      assert (a + b)[1..] == a[1..] + b;
      FilterAppend(a[1..], b, query);
    } else {
      assert a + b == b;
    }
  }

  /** An ad matches the empty query, so the empty-query shortcut returns what
      filtering would; and filtering twice is filtering once. */
  lemma {:induction false} FilterProperties(ads: seq<Ad>, query: string)
    ensures FilterMatching(ads, "") == ads
    ensures FilterMatching(FilterMatching(ads, query), query) == FilterMatching(ads, query)
    ensures FilteredAds(ads, query) == FilterMatching(ads, query)
  {
    if |ads| > 0 {
      FilterProperties(ads[1..], query);
      assert Lower("") == "";
      EmptyOccursEverywhere(Lower(ads[0].brand));
      var rest := FilterMatching(ads[1..], query);
      if Matches(ads[0], query) {
        assert ([ads[0]] + rest)[1..] == rest;
      }
      assert [ads[0]] + ads[1..] == ads;
    }
  }

  // ----------------------------------------------------------- loading

  /** A row of `getAllAds()`: the ad with its company and its prompts;
      `None` for a missing or `null` column. */
  datatype RemoteAd = RemoteAd(
    id: string,
    title: Option<string>,
    imageUrl: Option<string>,
    videoUrl: Option<string>,
    location: Option<string>,
    likes: Option<int>,
    companyName: Option<string>,
    companyLocation: Option<string>,
    promptCount: Option<nat>)

  /** `a || fallback` for an optional string. */
  function OrElse(a: Option<string>, fallback: string): string {
    if a.Some? && a.value != "" then a.value else fallback
  }

  /** The card of a stored ad. */
  function Transform(r: RemoteAd): (a: Ad)
    ensures a.id == StrId(r.id) && a.isUserCreated && !a.isLiked
    ensures a.remixCount == a.comments >= 0 && a.brand != "" && a.location != ""
  {
    var promptsCount := if r.promptCount.Some? then r.promptCount.value else 0;
    Ad(StrId(r.id),
       OrElse(r.companyName, "Unknown"),
       OrElse(r.location, OrElse(r.companyLocation, "Unknown")),
       if r.imageUrl.Some? && r.imageUrl.value != "" then r.imageUrl else r.videoUrl,
       OrElse(r.title, ""),
       promptsCount,
       if r.likes.Some? then r.likes.value else 0,
       false,
       promptsCount,
       "Tech",
       [],
       true)
  }

  /** The card shows the image, or else the video; it counts each prompt as
      a remix and as a comment; the brand falls back to "Unknown"; the
      location falls back to the company's and then to "Unknown". */
  lemma TransformRules(r: RemoteAd)
    ensures var ad := Transform(r);
            && ad.id == StrId(r.id)
            && (r.imageUrl.Some? && r.imageUrl.value != "" ==> ad.image == r.imageUrl)
            && (r.imageUrl.None? || r.imageUrl.value == "" ==> ad.image == r.videoUrl)
            && ad.remixCount == ad.comments
            && (r.promptCount.Some? ==> ad.remixCount == r.promptCount.value)
            && (ad.brand == "Unknown" <==> r.companyName.None? || r.companyName.value in {"", "Unknown"})
            && (r.location.Some? && r.location.value != "" ==> ad.location == r.location.value)
            && (OrElse(r.location, "") == "" && r.companyLocation.Some? && r.companyLocation.value != "" ==>
                  ad.location == r.companyLocation.value)
            && (OrElse(r.location, "") == "" && OrElse(r.companyLocation, "") == "" ==> ad.location == "Unknown")
            && ad.isUserCreated && !ad.isLiked
  {
  }

  /** `Array.prototype.map` of `Transform`. */
  function TransformAll(rows: seq<RemoteAd>): (r: seq<Ad>)
    ensures |r| == |rows| && forall i :: 0 <= i < |rows| ==> r[i] == Transform(rows[i])
  {
    seq(|rows|, i requires 0 <= i < |rows| => Transform(rows[i]))
  }

  /** The feed after loading: the stored ads, then the built-in ads; only
      the built-in ads when loading threw. */
  function LoadFeed(loaded: Result<seq<RemoteAd>, Failure>): (r: seq<Ad>)
    ensures |r| == |MockAds| + (if loaded.Ok? then |loaded.value| else 0)
  {
    match loaded
    case Ok(rows) => TransformAll(rows) + MockAds
    case Err(_) => MockAds
  }

  /** The loaded feed holds every stored ad, in the order given, ahead of the
      three built-in ads; the two parts never share an id, and only the
      first is marked as user created. */
  lemma LoadFeedShape(loaded: Result<seq<RemoteAd>, Failure>)
    ensures var n := if loaded.Ok? then |loaded.value| else 0;
            var feed := LoadFeed(loaded);
            && |feed| == n + 3
            && feed[n..] == MockAds
            && (forall i :: 0 <= i < n ==> feed[i] == Transform(loaded.value[i]) && feed[i].isUserCreated)
            && (forall i :: n <= i < |feed| ==> !feed[i].isUserCreated)
            && (forall i, j :: 0 <= i < n <= j < |feed| ==> feed[i].id != feed[j].id)
  {
    var n := if loaded.Ok? then |loaded.value| else 0;
    var feed := LoadFeed(loaded);
    assert feed[n..] == MockAds;
    forall i, j | 0 <= i < n <= j < |feed| ensures feed[i].id != feed[j].id {
      assert feed[i].id.StrId?;
      assert feed[j] == MockAds[j - n];
    }
  }

  // ------------------------------------------------------------ handlers

  /** `handleLike` on one ad: flip `isLiked` and move `likes` by one. */
  function ToggleLike(ad: Ad): Ad {
    ad.(isLiked := !ad.isLiked, likes := if ad.isLiked then ad.likes - 1 else ad.likes + 1)
  }

  /** `ads.map(...)` of `handleLike(id)`. */
  function Like(ads: seq<Ad>, id: AdId): (r: seq<Ad>)
    ensures |r| == |ads|
    ensures forall i :: 0 <= i < |ads| ==> r[i] == if ads[i].id == id then ToggleLike(ads[i]) else ads[i]
  {
    seq(|ads|, i requires 0 <= i < |ads| => if ads[i].id == id then ToggleLike(ads[i]) else ads[i])
  }

  /** Liking changes only the ads with that id, each by exactly one like in
      the direction of its new state; liking twice restores the list. */
  lemma LikeProperties(ads: seq<Ad>, id: AdId)
    ensures forall i :: 0 <= i < |ads| && ads[i].id != id ==> Like(ads, id)[i] == ads[i]
    ensures forall i :: 0 <= i < |ads| && ads[i].id == id ==>
              var a := Like(ads, id)[i];
              a.isLiked == !ads[i].isLiked && a.likes == ads[i].likes + (if a.isLiked then 1 else -1) &&
              a.(isLiked := ads[i].isLiked, likes := ads[i].likes) == ads[i]
    ensures Like(Like(ads, id), id) == ads
  {
    var twice := Like(Like(ads, id), id);
    forall i | 0 <= i < |ads| ensures twice[i] == ads[i] {
      if ads[i].id == id {
        assert ToggleLike(ToggleLike(ads[i])) == ads[i];
      }
    }
  }

  /** `prevAds.filter(ad => ad.id !== id)`. */
  function RemoveAd(ads: seq<Ad>, id: AdId): (r: seq<Ad>)
    ensures |r| <= |ads|
    ensures forall a :: a in r <==> a in ads && a.id != id
  {
    if |ads| == 0 then []
    else
      var rest := RemoveAd(ads[1..], id);
      assert forall a :: a in ads <==> a == ads[0] || a in ads[1..];
      if ads[0].id != id then [ads[0]] + rest else rest
  }

  /** Removing keeps the order: the survivors of a concatenation are the
      survivors of each part, in turn. */
  lemma {:induction false} RemoveAdAppend(a: seq<Ad>, b: seq<Ad>, id: AdId)
    ensures RemoveAd(a + b, id) == RemoveAd(a, id) + RemoveAd(b, id)
  {
    if |a| > 0 {
      assert (a + b)[1..] == a[1..] + b;
      RemoveAdAppend(a[1..], b, id);
    } else {
      assert a + b == b;
    }
  }

  /** Removing an id that no ad has changes nothing. */
  lemma {:induction false} RemoveAbsent(ads: seq<Ad>, id: AdId)
    requires forall a :: a in ads ==> a.id != id
    ensures RemoveAd(ads, id) == ads
  {
    if |ads| > 0 {
      assert ads[0] in ads;
      assert forall a :: a in ads[1..] ==> a in ads;
      RemoveAbsent(ads[1..], id);
      assert [ads[0]] + ads[1..] == ads;
    }
  }

  /** The index of the first ad with the id. */
  function FindIndex(ads: seq<Ad>, id: AdId): (r: Option<nat>)
    ensures r.Some? ==> (r.value < |ads| && ads[r.value].id == id &&
              forall j :: 0 <= j < r.value ==> ads[j].id != id)
    ensures r.None? ==> forall j :: 0 <= j < |ads| ==> ads[j].id != id
  {
    if |ads| == 0 then None
    else if ads[0].id == id then Some(0)
    else
      match FindIndex(ads[1..], id)
      case None => None
      case Some(i) => Some(i + 1)
  }

  /** `ads.find(a => a.id === id)`. */
  function FindAd(ads: seq<Ad>, id: AdId): Option<Ad> {
    match FindIndex(ads, id)
    case Some(i) => Some(ads[i])
    case None => None
  }

  // ------------------------------------------------------------- upload

  /** `adData.isVideo || adData.imageUrl?.match(/\.(mp4|webm|mov)$/i)`. */
  predicate IsVideoUpload(isVideo: Option<bool>, url: string) {
    isVideo == Some(true) || EndsWithIgnoreCase(url, ".mp4") || EndsWithIgnoreCase(url, ".webm") ||
    EndsWithIgnoreCase(url, ".mov")
  }

  /** A name with `.mp4`, `.webm` or `.mov`, in any case, counts as a video
      both for the upload handler and for `isVideoUrl`. */
  lemma UploadVideoCheck(name: string, ext: string)
    requires Lower(ext) in [".mp4", ".webm", ".mov"]
    ensures IsVideoUpload(None, name + ext) && VideoUtils.IsVideoUrl(name + ext)
  {
    VideoUtils.VideoSuffixAccepted(name, ext);
    assert EndsWithIgnoreCase(name + ext, Lower(ext)) by {
      VideoUtils.LowerAppend(name, ext);
      var l := Lower(name + ext);
      assert l[|l| - |ext|..] == Lower(ext);
    }
  }

  /** The upload handler recognises fewer video names than `isVideoUrl`: an
      `.avi` upload is saved as an image. */
  lemma AviSavedAsImage()
    ensures !IsVideoUpload(None, "clip.avi") && VideoUtils.IsVideoUrl("clip.avi")
  {
    assert Lower("clip.avi") == "clip.avi";
    assert EndsWithIgnoreCase("clip.avi", ".avi");
    assert ".avi" in VideoUtils.VideoExtensions;
  }

  /** The form data the upload modal hands over. */
  datatype AdData = AdData(brand: string, title: string, imageUrl: string, category: string,
                           companyId: string, location: string, isVideo: Option<bool>)

  /** The arguments of `saveAd(companyId, title, imageUrl, location, videoUrl)`. */
  datatype SaveAdCall = SaveAdCall(companyId: string, title: string, imageUrl: string, location: string,
                                   videoUrl: Option<string>)

  /** A row returned by `saveAd`. */
  datatype SavedRow = SavedRow(id: string, likes: Option<int>)

  /** The page data kept under the ad's id in `adPagesData`. */
  datatype AdPage = AdPage(id: AdId, title: string, brand: string, creator: string, image: string,
                           currentEdit: string, likes: int, tags: seq<string>, isUserCreated: bool)

  /** What `saveAd` is asked to store: a video keeps its URL as the video URL
      and an empty image URL. */
  function SaveRequest(companyId: string, adData: AdData): (c: SaveAdCall)
    ensures IsVideoUpload(adData.isVideo, adData.imageUrl) ==> c.imageUrl == "" && c.videoUrl == Some(adData.imageUrl)
    ensures !IsVideoUpload(adData.isVideo, adData.imageUrl) ==> c.imageUrl == adData.imageUrl && c.videoUrl.None?
    ensures c.companyId == companyId && c.title == adData.title && c.location == adData.location
  {
    var isVideoFile := IsVideoUpload(adData.isVideo, adData.imageUrl);
    SaveAdCall(companyId, adData.title, if isVideoFile then "" else adData.imageUrl, adData.location,
               if isVideoFile then Some(adData.imageUrl) else None)
  }

  /** The card added for a freshly saved ad. */
  function UploadedAd(row: SavedRow, adData: AdData): Ad {
    Ad(StrId(row.id), adData.brand, adData.location, Some(adData.imageUrl), adData.title, 0,
       if row.likes.Some? then row.likes.value else 0, false, 0, adData.category, [], true)
  }

  function UploadedPage(row: SavedRow, adData: AdData): AdPage {
    AdPage(StrId(row.id), adData.title, adData.brand, "You", adData.imageUrl, "",
           if row.likes.Some? then row.likes.value else 0, [Lower(adData.category)], true)
  }

  /** The property name an id is stored under. */
  function Key(id: AdId): string {
    match id
    case NumId(n) => IntToString(n)
    case StrId(s) => s
  }

  /** The state of the feed page. */
  class FeedPage {
    var ads: seq<Ad>
    /** `adPagesData` as an object keyed by ad id; `None` when the stored
        text makes the handlers throw: text that is not JSON, or JSON
        `null`. A stored array, number or string does not throw, and is
        not represented here. */
    var pages: Option<map<string, AdPage>>
    var selectedAd: Option<Ad>
    var remixModalOpen: bool
    var uploadModalOpen: bool

    constructor(pages: Option<map<string, AdPage>>)
      ensures ads == MockAds && this.pages == pages
      ensures selectedAd.None? && !remixModalOpen && !uploadModalOpen
    {
      ads := MockAds;
      this.pages := pages;
      selectedAd := None;
      remixModalOpen, uploadModalOpen := false, false;
    }

    /** The load effect: `loaded` is what `getAllAds()` resolved to. */
    method LoadAds(loaded: Result<seq<RemoteAd>, Failure>)
      modifies this
      ensures ads == LoadFeed(loaded)
      ensures pages == old(pages) && selectedAd == old(selectedAd)
      ensures remixModalOpen == old(remixModalOpen) && uploadModalOpen == old(uploadModalOpen)
    {
      ads := LoadFeed(loaded);
    }

    /** `handleLike(id)`. */
    method HandleLike(id: AdId)
      modifies this
      ensures ads == Like(old(ads), id)
      ensures pages == old(pages) && selectedAd == old(selectedAd)
      ensures remixModalOpen == old(remixModalOpen) && uploadModalOpen == old(uploadModalOpen)
    {
      ads := Like(ads, id);
    }

    /** `handleRemix(id)`: open the remix modal on the first ad with the id. */
    method HandleRemix(id: AdId)
      modifies this
      ensures FindAd(old(ads), id).Some? ==> selectedAd == FindAd(old(ads), id) && remixModalOpen
      ensures FindAd(old(ads), id).None? ==> selectedAd == old(selectedAd) && remixModalOpen == old(remixModalOpen)
      ensures ads == old(ads) && pages == old(pages) && uploadModalOpen == old(uploadModalOpen)
    {
      var ad := FindAd(ads, id);
      if ad.Some? {
        selectedAd := ad;
        remixModalOpen := true;
      }
    }

    /** `handleDelete(id)`. `remote` is what `deleteAd(id)` did for a string
        id. Returns whether the remote delete was called and what was
        reported as the failure, if anything. */
    method HandleDelete(id: AdId, remote: Result<(), Failure>) returns (called: bool, failure: Option<Failure>)
      modifies this
      ensures called <==> id.StrId?
      ensures called && remote.Err? ==> failure == Some(remote.error) && ads == old(ads) && pages == old(pages)
      ensures !(called && remote.Err?) ==> ads == RemoveAd(old(ads), id)
      ensures !(called && remote.Err?) && old(pages).Some? ==>
                failure.None? && pages == Some(old(pages).value - {Key(id)})
      ensures !(called && remote.Err?) && old(pages).None? ==> failure == Some(RuntimeError) && pages == old(pages)
      ensures selectedAd == old(selectedAd) && remixModalOpen == old(remixModalOpen)
      ensures uploadModalOpen == old(uploadModalOpen)
    {
      called, failure := false, None;
      if id.StrId? {
        called := true;
        if remote.Err? {
          failure := Some(remote.error);
          return;
        }
      }
      ads := RemoveAd(ads, id);
      if pages.None? {
        failure := Some(RuntimeError);
        return;
      }
      pages := Some(pages.value - {Key(id)});
    }

    /** `handleUpload(adData)`. `snapshot` is the feed of the render that
        started the handler: `setAds([newAd, ...ads])` builds on that list,
        read before the two awaits, so any update that landed meanwhile is
        lost. `company` is what `getOrCreateCompany` resolved to (the
        company id) and `saved` what `saveAd` returned. Returns the `saveAd`
        call made and the failure reported, if any. */
    method HandleUpload(adData: AdData, snapshot: seq<Ad>, company: Result<string, Failure>,
                        saved: Result<seq<SavedRow>, Failure>)
      returns (call: Option<SaveAdCall>, failure: Option<Failure>)
      modifies this
      ensures company.Err? ==> call.None? && failure == Some(company.error)
      ensures company.Ok? ==> call == Some(SaveRequest(company.value, adData))
      ensures failure.None? <==> company.Ok? && saved.Ok? && |saved.value| > 0 && old(pages).Some?
      ensures company.Ok? && saved.Err? ==> failure == Some(saved.error)
      ensures company.Ok? && saved.Ok? && |saved.value| == 0 ==> failure == Some(RuntimeError)
      ensures company.Ok? && saved.Ok? && |saved.value| > 0 ==>
                ads == [UploadedAd(saved.value[0], adData)] + snapshot
      ensures !(company.Ok? && saved.Ok? && |saved.value| > 0) ==> ads == old(ads)
      ensures failure.None? ==>
                pages == Some(old(pages).value[saved.value[0].id := UploadedPage(saved.value[0], adData)])
      ensures failure.Some? ==> pages == old(pages)
      ensures uploadModalOpen == (if failure.None? then false else old(uploadModalOpen))
      ensures selectedAd == old(selectedAd) && remixModalOpen == old(remixModalOpen)
    {
      call, failure := None, None;
      if company.Err? {
        failure := Some(company.error);
        return;
      }
      call := Some(SaveRequest(company.value, adData));
      if saved.Err? {
        failure := Some(saved.error);
        return;
      }
      if |saved.value| == 0 {
        failure := Some(RuntimeError);
        return;
      }
      var row := saved.value[0];
      ads := [UploadedAd(row, adData)] + snapshot;
      if pages.None? {
        failure := Some(RuntimeError);
        return;
      }
      pages := Some(pages.value[row.id := UploadedPage(row, adData)]);
      uploadModalOpen := false;
    }
  }

  /** An upload followed by deleting the new ad leaves the feed and the page
      data as they were, when no ad had that id before and nothing else
      changed the feed while the upload was saving. */
  method UploadThenDelete(page: FeedPage, adData: AdData, companyId: string, row: SavedRow)
    requires page.pages.Some? && row.id !in page.pages.value
    requires forall a :: a in page.ads ==> a.id != StrId(row.id)
    modifies page
    ensures page.ads == old(page.ads) && page.pages == old(page.pages)
  {
    var before, pages := page.ads, page.pages.value;
    var _, _ := page.HandleUpload(adData, before, Ok(companyId), Ok([row]));
    var added := UploadedAd(row, adData);
    assert page.ads == [added] + before;
    var _, _ := page.HandleDelete(StrId(row.id), Ok(()));
    RemoveAbsent(before, StrId(row.id));
    assert ([added] + before)[1..] == before;
    assert pages[row.id := UploadedPage(row, adData)] - {row.id} == pages;
  }
}
