/** The decision and string logic of frontend/lib/supabase.ts: UUID generation
    and the UUID shape check, the browser user id, the id checks before a
    prompt insert, public storage URLs and the storage path taken back out of
    them, the delete cascade and its error policy, the extensions and paths
    of edited media, the column fallback for edited videos, and
    find-or-create for companies. Every database and storage reply is an
    input. */
module Supabase {
  import opened Wrappers
  import opened Strings

  // ---------------------------------------------------------------- UUIDs

  /** The pattern `generateUUID` fills: every `x` takes a random nibble, `y`
      takes a nibble with its top bits forced to `10`. */
  const UuidTemplate: string := "xxxxxxxx-xxxx-4xxx-yxxx-xxxxxxxxxxxx"

  /** Values `Math.random()` may return. */
  predicate RandomDraws(rs: seq<real>) {
    forall i :: 0 <= i < |rs| ==> 0.0 <= rs[i] < 1.0
  }

  function HexDigit(v: nat): char
    requires v < 16
  {
    "0123456789abcdef"[v]
  }

  /** `Math.random() * 16 | 0` */
  function Nibble(r: real): (v: nat)
    requires 0.0 <= r < 1.0
    ensures v < 16
  {
    (r * 16.0).Floor as nat
  }

  /** `r & 0x3 | 0x8`: the RFC 4122 variant nibble. */
  function VariantNibble(v: nat): (w: nat)
    requires v < 16
    ensures 8 <= w <= 11
  {
    (((v as bv8) & 3) | 8) as nat
  }

  /** One lower-case hex digit per random draw. */
  function HexDraws(rs: seq<real>): (r: string)
    requires RandomDraws(rs)
    ensures |r| == |rs|
    ensures forall i :: 0 <= i < |r| ==> '0' <= r[i] <= '9' || 'a' <= r[i] <= 'f'
  {
    seq(|rs|, i requires 0 <= i < |rs| => HexDigit(Nibble(rs[i])))
  }

  /** `generateUUID()`, given the 31 values `Math.random()` returned, one
      per placeholder of the template from left to right. */
  function GenerateUuid(rs: seq<real>): (u: string)
    requires RandomDraws(rs) && |rs| == 31
    ensures |u| == 36
  {
    HexDraws(rs[..8]) + "-" + HexDraws(rs[8..12]) + "-4" + HexDraws(rs[12..15]) + "-" +
    [HexDigit(VariantNibble(Nibble(rs[15])))] + HexDraws(rs[16..19]) + "-" + HexDraws(rs[19..31])
  }

  predicate IsHexCaseless(c: char) {
    '0' <= c <= '9' || 'a' <= c <= 'f' || 'A' <= c <= 'F'
  }

  /** `/^[0-9a-f]{8}-[0-9a-f]{4}-[0-9a-f]{4}-[0-9a-f]{4}-[0-9a-f]{12}$/i` */
  predicate IsUuid(s: string): (r: bool)
    ensures r ==> |s| == 36 && s[8] == '-' && s[13] == '-' && s[18] == '-' && s[23] == '-'
  {
    |s| == 36 &&
    forall i :: 0 <= i < 36 ==>
      if i == 8 || i == 13 || i == 18 || i == 23 then s[i] == '-' else IsHexCaseless(s[i])
  }

  /** For any random draws the generated id passes the UUID check, keeps
      every fixed character of the template (the dashes and the version
      digit `4`), and has a variant digit `8`, `9`, `a` or `b` where the
      template has `y`. */
  lemma GeneratedUuidShape(rs: seq<real>)
    requires RandomDraws(rs) && |rs| == 31
    ensures |GenerateUuid(rs)| == |UuidTemplate|
    ensures IsUuid(GenerateUuid(rs))
    ensures forall i :: 0 <= i < 36 && UuidTemplate[i] != 'x' && UuidTemplate[i] != 'y' ==>
              GenerateUuid(rs)[i] == UuidTemplate[i]
    ensures GenerateUuid(rs)[19] in "89ab"
  {
    UuidHead(rs);
    UuidTail(rs);
    TemplateFixed();
  }

  /** The characters of the template other than `x` and `y`: four dashes
      and the version digit. */
  lemma TemplateFixed()
    ensures forall i :: 0 <= i < 36 && UuidTemplate[i] != 'x' && UuidTemplate[i] != 'y' ==>
              i == 8 || i == 13 || i == 14 || i == 18 || i == 23
    ensures UuidTemplate[8] == UuidTemplate[13] == UuidTemplate[18] == UuidTemplate[23] == '-'
    ensures UuidTemplate[14] == '4'
  {
  }

  /** The generated id up to the variant digit, and the rest of it. */
  function UuidHeadPart(rs: seq<real>): (h: string)
    requires RandomDraws(rs) && |rs| == 31
    ensures |h| == 19
  {
    HexDraws(rs[..8]) + "-" + HexDraws(rs[8..12]) + "-4" + HexDraws(rs[12..15]) + "-"
  }

  function UuidTailPart(rs: seq<real>): (t: string)
    requires RandomDraws(rs) && |rs| == 31
    ensures |t| == 17
  {
    [HexDigit(VariantNibble(Nibble(rs[15])))] + HexDraws(rs[16..19]) + "-" + HexDraws(rs[19..31])
  }

  lemma UuidHead(rs: seq<real>)
    requires RandomDraws(rs) && |rs| == 31
    ensures |GenerateUuid(rs)| == 36
    ensures forall i :: 0 <= i < 19 ==>
              if i == 8 || i == 13 || i == 18 then GenerateUuid(rs)[i] == '-' else IsHexCaseless(GenerateUuid(rs)[i])
    ensures GenerateUuid(rs)[14] == '4'
  {
    var u, head := GenerateUuid(rs), UuidHeadPart(rs);
    assert u == head + UuidTailPart(rs);
    forall i | 0 <= i < 19
      ensures if i == 8 || i == 13 || i == 18 then u[i] == '-' else IsHexCaseless(u[i])
    {
      assert u[i] == head[i];
    }
    assert u[14] == head[14];
  }

  lemma UuidTail(rs: seq<real>)
    requires RandomDraws(rs) && |rs| == 31
    ensures |GenerateUuid(rs)| == 36
    ensures GenerateUuid(rs)[19] in "89ab"
    ensures forall i :: 19 <= i < 36 ==>
              if i == 23 then GenerateUuid(rs)[i] == '-' else IsHexCaseless(GenerateUuid(rs)[i])
  {
    var u, tail := GenerateUuid(rs), UuidTailPart(rs);
    assert u == UuidHeadPart(rs) + tail;
    var w := VariantNibble(Nibble(rs[15]));
    assert u[19] == tail[0] == HexDigit(w);
    assert w == 8 || w == 9 || w == 10 || w == 11;
    forall i | 19 <= i < 36
      ensures if i == 23 then u[i] == '-' else IsHexCaseless(u[i])
    {
      assert u[i] == tail[i - 19];
    }
  }

  // ------------------------------------------------------------ user id

  /** The browser's `temp_user_id` entry of localStorage, and whether the
      code runs in a browser at all (`typeof window !== 'undefined'`). */
  class UserIdStore {
    var inBrowser: bool
    var stored: Option<string>

    constructor (inBrowser: bool, stored: Option<string>)
      ensures this.inBrowser == inBrowser && this.stored == stored
    {
      this.inBrowser := inBrowser;
      this.stored := stored;
    }

    /** `getUserId()`: the stored id when there is a non-empty one; otherwise
        a fresh UUID, which a browser also stores. */
    method GetUserId(rs: seq<real>) returns (id: string)
      requires RandomDraws(rs) && |rs| == 31
      modifies this
      ensures inBrowser == old(inBrowser)
      ensures !inBrowser ==> id == GenerateUuid(rs) && stored == old(stored)
      ensures inBrowser && old(stored).Some? && old(stored).value != "" ==>
                id == old(stored).value && stored == old(stored)
      ensures inBrowser && (old(stored).None? || old(stored).value == "") ==>
                id == GenerateUuid(rs) && stored == Some(id)
      ensures inBrowser ==> stored == Some(id) && id != ""
    {
      if !inBrowser {
        return GenerateUuid(rs);
      }
      if stored.None? || stored.value == "" {
        id := GenerateUuid(rs);
        stored := Some(id);
      } else {
        id := stored.value;
      }
    }
  }

  /** In a browser, a second `getUserId()` returns the id the first one did,
      whatever random numbers it is given. */
  method GetUserIdTwice(store: UserIdStore, rs1: seq<real>, rs2: seq<real>) returns (a: string, b: string)
    requires store.inBrowser
    requires RandomDraws(rs1) && |rs1| == 31 && RandomDraws(rs2) && |rs2| == 31
    modifies store
    ensures a == b
  {
    a := store.GetUserId(rs1);
    b := store.GetUserId(rs2);
  }

  // --------------------------------------------------------- savePrompt

  /** The row `savePrompt` inserts into `prompts`. */
  datatype PromptRow = PromptRow(adId: string, userId: string, content: string, parentId: Option<string>)

  datatype SavePromptError =
    | DemoAd  // "Cannot save comment: This is a demo ad. ..."
    | InsertFailed(message: string)

  const DemoAdMessage: string :=
    "Cannot save comment: This is a demo ad. Comments can only be added to uploaded ads."

  /** `parentId && uuidRegex.test(parentId) ? parentId : null` */
  function ValidParentId(parentId: Option<string>): (r: Option<string>)
    ensures r.Some? <==> parentId.Some? && IsUuid(parentId.value)
    ensures r.Some? ==> r == parentId
  {
    if parentId.Some? && parentId.value != "" && IsUuid(parentId.value) then parentId else None
  }

  /** `savePrompt(adId, userId, content, parentId)`: a non-UUID ad id is
      refused before anything is inserted; a non-UUID user id is replaced by
      `getUserId()`; a parent id is kept only when it is a UUID. Returns the
      outcome and the row sent to the database, if any. */
  method SavePrompt(store: UserIdStore, adId: string, userId: string, content: string,
                    parentId: Option<string>, rs: seq<real>, insertError: Option<string>)
    returns (result: Result<PromptRow, SavePromptError>, inserted: Option<PromptRow>)
    requires RandomDraws(rs) && |rs| == 31
    modifies store
    ensures store.inBrowser == old(store.inBrowser)
    ensures !old(store.inBrowser) ==> store.stored == old(store.stored)
    ensures !IsUuid(adId) ==> result == Err(DemoAd) && inserted.None? && store.stored == old(store.stored)
    ensures IsUuid(adId) ==> inserted.Some? && inserted.value.adId == adId && inserted.value.content == content
    ensures IsUuid(adId) ==> inserted.value.parentId == ValidParentId(parentId)
    ensures IsUuid(adId) && IsUuid(userId) ==>
              inserted.value.userId == userId && store.stored == old(store.stored)
    ensures IsUuid(adId) && !IsUuid(userId) && store.inBrowser ==>
              store.stored == Some(inserted.value.userId)
    ensures IsUuid(adId) && !IsUuid(userId) && !old(store.inBrowser) ==>
              inserted.value.userId == GenerateUuid(rs)
    ensures IsUuid(adId) && !IsUuid(userId) && old(store.inBrowser) && old(store.stored).Some? &&
            old(store.stored).value != "" ==>
              inserted.value.userId == old(store.stored).value && store.stored == old(store.stored)
    ensures IsUuid(adId) && !IsUuid(userId) && old(store.inBrowser) &&
            (old(store.stored).None? || old(store.stored).value == "") ==>
              inserted.value.userId == GenerateUuid(rs) && store.stored == Some(GenerateUuid(rs))
    ensures inserted.Some? ==>
              result == (if insertError.Some? then Err(InsertFailed(insertError.value)) else Ok(inserted.value))
  {
    if !IsUuid(adId) {
      return Err(DemoAd), None;
    }
    var validUserId := userId;
    if !IsUuid(userId) {
      validUserId := store.GetUserId(rs);
    }
    var row := PromptRow(adId, validUserId, content, ValidParentId(parentId));
    inserted := Some(row);
    if insertError.Some? {
      result := Err(InsertFailed(insertError.value));
    } else {
      result := Ok(row);
    }
  }

  // ------------------------------------------------------ storage paths

  /** The public URL Supabase storage hands out for `path` in the `ads`
      bucket of the project at `base`. */
  function PublicUrl(base: string, path: string): (r: string)
    ensures EndsWith(r, "/ads/" + path)
  {
    base + "/storage/v1/object/public/ads/" + path
  }

  /** Whether `url.match(/\/ads\/(.+)$/)` can match with its `/ads/` at
      index `p`: `.+` needs at least one character and no line terminator
      up to the end. */
  predicate MatchesAt(url: string, p: nat) {
    OccursAt(url, "/ads/", p) && |url| > p + 5 && NoLineTerminator(url[p + 5..])
  }

  function ExtractFrom(url: string, p: nat): (r: Option<string>)
    decreases |url| - p
    ensures r.Some? ==> exists q :: p <= q && MatchesAt(url, q) && r.value == url[q + 5..] &&
                                     forall q' :: p <= q' < q ==> !MatchesAt(url, q')
    ensures r.None? ==> forall q :: p <= q ==> !MatchesAt(url, q)
  {
    if p + 5 > |url| then None
    else if MatchesAt(url, p) then Some(url[p + 5..])
    else ExtractFrom(url, p + 1)
  }

  /** `extractStoragePath(url)`: the text after the leftmost `/ads/` at
      which the match succeeds, or null. */
  function ExtractStoragePath(url: string): (r: Option<string>)
    ensures r.Some? ==> |r.value| > 0 && NoLineTerminator(r.value) && EndsWith(url, r.value)
    ensures r.Some? ==> exists p :: MatchesAt(url, p) && r.value == url[p + 5..] &&
                                    forall q :: q < p ==> !MatchesAt(url, q)
    ensures r.None? <==> forall p :: !MatchesAt(url, p)
  {
    ExtractFrom(url, 0)
  }

  /** A path stored under `prefix + "/ads/"` comes back out unchanged when
      `prefix` itself does not already lead into an earlier `/ads/`. */
  lemma ExtractAfterPrefix(prefix: string, path: string)
    requires !Contains(prefix + "/ads", "/ads/")
    requires |path| > 0 && NoLineTerminator(path)
    ensures ExtractStoragePath(prefix + "/ads/" + path) == Some(path)
  {
    var url := prefix + "/ads/" + path;
    var p := |prefix|;
    assert url[p..p + 5] == "/ads/";
    assert url[p + 5..] == path;
    assert MatchesAt(url, p);
    var pre := prefix + "/ads";
    ContainsIff(pre, "/ads/");
    forall q | 0 <= q < p
      ensures !MatchesAt(url, q)
    {
      assert url[q..q + 5] == pre[q..q + 5];
      assert !OccursAt(pre, "/ads/", q);
    }
    var r := ExtractStoragePath(url);
    assert r.Some?;
    var q :| MatchesAt(url, q) && r.value == url[q + 5..] && forall q' :: q' < q ==> !MatchesAt(url, q');
    assert q == p;
  }

  /** Storage paths handed out under a project URL without `/ads/` in it
      survive the trip through `PublicUrl` and `extractStoragePath`. */
  lemma PublicUrlRoundTrip(base: string, path: string)
    requires !Contains(base + "/storage/v1/object/public/ads", "/ads/")
    requires |path| > 0 && NoLineTerminator(path)
    ensures ExtractStoragePath(PublicUrl(base, path)) == Some(path)
  {
    assert PublicUrl(base, path) == (base + "/storage/v1/object/public") + "/ads/" + path;
    assert (base + "/storage/v1/object/public") + "/ads" == base + "/storage/v1/object/public/ads";
    ExtractAfterPrefix(base + "/storage/v1/object/public", path);
  }

  // ----------------------------------------------------------- deleteAd

  /** The two media columns `deleteAd` reads; `None` is SQL null. */
  datatype AdMedia = AdMedia(imageUrl: Option<string>, videoUrl: Option<string>)

  /** The storage path of a media column, when the column is set (truthy)
      and a path can be extracted from it. */
  function MediaPath(url: Option<string>): Option<string> {
    if url.Some? && url.value != "" then ExtractStoragePath(url.value) else None
  }

  function OptionToSeq(o: Option<string>): seq<string> {
    if o.Some? then [o.value] else []
  }

  /** The files `deleteAd` removes: the image path, then the video path,
      each only when present. */
  function FilesToDelete(ad: AdMedia): (files: seq<string>)
    ensures |files| <= 2
    ensures forall f :: f in files ==> Some(f) == MediaPath(ad.imageUrl) || Some(f) == MediaPath(ad.videoUrl)
    ensures MediaPath(ad.imageUrl).Some? ==> |files| >= 1 && files[0] == MediaPath(ad.imageUrl).value
    ensures MediaPath(ad.videoUrl).Some? ==> |files| >= 1 && files[|files| - 1] == MediaPath(ad.videoUrl).value
    ensures |files| == (if MediaPath(ad.imageUrl).Some? then 1 else 0) + (if MediaPath(ad.videoUrl).Some? then 1 else 0)
  {
    OptionToSeq(MediaPath(ad.imageUrl)) + OptionToSeq(MediaPath(ad.videoUrl))
  }

  /** The calls `deleteAd` makes, in order. */
  datatype DeleteStep = FetchAd | DeletePrompts | DeleteAdRow | RemoveFiles(paths: seq<string>)

  /** `deleteAd(adId)`. The fetch and the ad-row delete report errors that
      abort the call; a failure to delete the prompts or to remove the files
      is only logged, and the call still returns true. */
  method DeleteAd(fetched: Result<Option<AdMedia>, string>, promptsError: bool,
                  adDeleteError: Option<string>, storageError: bool)
    returns (result: Result<bool, string>, steps: seq<DeleteStep>)
    ensures fetched.Err? ==> result == Err("Failed to fetch ad: " + fetched.error) && steps == [FetchAd]
    ensures fetched.Ok? && adDeleteError.Some? ==>
              result == Err("Failed to delete ad: " + adDeleteError.value) &&
              steps == [FetchAd, DeletePrompts, DeleteAdRow]
    ensures fetched.Ok? && adDeleteError.None? ==> result == Ok(true)
    ensures fetched.Ok? && adDeleteError.None? ==>
              steps == [FetchAd, DeletePrompts, DeleteAdRow] +
                       (if fetched.value.Some? && |FilesToDelete(fetched.value.value)| > 0
                        then [RemoveFiles(FilesToDelete(fetched.value.value))] else [])
  {
    steps := [FetchAd];
    if fetched.Err? {
      return Err("Failed to fetch ad: " + fetched.error), steps;
    }
    steps := steps + [DeletePrompts];
    // a prompts error is only logged
    steps := steps + [DeleteAdRow];
    if adDeleteError.Some? {
      return Err("Failed to delete ad: " + adDeleteError.value), steps;
    }
    if fetched.value.Some? {
      var ad := fetched.value.value;
      var filesToDelete: seq<string> := [];
      if ad.imageUrl.Some? && ad.imageUrl.value != "" {
        var imagePath := ExtractStoragePath(ad.imageUrl.value);
        if imagePath.Some? {
          filesToDelete := filesToDelete + [imagePath.value];
        }
      }
      if ad.videoUrl.Some? && ad.videoUrl.value != "" {
        var videoPath := ExtractStoragePath(ad.videoUrl.value);
        if videoPath.Some? {
          filesToDelete := filesToDelete + [videoPath.value];
        }
      }
      assert filesToDelete == FilesToDelete(ad);
      if |filesToDelete| > 0 {
        steps := steps + [RemoveFiles(filesToDelete)];
        // a storage error is only logged
      }
    }
    result := Ok(true);
  }

  // -------------------------------------------- edited media upload paths

  /** `mimeType.split('/')[1] || fallback` */
  function MimeExtension(mimeType: string, fallback: string): (r: string)
    ensures fallback != "" ==> r != ""
    ensures forall i :: 0 <= i < |r| ==> r[i] != '/' || r == fallback
  {
    var parts := Split(mimeType, '/');
    if |parts| > 1 && parts[1] != "" then parts[1] else fallback
  }

  /** The extension is the subtype of a `type/subtype` MIME type, and the
      fallback when the MIME type has no `/` or nothing after it. */
  lemma MimeExtensionCases(top: string, sub: string, fallback: string)
    requires forall i :: 0 <= i < |top| ==> top[i] != '/'
    requires forall i :: 0 <= i < |sub| ==> sub[i] != '/'
    ensures MimeExtension(top + "/" + sub, fallback) == (if sub == "" then fallback else sub)
    ensures MimeExtension(top, fallback) == fallback
  {
    SplitSingle(top, '/');
    SplitSingle(sub, '/');
    SplitAtSeparator(top, sub, '/');
  }

  lemma {:induction false} SplitAtSeparator(a: string, b: string, c: char)
    requires forall i :: 0 <= i < |a| ==> a[i] != c
    ensures Split(a + [c] + b, c) == [a] + Split(b, c)
    decreases |a|
  {
    if |a| == 0 {
      assert a + [c] + b == [c] + b;
      assert ([c] + b)[1..] == b;
    } else {
      SplitAtSeparator(a[1..], b, c);
      assert (a + [c] + b)[1..] == a[1..] + [c] + b;
      assert [a[0]] + a[1..] == a;
    }
  }

  /** `edited/<timestamp>-<suffix>.<ext>` for an edited image (default `jpg`). */
  function EditedImagePath(timestamp: string, suffix: string, mimeType: string): (r: string)
    ensures StartsWith(r, "edited/") && EndsWith(r, "." + MimeExtension(mimeType, "jpg"))
  {
    "edited/" + timestamp + "-" + suffix + "." + MimeExtension(mimeType, "jpg")
  }

  /** `edited-videos/<timestamp>-<suffix>.<ext>` for an edited video (default `mp4`). */
  function EditedVideoPath(timestamp: string, suffix: string, mimeType: string): (r: string)
    ensures StartsWith(r, "edited-videos/") && EndsWith(r, "." + MimeExtension(mimeType, "mp4"))
  {
    "edited-videos/" + timestamp + "-" + suffix + "." + MimeExtension(mimeType, "mp4")
  }

  /** `new Uint8Array(byteNumbers)` keeps the low eight bits of each code. */
  function ToUint8(code: int): (b: int)
    ensures 0 <= b < 256
  {
    code % 256
  }

  /** The `for` loop that copies `atob`'s character codes into `byteNumbers`,
      and the byte array made from them. */
  method DecodeBytes(byteCharacters: string) returns (bytes: array<int>)
    ensures bytes.Length == |byteCharacters|
    ensures forall i :: 0 <= i < bytes.Length ==> bytes[i] == ToUint8(byteCharacters[i] as int)
  {
    var byteNumbers := new int[|byteCharacters|];
    var i := 0;
    while i < |byteCharacters|
      invariant 0 <= i <= |byteCharacters|
      invariant forall k :: 0 <= k < i ==> byteNumbers[k] == byteCharacters[k] as int
    {
      byteNumbers[i] := byteCharacters[i] as int;
      i := i + 1;
    }
    bytes := new int[|byteCharacters|](k requires 0 <= k < |byteCharacters| reads byteNumbers => ToUint8(byteNumbers[k]));
  }

  /** The characters `atob` produces are all below 256, so their bytes are
      their codes. */
  lemma Latin1BytesExact(byteCharacters: string, i: nat)
    requires i < |byteCharacters| && byteCharacters[i] as int < 256
    ensures ToUint8(byteCharacters[i] as int) == byteCharacters[i] as int
  {
  }

  datatype MediaKind = EditedImage | EditedVideo

  /** The storage `upload(filePath, blob, { contentType })` call: the path,
      the bytes of the blob and its content type. */
  datatype Upload = Upload(path: string, bytes: seq<int>, contentType: string)

  /** `uploadBase64Image` / `uploadBase64Video`: decode the payload (`atob`
      may throw), upload under the derived path, and return the public URL.
      `timestamp` and `suffix` are `Date.now()` and the random base-36
      suffix. Returns the URL or the error, the path used for the upload,
      and the upload call itself, if one was attempted. */
  method UploadBase64(kind: MediaKind, decoded: Result<string, string>, mimeType: string,
                      timestamp: string, suffix: string, uploadError: Option<string>, base: string)
    returns (result: Result<string, string>, path: Option<string>, uploaded: Option<Upload>)
    ensures decoded.Err? ==> result == Err(decoded.error) && path.None? && uploaded.None?
    ensures decoded.Ok? ==> path == Some(if kind == EditedImage then EditedImagePath(timestamp, suffix, mimeType)
                                         else EditedVideoPath(timestamp, suffix, mimeType))
    ensures decoded.Ok? ==>
              uploaded.Some? && uploaded.value.path == path.value && uploaded.value.contentType == mimeType &&
              |uploaded.value.bytes| == |decoded.value| &&
              forall i :: 0 <= i < |decoded.value| ==> uploaded.value.bytes[i] == ToUint8(decoded.value[i] as int)
    ensures decoded.Ok? && uploadError.Some? ==> result == Err(uploadError.value)
    ensures decoded.Ok? && uploadError.None? ==> result == Ok(PublicUrl(base, path.value))
  {
    if decoded.Err? {
      return Err(decoded.error), None, None;
    }
    var bytes := DecodeBytes(decoded.value);
    var filePath := if kind == EditedImage then EditedImagePath(timestamp, suffix, mimeType)
                    else EditedVideoPath(timestamp, suffix, mimeType);
    path := Some(filePath);
    uploaded := Some(Upload(filePath, bytes[..], mimeType));
    if uploadError.Some? {
      return Err(uploadError.value), path, uploaded;
    }
    result := Ok(PublicUrl(base, filePath));
  }

  /** A successfully uploaded edited image is found again by
      `extractStoragePath` under its `edited/` path. */
  lemma EditedImageUrlRoundTrip(base: string, timestamp: string, suffix: string, mimeType: string)
    requires !Contains(base + "/storage/v1/object/public/ads", "/ads/")
    requires NoLineTerminator(timestamp + suffix + mimeType)
    ensures ExtractStoragePath(PublicUrl(base, EditedImagePath(timestamp, suffix, mimeType))) ==
            Some(EditedImagePath(timestamp, suffix, mimeType))
  {
    var path := EditedImagePath(timestamp, suffix, mimeType);
    var ext := MimeExtension(mimeType, "jpg");
    assert NoLineTerminator(timestamp) && NoLineTerminator(suffix) && NoLineTerminator(mimeType) by {
      var all := timestamp + suffix + mimeType;
      assert forall i :: 0 <= i < |timestamp| ==> timestamp[i] == all[i];
      assert forall i :: 0 <= i < |suffix| ==> suffix[i] == all[|timestamp| + i];
      assert forall i :: 0 <= i < |mimeType| ==> mimeType[i] == all[|timestamp| + |suffix| + i];
    }
    ExtensionHasNoLineTerminator(mimeType, "jpg");
    assert path == "edited/" + timestamp + "-" + suffix + "." + ext;
    assert NoLineTerminator(path) by {
      forall i | 0 <= i < |path| ensures !IsLineTerminator(path[i]) {
        if i < 7 {
        } else if i < 7 + |timestamp| {
          assert path[i] == timestamp[i - 7];
        } else if i < 8 + |timestamp| {
        } else if i < 8 + |timestamp| + |suffix| {
          assert path[i] == suffix[i - 8 - |timestamp|];
        } else if i < 9 + |timestamp| + |suffix| {
        } else {
          assert path[i] == ext[i - 9 - |timestamp| - |suffix|];
        }
      }
    }
    PublicUrlRoundTrip(base, path);
  }

  lemma ExtensionHasNoLineTerminator(mimeType: string, fallback: string)
    requires NoLineTerminator(mimeType) && NoLineTerminator(fallback)
    ensures NoLineTerminator(MimeExtension(mimeType, fallback))
  {
    var parts := Split(mimeType, '/');
    if |parts| > 1 && parts[1] != "" {
      SplitPiecesFromText(mimeType, '/', 1);
    }
  }

  /** Every character of a split piece is a character of the text. */
  lemma {:induction false} SplitPiecesFromText(s: string, c: char, k: nat)
    requires k < |Split(s, c)|
    ensures forall i :: 0 <= i < |Split(s, c)[k]| ==> Split(s, c)[k][i] in s
    decreases |s|
  {
    if |s| > 0 {
      var rest := Split(s[1..], c);
      if s[0] == c {
        if k > 0 {
          SplitPiecesFromText(s[1..], c, k - 1);
        }
      } else {
        if k == 0 {
          SplitPiecesFromText(s[1..], c, 0);
        } else {
          SplitPiecesFromText(s[1..], c, k);
        }
      }
    }
  }

  // ---------------------------------------------------- saveEditedVideo

  /** A database error as the Supabase client reports it. */
  datatype DbError = DbError(message: string, code: string)

  datatype PromptColumn = EditedVideoUrl | EditedImageUrl

  /** Whether the error means the `edited_video_url` column is missing. */
  predicate MissingVideoColumn(e: DbError) {
    Contains(e.message, "edited_video_url") || e.code == "42703"
  }

  /** `saveEditedVideo(promptId, videoUrl)`: write `edited_video_url`; when
      that fails because the column is missing, write `edited_image_url`
      instead, and when that fails too, rethrow the first error. Returns the
      column written and the columns tried, in order. */
  function SaveEditedVideo(first: Option<DbError>, fallback: Option<DbError>)
    : (r: (Result<PromptColumn, DbError>, seq<PromptColumn>))
    ensures first.None? ==> r == (Ok(EditedVideoUrl), [EditedVideoUrl])
    ensures first.Some? && !MissingVideoColumn(first.value) ==> r == (Err(first.value), [EditedVideoUrl])
    ensures first.Some? && MissingVideoColumn(first.value) ==> r.1 == [EditedVideoUrl, EditedImageUrl]
    ensures first.Some? && MissingVideoColumn(first.value) ==>
              r.0 == (if fallback.Some? then Err(first.value) else Ok(EditedImageUrl))
    ensures r.0.Err? ==> r.0 == Err(first.value)
  {
    if first.None? then (Ok(EditedVideoUrl), [EditedVideoUrl])
    else if MissingVideoColumn(first.value) then
      (if fallback.Some? then Err(first.value) else Ok(EditedImageUrl), [EditedVideoUrl, EditedImageUrl])
    else (Err(first.value), [EditedVideoUrl])
  }

  // ------------------------------------------------ getOrCreateCompany

  datatype Company = Company(id: string, name: string)

  /** `getOrCreateCompany(name)`: a lookup error other than "no rows"
      (`PGRST116`) is thrown; an existing company is returned; otherwise the
      company is created. Returns the outcome and whether a create was
      attempted. */
  function GetOrCreateCompany(found: Option<Company>, findError: Option<DbError>,
                              created: Result<Company, DbError>)
    : (r: (Result<Company, DbError>, bool))
    ensures findError.Some? && findError.value.code != "PGRST116" ==> r == (Err(findError.value), false)
    ensures (findError.None? || findError.value.code == "PGRST116") && found.Some? ==> r == (Ok(found.value), false)
    ensures (findError.None? || findError.value.code == "PGRST116") && found.None? ==> r == (created, true)
  {
    if findError.Some? && findError.value.code != "PGRST116" then (Err(findError.value), false)
    else if found.Some? then (Ok(found.value), false)
    else (created, true)
  }
}
