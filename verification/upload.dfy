/** The `POST` handler of frontend/app/api/upload/route.ts: field and MIME
    checks, the storage path of the uploaded file, and the reply, including
    the reply sent when storage refuses the file. The random UUID, the
    storage outcome and the temporary object URL are inputs. */
module UploadRoute {
  import opened Wrappers
  import opened Strings
  import Supabase

  /** The uploaded `File`: its name and its MIME type. */
  datatype UploadedFile = UploadedFile(name: string, mimeType: string)

  /** The multipart form; `None` is a field that `formData.get` did not find. */
  datatype Form = Form(file: Option<UploadedFile>, brand: Option<string>, title: Option<string>,
                       location: Option<string>, category: Option<string>, companyId: Option<string>)

  datatype Reply =
    | Rejected(status: nat, error: string)
    | Uploaded(filename: string, brand: string, title: string, location: string, category: string,
               isVideo: bool, fileType: string, storageFailed: bool)

  /** A form field is truthy when present and non-empty. */
  predicate Given(field: Option<string>) {
    field.Some? && field.value != ""
  }

  predicate Complete(form: Form) {
    form.file.Some? && Given(form.brand) && Given(form.title) && Given(form.location) &&
    Given(form.category) && Given(form.companyId)
  }

  /** `file.name.split('.').pop()` */
  function FileExtension(name: string): (r: string)
    ensures forall i :: 0 <= i < |r| ==> r[i] != '.'
  {
    Last(Split(name, '.'))
  }

  /** The extension is the text after the last dot, or the whole name when
      it has no dot. */
  lemma FileExtensionCases(stem: string, ext: string, plain: string)
    requires forall i :: 0 <= i < |ext| ==> ext[i] != '.'
    requires forall i :: 0 <= i < |plain| ==> plain[i] != '.'
    ensures FileExtension(stem + "." + ext) == ext
    ensures FileExtension(plain) == plain
  {
    SplitLastAfterSeparator(stem, ext, '.');
    SplitSingle(ext, '.');
    SplitSingle(plain, '.');
  }

  /** `${fileType}s/${uuid}.${fileExt}` */
  function StoragePath(isVideo: bool, uuid: string, name: string): (r: string)
    ensures StartsWith(r, if isVideo then "videos/" else "images/")
    ensures EndsWith(r, "." + FileExtension(name))
  {
    (if isVideo then "videos/" else "images/") + uuid + "." + FileExtension(name)
  }

  /** `POST(request)`: `form` is `None` when reading the form data threw;
      `uuid` is what `randomUUID()` returned, `storageError` whether the
      upload was refused, `objectUrl` what `URL.createObjectURL(file)`
      returned, and `base` the storage project URL. */
  function Post(form: Option<Form>, uuid: string, storageError: bool, objectUrl: string, base: string): (r: Reply)
    ensures form.None? ==> r == Rejected(500, "Failed to upload file")
    ensures form.Some? && !Complete(form.value) ==> r == Rejected(400, "Missing required fields")
    ensures form.Some? && Complete(form.value) ==>
              (r.Rejected? <==> !StartsWith(form.value.file.value.mimeType, "image/") &&
                                !StartsWith(form.value.file.value.mimeType, "video/"))
    ensures form.Some? && Complete(form.value) && r.Rejected? ==>
              r == Rejected(400, "Only image and video files are allowed")
    ensures r.Uploaded? ==>
              var f := form.value;
              r.brand == f.brand.value && r.title == f.title.value && r.location == f.location.value &&
              r.category == f.category.value && r.fileType == f.file.value.mimeType &&
              r.isVideo == StartsWith(f.file.value.mimeType, "video/")
    ensures r.Uploaded? ==> r.storageFailed == storageError
    ensures r.Uploaded? && storageError ==> r.filename == objectUrl
    ensures r.Uploaded? && !storageError ==>
              r.filename == Supabase.PublicUrl(base, StoragePath(r.isVideo, uuid, form.value.file.value.name))
  {
    if form.None? then Rejected(500, "Failed to upload file")
    else
      var f := form.value;
      if !Complete(f) then Rejected(400, "Missing required fields")
      else
        var file := f.file.value;
        var isImage := StartsWith(file.mimeType, "image/");
        var isVideo := StartsWith(file.mimeType, "video/");
        if !isImage && !isVideo then Rejected(400, "Only image and video files are allowed")
        else
          var filePath := StoragePath(isVideo, uuid, file.name);
          if storageError then
            Uploaded(objectUrl, f.brand.value, f.title.value, f.location.value, f.category.value,
                     isVideo, file.mimeType, true)
          else
            Uploaded(Supabase.PublicUrl(base, filePath), f.brand.value, f.title.value, f.location.value,
                     f.category.value, isVideo, file.mimeType, false)
  }

  /** A file uploaded to storage is found again by `extractStoragePath`
      under `images/` or `videos/`, as the delete cascade expects. */
  lemma UploadedPathRecoverable(isVideo: bool, uuid: string, name: string, base: string)
    requires !Contains(base + "/storage/v1/object/public/ads", "/ads/")
    requires NoLineTerminator(uuid) && NoLineTerminator(name)
    ensures Supabase.ExtractStoragePath(Supabase.PublicUrl(base, StoragePath(isVideo, uuid, name))) ==
            Some(StoragePath(isVideo, uuid, name))
  {
    var ext := FileExtension(name);
    var pieces := Split(name, '.');
    assert ext == pieces[|pieces| - 1];
    Supabase.SplitPiecesFromText(name, '.', |pieces| - 1);
    var dir := if isVideo then "videos/" else "images/";
    var path := StoragePath(isVideo, uuid, name);
    assert path == dir + uuid + "." + ext;
    forall i | 0 <= i < |path| ensures !IsLineTerminator(path[i]) {
      if i < 7 {
      } else if i < 7 + |uuid| {
        assert path[i] == uuid[i - 7];
      } else if i == 7 + |uuid| {
      } else {
        assert path[i] == ext[i - 8 - |uuid|];
      }
    }
    Supabase.PublicUrlRoundTrip(base, path);
  }
}
