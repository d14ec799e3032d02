/**
 * The "register as a star" form: its change handlers, the list of at most
 * five advertising images, and what submitting the form uploads and writes.
 *
 * The form state is a value; every handler maps the old state and the
 * change event to the new state (or throws, leaving the state as it was).
 * Storage uploads are an oracle that maps a storage path and a file to a
 * download URL, or to nothing when the upload fails.
 */
module RegisterStar {
  import opened Js
  import Lists

  /** A file picked in a file input. */
  datatype File = File(name: string, contents: seq<int>)

  /** What a picture or image slot holds: text (a URL), a picked file, or null/undefined. */
  datatype Media = Text(s: string) | Upload(file: File) | Nothing

  predicate MediaTruthy(m: Media)
  {
    match m
    case Text(s) => s != ""
    case Upload(_) => true
    case Nothing => false
  }

  /** One advertising image: its `type` ("url" or "file") and its `value`. */
  datatype AdImage = AdImage(kind: string, value: Media)

  /** The form state. `text` holds the plain text fields (name, email, phone, category,
    * experience, hourlyRate, videoIntroduction) and any other field a change event names. */
  datatype FormData = FormData(
    text: map<string, string>,
    profilePicture: Media,
    profilePictureType: string,
    socialMediaLinks: map<string, string>,
    governmentId: Media,
    advertisingImages: seq<AdImage>)

  /** The change event a form input delivers: the input's `name`, `value` and `files`
    * (None for inputs that are not file inputs, whose `files` is null). */
  datatype ChangeEvent = ChangeEvent(name: string, value: string, files: Option<seq<File>>)

  /** A handler either computes the next state or throws, and then the state is unchanged. */
  datatype Update<T> = Updated(next: T) | Threw

  const MaxAdvertisingImages: nat := 5

  function InitialForm(): FormData
  {
    FormData(
      map["name" := "", "email" := "", "phone" := "", "category" := "", "experience" := "",
          "hourlyRate" := "", "videoIntroduction" := ""],
      Text(""), "url",
      map["instagram" := "", "twitter" := "", "facebook" := "", "youtube" := ""],
      Nothing, [])
  }

  /** `files[0]`: the first picked file, undefined when none was picked. */
  function FirstFile(files: seq<File>): Media
  {
    if files == [] then Nothing else Upload(files[0])
  }

  /** The part of `s` before its first '.', all of `s` when it has none. */
  function UpToDot(s: string): (r: string)
    ensures |r| <= |s| && r == s[..|r|] && '.' !in r
    ensures |r| < |s| ==> s[|r|] == '.'
  {
    if s == [] || s[0] == '.' then [] else [s[0]] + UpToDot(s[1..])
  }

  const SocialPrefix: string := "socialMediaLinks."

  /** `name.split('.')[1]` for a name that starts with the social-link prefix. */
  function Platform(name: string): string
    requires StartsWith(name, SocialPrefix)
  {
    UpToDot(name[|SocialPrefix|..])
  }

  // ---------------------------------------------------------------------------
  // handleChange
  // ---------------------------------------------------------------------------

  /** The general change handler of the form. */
  function HandleChange(form: FormData, e: ChangeEvent): (r: Update<FormData>)
    ensures r.Threw? <==> (e.files.None?
      && (e.name == "governmentId" || (e.name == "profilePicture" && form.profilePictureType == "file")))
    ensures r.Updated? ==> r.next.advertisingImages == form.advertisingImages
  {
    if e.name == "governmentId" then
      if e.files.None? then Threw else Updated(form.(governmentId := FirstFile(e.files.value)))
    else if StartsWith(e.name, SocialPrefix) then
      Updated(form.(socialMediaLinks := form.socialMediaLinks[Platform(e.name) := e.value]))
    else if e.name == "profilePictureType" then
      Updated(form.(profilePictureType := e.value, profilePicture := if e.value == "url" then Text("") else Nothing))
    else if e.name == "profilePicture" then
      if form.profilePictureType == "file" then
        if e.files.None? then Threw else Updated(form.(profilePicture := FirstFile(e.files.value)))
      else Updated(form.(profilePicture := Text(e.value)))
    else Updated(form.(text := form.text[e.name := e.value]))
  }

  /** A social-link change writes only that platform's link; every other link and field is unchanged. */
  lemma {:induction false} SocialLinkChangesOnlyThatPlatform(form: FormData, platform: string, value: string, files: Option<seq<File>>)
    requires '.' !in platform
    ensures var r := HandleChange(form, ChangeEvent(SocialPrefix + platform, value, files));
      && r.Updated?
      && r.next.socialMediaLinks == form.socialMediaLinks[platform := value]
      && r.next.(socialMediaLinks := form.socialMediaLinks) == form
  {
    var name := SocialPrefix + platform;
    assert name[..|SocialPrefix|] == SocialPrefix;
    assert name[|SocialPrefix|..] == platform;
    UpToDotWhole(platform);
    assert name != "governmentId" by { assert name[0] == 's'; }
  }

  lemma {:induction false} UpToDotWhole(s: string)
    requires '.' !in s
    ensures UpToDot(s) == s
  {
    if s != [] {
      assert s[0] in s;
      assert forall c :: c in s[1..] ==> c in s;
      UpToDotWhole(s[1..]);
    }
  }

  /** Choosing the profile picture type clears the picture: '' for "url", null otherwise;
    * nothing else changes. */
  lemma ProfilePictureTypeResets(form: FormData, value: string, files: Option<seq<File>>)
    ensures var r := HandleChange(form, ChangeEvent("profilePictureType", value, files));
      && r.Updated?
      && r.next.profilePictureType == value
      && r.next.profilePicture == (if value == "url" then Text("") else Nothing)
      && r.next.(profilePictureType := form.profilePictureType, profilePicture := form.profilePicture) == form
  {
    assert "profilePictureType"[0] != SocialPrefix[0];
  }

  /** A plain text field change writes that field only. */
  lemma PlainFieldChangesOnlyThatField(form: FormData, e: ChangeEvent)
    requires e.name in form.text.Keys && e.name !in {"governmentId", "profilePictureType", "profilePicture"}
    requires !StartsWith(e.name, SocialPrefix)
    ensures var r := HandleChange(form, e);
      && r.Updated?
      && r.next.text == form.text[e.name := e.value]
      && r.next.(text := form.text) == form
  {
  }

  // ---------------------------------------------------------------------------
  // The advertising images
  // ---------------------------------------------------------------------------

  /** `handleAddAdvertisingImage`: appends an empty URL entry while there are fewer than five. */
  function AddImage(images: seq<AdImage>): (r: seq<AdImage>)
    ensures |images| < MaxAdvertisingImages ==> r == images + [AdImage("url", Text(""))]
    ensures |images| >= MaxAdvertisingImages ==> r == images
    ensures |images| <= MaxAdvertisingImages ==> |r| <= MaxAdvertisingImages
  {
    if |images| < MaxAdvertisingImages then images + [AdImage("url", Text(""))] else images
  }

  /** `handleAdvertisingImageChange` as written: the type switch is taken only for an input
    * named exactly "advertisingImageType"; any other name writes the entry's value, a file
    * for a "file" entry and the text for any other. An index past the end throws. */
  function ChangeImage(images: seq<AdImage>, index: nat, e: ChangeEvent): (r: Update<seq<AdImage>>)
    ensures r.Threw? <==> (index >= |images|
      || (e.name != "advertisingImageType" && images[index].kind == "file" && e.files.None?))
  {
    if index >= |images| then Threw
    else if e.name == "advertisingImageType" then
      Updated(images[index := AdImage(e.value, if e.value == "url" then Text("") else Nothing)])
    else if images[index].kind == "file" then
      if e.files.None? then Threw
      else Updated(images[index := images[index].(value := FirstFile(e.files.value))])
    else Updated(images[index := images[index].(value := Text(e.value))])
  }

  /** `handleRemoveAdvertisingImage`: `splice(index, 1)`, a no-op past the end. */
  function RemoveImage(images: seq<AdImage>, index: nat): (r: seq<AdImage>)
    ensures index >= |images| ==> r == images
    ensures index < |images| ==> |r| == |images| - 1
  {
    if index < |images| then images[..index] + images[index + 1..] else images
  }

  /** A change touches only the entry at `index`. */
  lemma ChangeImageTouchesOnlyIndex(images: seq<AdImage>, index: nat, e: ChangeEvent)
    ensures var r := ChangeImage(images, index, e);
      r.Updated? ==> (index < |images| && |r.next| == |images|
        && forall k :: 0 <= k < |images| && k != index ==> r.next[k] == images[k])
  {
  }

  /** A value edit writes the picked file into a "file" entry and the text into any other entry. */
  lemma ValueEditWritesValue(images: seq<AdImage>, index: nat, e: ChangeEvent)
    requires index < |images| && e.name != "advertisingImageType"
    ensures var r := ChangeImage(images, index, e);
      && (images[index].kind == "file" && e.files.Some? ==>
            r == Updated(images[index := AdImage("file", FirstFile(e.files.value))]))
      && (images[index].kind != "file" ==>
            r == Updated(images[index := AdImage(images[index].kind, Text(e.value))]))
  {
  }

  /** Removing deletes exactly the entry at `index`; the others keep their order. */
  lemma RemoveImageDeletesIndex(images: seq<AdImage>, index: nat)
    requires index < |images|
    ensures var r := RemoveImage(images, index);
      && |r| == |images| - 1
      && (forall k :: 0 <= k < index ==> r[k] == images[k])
      && (forall k :: index <= k < |r| ==> r[k] == images[k + 1])
      && multiset(r) + multiset{images[index]} == multiset(images)
  {
    var r := RemoveImage(images, index);
    assert images == images[..index] + [images[index]] + images[index + 1..];
  }

  /** What the user can do to the list of advertising images. */
  datatype ImageAction = Add | Change(index: nat, e: ChangeEvent) | Remove(index: nat)

  /** Which `handleAdvertisingImageChange` runs: the one as written (exact name test) or the
    * evidently intended one (prefix test, see README, Findings). */
  datatype Handler = AsWritten | Intended

  /** Whether the handler takes the type switch for an input named `name`. */
  predicate SwitchesType(h: Handler, name: string)
  {
    match h
    case AsWritten => name == "advertisingImageType"
    case Intended => StartsWith(name, "advertisingImageType")
  }

  function ChangeWith(h: Handler, images: seq<AdImage>, index: nat, e: ChangeEvent): Update<seq<AdImage>>
  {
    match h
    case AsWritten => ChangeImage(images, index, e)
    case Intended => ChangeImageIntended(images, index, e)
  }

  /** One action; a change that throws leaves the list as it was. */
  function ApplyImageAction(h: Handler, images: seq<AdImage>, a: ImageAction): seq<AdImage>
  {
    match a
    case Add => AddImage(images)
    case Change(i, e) => var r := ChangeWith(h, images, i, e); if r.Updated? then r.next else images
    case Remove(i) => RemoveImage(images, i)
  }

  function ApplyImageActions(h: Handler, images: seq<AdImage>, actions: seq<ImageAction>): seq<AdImage>
    decreases |actions|
  {
    if actions == [] then images
    else ApplyImageActions(h, ApplyImageAction(h, images, actions[0]), actions[1..])
  }

  /** An entry of type "url" holds text. */
  predicate UrlEntriesHoldText(images: seq<AdImage>)
  {
    forall k :: 0 <= k < |images| && images[k].kind == "url" ==> images[k].value.Text?
  }

  /** Whatever the user does, with either handler, there are never more than five images
    * and every "url" entry holds text. */
  lemma {:induction false} ImageActionsKeepInvariant(h: Handler, images: seq<AdImage>, actions: seq<ImageAction>)
    requires |images| <= MaxAdvertisingImages && UrlEntriesHoldText(images)
    ensures var r := ApplyImageActions(h, images, actions);
      |r| <= MaxAdvertisingImages && UrlEntriesHoldText(r)
    decreases |actions|
  {
    if actions != [] {
      var next := ApplyImageAction(h, images, actions[0]);
      if actions[0].Remove? && actions[0].index < |images| {
        RemoveImageDeletesIndex(images, actions[0].index);
      }
      if actions[0].Change? && h == AsWritten {
        ChangeImageTouchesOnlyIndex(images, actions[0].index, actions[0].e);
      }
      assert |next| <= MaxAdvertisingImages && UrlEntriesHoldText(next);
      ImageActionsKeepInvariant(h, next, actions[1..]);
    }
  }

  /** The form starts with no advertising image, so it never holds more than five and its
    * "url" entries always hold text. */
  lemma FromInitialForm(h: Handler, actions: seq<ImageAction>)
    ensures var r := ApplyImageActions(h, InitialForm().advertisingImages, actions);
      |r| <= MaxAdvertisingImages && UrlEntriesHoldText(r)
  {
    ImageActionsKeepInvariant(h, InitialForm().advertisingImages, actions);
  }

  // ---------------------------------------------------------------------------
  // Assembling the URLs on submit
  // ---------------------------------------------------------------------------

  /** `<folder>/<uid>/<filename>`. */
  function StoragePath(folder: string, uid: string, fileName: string): string
  {
    folder + "/" + uid + "/" + fileName
  }

  /** `value.name`; a value that is not a file has no name and reads as "undefined". */
  function NameOf(m: Media): string
  {
    if m.Upload? then m.file.name else "undefined"
  }

  /** Uploads `m` to `path` and asks for its download URL; uploading anything but a file fails. */
  function UploadMedia(upload: (string, File) -> Option<string>, path: string, m: Media): Option<string>
  {
    if m.Upload? then upload(path, m.file) else None
  }

  function TextOf(m: Media): string
  {
    if m.Text? then m.s else ""
  }

  /** The URLs assembled so far, the storage paths uploaded to so far, and whether an upload failed. */
  datatype Assembly = Assembly(urls: seq<string>, paths: seq<string>, failed: bool)

  /** One turn of the loop: a "file" entry with a value is uploaded and yields its download URL
    * (a failed upload ends the loop); a "url" entry yields its value as is; any other entry
    * yields nothing. */
  function AssembleStep(uid: string, upload: (string, File) -> Option<string>, acc: Assembly, image: AdImage): Assembly
  {
    if image.kind == "file" && MediaTruthy(image.value) then
      var path := StoragePath("advertisingImages", uid, NameOf(image.value));
      var url := UploadMedia(upload, path, image.value);
      if url.None? then Assembly(acc.urls, acc.paths + [path], true)
      else Assembly(acc.urls + [url.value], acc.paths + [path], false)
    else if image.kind == "url" then acc.(urls := acc.urls + [TextOf(image.value)])
    else acc
  }

  /** The loop over the advertising images, stopped by the first failed upload. */
  function AssembleAdUrls(uid: string, images: seq<AdImage>, upload: (string, File) -> Option<string>): (r: Assembly)
    ensures |r.urls| <= |images| && |r.paths| <= |images|
    ensures r.failed ==> r.paths != []
    decreases |images|
  {
    if images == [] then Assembly([], [], false)
    else
      var acc := AssembleAdUrls(uid, images[..|images| - 1], upload);
      if acc.failed then acc else AssembleStep(uid, upload, acc, images[|images| - 1])
  }

  /** The loop of `handleSubmit` that pushes one URL per advertising image. */
  method AssembleAdUrlsLoop(uid: string, images: seq<AdImage>, upload: (string, File) -> Option<string>)
    returns (urls: seq<string>, paths: seq<string>, failed: bool)
    ensures Assembly(urls, paths, failed) == AssembleAdUrls(uid, images, upload)
  {
    urls, paths, failed := [], [], false;
    var i := 0;
    while i < |images|
      invariant 0 <= i <= |images|
      invariant !failed ==> Assembly(urls, paths, failed) == AssembleAdUrls(uid, images[..i], upload)
      invariant failed ==> Assembly(urls, paths, failed) == AssembleAdUrls(uid, images, upload)
    {
      assert images[..i + 1][..i] == images[..i];
      var image := images[i];
      if image.kind == "file" && MediaTruthy(image.value) {
        var path := StoragePath("advertisingImages", uid, NameOf(image.value));
        paths := paths + [path];
        var url := UploadMedia(upload, path, image.value);
        if url.None? {
          failed := true;
          AssembleFailedSticks(uid, images, upload, i + 1);
          break;
        }
        urls := urls + [url.value];
      } else if image.kind == "url" {
        urls := urls + [TextOf(image.value)];
      }
      i := i + 1;
    }
    if !failed {
      assert images[..i] == images;
    }
  }

  /** Once an upload has failed, the later entries change nothing. */
  lemma {:induction false} AssembleFailedSticks(uid: string, images: seq<AdImage>, upload: (string, File) -> Option<string>, n: nat)
    requires n <= |images| && AssembleAdUrls(uid, images[..n], upload).failed
    ensures AssembleAdUrls(uid, images, upload) == AssembleAdUrls(uid, images[..n], upload)
    decreases |images| - n
  {
    if n < |images| {
      assert images[..n + 1][..n] == images[..n];
      AssembleFailedSticks(uid, images, upload, n + 1);
    } else {
      assert images[..n] == images;
    }
  }

  /** An entry that yields a URL: a "url" entry, or a "file" entry that holds a value. */
  predicate Yields(image: AdImage)
  {
    image.kind == "url" || (image.kind == "file" && MediaTruthy(image.value))
  }

  /** The URL an entry yields when its upload succeeds. */
  function UrlOf(uid: string, upload: (string, File) -> Option<string>, image: AdImage): string
    requires Yields(image)
  {
    if image.kind == "url" then TextOf(image.value)
    else var url := UploadMedia(upload, StoragePath("advertisingImages", uid, NameOf(image.value)), image.value);
      if url.Some? then url.value else ""
  }

  predicate UploadsSucceed(uid: string, upload: (string, File) -> Option<string>, images: seq<AdImage>)
  {
    forall k :: 0 <= k < |images| && images[k].kind == "file" && MediaTruthy(images[k].value) ==>
      UploadMedia(upload, StoragePath("advertisingImages", uid, NameOf(images[k].value)), images[k].value).Some?
  }

  /** When every upload succeeds, the URL list is: one URL per entry that yields one, in the
    * entries' order — the value as is for a "url" entry (even when empty), the download URL
    * for a "file" entry with a file — and "file" entries without a file are dropped. */
  lemma {:induction false} AssembledUrlsAreYieldingEntries(uid: string, images: seq<AdImage>, upload: (string, File) -> Option<string>)
    requires UploadsSucceed(uid, upload, images)
    ensures var a := AssembleAdUrls(uid, images, upload);
      var ys := Lists.Filter(images, Yields);
      var us := Lists.Filter(images, Uploaded);
      && !a.failed
      && |a.urls| == |ys|
      && (forall k :: 0 <= k < |ys| ==> a.urls[k] == UrlOf(uid, upload, ys[k]))
      && |a.paths| == |us|
      && (forall k :: 0 <= k < |us| ==> a.paths[k] == StoragePath("advertisingImages", uid, NameOf(us[k].value)))
  {
    AssembledUrls(uid, images, upload);
    AssembledPaths(uid, images, upload);
  }

  lemma {:induction false} AssembledUrls(uid: string, images: seq<AdImage>, upload: (string, File) -> Option<string>)
    requires UploadsSucceed(uid, upload, images)
    ensures var a := AssembleAdUrls(uid, images, upload);
      var ys := Lists.Filter(images, Yields);
      && !a.failed
      && |a.urls| == |ys|
      && (forall k :: 0 <= k < |ys| ==> a.urls[k] == UrlOf(uid, upload, ys[k]))
    decreases |images|
  {
    if images != [] {
      var init, last := images[..|images| - 1], images[|images| - 1];
      assert UploadsSucceed(uid, upload, init) by {
        forall k | 0 <= k < |init| ensures init[k] == images[k] { }
      }
      AssembledUrls(uid, init, upload);
    }
  }

  lemma {:induction false} AssembledPaths(uid: string, images: seq<AdImage>, upload: (string, File) -> Option<string>)
    requires UploadsSucceed(uid, upload, images)
    ensures var a := AssembleAdUrls(uid, images, upload);
      var us := Lists.Filter(images, Uploaded);
      && !a.failed
      && |a.paths| == |us|
      && (forall k :: 0 <= k < |us| ==> a.paths[k] == StoragePath("advertisingImages", uid, NameOf(us[k].value)))
    decreases |images|
  {
    if images != [] {
      var init, last := images[..|images| - 1], images[|images| - 1];
      assert UploadsSucceed(uid, upload, init) by {
        forall k | 0 <= k < |init| ensures init[k] == images[k] { }
      }
      AssembledPaths(uid, init, upload);
    }
  }

  /** An entry whose file is uploaded: a "file" entry that holds a value. */
  predicate Uploaded(image: AdImage)
  {
    image.kind == "file" && MediaTruthy(image.value)
  }

  /** The loop fails exactly when the upload of one of the picked files fails. */
  lemma {:induction false} AssembleFailsIffUploadFails(uid: string, images: seq<AdImage>, upload: (string, File) -> Option<string>)
    ensures AssembleAdUrls(uid, images, upload).failed <==> !UploadsSucceed(uid, upload, images)
    decreases |images|
  {
    if images != [] {
      var init := images[..|images| - 1];
      AssembleFailsIffUploadFails(uid, init, upload);
      assert forall k :: 0 <= k < |init| ==> init[k] == images[k];
    }
  }

  /** With `k` the first entry whose upload fails, the loop uploads exactly what it uploads for
    * the entries before `k`, then `k`'s file, and stops there. */
  lemma {:induction false} AssembleStopsAtFirstFailure(uid: string, images: seq<AdImage>, upload: (string, File) -> Option<string>, k: nat)
    requires k < |images| && Uploaded(images[k])
    requires UploadMedia(upload, StoragePath("advertisingImages", uid, NameOf(images[k].value)), images[k].value).None?
    requires UploadsSucceed(uid, upload, images[..k])
    ensures var a, before := AssembleAdUrls(uid, images, upload), AssembleAdUrls(uid, images[..k], upload);
      && a.failed
      && a.urls == before.urls
      && a.paths == before.paths + [StoragePath("advertisingImages", uid, NameOf(images[k].value))]
  {
    AssembleFailsIffUploadFails(uid, images[..k], upload);
    assert images[..k + 1][..k] == images[..k];
    AssembleFailedSticks(uid, images, upload, k + 1);
  }

  /** Every storage path the loop uploads to is `advertisingImages/<uid>/<file name>`. */
  lemma {:induction false} AssembledPathsAreUnderUser(uid: string, images: seq<AdImage>, upload: (string, File) -> Option<string>)
    ensures forall p :: p in AssembleAdUrls(uid, images, upload).paths ==>
      exists image :: image in images && p == StoragePath("advertisingImages", uid, NameOf(image.value))
    decreases |images|
  {
    if images != [] {
      var init := images[..|images| - 1];
      AssembledPathsAreUnderUser(uid, init, upload);
      assert forall x :: x in init ==> x in images;
      assert images[|images| - 1] in images;
    }
  }

  // ---------------------------------------------------------------------------
  // handleSubmit
  // ---------------------------------------------------------------------------

  /** The document written to `stars/<uid>`. */
  datatype StarDoc = StarDoc(
    name: string, email: string, phone: string, category: string, experience: string,
    hourlyRate: string, profilePicture: Media, videoIntroduction: string,
    socialMediaLinks: map<string, string>, governmentId: string, advertisingImages: seq<string>)

  /** The end of a submit: the error shown, the storage paths uploaded to, and the document
    * written (its id and contents), if any. */
  datatype SubmitOutcome = SubmitOutcome(error: string, uploads: seq<string>, written: Option<(string, StarDoc)>)

  const NotAuthenticatedError: string := "User not authenticated."
  const RegisterFailedError: string := "Failed to register. Please try again."

  function Field(form: FormData, key: string): string
  {
    if key in form.text then form.text[key] else ""
  }

  /** Where the picked government id is uploaded. */
  function GovPath(uid: string, form: FormData): string
  {
    StoragePath("governmentIds", uid, NameOf(form.governmentId))
  }

  /** Where the picked profile picture is uploaded. */
  function PicPath(uid: string, form: FormData): string
  {
    StoragePath("profilePictures", uid, NameOf(form.profilePicture))
  }

  /** The profile picture is uploaded only when its type is "file" and a value is set. */
  predicate PicUploaded(form: FormData)
  {
    form.profilePictureType == "file" && MediaTruthy(form.profilePicture)
  }

  /** The government id's upload fails. */
  predicate GovFails(uid: string, form: FormData, upload: (string, File) -> Option<string>)
  {
    MediaTruthy(form.governmentId) && UploadMedia(upload, GovPath(uid, form), form.governmentId).None?
  }

  /** The profile picture's upload fails. */
  predicate PicFails(uid: string, form: FormData, upload: (string, File) -> Option<string>)
  {
    PicUploaded(form) && UploadMedia(upload, PicPath(uid, form), form.profilePicture).None?
  }

  /** `handleSubmit`. `user` is the signed-in uid, `upload` the storage oracle and
    * `saved` whether the document write succeeds. */
  function Submit(user: Option<string>, form: FormData, upload: (string, File) -> Option<string>, saved: bool): (o: SubmitOutcome)
    ensures user.None? ==> o == SubmitOutcome(NotAuthenticatedError, [], None)
    ensures o.written.Some? <==> o.error == ""
    ensures o.written.Some? ==> saved && user.Some? && o.written.value.0 == "stars/" + user.value
  {
    if user.None? then SubmitOutcome(NotAuthenticatedError, [], None)
    else
      var uid := user.value;
      // the government id
      var govUrl := if MediaTruthy(form.governmentId) then UploadMedia(upload, GovPath(uid, form), form.governmentId) else Some("");
      var paths1 := if MediaTruthy(form.governmentId) then [GovPath(uid, form)] else [];
      if govUrl.None? then SubmitOutcome(RegisterFailedError, paths1, None)
      else
        // the profile picture
        var picUrl := if PicUploaded(form) then UploadMedia(upload, PicPath(uid, form), form.profilePicture) else Some("");
        var paths2 := paths1 + (if PicUploaded(form) then [PicPath(uid, form)] else []);
        if picUrl.None? then SubmitOutcome(RegisterFailedError, paths2, None)
        else
          // the advertising images
          var ads := AssembleAdUrls(uid, form.advertisingImages, upload);
          var paths3 := paths2 + ads.paths;
          if ads.failed || !saved then SubmitOutcome(RegisterFailedError, paths3, None)
          else
            var doc := StarDoc(
              Field(form, "name"), Field(form, "email"), Field(form, "phone"), Field(form, "category"),
              Field(form, "experience"), Field(form, "hourlyRate"),
              if PicUploaded(form) then Text(picUrl.value) else form.profilePicture,
              Field(form, "videoIntroduction"), form.socialMediaLinks, govUrl.value, ads.urls);
            SubmitOutcome("", paths3, Some(("stars/" + uid, doc)))
  }

  /** With nobody signed in, submit reports 'User not authenticated.' and uploads and writes nothing. */
  lemma SubmitWithoutUser(form: FormData, upload: (string, File) -> Option<string>, saved: bool)
    ensures Submit(None, form, upload, saved) == SubmitOutcome("User not authenticated.", [], None)
  {
  }

  /** When every upload succeeds and the write succeeds, a signed-in submit uploads the
    * government id (if picked), the profile picture (if a file was picked) and every picked
    * advertising image, in that order, and writes `stars/<uid>` with all eleven fields: the
    * form's text fields and links as they are, the download URLs of the uploads, the
    * picture as entered when it was not uploaded, and the assembled image URLs. */
  lemma SubmitSucceeds(uid: string, form: FormData, upload: (string, File) -> Option<string>)
    requires !GovFails(uid, form, upload) && !PicFails(uid, form, upload)
    requires UploadsSucceed(uid, upload, form.advertisingImages)
    ensures var ads := AssembleAdUrls(uid, form.advertisingImages, upload);
      var gov := MediaTruthy(form.governmentId);
      var pic := PicUploaded(form);
      Submit(Some(uid), form, upload, true) == SubmitOutcome("",
        (if gov then [GovPath(uid, form)] else []) + (if pic then [PicPath(uid, form)] else []) + ads.paths,
        Some(("stars/" + uid, StarDoc(
          Field(form, "name"), Field(form, "email"), Field(form, "phone"), Field(form, "category"),
          Field(form, "experience"), Field(form, "hourlyRate"),
          if pic then Text(UploadMedia(upload, PicPath(uid, form), form.profilePicture).value) else form.profilePicture,
          Field(form, "videoIntroduction"), form.socialMediaLinks,
          if gov then UploadMedia(upload, GovPath(uid, form), form.governmentId).value else "",
          ads.urls))))
  {
    AssembledUrlsAreYieldingEntries(uid, form.advertisingImages, upload);
  }

  /** A signed-in submit writes nothing exactly when an upload fails or the write fails, and
    * then reports the generic failure. The uploads made are those up to the first failure:
    * the government id's alone when it fails; then the picture's; then the advertising
    * images' up to and including the first that fails. */
  lemma SubmitFailureWritesNothing(uid: string, form: FormData, upload: (string, File) -> Option<string>, saved: bool)
    ensures var o := Submit(Some(uid), form, upload, saved);
      var govPaths := if MediaTruthy(form.governmentId) then [GovPath(uid, form)] else [];
      var picPaths := if PicUploaded(form) then [PicPath(uid, form)] else [];
      var ads := AssembleAdUrls(uid, form.advertisingImages, upload);
      && (o.written.None? <==> (GovFails(uid, form, upload) || PicFails(uid, form, upload)
                                || !UploadsSucceed(uid, upload, form.advertisingImages) || !saved))
      && (o.written.None? ==> o.error == RegisterFailedError)
      && (GovFails(uid, form, upload) ==> o.uploads == [GovPath(uid, form)])
      && (!GovFails(uid, form, upload) && PicFails(uid, form, upload) ==>
            o.uploads == govPaths + [PicPath(uid, form)])
      && (!GovFails(uid, form, upload) && !PicFails(uid, form, upload) ==>
            o.uploads == govPaths + picPaths + ads.paths)
  {
    AssembleFailsIffUploadFails(uid, form.advertisingImages, upload);
  }

  // ---------------------------------------------------------------------------
  // The type switch of the advertising images (see README, Findings)
  // ---------------------------------------------------------------------------

  /** The names the form renders: the radios of entry `i` are `advertisingImageType<i>`,
    * its text or file input `advertisingImage<i>`. */
  function RadioName(i: nat): string
  {
    "advertisingImageType" + IntToString(i)
  }

  /** Clicking the "Upload" radio of a URL entry, as written, does not switch the entry to a
    * file: it writes the radio's value "file" as the entry's URL text. */
  lemma UploadRadioWritesTextAsWritten(images: seq<AdImage>, i: nat)
    requires i < |images| && images[i].kind == "url"
    ensures ChangeImage(images, i, ChangeEvent(RadioName(i), "file", None))
      == Updated(images[i := AdImage("url", Text("file"))])
  {
    assert RadioName(i) != "advertisingImageType" by {
      assert |RadioName(i)| > |"advertisingImageType"|;
    }
  }

  /** Every entry is of type "url". */
  predicate AllUrl(images: seq<AdImage>)
  {
    forall k :: 0 <= k < |images| ==> images[k].kind == "url"
  }

  /** The events the rendered form delivers for entry `i`: its two radios, named
    * `advertisingImageType<i>`, and its text or file input, named `advertisingImage<i>`.
    * The add and remove buttons need no name. */
  predicate Rendered(a: ImageAction)
  {
    a.Change? ==> (a.e.name == RadioName(a.index) || a.e.name == "advertisingImage" + IntToString(a.index))
  }

  /** As written, no event the rendered form delivers takes the type switch: the change
    * keeps the length and the type of every entry. */
  lemma RenderedEventKeepsTypes(images: seq<AdImage>, a: ImageAction)
    requires a.Change? && Rendered(a)
    ensures var r := ChangeImage(images, a.index, a.e);
      r.Updated? ==> |r.next| == |images| && forall k :: 0 <= k < |images| ==> r.next[k].kind == images[k].kind
  {
    if a.e.name == RadioName(a.index) {
      assert a.e.name != "advertisingImageType" by {
        assert |RadioName(a.index)| > |"advertisingImageType"|;
      }
    } else {
      assert a.e.name != "advertisingImageType" by {
        DigitsNotLetter(a.index, a.e.name);
        assert StartsWith("advertisingImageType", "advertisingImageType");
      }
    }
    ChangeImageTouchesOnlyIndex(images, a.index, a.e);
  }

  /** As written, every entry added as "url" stays "url" forever, whatever sequence of
    * additions, removals and rendered events the user produces. */
  lemma {:induction false} RenderedEventsNeverChangeType(images: seq<AdImage>, actions: seq<ImageAction>)
    requires AllUrl(images)
    requires forall k :: 0 <= k < |actions| ==> Rendered(actions[k])
    ensures AllUrl(ApplyImageActions(AsWritten, images, actions))
    decreases |actions|
  {
    if actions != [] {
      var a := actions[0];
      var next := ApplyImageAction(AsWritten, images, a);
      match a {
        case Add =>
          assert AllUrl(next);
        case Remove(i) =>
          if i < |images| {
            RemoveImageDeletesIndex(images, i);
          }
          assert AllUrl(next);
        case Change(i, e) =>
          assert Rendered(actions[0]);
          RenderedEventKeepsTypes(images, a);
          assert AllUrl(next);
      }
      assert forall k :: 0 <= k < |actions[1..]| ==> Rendered(actions[1..][k]) by {
        forall k | 0 <= k < |actions[1..]|
          ensures Rendered(actions[1..][k])
        {
          assert actions[1..][k] == actions[k + 1];
        }
      }
      RenderedEventsNeverChangeType(next, actions[1..]);
    }
  }

  /** As written, the submit never uploads an advertising image: from the initial form, after
    * any rendered actions, the assembly uploads nothing and every entry yields its URL text. */
  lemma AsWrittenNeverUploadsImages(actions: seq<ImageAction>, uid: string, upload: (string, File) -> Option<string>)
    requires forall k :: 0 <= k < |actions| ==> Rendered(actions[k])
    ensures var images := ApplyImageActions(AsWritten, InitialForm().advertisingImages, actions);
      var a := AssembleAdUrls(uid, images, upload);
      a.paths == [] && !a.failed && |a.urls| == |images|
  {
    var images := ApplyImageActions(AsWritten, InitialForm().advertisingImages, actions);
    RenderedEventsNeverChangeType(InitialForm().advertisingImages, actions);
    AssembleAllUrl(uid, images, upload);
  }

  /** A list of "url" entries yields one URL per entry and uploads nothing. */
  lemma {:induction false} AssembleAllUrl(uid: string, images: seq<AdImage>, upload: (string, File) -> Option<string>)
    requires AllUrl(images)
    ensures var a := AssembleAdUrls(uid, images, upload);
      a.paths == [] && !a.failed && |a.urls| == |images|
    decreases |images|
  {
    if images != [] {
      var init := images[..|images| - 1];
      assert AllUrl(init) by {
        forall k | 0 <= k < |init|
          ensures init[k].kind == "url"
        {
          assert init[k] == images[k];
        }
      }
      AssembleAllUrl(uid, init, upload);
      assert images[|images| - 1].kind == "url";
    }
  }

  /** The evidently intended handler: any name that starts with "advertisingImageType"
    * (so the indexed radios too) switches the entry's type and resets its value. */
  function ChangeImageIntended(images: seq<AdImage>, index: nat, e: ChangeEvent): (r: Update<seq<AdImage>>)
    ensures r.Threw? <==> (index >= |images|
      || (!StartsWith(e.name, "advertisingImageType") && images[index].kind == "file" && e.files.None?))
    ensures r.Updated? ==> (|r.next| == |images|
      && forall k :: 0 <= k < |images| && k != index ==> r.next[k] == images[k])
  {
    if index >= |images| then Threw
    else if StartsWith(e.name, "advertisingImageType") then
      Updated(images[index := AdImage(e.value, if e.value == "url" then Text("") else Nothing)])
    else if images[index].kind == "file" then
      if e.files.None? then Threw
      else Updated(images[index := images[index].(value := FirstFile(e.files.value))])
    else Updated(images[index := images[index].(value := Text(e.value))])
  }

  /** With the intended handler, clicking a radio of entry `i` sets that entry's type to the
    * radio's value and resets its value ('' for "url", null for "file"); nothing else changes.
    * The file input of the entry then holds the picked file. */
  lemma RadioSwitchesTypeIntended(images: seq<AdImage>, i: nat, value: string, files: Option<seq<File>>)
    requires i < |images|
    ensures ChangeImageIntended(images, i, ChangeEvent(RadioName(i), value, files))
      == Updated(images[i := AdImage(value, if value == "url" then Text("") else Nothing)])
    ensures var switched := images[i := AdImage("file", Nothing)];
      forall f :: ChangeImageIntended(switched, i, ChangeEvent("advertisingImage" + IntToString(i), "", Some([f])))
        == Updated(images[i := AdImage("file", Upload(f))])
  {
    var name := RadioName(i);
    assert name[..|"advertisingImageType"|] == "advertisingImageType";
    var input := "advertisingImage" + IntToString(i);
    forall f
      ensures ChangeImageIntended(images[i := AdImage("file", Nothing)], i, ChangeEvent(input, "", Some([f])))
        == Updated(images[i := AdImage("file", Upload(f))])
    {
      DigitsNotLetter(i, input);
      var switched := images[i := AdImage("file", Nothing)];
      assert switched[i].kind == "file";
      assert FirstFile([f]) == Upload(f);
      assert switched[i := switched[i].(value := Upload(f))] == images[i := AdImage("file", Upload(f))];
    }
  }

  /** The two handlers differ only on names that extend "advertisingImageType". */
  lemma IntendedAgreesElsewhere(images: seq<AdImage>, index: nat, e: ChangeEvent)
    requires e.name == "advertisingImageType" || !StartsWith(e.name, "advertisingImageType")
    ensures ChangeImageIntended(images, index, e) == ChangeImage(images, index, e)
  {
  }

  /** The update of `handleAdvertisingImageChange` as it is carried out: the list is copied
    * into a new array and the slot at `index` is rewritten, with either name test. */
  method ChangeImageOnCopy(h: Handler, images: seq<AdImage>, index: nat, e: ChangeEvent)
    returns (copy: array<AdImage>, threw: bool)
    ensures fresh(copy)
    ensures threw <==> ChangeWith(h, images, index, e).Threw?
    ensures !threw ==> copy[..] == ChangeWith(h, images, index, e).next
  {
    copy := new AdImage[|images|](k requires 0 <= k < |images| => images[k]);
    if index >= |images| {
      return copy, true;
    }
    if SwitchesType(h, e.name) {
      copy[index] := AdImage(e.value, if e.value == "url" then Text("") else Nothing);
    } else if copy[index].kind == "file" {
      if e.files.None? {
        return copy, true;
      }
      copy[index] := copy[index].(value := FirstFile(e.files.value));
    } else {
      copy[index] := copy[index].(value := Text(e.value));
    }
    threw := false;
  }

  lemma DigitsNotLetter(i: nat, input: string)
    requires input == "advertisingImage" + IntToString(i)
    ensures !StartsWith(input, "advertisingImageType")
  {
    if |input| >= |"advertisingImageType"| {
      var s := IntToString(i);
      assert input[16] == s[0];
      assert s[0] == '-' || IsDigit(s[0]);
      assert "advertisingImageType"[16] == 'T';
    }
  }
}
