/**
 * The image-hosting helpers: the upload request built from a base64 image, and
 * the public id that a deletion targets, recovered from an image URL. The
 * hosting service itself is a parameter.
 */
module Cloudinary {
  import opened Wrappers
  import opened Strings
  import opened JsValues

  const DefaultFolder: string := "angi-images"
  const DataUriPrefix: string := "data:image/jpeg;base64,"
  const UploadErrorPrefix: string := "Failed to upload image to Cloudinary: "

  /**
   * `uploader.upload(file, { folder })`: the secure URL of the stored image, or
   * the message of the error it threw.
   */
  type Uploader = (string, string) -> Result<string, string>

  /** The data URI sent to the service: the image is interpolated into a template string. */
  function UploadPayload(image: JsValue): (r: string)
    ensures DataUriPrefix <= r && r[|DataUriPrefix|..] == ToString(image)
  {
    DataUriPrefix + ToString(image)
  }

  /**
   * `uploadImageToCloudinary(imageBase64, folder)`: a missing folder argument
   * means 'angi-images'; a failure is rethrown with a fixed prefix on its message.
   */
  function UploadImage(image: JsValue, folder: Option<string>, upload: Uploader): (r: Result<string, string>)
    ensures var f := folder.GetOr(DefaultFolder);
            && (r.Success? <==> upload(UploadPayload(image), f).Success?)
            && (r.Success? ==> r.value == upload(UploadPayload(image), f).value)
            && (r.Failure? ==> r.error == UploadErrorPrefix + upload(UploadPayload(image), f).error)
  {
    match upload(UploadPayload(image), folder.GetOr(DefaultFolder))
    case Success(url) => Success(url)
    case Failure(message) => Failure(UploadErrorPrefix + message)
  }

  /** `url.split('/').pop().split('.')[0]`: the last path segment up to its first dot. */
  function PublicId(url: string): (r: string)
    ensures '/' !in r && '.' !in r
  {
    var segments := Split(url, '/');
    Split(segments[|segments| - 1], '.')[0]
  }

  /** The public id of `<anything>/<name>.<extension>` is the name. */
  lemma PublicIdOfFileName(dir: string, name: string, extension: string)
    requires '/' !in name && '/' !in extension && '.' !in name
    ensures PublicId(dir + "/" + name + "." + extension) == name
  {
    var file := name + "." + extension;
    assert '/' !in file;
    assert dir + "/" + name + "." + extension == dir + ['/'] + file;
    SplitSnoc(dir, file, '/');
    assert name + "." + extension == name + ['.'] + extension;
    SplitHead(name, extension, '.');
  }

  /**
   * The folder of an image URL: the text after the first `/<cloud name>/` up to
   * the next '/', or 'angi-images' when the URL does not contain that marker. An
   * unset cloud name is interpolated as 'undefined'. (The source splits on the
   * marker and takes part 1; since the marker ends in '/', cutting at the next
   * '/' after the first marker gives the same text.)
   */
  function Folder(url: string, cloudName: Option<string>): (r: string)
    ensures '/' !in r
    ensures IndexOf(url, "/" + cloudName.GetOr("undefined") + "/").None? ==> r == DefaultFolder
  {
    var marker := "/" + cloudName.GetOr("undefined") + "/";
    match IndexOf(url, marker)
    case None => DefaultFolder
    case Some(i) => Split(url[i + |marker|..], '/')[0]
  }

  /**
   * For an image URL of the configured cloud, `<host>/<cloud name>/<folder>/<rest>`,
   * with no earlier `/<cloud name>/`, the folder is the segment right after the
   * cloud name.
   */
  lemma FolderAfterCloudName(pre: string, cloudName: Option<string>, folder: string, rest: string)
    requires var url := pre + "/" + cloudName.GetOr("undefined") + "/" + folder + "/" + rest;
             forall k :: 0 <= k < |pre| ==> !OccursAt(url, "/" + cloudName.GetOr("undefined") + "/", k)
    requires '/' !in folder
    ensures Folder(pre + "/" + cloudName.GetOr("undefined") + "/" + folder + "/" + rest, cloudName) == folder
  {
    var marker := "/" + cloudName.GetOr("undefined") + "/";
    var url := pre + "/" + cloudName.GetOr("undefined") + "/" + folder + "/" + rest;
    assert url == pre + marker + (folder + ['/'] + rest);
    assert url[|pre|..|pre| + |marker|] == marker;
    assert OccursAt(url, marker, |pre|);
    assert IndexOf(url, marker) == Some(|pre|);
    assert url[|pre| + |marker|..] == folder + ['/'] + rest;
    SplitHead(folder, rest, '/');
  }

  /** The id passed to `uploader.destroy`: folder and public id, or the public id alone when the folder is empty. */
  function FullPublicId(url: string, cloudName: Option<string>): string {
    var folder := Folder(url, cloudName);
    if folder != "" then folder + "/" + PublicId(url) else PublicId(url)
  }

  /** Split on '/', the full id is exactly the folder (when there is one) and the public id. */
  lemma FullPublicIdSegments(url: string, cloudName: Option<string>)
    ensures var folder := Folder(url, cloudName);
            Split(FullPublicId(url, cloudName), '/') == if folder != "" then [folder, PublicId(url)] else [PublicId(url)]
  {
    var folder := Folder(url, cloudName);
    var id := PublicId(url);
    SplitHead(id, "", '/');
    if folder != "" {
      assert folder + "/" + id == folder + ['/'] + id;
      SplitSnoc(folder, id, '/');
      SplitHead(folder, "", '/');
    }
  }

  /**
   * `deleteImageFromCloudinary(imageUrl)`: the id it asks the service to
   * destroy. A value other than a string has no `split`, the call throws inside
   * the `try` and nothing is destroyed. Errors of the service are swallowed, so
   * the id is all the caller can observe.
   */
  function DeletionTarget(imageUrl: JsValue, cloudName: Option<string>): (r: Option<string>)
    ensures r.Some? <==> imageUrl.Str?
    ensures r.Some? ==> r.value == FullPublicId(imageUrl.s, cloudName)
  {
    if imageUrl.Str? then Some(FullPublicId(imageUrl.s, cloudName)) else None
  }

  /** A URL outside the configured cloud is deleted from the default folder. */
  lemma ForeignUrlUsesDefaultFolder(url: string, cloudName: Option<string>)
    requires IndexOf(url, "/" + cloudName.GetOr("undefined") + "/").None?
    ensures FullPublicId(url, cloudName) == DefaultFolder + "/" + PublicId(url)
  {
  }
}
