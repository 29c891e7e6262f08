/**
 * The payment-proof upload route: multer's file filter (an unanchored /jpeg|jpg|png|gif/
 * matched against both the lower-cased extension and the MIME type), the stored file name, the
 * 5 MB limit, and the handler's reply.
 */
module Upload {
  import opened Common
  import opened Text

  const MaxFileSize := 5 * 1024 * 1024

  /** The position of the last '.' in `s`. */
  function LastDot(s: string): (r: Option<nat>)
    ensures r.Some? ==> r.value < |s| && s[r.value] == '.' && forall i :: r.value < i < |s| ==> s[i] != '.'
    ensures r.None? ==> forall i :: 0 <= i < |s| ==> s[i] != '.'
  {
    if s == [] then None
    else if s[|s| - 1] == '.' then Some(|s| - 1)
    else LastDot(s[..|s| - 1])
  }

  /**
   * `path.extname` of a file name without directory part: from the last '.' to the end,
   * except that a name with no dot, a leading-dot name such as ".env", and ".." have none.
   */
  function ExtName(name: string): (r: string)
    ensures r == [] || (r[0] == '.' && EndsWith(name, r))
    ensures r != [] ==> forall i :: 1 <= i < |r| ==> r[i] != '.'
  {
    match LastDot(name)
    case None => []
    case Some(k) => if k == 0 || name == ".." then [] else name[k..]
  }

  /** The pattern's test: one of the four image words occurs anywhere in `s`. */
  predicate AllowedType(s: string) {
    Contains(s, "jpeg") || Contains(s, "jpg") || Contains(s, "png") || Contains(s, "gif")
  }

  /**
   * `fileFilter`: accepted exactly when both the extension and the MIME type pass the test;
   * an accepted name therefore has an extension of a dot and at least three more characters.
   */
  function FileFilter(originalName: string, mimeType: string): (r: bool)
    ensures r ==> |ExtName(originalName)| >= 4 && |mimeType| >= 3
  {
    var l := ToLower(ExtName(originalName));
    if AllowedType(l) && AllowedType(mimeType) then
      AllowedNeedsRoom(l);
      AllowedNeedsRoom(mimeType);
      true
    else false
  }

  /** One of the four words, none of which starts with a dot, occurs in `s`. */
  lemma AllowedNeedsRoom(s: string)
    requires AllowedType(s)
    ensures |s| >= 3
    ensures |s| >= 1 && s[0] == '.' ==> |s| >= 4
  {
    if Contains(s, "jpeg") {
      OccurrenceNeedsRoom(s, "jpeg");
    } else if Contains(s, "jpg") {
      OccurrenceNeedsRoom(s, "jpg");
    } else if Contains(s, "png") {
      OccurrenceNeedsRoom(s, "png");
    } else {
      OccurrenceNeedsRoom(s, "gif");
    }
  }

  lemma OccurrenceNeedsRoom(s: string, w: string)
    requires w != [] && w[0] != '.' && Contains(s, w)
    ensures |s| >= |w|
    ensures s != [] && s[0] == '.' ==> |s| >= |w| + 1
  {
    var k: nat :| k <= |s| && OccursAt(s, w, k);
    assert s[k..k + |w|][0] == s[k];
  }

  /** A dot with no dot after it is the last dot. */
  lemma LastDotAt(s: string, k: nat)
    requires k < |s| && s[k] == '.'
    requires forall i :: k < i < |s| ==> s[i] != '.'
    ensures LastDot(s) == Some(k)
  {
  }

  /**
   * A name made of a non-empty stem and a dotted suffix without further dots has that suffix
   * as extension (unless the name is "..").
   */
  lemma ExtNameOf(stem: string, e: string)
    requires stem != [] && |e| >= 1 && e[0] == '.'
    requires forall i :: 1 <= i < |e| ==> e[i] != '.'
    requires stem + e != ".."
    ensures ExtName(stem + e) == e
  {
    var s := stem + e;
    assert s[|stem|] == e[0];
    forall i | |stem| < i < |s|
      ensures s[i] != '.'
    {
      assert s[i] == e[i - |stem|];
    }
    LastDotAt(s, |stem|);
    assert s[|stem|..] == e;
  }

  /**
   * Being unanchored, the filter accepts a ".gifv" video sent with the "image/gif" type,
   * whatever the file is called.
   */
  lemma GifvAccepted(stem: string)
    requires stem != []
    ensures FileFilter(stem + ".gifv", "image/gif")
  {
    GifvExtension(stem);
    GifInGifv();
  }

  lemma GifvExtension(stem: string)
    requires stem != []
    ensures ToLower(ExtName(stem + ".gifv")) == ".gifv"
  {
    var e := ".gifv";
    assert e[0] == '.' && e[1] == 'g' && e[2] == 'i' && e[3] == 'f' && e[4] == 'v';
    assert |stem + e| > 2;
    ExtNameOf(stem, e);
    ToLowerOfLower(e);
  }

  lemma GifInGifv()
    ensures Contains(".gifv", "gif") && Contains("image/gif", "gif")
  {
    var e := ".gifv";
    assert |e[1..4]| == 3 && e[1..4][0] == 'g' && e[1..4][1] == 'i' && e[1..4][2] == 'f';
    assert e[1..4] == "gif";
    assert OccursAt(e, "gif", 1);
    var m := "image/gif";
    assert |m[6..9]| == 3 && m[6..9][0] == 'g' && m[6..9][1] == 'i' && m[6..9][2] == 'f';
    assert m[6..9] == "gif";
    assert OccursAt(m, "gif", 6);
  }

  /**
   * The extension is lower-cased before the test, so its letter case never matters:
   * "SCAN.PNG" is judged exactly as "SCAN.png".
   */
  lemma ExtensionCaseIrrelevant(stem: string, e: string, mimeType: string)
    requires stem != [] && |e| >= 1 && e[0] == '.'
    requires forall i :: 1 <= i < |e| ==> e[i] != '.'
    ensures FileFilter(stem + e, mimeType) == FileFilter(stem + ToLower(e), mimeType)
  {
    var l := ToLower(e);
    if |e| == 1 {
      ToLowerOfLower(e);
    } else {
      forall i | 1 <= i < |l|
        ensures l[i] != '.'
      {
        assert l[i] == LowerChar(e[i]);
      }
      assert |stem + e| > 2 && |stem + l| > 2;
      ExtNameOf(stem, e);
      ExtNameOf(stem, l);
      ToLowerIdempotent(e);
    }
  }

  /** A name without an extension is refused whatever its type. */
  lemma NoExtensionRefused(name: string, mimeType: string)
    requires forall i :: 0 <= i < |name| ==> name[i] != '.'
    ensures !FileFilter(name, mimeType)
  {
    assert ExtName(name) == [];
    assert !Contains([], "jpeg") && !Contains([], "jpg") && !Contains([], "png") && !Contains([], "gif");
  }

  /**
   * The stored name: field name, the time in milliseconds, a random number in [0, 10^9]
   * and the original extension, joined by '-'.
   */
  function StoredName(fieldName: string, now: int, random: int, originalName: string): (r: string)
    ensures StartsWith(r, fieldName + "-")
    ensures EndsWith(r, ExtName(originalName))
  {
    fieldName + "-" + IntToString(now) + "-" + IntToString(random) + ExtName(originalName)
  }

  lemma {:induction false} NoDotInNumber(n: int)
    ensures forall i :: 0 <= i < |IntToString(n)| ==> IntToString(n)[i] != '.'
  {
  }

  /**
   * The stored name keeps the extension the filter examined, so the file is served with the
   * type it was accepted for (given a field name without dots).
   */
  lemma StoredNameKeepsExtension(fieldName: string, now: int, random: int, originalName: string)
    requires fieldName != [] && forall i :: 0 <= i < |fieldName| ==> fieldName[i] != '.'
    ensures ExtName(StoredName(fieldName, now, random, originalName)) == ExtName(originalName)
  {
    var e := ExtName(originalName);
    var head := fieldName + "-" + IntToString(now) + "-" + IntToString(random);
    NoDotInNumber(now);
    NoDotInNumber(random);
    assert forall i :: 0 <= i < |head| ==> head[i] != '.';
    assert head + e == StoredName(fieldName, now, random, originalName);
    if e == [] {
      assert forall i :: 0 <= i < |head + e| ==> (head + e)[i] != '.';
    } else {
      assert |head + e| > 2;
      ExtNameOf(head, e);
    }
  }

  /** The file multer stored, when there is one. */
  datatype StoredFile = StoredFile(filename: string)

  /** The upload handler: 400 without a file, otherwise the public URL of the stored file. */
  function UploadReply(file: Option<StoredFile>): (r: Reply<string>)
    ensures file.None? ==> r == Err(400, "No file uploaded")
    ensures file.Some? ==> r.Ok? && r.status == 200 && StartsWith(r.body, "/uploads/") && r.body[9..] == file.value.filename
  {
    if file.None? then Err(400, "No file uploaded") else Ok(200, "/uploads/" + file.value.filename)
  }

  /** The form field `upload.single` takes the file from. */
  const UploadField := "paymentProof"

  /** The URL under "/uploads/" keeps the stored name's field prefix and its suffix. */
  lemma UnderUploads(name: string, field: string, suffix: string)
    requires StartsWith(name, field + "-") && EndsWith(name, suffix)
    ensures StartsWith("/uploads/" + name, "/uploads/" + field + "-")
    ensures EndsWith("/uploads/" + name, suffix)
  {
    var u := "/uploads/" + name;
    assert u[..|"/uploads/" + field + "-"|] == "/uploads/" + name[..|field + "-"|];
    assert u[|u| - |suffix|..] == name[|name| - |suffix|..];
  }

  /** A file part of the multipart request: its field name, original name, MIME type and size in bytes. */
  datatype SentFile = SentFile(field: string, originalName: string, mimeType: string, size: nat)

  /**
   * `POST /api/upload`: multer takes the one part named `UploadField`. A part under another
   * name, one the filter refuses, or one over the size limit makes multer pass an error on,
   * which the app's last error handler answers with 500. Otherwise the file is stored under
   * `StoredName` and the handler replies with its URL.
   */
  function UploadRoute(sent: Option<SentFile>, now: int, random: int): (r: Reply<string>)
    ensures sent.None? ==> r == Err(400, "No file uploaded")
    ensures r.Ok? <==> sent.Some? && sent.value.field == UploadField
                       && FileFilter(sent.value.originalName, sent.value.mimeType) && sent.value.size <= MaxFileSize
    ensures sent.Some? && r.Err? ==> r == Err(500, "Something went wrong!")
    ensures r.Ok? ==> StartsWith(r.body, "/uploads/" + UploadField + "-") && EndsWith(r.body, ExtName(sent.value.originalName))
  {
    if sent.None? then UploadReply(None)
    else
      var f := sent.value;
      if f.field != UploadField || !FileFilter(f.originalName, f.mimeType) || f.size > MaxFileSize then
        Err(500, "Something went wrong!")
      else
        var name := StoredName(UploadField, now, random, f.originalName);
        UnderUploads(name, UploadField, ExtName(f.originalName));
        UploadReply(Some(StoredFile(name)))
  }
}
