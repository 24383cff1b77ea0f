/** The storage helpers: the path an upload is stored under, the shape of
    the upload's answer, and the default bucket, folder and expiry of the
    other helpers. The random file id is a parameter and the storage service
    an input. */
module Storage {
  import opened Js

  const DefaultBucket := "media"
  const DefaultFolder := "uploads"
  const DefaultExpiry := 60

  /** `s.split('.')`: the pieces between the dots, in order. Built from the
      end, one character at a time. */
  function Split(s: string): (r: seq<string>)
    ensures |r| >= 1
    ensures forall i :: 0 <= i < |r| ==> '.' !in r[i]
    decreases |s|
  {
    if |s| == 0 then [""]
    else
      var t := Split(s[..|s| - 1]);
      if s[|s| - 1] == '.' then t + [""]
      else t[..|t| - 1] + [t[|t| - 1] + [s[|s| - 1]]]
  }

  /** `pieces.join('.')`. */
  function Join(pieces: seq<string>): string
    requires |pieces| >= 1
  {
    if |pieces| == 1 then pieces[0] else Join(pieces[..|pieces| - 1]) + "." + pieces[|pieces| - 1]
  }

  /** Splitting loses nothing: the pieces joined with dots give the name back. */
  lemma {:induction false} JoinSplit(s: string)
    ensures Join(Split(s)) == s
    decreases |s|
  {
    if |s| > 0 {
      var pre, c := s[..|s| - 1], s[|s| - 1];
      JoinSplit(pre);
      var t := Split(pre);
      var r := Split(s);
      if c == '.' {
        assert r[..|r| - 1] == t;
      } else if |t| > 1 {
        assert r[..|r| - 1] == t[..|t| - 1];
        assert Join(t) == Join(t[..|t| - 1]) + "." + t[|t| - 1];
      }
      assert s == pre + [c];
    }
  }

  /** `file.name.split('.').pop()`. */
  function Extension(name: string): string {
    var pieces := Split(name);
    pieces[|pieces| - 1]
  }

  /** Reading one more character: a dot starts an empty extension, any
      other character extends the current one. */
  lemma ExtensionStep(pre: string, c: char)
    ensures c == '.' ==> Extension(pre + [c]) == ""
    ensures c != '.' ==> Extension(pre + [c]) == Extension(pre) + [c]
  {
    assert (pre + [c])[..|pre|] == pre;
  }

  /** The extension is the text after the last dot, or the whole name when it
      has no dot. */
  lemma {:induction false} ExtensionIsAfterLastDot(name: string)
    ensures '.' !in Extension(name)
    ensures |Extension(name)| <= |name| && Extension(name) == name[|name| - |Extension(name)|..]
    ensures |Extension(name)| < |name| ==> name[|name| - |Extension(name)| - 1] == '.'
    ensures '.' !in name ==> Extension(name) == name
    decreases |name|
  {
    if |name| > 0 {
      var pre, c := name[..|name| - 1], name[|name| - 1];
      assert name == pre + [c];
      ExtensionIsAfterLastDot(pre);
      ExtensionStep(pre, c);
      var e := Extension(pre);
      if c != '.' {
        assert name[|name| - |e| - 1..] == pre[|pre| - |e|..] + [c];
        if |e| < |pre| {
          assert name[|name| - |e| - 2] == pre[|pre| - |e| - 1];
        }
        if '.' !in name {
          assert '.' !in pre;
        }
      }
    }
  }

  /** What `uploadFile` resolves to. */
  datatype Uploaded = Uploaded(filePath: Option<string>, publicUrl: Option<string>, error: Option<string>)

  /** Where an upload goes and what it answers, given the random id, the
      storage service's error and its public address for a path. A missing
      bucket or folder argument takes its default. */
  datatype Upload = Upload(bucket: string, path: string, answer: Uploaded)

  function UploadFile(name: string, bucket: Option<string>, folder: Option<string>, id: string,
                      error: Option<string>, publicUrl: (string, string) -> string): (r: Upload)
    ensures r.bucket == bucket.GetOr(DefaultBucket)
    ensures r.path == folder.GetOr(DefaultFolder) + "/" + id + "." + Extension(name)
    ensures error.Some? ==> r.answer == Uploaded(None, None, error)
    ensures error.None? ==> r.answer == Uploaded(Some(r.path), Some(publicUrl(r.bucket, r.path)), None)
  {
    var b := bucket.GetOr(DefaultBucket);
    var fileName := id + "." + Extension(name);
    var path := folder.GetOr(DefaultFolder) + "/" + fileName;
    if error.Some? then Upload(b, path, Uploaded(None, None, error))
    else Upload(b, path, Uploaded(Some(path), Some(publicUrl(b, path)), None))
  }

  /** The stored file name keeps the upload's extension: the path ends in the
      id, a dot and the extension, and contains no dot after it. */
  lemma UploadKeepsExtension(name: string, id: string, error: Option<string>, publicUrl: (string, string) -> string)
    ensures var p := UploadFile(name, None, None, id, error, publicUrl).path;
            && p == "uploads/" + id + "." + Extension(name)
            && '.' !in p[|p| - |Extension(name)|..]
            && (error.Some? <==> UploadFile(name, None, None, id, error, publicUrl).answer.filePath.None?)
  {
    ExtensionIsAfterLastDot(name);
    var p := UploadFile(name, None, None, id, error, publicUrl).path;
    assert p[|p| - |Extension(name)|..] == Extension(name);
  }

  /** The arguments `getTemporaryUrl`, `deleteFile` and `listFiles` pass on,
      with their defaults. */
  function SignedUrlArgs(path: string, bucket: Option<string>, expiresIn: Option<int>): (r: (string, string, int))
    ensures r.0 == path && r.1 == bucket.GetOr(DefaultBucket) && r.2 == expiresIn.GetOr(DefaultExpiry)
    ensures expiresIn.None? ==> r.2 == 60
  {
    (path, bucket.GetOr(DefaultBucket), expiresIn.GetOr(DefaultExpiry))
  }

  function ListArgs(folder: Option<string>, bucket: Option<string>): (r: (string, string))
    ensures folder.None? ==> r.0 == "uploads"
    ensures bucket.None? ==> r.1 == "media"
    ensures folder.Some? ==> r.0 == folder.value
    ensures bucket.Some? ==> r.1 == bucket.value
  {
    (folder.GetOr(DefaultFolder), bucket.GetOr(DefaultBucket))
  }
}
