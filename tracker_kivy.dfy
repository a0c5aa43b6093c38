/** The image-loader override of the tracker (worlds/tracker/TrackerKivy.py):
    a file name under the `ap:zip:` scheme names a member of a zip archive on
    disk; every other name goes to the default package loader.  Opening the
    archive and decoding the image are not modelled: the model stops at the
    archive path and the member name handed to `zipfile`. */
module TrackerKivy {
  import opened Common

  /** The scheme `load_map` puts in front of an external pack's path. */
  const ZIP_SCHEME: string := "ap:zip:"

  /** Where the archive part of a path ends. */
  const SEPARATOR: string := "zip/"

  /** The archive and the member `load` opens. */
  datatype ZipMember = ZipMember(archive: string, member: string)

  /** `load` fails when its path holds no "zip/": the two-way unpacking of
      `split` raises. */
  datatype LoadError = NoZipSeparator

  /** Where `load_override` sends a file name. */
  datatype ImageSource =
    | ZipImage(result: Result<ZipMember, LoadError>)
    | DefaultLoad(filename: string)

  /** Python's `s[n:]` for a non-negative `n`. */
  function Drop(s: string, n: nat): (r: string)
    ensures |s| <= n ==> r == ""
    ensures n < |s| ==> r == s[n..]
  {
    if |s| <= n then "" else s[n..]
  }

  predicate OccursAt(s: string, sep: string, j: int)
  {
    0 <= j && j + |sep| <= |s| && s[j..j + |sep|] == sep
  }

  /** The first occurrence of `sep` at or after `from`, as `str.find`. */
  function FindFrom(s: string, sep: string, from: nat): (r: Option<nat>)
    ensures r.Some? ==> from <= r.value && OccursAt(s, sep, r.value)
                        && forall k :: from <= k < r.value ==> !OccursAt(s, sep, k)
    ensures r.None? ==> forall k :: from <= k ==> !OccursAt(s, sep, k)
    decreases |s| - from
  {
    if from + |sep| > |s| then None
    else if OccursAt(s, sep, from) then Some(from)
    else FindFrom(s, sep, from + 1)
  }

  /** An occurrence with none before it is the one `FindFrom` finds. */
  lemma FirstOccurrence(s: string, sep: string, i: nat)
    requires OccursAt(s, sep, i) && forall k :: 0 <= k < i ==> !OccursAt(s, sep, k)
    ensures FindFrom(s, sep, 0) == Some(i)
  {
    var r := FindFrom(s, sep, 0);
    assert r.Some?;
  }

  /** The regular-expression substitution of `load`: remove every leading slash. */
  function StripLeadingSlashes(s: string): (r: string)
    ensures |r| <= |s| && r == s[|s| - |r|..]
    ensures r == "" || r[0] != '/'
    ensures forall k :: 0 <= k < |s| - |r| ==> s[k] == '/'
    decreases |s|
  {
    if |s| > 0 && s[0] == '/' then StripLeadingSlashes(s[1..]) else s
  }

  /** `load`: drop the seven characters of the scheme, split at the first
      "zip/" into the archive (given back its "zip") and the member, and
      strip the member's leading slashes. */
  function Load(filename: string): (r: Result<ZipMember, LoadError>)
    ensures r.Failure? <==> forall k :: 0 <= k ==> !OccursAt(Drop(filename, 7), SEPARATOR, k)
  {
    var path := Drop(filename, 7);
    match FindFrom(path, SEPARATOR, 0)
    case None => Failure(NoZipSeparator)
    case Some(i) => Success(ZipMember(path[..i] + "zip", StripLeadingSlashes(path[i + 4..])))
  }

  /** Splitting a path at an occurrence of "zip/" and stripping the
      member's leading slashes loses only those slashes. */
  lemma SplitReassembles(path: string, i: nat)
    requires OccursAt(path, SEPARATOR, i)
    ensures var archive := path[..i] + "zip";
            var member := StripLeadingSlashes(path[i + 4..]);
            && EndsWith(archive, "zip")
            && StartsWith(path, archive + "/")
            && EndsWith(path, member)
            && |archive| + 1 + |member| <= |path|
            && forall j :: |archive| + 1 <= j < |path| - |member| ==> path[j] == '/'
  {
    var archive := path[..i] + "zip";
    var rest := path[i + 4..];
    var member := StripLeadingSlashes(rest);
    assert path[i..i + 4] == "zip/";
    assert archive[|archive| - 3..] == "zip";
    assert archive + "/" == path[..i + 4];
    assert path[|path| - |member|..] == rest[|rest| - |member|..];
    forall j | |archive| + 1 <= j < |path| - |member|
      ensures path[j] == '/'
    {
      assert path[j] == rest[j - (i + 4)];
    }
  }

  /** What `load` opens puts the path back together: the archive ends in
      "zip" and is followed by a slash, then only slashes, then the member,
      which does not start with one; no "zip/" starts inside the archive's
      stem. */
  lemma LoadDecomposes(filename: string)
    requires Load(filename).Success?
    ensures var path := Drop(filename, 7);
            var z := Load(filename).value;
            && EndsWith(z.archive, "zip")
            && StartsWith(path, z.archive + "/")
            && EndsWith(path, z.member)
            && |z.archive| + 1 + |z.member| <= |path|
            && (forall j :: |z.archive| + 1 <= j < |path| - |z.member| ==> path[j] == '/')
            && (z.member == "" || z.member[0] != '/')
            && forall k :: 0 <= k < |z.archive| - 3 ==> !OccursAt(path, SEPARATOR, k)
  {
    var path := Drop(filename, 7);
    var i := FindFrom(path, SEPARATOR, 0).value;
    var z := ZipMember(path[..i] + "zip", StripLeadingSlashes(path[i + 4..]));
    assert Load(filename).value == z;
    assert |z.archive| - 3 == i;
    SplitReassembles(path, i);
  }

  /** `load_override`: the zip loader for the `ap:zip:` scheme, the default
      loader with the unchanged name otherwise. */
  function LoadOverride(filename: string): (r: ImageSource)
    ensures StartsWith(filename, ZIP_SCHEME) ==> r == ZipImage(Load(filename))
    ensures !StartsWith(filename, ZIP_SCHEME) ==> r == DefaultLoad(filename)
  {
    if StartsWith(filename, ZIP_SCHEME) then ZipImage(Load(filename)) else DefaultLoad(filename)
  }

  /** An occurrence that ends inside the first part of a concatenation is
      an occurrence in that part. */
  lemma OccursInPrefix(a: string, b: string, k: int)
    requires OccursAt(a + b, SEPARATOR, k) && k + 4 <= |a|
    ensures OccursAt(a, SEPARATOR, k)
  {
    assert (a + b)[k..k + 4] == a[k..k + 4];
  }

  /** In a pack path followed by "/" and an image path, the first "zip/"
      is the one made of the pack's own final "zip" and that slash. */
  lemma ZipPathFirstSeparator(packRef: string, img: string)
    requires EndsWith(packRef, "zip")
    requires forall k :: 0 <= k ==> !OccursAt(packRef, SEPARATOR, k)
    ensures FindFrom(packRef + "/" + img, SEPARATOR, 0) == Some(|packRef| - 3)
  {
    var path := packRef + "/" + img;
    var i := |packRef| - 3;
    assert path == packRef + ("/" + img);
    assert path[i..i + 4] == "zip/" by {
      assert path[i..i + 3] == packRef[i..] == "zip";
    }
    forall k | 0 <= k < i
      ensures !OccursAt(path, SEPARATOR, k)
    {
      if OccursAt(path, SEPARATOR, k) {
        OccursInPrefix(packRef, "/" + img, k);
      }
    }
    FirstOccurrence(path, SEPARATOR, i);
  }

  /** The image path `load_map` builds for an external pack comes back as
      the pack archive and the image's path inside it, when the pack's path
      ends in "zip" and holds no "zip/" of its own. */
  lemma ZipPathRoundTrip(packRef: string, img: string)
    requires EndsWith(packRef, "zip")
    requires forall k :: 0 <= k ==> !OccursAt(packRef, SEPARATOR, k)
    ensures LoadOverride(ZIP_SCHEME + packRef + "/" + img)
            == ZipImage(Success(ZipMember(packRef, StripLeadingSlashes(img))))
  {
    var filename := ZIP_SCHEME + packRef + "/" + img;
    var path := packRef + "/" + img;
    var i := |packRef| - 3;
    assert filename[..7] == ZIP_SCHEME;
    assert Drop(filename, 7) == path;
    ZipPathFirstSeparator(packRef, img);
    assert path[..i] + "zip" == packRef;
    assert path[i + 4..] == img;
  }

  /** A pack whose path runs through a directory called "zip" is split at
      that directory: `load` then names the directory as the archive. */
  lemma LoadSplitsAtFirstZipDirectory()
    ensures LoadOverride("ap:zip:/a/zip/p.zip/m.png") == ZipImage(Success(ZipMember("/a/zip", "p.zip/m.png")))
  {
    var stem := "/a/zip";
    forall k | 0 <= k
      ensures !OccursAt(stem, SEPARATOR, k)
    {
      if k + 4 <= |stem| {
        assert stem[k..k + 4][0] == stem[k] != 'z';
      }
    }
    assert "ap:zip:/a/zip/p.zip/m.png" == ZIP_SCHEME + stem + "/" + "p.zip/m.png";
    ZipPathRoundTrip(stem, "p.zip/m.png");
    assert StripLeadingSlashes("p.zip/m.png") == "p.zip/m.png";
  }
}
