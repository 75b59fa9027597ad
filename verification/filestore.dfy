/**
 * The upload store of backend/pkg/filestore/filestore.go: a directory that
 * accepts JPEG, PNG and GIF uploads and stores each under a fresh name
 * made of a UUID, the upload time and the original extension. The
 * directory is a map from path to contents; the UUID and the clock are
 * parameters.
 */
module FileStore {
  import opened Wrappers
  import opened Text

  newtype byte = x: int | 0 <= x < 256
  type Bytes = seq<byte>

  /** The parts of a multipart file header the store reads; `content` is `None` when it cannot be opened. */
  datatype FileHeader = FileHeader(filename: string, contentType: string, content: Option<Bytes>)

  /** A wall-clock reading, in the fields the name format uses. */
  datatype DateTime = DateTime(year: nat, month: nat, day: nat, hour: nat, minute: nat, second: nat)

  /** `isAllowedFileType`: the three image types, compared after lower-casing. */
  predicate IsAllowedFileType(contentType: string)
    ensures contentType in {"image/jpeg", "image/png", "image/gif"} ==> IsAllowedFileType(contentType)
    ensures IsAllowedFileType(contentType) ==> |contentType| == 9 || |contentType| == 10
  {
    assert contentType in {"image/jpeg", "image/png", "image/gif"} ==> ToLower(contentType) == contentType;
    ToLower(contentType) in {"image/jpeg", "image/png", "image/gif"}
  }

  /** Upper and lower case are not told apart. */
  lemma AllowedIgnoresCase(contentType: string)
    ensures IsAllowedFileType(contentType) <==> IsAllowedFileType(ToLower(contentType))
  {
    ToLowerIdempotent(contentType);
  }

  /** `filepath.Ext`: the suffix from the last dot of the final path element, or "". */
  function Ext(path: string): (e: string)
    ensures HasSuffix(path, e)
    ensures e == [] || (e[0] == '.' && '.' !in e[1..] && '/' !in e)
  {
    if path == [] then []
    else
      var c := path[|path| - 1];
      if c == '/' then []
      else if c == '.' then "."
      else
        var e := Ext(path[..|path| - 1]);
        if e == [] then [] else e + [c]
  }

  /** A name without a dot has no extension. */
  lemma {:induction false} ExtWithoutDot(path: string)
    requires '.' !in path
    ensures Ext(path) == []
  {
    if path != [] {
      ExtWithoutDot(path[..|path| - 1]);
    }
  }

  /** Appending an extension to a name makes it the name's extension. */
  lemma {:induction false} ExtOfAppended(p: string, e: string)
    requires e != [] && e[0] == '.' && '.' !in e[1..] && '/' !in e
    ensures Ext(p + e) == e
    decreases |e|
  {
    var s := p + e;
    if |e| > 1 {
      var init := e[..|e| - 1];
      assert init[1..] == e[1..|e| - 1];
      assert '.' !in init[1..];
      ExtOfAppended(p, init);
      assert s[..|s| - 1] == p + init;
      assert e == init + [e[|e| - 1]];
    } else {
      assert s[|s| - 1] == '.';
    }
  }

  /** A run of zeros reads as 0. */
  lemma {:induction false} ZerosValue(z: string)
    requires forall i :: 0 <= i < |z| ==> z[i] == '0'
    ensures AllDigits(z) && DigitsValue(z) == 0
  {
    if z != [] {
      ZerosValue(z[..|z| - 1]);
    }
  }

  /** Leading zeros do not change the value of a digit string. */
  lemma {:induction false} LeadingZerosValue(z: string, d: string)
    requires (forall i :: 0 <= i < |z| ==> z[i] == '0') && AllDigits(d)
    ensures AllDigits(z + d) && DigitsValue(z + d) == DigitsValue(d)
  {
    if d == [] {
      assert z + d == z;
      ZerosValue(z);
    } else {
      var s := z + d;
      assert s[..|s| - 1] == z + d[..|d| - 1];
      LeadingZerosValue(z, d[..|d| - 1]);
    }
  }

  /**
   * `n` in at least `width` digits: its decimal spelling, zero-padded on
   * the left to `width` when shorter, so it reads back as `n`.
   */
  function Pad(n: nat, width: nat): (s: string)
    ensures AllDigits(s) && DigitsValue(s) == n
    ensures |s| == if |NatToString(n)| >= width then |NatToString(n)| else width
    ensures s[|s| - |NatToString(n)|..] == NatToString(n)
    ensures forall i :: 0 <= i < |s| - |NatToString(n)| ==> s[i] == '0'
  {
    var d := NatToString(n);
    NatToStringValue(n);
    var z := seq(if |d| >= width then 0 else width - |d|, _ => '0');
    LeadingZerosValue(z, d);
    assert (z + d)[|z|..] == d;
    z + d
  }

  /** The layout "20060102-150405": date digits, a hyphen, time digits. */
  function Stamp(t: DateTime): string
  {
    Pad(t.year, 4) + Pad(t.month, 2) + Pad(t.day, 2) + "-" + Pad(t.hour, 2) + Pad(t.minute, 2) + Pad(t.second, 2)
  }

  /** The name a saved upload gets: `<uuid>-<stamp><ext>`. */
  function StoredName(id: string, t: DateTime, original: string): (name: string)
    ensures HasPrefix(name, id + "-") && HasSuffix(name, Ext(original))
    ensures |name| == |id| + 1 + |Stamp(t)| + |Ext(original)|
    ensures name[|id| + 1..|id| + 1 + |Stamp(t)|] == Stamp(t)
  {
    id + "-" + Stamp(t) + Ext(original)
  }

  /**
   * The stored name keeps the original extension, for any UUID spelling
   * without dots (a UUID is hexadecimal digits and hyphens).
   */
  lemma StoredNameKeepsExt(id: string, t: DateTime, original: string)
    requires '.' !in id
    ensures Ext(StoredName(id, t, original)) == Ext(original)
  {
    var e := Ext(original);
    var base := id + "-" + Stamp(t);
    assert StoredName(id, t, original) == base + e;
    if e == [] {
      assert '.' !in Stamp(t) by {
        assert forall i :: 0 <= i < |Stamp(t)| ==> Stamp(t)[i] == '-' || IsDigit(Stamp(t)[i]);
      }
      assert '.' !in base;
      assert base + e == base;
      ExtWithoutDot(base);
    } else {
      ExtOfAppended(base, e);
    }
  }

  /** A directory of uploads. */
  class Store {
    var uploadDir: string
    var files: map<string, Bytes>

    constructor (uploadDir: string)
      ensures this.uploadDir == uploadDir && files == map[]
    {
      this.uploadDir := uploadDir;
      files := map[];
    }

    /** The path a stored name is written to. */
    function PathOf(name: string): string
      reads this
    {
      uploadDir + "/" + name
    }

    /**
     * `SaveFile`: rejects a disallowed content type before touching the
     * directory, fails if the upload cannot be opened, and otherwise writes
     * the upload under its stored name and returns that bare name.
     */
    method SaveFile(file: FileHeader, id: string, now: DateTime) returns (r: Result<string>)
      modifies this
      ensures uploadDir == old(uploadDir)
      ensures !IsAllowedFileType(file.contentType) ==> r.Err? && files == old(files)
      ensures IsAllowedFileType(file.contentType) && file.content.None? ==> r.Err? && files == old(files)
      ensures IsAllowedFileType(file.contentType) && file.content.Some? ==>
        r == Ok(StoredName(id, now, file.filename))
        && files == old(files)[PathOf(r.value) := file.content.value]
    {
      if !IsAllowedFileType(file.contentType) {
        return Err("unsupported file type: " + file.contentType);
      }
      var name := id + "-" + Stamp(now) + Ext(file.filename);
      var path := uploadDir + "/" + name;
      if file.content.None? {
        return Err("failed to open uploaded file");
      }
      files := files[path := file.content.value];
      r := Ok(name);
    }
  }
}
