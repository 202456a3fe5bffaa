/**
 * The handlers' small utilities: membership in a string slice, typed reads
 * from a dynamic result map, and the upload name/size check.
 */
module HandlerUtils {
  import opened Common
  import opened GoValues

  // ---------------------------------------------------------------------
  // Slice membership
  // ---------------------------------------------------------------------

  /** Linear scan that stops at the first equal element. */
  method Contains(slice: seq<string>, item: string) returns (found: bool)
    ensures found <==> item in slice
  {
    var i := 0;
    while i < |slice|
      invariant 0 <= i <= |slice|
      invariant item !in slice[..i]
    {
      if slice[i] == item {
        return true;
      }
      i := i + 1;
    }
    assert slice[..i] == slice;
    return false;
  }

  // ---------------------------------------------------------------------
  // Typed accessors on map[string]interface{}
  // ---------------------------------------------------------------------

  /** Reads a number: float64 as is, int converted, a string parsed as a
      float; every other type (bool and int64 included) is a miss. */
  function GetFloatValue(data: Object, key: string): (r: (real, bool))
    ensures r.1 ==> key in data
    ensures !r.1 ==> r.0 == 0.0
    ensures key in data && data[key].JFloat? ==> r == (data[key].f, true)
    ensures key in data && data[key].JInt? ==> r == (data[key].i as real, true)
    ensures key in data && data[key].JStr? ==>
      r.1 == ParseFloat(data[key].s).Some? && (r.1 ==> r.0 == ParseFloat(data[key].s).value)
    ensures key in data && !(data[key].JFloat? || data[key].JInt? || data[key].JStr?) ==> !r.1
  {
    if key !in data then (0.0, false)
    else match data[key]
      case JFloat(f) => (f, true)
      case JInt(i) => (i as real, true)
      case JStr(s) =>
        (match ParseFloat(s)
         case Some(v) => (v, true)
         case None => (0.0, false))
      case _ => (0.0, false)
  }

  /** A numeric string is parsed: the decimal text of n reads back as n. */
  lemma GetFloatValueOfNumeral(data: Object, key: string, n: nat)
    requires key in data && data[key] == JStr(NatToString(n))
    ensures GetFloatValue(data, key) == (n as real, true)
  {
    ParseFloatOfNat(n);
  }

  /** Go's float64-to-int64 conversion: truncation toward zero. */
  function TruncateTowardZero(f: real): (n: int)
    ensures 0.0 <= f ==> 0 <= n && n as real <= f < n as real + 1.0
    ensures f < 0.0 ==> n <= 0 && n as real - 1.0 < f <= n as real
  {
    if f >= 0.0 then f.Floor else -((-f).Floor)
  }

  /** Reads an integer: int64 and int as is, float64 truncated, a string
      parsed as a base-10 64-bit integer; anything else is a miss. */
  function GetInt64Value(data: Object, key: string): (r: (int, bool))
    ensures r.1 ==> key in data
    ensures !r.1 ==> r.0 == 0
    ensures key in data && data[key].JInt64? ==> r == (data[key].i64, true)
    ensures key in data && data[key].JInt? ==> r == (data[key].i, true)
    ensures key in data && data[key].JFloat? ==> r == (TruncateTowardZero(data[key].f), true)
    ensures key in data && data[key].JStr? ==>
      r == (if ParseInt64(data[key].s).Some? then (ParseInt64(data[key].s).value, true) else (0, false))
    ensures key in data && !(data[key].JInt64? || data[key].JInt? || data[key].JFloat? || data[key].JStr?) ==> !r.1
  {
    if key !in data then (0, false)
    else match data[key]
      case JInt64(i) => (i, true)
      case JInt(i) => (i, true)
      case JFloat(f) => (TruncateTowardZero(f), true)
      case JStr(s) =>
        (match ParseInt64(s)
         case Some(v) => (v, true)
         case None => (0, false))
      case _ => (0, false)
  }

  /** Reads a string; any other type is a miss. */
  function GetStringValue(data: Object, key: string): (r: (string, bool))
    ensures r.1 <==> key in data && data[key].JStr?
    ensures r.1 ==> r.0 == data[key].s
    ensures !r.1 ==> r.0 == ""
  {
    if key in data && data[key].JStr? then (data[key].s, true) else ("", false)
  }

  // ---------------------------------------------------------------------
  // Upload validation
  // ---------------------------------------------------------------------

  const MaxFileSize: int := 50 * 1024 * 1024
  const MaxFilenameLength: int := 255
  const AllowedExtensions: seq<string> := [".jpg", ".jpeg", ".png", ".gif", ".bmp", ".tiff", ".webp"]

  /** The part of a slash-separated path after its last separator. */
  function FinalElement(path: string): (e: string)
    ensures HasSuffix(path, e) && '/' !in e
    ensures |e| < |path| ==> path[|path| - |e| - 1] == '/'
  {
    if path == [] || path[|path| - 1] == '/' then []
    else FinalElement(path[..|path| - 1]) + [path[|path| - 1]]
  }

  /** Go's `filepath.Ext`: the suffix of the final element that starts at
      its last dot, or "" when that element has no dot. */
  function Ext(path: string): (e: string)
    ensures e != [] ==> e[0] == '.' && HasSuffix(FinalElement(path), e) && '.' !in e[1..]
  {
    if path == [] || path[|path| - 1] == '/' then []
    else if path[|path| - 1] == '.' then "."
    else
      var e := Ext(path[..|path| - 1]);
      assert FinalElement(path) == FinalElement(path[..|path| - 1]) + [path[|path| - 1]];
      if e == [] then [] else e + [path[|path| - 1]]
  }

  /** The extension is empty exactly when the final element has no dot. */
  lemma {:induction false} ExtEmptyIffNoDot(path: string)
    ensures Ext(path) == [] <==> '.' !in FinalElement(path)
  {
    if path != [] && path[|path| - 1] != '/' && path[|path| - 1] != '.' {
      var prefix := path[..|path| - 1];
      ExtEmptyIffNoDot(prefix);
      assert FinalElement(path) == FinalElement(prefix) + [path[|path| - 1]];
    }
  }

  /** The number of bytes UTF-8 uses for one code point. */
  function Utf8Width(c: char): (w: nat)
    ensures 1 <= w <= 4
    ensures w == 1 <==> (c as int) < 0x80
  {
    if (c as int) < 0x80 then 1
    else if (c as int) < 0x800 then 2
    else if (c as int) < 0x1_0000 then 3
    else 4
  }

  /** Go's `len` of a string: its length in UTF-8 bytes, not in characters. */
  function Utf8Length(s: string): (n: nat)
    ensures |s| <= n <= 4 * |s|
    ensures (forall c :: c in s ==> (c as int) < 0x80) ==> n == |s|
  {
    if s == [] then 0
    else
      assert s[0] in s && forall c :: c in s[1..] ==> c in s;
      Utf8Width(s[0]) + Utf8Length(s[1..])
  }

  /** The byte length of a concatenation is the sum of the byte lengths. */
  lemma {:induction false} Utf8LengthAppend(a: string, b: string)
    ensures Utf8Length(a + b) == Utf8Length(a) + Utf8Length(b)
  {
    if a != [] {
      assert (a + b)[0] == a[0] && (a + b)[1..] == a[1..] + b;
      Utf8LengthAppend(a[1..], b);
    } else {
      assert a + b == b;
    }
  }

  /** n copies of one code point take n times its width. */
  lemma {:induction false} Utf8LengthRepeat(c: char, n: nat)
    ensures Utf8Length(seq(n, _ => c)) == n * Utf8Width(c)
  {
    if n > 0 {
      assert seq(n, _ => c)[1..] == seq(n - 1, _ => c);
      Utf8LengthRepeat(c, n - 1);
    }
  }

  /** 200 copies of U+00E9 followed by ".png" are 204 characters but 404
      bytes, so the name is over the limit although its character count
      is not. */
  lemma AccentedNameIsTooLong()
    ensures var name := seq(200, _ => '\U{00E9}') + ".png";
      |name| <= MaxFilenameLength < Utf8Length(name) == 404
  {
    var accents := seq(200, _ => '\U{00E9}');
    Utf8LengthRepeat('\U{00E9}', 200);
    Utf8LengthAppend(accents, ".png");
  }

  datatype ValidationError =
    | FileTooLarge(size: int)
    | FilenameTooLong(length: nat)
    | UnsupportedFileType(ext: string)

  /** Size first, then name length in bytes, then the lower-cased extension against
      the allow-list (scanned until the first match). */
  method ValidateFile(size: int, filename: string) returns (err: Option<ValidationError>)
    ensures size > MaxFileSize ==> err == Some(FileTooLarge(size))
    ensures size <= MaxFileSize && Utf8Length(filename) > MaxFilenameLength ==>
      err == Some(FilenameTooLong(Utf8Length(filename)))
    ensures size <= MaxFileSize && Utf8Length(filename) <= MaxFilenameLength ==>
      (err == None <==> ToLower(Ext(filename)) in AllowedExtensions)
    ensures err.Some? && err.value.UnsupportedFileType? ==>
      err.value.ext == ToLower(Ext(filename)) && err.value.ext !in AllowedExtensions
  {
    if size > MaxFileSize {
      return Some(FileTooLarge(size));
    }
    if Utf8Length(filename) > MaxFilenameLength {
      return Some(FilenameTooLong(Utf8Length(filename)));
    }
    var ext := ToLower(Ext(filename));
    var validExt := IsAllowedExtension(ext);
    if !validExt {
      return Some(UnsupportedFileType(ext));
    }
    return None;
  }

  /** The scan of the allow-list, stopping at the first match. */
  method IsAllowedExtension(ext: string) returns (validExt: bool)
    ensures validExt <==> ext in AllowedExtensions
  {
    validExt := false;
    var i := 0;
    while i < |AllowedExtensions|
      invariant 0 <= i <= |AllowedExtensions|
      invariant validExt <==> ext in AllowedExtensions[..i]
    {
      if ext == AllowedExtensions[i] {
        validExt := true;
        break;
      }
      i := i + 1;
    }
    assert validExt ==> ext in AllowedExtensions;
  }

  /** A name without an extension is never accepted. */
  lemma NoExtensionRejected(filename: string)
    requires '.' !in FinalElement(filename)
    ensures ToLower(Ext(filename)) !in AllowedExtensions
  {
    ExtEmptyIffNoDot(filename);
  }

  lemma {:induction false} ToLowerSuffix(s: string, p: string)
    requires HasSuffix(s, p)
    ensures HasSuffix(ToLower(s), ToLower(p))
  {
    var ls, lp := ToLower(s), ToLower(p);
    forall i | 0 <= i < |p| ensures ls[|s| - |p|..][i] == lp[i] {
      assert s[|s| - |p|..][i] == p[i];
    }
  }

  /** A suffix of a suffix is a suffix. */
  lemma SuffixTransitive(s: string, m: string, p: string)
    requires HasSuffix(s, m) && HasSuffix(m, p)
    ensures HasSuffix(s, p)
  {
    assert s[|s| - |p|..] == s[|s| - |m|..][|m| - |p|..];
  }

  /** An accepted name ends, case-insensitively, in one of the allowed extensions. */
  lemma AcceptedNameHasAllowedSuffix(filename: string)
    requires ToLower(Ext(filename)) in AllowedExtensions
    ensures exists a :: a in AllowedExtensions && HasSuffix(ToLower(filename), a)
  {
    var e := Ext(filename);
    SuffixTransitive(filename, FinalElement(filename), e);
    ToLowerSuffix(filename, e);
    var a := ToLower(e);
    assert a in AllowedExtensions && HasSuffix(ToLower(filename), a);
  }
}
