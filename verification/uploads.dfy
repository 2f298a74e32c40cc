/** What the upload widgets know of a chosen file, and the checks they share:
    the extension taken from the name, and the 2 MiB size limit. */
module Uploads {
  import opened Text

  /** The outcome of the at-least-800x600 check: it passes, it fails, or it throws. */
  datatype DimensionCheck = Fits | TooSmall | CheckThrows

  /** A chosen file: its name, its size in bytes, and what the dimension check would say. */
  datatype UploadFile = UploadFile(name: string, size: nat, dimensions: DimensionCheck)

  /** 2 MiB. */
  const MaxSize: nat := 2 * 1024 * 1024

  /** `name.split('.').pop().toLowerCase()`: the text after the last dot, lower-cased;
      the whole name when it has no dot. */
  function Extension(name: string): (r: string)
    ensures '.' !in name ==> r == ToLower(name)
    ensures '.' !in r
  {
    var pieces := Split(name, '.');
    var last := pieces[|pieces| - 1];
    LowerKeepsDot(last);
    ToLower(last)
  }

  /** Lower-casing neither adds nor removes dots. */
  lemma LowerKeepsDot(s: string)
    ensures '.' in ToLower(s) <==> '.' in s
  {
    var t := ToLower(s);
    if '.' in t {
      var i :| 0 <= i < |t| && t[i] == '.';
      assert s[i] == '.';
    }
    if '.' in s {
      var i :| 0 <= i < |s| && s[i] == '.';
      assert t[i] == '.';
    }
  }

  /** The extension of `base + "." + ext` is the lower-cased `ext`. */
  lemma ExtensionOfDotted(base: string, ext: string)
    requires '.' !in ext
    ensures Extension(base + "." + ext) == ToLower(ext)
  {
    SuffixAfterLastDot(base, ext);
  }

  /** Splitting `base + "." + ext` on dots ends with the piece `ext`. */
  lemma {:induction false} SuffixAfterLastDot(base: string, ext: string)
    requires '.' !in ext
    ensures var p := Split(base + "." + ext, '.'); p[|p| - 1] == ext
    decreases |base|
  {
    if base == [] {
      assert "" + "." + ext == [] + ['.'] + ext;
      SplitAfterPiece([], '.', ext);
      SplitWithoutSeparator(ext, '.');
    } else {
      var n := base + "." + ext;
      assert n[1..] == base[1..] + "." + ext;
      SuffixAfterLastDot(base[1..], ext);
      assert n[1..][|base| - 1] == '.';
      SplitKeepsLast(n, '.');
    }
  }

  /** Splitting a string whose tail holds the separator ends with the same piece as splitting its tail. */
  lemma SplitKeepsLast(s: string, sep: char)
    requires s != [] && sep in s[1..]
    ensures var p := Split(s, sep); var q := Split(s[1..], sep); p[|p| - 1] == q[|q| - 1]
  {
    CountPositive(s[1..], sep);
  }

  /** The files that pass `ok`, in order. */
  function Keep(files: seq<UploadFile>, ok: UploadFile -> bool): (r: seq<UploadFile>)
    ensures |r| <= |files|
    ensures forall i :: 0 <= i < |r| ==> ok(r[i]) && r[i] in files
  {
    if files == [] then []
    else (if ok(files[0]) then [files[0]] else []) + Keep(files[1..], ok)
  }

  /** A file is kept exactly when it was chosen and passes. */
  lemma {:induction false} KeepMembership(files: seq<UploadFile>, ok: UploadFile -> bool, f: UploadFile)
    ensures f in Keep(files, ok) <==> f in files && ok(f)
  {
    if files != [] {
      KeepMembership(files[1..], ok, f);
      assert files == [files[0]] + files[1..];
    }
  }

  /** Keeping files preserves order and duplicates: the kept files of two joined
      lists are those of the first followed by those of the second. */
  lemma {:induction false} KeepAppend(a: seq<UploadFile>, b: seq<UploadFile>, ok: UploadFile -> bool)
    ensures Keep(a + b, ok) == Keep(a, ok) + Keep(b, ok)
  {
    if a == [] {
      assert a + b == b;
    } else {
      var x, rest := a[0], a[1..];
      var head := if ok(x) then [x] else [];
      assert a == [x] + rest;
      AppendAssoc([x], rest, b);
      assert ([x] + (rest + b))[0] == x && ([x] + (rest + b))[1..] == rest + b;
      assert Keep(a + b, ok) == head + Keep(rest + b, ok);
      KeepAppend(rest, b, ok);
      assert Keep(a, ok) == head + Keep(rest, ok);
      AppendAssoc(head, Keep(rest, ok), Keep(b, ok));
    }
  }

  /** Keeping everything keeps the list as it is. */
  lemma {:induction false} KeepAll(files: seq<UploadFile>, ok: UploadFile -> bool)
    requires forall i :: 0 <= i < |files| ==> ok(files[i])
    ensures Keep(files, ok) == files
  {
    if files != [] {
      KeepAll(files[1..], ok);
    }
  }
}
