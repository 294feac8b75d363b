/**
 * File-name tests of app.py: allowed_file, and the extension test of
 * process_csv_file through os.path.splitext on POSIX paths.
 */
module Paths {
  import opened Text

  /** The index of the last c in s, -1 if there is none (str.rfind). */
  function LastIndex(s: string, c: char): (r: int)
    ensures -1 <= r < |s|
    ensures r >= 0 ==> s[r] == c
    ensures forall k :: r < k < |s| ==> s[k] != c
    decreases |s|
  {
    if s == [] then -1
    else if s[|s| - 1] == c then |s| - 1
    else LastIndex(s[..|s| - 1], c)
  }

  /** Some character of s[a..b] is not a dot. */
  predicate NonDotBetween(s: string, a: int, b: int)
    requires 0 <= a <= b <= |s|
  {
    exists k :: a <= k < b && s[k] != '.'
  }

  /**
   * os.path.splitext(p)[1]: from the last dot of the last path component,
   * when some non-dot character of that component precedes it; else "".
   */
  function Ext(p: string): string {
    var sep := LastIndex(p, '/');
    var dot := LastIndex(p, '.');
    if dot > sep && NonDotBetween(p, sep + 1, dot) then p[dot..] else ""
  }

  /** An extension is "" or a suffix of the path that starts with its only dot and holds no separator. */
  lemma ExtMeaning(p: string)
    ensures var e := Ext(p);
      && |e| <= |p| && e == p[|p| - |e|..]
      && (e != "" ==> e[0] == '.' && forall k :: 0 < k < |e| ==> e[k] != '.' && e[k] != '/')
  {
    var e := Ext(p);
    if e != "" {
      var dot := LastIndex(p, '.');
      var sep := LastIndex(p, '/');
      forall k | 0 < k < |e| ensures e[k] != '.' && e[k] != '/' {
        assert e[k] == p[dot + k];
      }
    }
  }

  /** A named file keeps its extension; a hidden file without a second dot has none. */
  lemma ExtExamples()
    ensures Ext("uploads/orders.CSV") == ".CSV"
    ensures Ext(".csv") == ""
    ensures Ext("a.tar.gz") == ".gz"
  {
    var p := "uploads/orders.CSV";
    assert p[7] == '/' && p[14] == '.';
    assert LastIndex(p, '/') == 7;
    assert LastIndex(p, '.') == 14;
    assert p[8] != '.';
    var h := ".csv";
    assert h[0] == '.';
    assert LastIndex(h, '/') == -1 && LastIndex(h, '.') == 0;
    var g := "a.tar.gz";
    assert g[5] == '.';
    assert LastIndex(g, '/') == -1;
    assert LastIndex(g, '.') == 5;
    assert g[0] != '.';
  }

  /** allowed_file: the name has a dot and the text after its last dot, lower-cased, is allowed. */
  predicate AllowedFile(name: string, allowed: set<string>) {
    var dot := LastIndex(name, '.');
    dot >= 0 && Lower(name[dot + 1..]) in allowed
  }

  /** A base name, a dot and a dot-free extension are allowed exactly when the lower-cased extension is. */
  lemma AllowedFileMeaning(base: string, ext: string, allowed: set<string>)
    requires forall k :: 0 <= k < |ext| ==> ext[k] != '.'
    ensures AllowedFile(base + "." + ext, allowed) <==> Lower(ext) in allowed
  {
    var name := base + "." + ext;
    assert name[|base|] == '.';
    forall k | |base| < k < |name| ensures name[k] != '.' {
      assert name[k] == ext[k - |base| - 1];
    }
    assert LastIndex(name, '.') == |base|;
    assert name[|base| + 1..] == ext;
  }

  /** A name without a dot is never allowed. */
  lemma AllowedFileNoDot(name: string, allowed: set<string>)
    requires forall k :: 0 <= k < |name| ==> name[k] != '.'
    ensures !AllowedFile(name, allowed)
  {
  }
}
