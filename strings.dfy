/** The few Python `str` operations the probe relies on, over `seq<char>`:
    `startswith`, `lstrip('/')`, `replace('.gpkg', '.json')` and `split(',')`. */
module Strings {

  /** `s.startswith(prefix)` */
  predicate StartsWith(s: string, prefix: string)
  {
    |prefix| <= |s| && s[..|prefix|] == prefix
  }

  /** A run of `n` slashes. */
  function Slashes(n: nat): (r: string)
    ensures |r| == n
  {
    if n == 0 then "" else "/" + Slashes(n - 1)
  }

  /** `s.lstrip('/')` */
  function LStripSlashes(s: string): string
    decreases |s|
  {
    if |s| > 0 && s[0] == '/' then LStripSlashes(s[1..]) else s
  }

  /** `lstrip('/')` removes exactly the leading run of slashes: what it drops is
      all slashes and what it keeps does not start with one. */
  lemma {:induction false} LStripSlashesShape(s: string)
    ensures |LStripSlashes(s)| <= |s|
    ensures s == Slashes(|s| - |LStripSlashes(s)|) + LStripSlashes(s)
    ensures LStripSlashes(s) == [] || LStripSlashes(s)[0] != '/'
    decreases |s|
  {
    if |s| > 0 && s[0] == '/' {
      var r := LStripSlashes(s[1..]);
      LStripSlashesShape(s[1..]);
      assert s == "/" + s[1..];
      assert Slashes(|s| - |r|) == "/" + Slashes(|s| - 1 - |r|);
    }
  }

  /** Any number of extra leading slashes is stripped away as well. */
  lemma {:induction false} LStripIgnoresSlashes(n: nat, s: string)
    ensures LStripSlashes(Slashes(n) + s) == LStripSlashes(s)
  {
    if n > 0 {
      var t := Slashes(n) + s;
      assert t[0] == '/';
      assert t[1..] == Slashes(n - 1) + s;
      assert LStripSlashes(t) == LStripSlashes(t[1..]);
      LStripIgnoresSlashes(n - 1, s);
    } else {
      assert Slashes(n) + s == s;
    }
  }

  // ---------------------------------------------------------------------------
  // url.replace('.gpkg', '.json')

  const GpkgExt := ".gpkg"
  const JsonExt := ".json"

  /** An occurrence of ".gpkg" starts at index `i` of `s`. */
  predicate GpkgAt(s: string, i: nat)
  {
    i + |GpkgExt| <= |s| && s[i..i + |GpkgExt|] == GpkgExt
  }

  predicate NoGpkg(s: string)
  {
    forall i: nat | i < |s| :: !GpkgAt(s, i)
  }

  /** Python's left-to-right, non-overlapping `s.replace(".gpkg", ".json")`. */
  function JsonSibling(s: string): (r: string)
    ensures |r| == |s|
    decreases |s|
  {
    if |s| < |GpkgExt| then s
    else if s[..|GpkgExt|] == GpkgExt then JsonExt + JsonSibling(s[|GpkgExt|..])
    else [s[0]] + JsonSibling(s[1..])
  }

  /** A string without ".gpkg" is its own sibling. */
  lemma {:induction false} JsonSiblingOfPlain(s: string)
    requires NoGpkg(s)
    ensures JsonSibling(s) == s
    decreases |s|
  {
    if |s| >= |GpkgExt| {
      assert !GpkgAt(s, 0);
      NoGpkgTail(s);
      JsonSiblingOfPlain(s[1..]);
      assert s == [s[0]] + s[1..];
    }
  }

  /** Dropping the first character keeps a string free of ".gpkg". */
  lemma NoGpkgTail(s: string)
    requires |s| > 0 && NoGpkg(s)
    ensures NoGpkg(s[1..])
  {
    forall i: nat | i < |s[1..]| ensures !GpkgAt(s[1..], i) {
      assert !GpkgAt(s, i + 1);
      if i + |GpkgExt| <= |s[1..]| {
        assert s[i + 1..i + 1 + |GpkgExt|] == s[1..][i..i + |GpkgExt|];
      }
    }
  }

  /** A non-empty prefix free of ".gpkg" keeps the appended ".gpkg" from
      starting the string. */
  lemma NoGpkgBefore(a: string, b: string)
    requires |a| > 0 && NoGpkg(a)
    ensures var s := a + GpkgExt + b; s[..|GpkgExt|] != GpkgExt
  {
    var s := a + GpkgExt + b;
    if |a| >= |GpkgExt| {
      assert a[0..|GpkgExt|] == s[..|GpkgExt|];
      assert !GpkgAt(a, 0);
    } else {
      // the '.' opening the appended ".gpkg" faces one of g, p, k
      assert s[..|GpkgExt|][|a|] == s[|a|] == '.';
      assert GpkgExt[|a|] != '.';
    }
  }

  /** The first ".gpkg" of `a + ".gpkg" + b` becomes ".json"; the rest of the
      string is rewritten the same way. */
  lemma {:induction false} JsonSiblingSwapsFirst(a: string, b: string)
    requires NoGpkg(a)
    ensures JsonSibling(a + GpkgExt + b) == a + JsonExt + JsonSibling(b)
    decreases |a|
  {
    var s := a + GpkgExt + b;
    if |a| == 0 {
      assert s[..|GpkgExt|] == GpkgExt;
      assert s[|GpkgExt|..] == b;
    } else {
      NoGpkgBefore(a, b);
      NoGpkgTail(a);
      JsonSiblingSwapsFirst(a[1..], b);
      assert s[1..] == a[1..] + GpkgExt + b;
      assert a == [a[0]] + a[1..];
    }
  }

  // ---------------------------------------------------------------------------
  // s.split(',')

  /** `s.split(',')`: the comma-separated fields of `s`, at least one. */
  function Fields(s: string): (r: seq<string>)
    ensures |r| >= 1
    decreases |s|
  {
    if |s| == 0 then [""]
    else if s[0] == ',' then [""] + Fields(s[1..])
    else
      var rest := Fields(s[1..]);
      [[s[0]] + rest[0]] + rest[1..]
  }

  /** A field without commas splits off as one field. */
  lemma {:induction false} FieldsOfJoin(a: string, b: string)
    requires ',' !in a
    ensures Fields(a + "," + b) == [a] + Fields(b)
    decreases |a|
  {
    var s := a + "," + b;
    if |a| == 0 {
      assert s[1..] == b;
    } else {
      assert s[0] == a[0];
      assert s[1..] == a[1..] + "," + b;
      FieldsOfJoin(a[1..], b);
      assert a == [a[0]] + a[1..];
    }
  }

  /** A string without commas is a single field. */
  lemma {:induction false} FieldsOfPlain(a: string)
    requires ',' !in a
    ensures Fields(a) == [a]
    decreases |a|
  {
    if |a| > 0 {
      assert a[0] in a;
      FieldsOfPlain(a[1..]);
      assert a == [a[0]] + a[1..];
    }
  }
}
