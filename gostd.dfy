/**
 * The few Go standard-library string operations the updater's pure helpers
 * rely on: strings.Split with a one-character separator, strings.TrimSuffix,
 * filepath.Base and filepath.Ext with the slash separator (Linux and macOS
 * builds), and the "%d" rendering of a non-negative integer.
 */
module GoStd {

  /** Number of occurrences of c in s. */
  function Occurrences(s: string, c: char): nat
  {
    if s == [] then 0 else Occurrences(s[..|s| - 1], c) + (if s[|s| - 1] == c then 1 else 0)
  }

  /** strings.Split(s, string(c)): the pieces between the separators, at least one. */
  function Split(s: string, c: char): (r: seq<string>)
    ensures |r| >= 1
    ensures forall i :: 0 <= i < |r| ==> c !in r[i]
  {
    if s == [] then [""]
    else
      var front := Split(s[..|s| - 1], c);
      if s[|s| - 1] == c then front + [""]
      else front[..|front| - 1] + [front[|front| - 1] + [s[|s| - 1]]]
  }

  /** strings.Join(parts, string(c)). */
  function Join(parts: seq<string>, c: char): string
    requires |parts| >= 1
  {
    if |parts| == 1 then parts[0] else Join(parts[..|parts| - 1], c) + [c] + parts[|parts| - 1]
  }

  /** Splitting yields one piece more than there are separators. */
  lemma {:induction false} SplitCount(s: string, c: char)
    ensures |Split(s, c)| == Occurrences(s, c) + 1
    decreases |s|
  {
    if s != [] {
      SplitCount(s[..|s| - 1], c);
    }
  }

  /** There are no separators exactly when c does not occur. */
  lemma {:induction false} OccurrencesAbsent(s: string, c: char)
    ensures Occurrences(s, c) == 0 <==> c !in s
    decreases |s|
  {
    if s != [] {
      OccurrencesAbsent(s[..|s| - 1], c);
      assert s == s[..|s| - 1] + [s[|s| - 1]];
    }
  }

  lemma {:induction false} JoinLast(parts: seq<string>, c: char, x: string)
    requires |parts| >= 1
    ensures Join(parts[..|parts| - 1] + [parts[|parts| - 1] + x], c) == Join(parts, c) + x
  {
    var p' := parts[..|parts| - 1] + [parts[|parts| - 1] + x];
    assert p'[..|p'| - 1] == parts[..|parts| - 1];
  }

  /** Joining the pieces back with the separator gives the original string. */
  lemma {:induction false} JoinSplit(s: string, c: char)
    ensures Join(Split(s, c), c) == s
    decreases |s|
  {
    if s != [] {
      var init := s[..|s| - 1];
      var front := Split(init, c);
      JoinSplit(init, c);
      assert s == init + [s[|s| - 1]];
      if s[|s| - 1] == c {
        var r := front + [""];
        assert r[..|r| - 1] == front;
      } else {
        JoinLast(front, c, [s[|s| - 1]]);
      }
    }
  }

  /** strings.HasSuffix. */
  predicate HasSuffix(s: string, suffix: string)
  {
    |suffix| <= |s| && s[|s| - |suffix|..] == suffix
  }

  /** strings.TrimSuffix. */
  function TrimSuffix(s: string, suffix: string): (r: string)
    ensures HasSuffix(s, suffix) ==> r + suffix == s
    ensures !HasSuffix(s, suffix) ==> r == s
  {
    if HasSuffix(s, suffix) then s[..|s| - |suffix|] else s
  }

  /** The path without its trailing slashes. */
  function TrimTrailingSlashes(p: string): (r: string)
    ensures |r| <= |p| && r == p[..|r|]
    ensures r == [] || r[|r| - 1] != '/'
  {
    if p != [] && p[|p| - 1] == '/' then TrimTrailingSlashes(p[..|p| - 1]) else p
  }

  /** The characters after the last slash. */
  function LastElement(p: string): (r: string)
    ensures '/' !in r
    ensures |r| <= |p| && r == p[|p| - |r|..]
  {
    if p == [] || p[|p| - 1] == '/' then [] else LastElement(p[..|p| - 1]) + [p[|p| - 1]]
  }

  /** filepath.Base with the slash separator. */
  function Base(p: string): (r: string)
    ensures r != []
    ensures p == [] ==> r == "."
  {
    if p == [] then "."
    else
      var last := LastElement(TrimTrailingSlashes(p));
      if last == [] then "/" else last
  }

  /** filepath.Ext: the suffix from the final dot of the last element, or "". */
  function Ext(p: string): string
  {
    if p == [] || p[|p| - 1] == '/' then []
    else if p[|p| - 1] == '.' then "."
    else
      var e := Ext(p[..|p| - 1]);
      if e == [] then [] else e + [p[|p| - 1]]
  }

  /** The last element of dir + "/" + name is name itself, for a name without slashes. */
  lemma {:induction false} LastElementOfName(dir: string, name: string)
    requires '/' !in name
    ensures LastElement(dir + "/" + name) == name
    ensures '/' !in dir ==> LastElement(dir + name) == dir + name
    decreases |name|
  {
    if name == [] {
      assert dir + "/" + name == dir + "/";
      if '/' !in dir {
        LastElementNoSlash(dir);
        assert dir + name == dir;
      }
    } else {
      var init := name[..|name| - 1];
      LastElementOfName(dir, init);
      assert (dir + "/" + name)[..|dir + "/" + name| - 1] == dir + "/" + init;
      assert (dir + name)[..|dir + name| - 1] == dir + init;
    }
  }

  lemma {:induction false} LastElementNoSlash(p: string)
    requires '/' !in p
    ensures LastElement(p) == p
    decreases |p|
  {
    if p != [] {
      LastElementNoSlash(p[..|p| - 1]);
      assert p == p[..|p| - 1] + [p[|p| - 1]];
    }
  }

  /** The base name of a slash-free name, alone or under a directory, is the name. */
  lemma BaseOfName(dir: string, name: string)
    requires name != [] && '/' !in name
    ensures Base(name) == name
    ensures Base(dir + "/" + name) == name
  {
    var p := dir + "/" + name;
    assert p[|p| - 1] == name[|name| - 1];
    assert name[|name| - 1] in name;
    assert TrimTrailingSlashes(p) == p;
    assert TrimTrailingSlashes(name) == name;
    LastElementOfName(dir, name);
    LastElementNoSlash(name);
  }

  /** The extension of stem + "." + ext is "." + ext when ext has no dot and no slash. */
  lemma {:induction false} ExtOfName(stem: string, ext: string)
    requires '.' !in ext && '/' !in ext
    ensures Ext(stem + "." + ext) == "." + ext
    decreases |ext|
  {
    var p := stem + "." + ext;
    if ext == [] {
      assert p[|p| - 1] == '.';
    } else {
      var init := ext[..|ext| - 1];
      var last := ext[|ext| - 1];
      assert last in ext;
      ExtOfName(stem, init);
      assert p[..|p| - 1] == stem + "." + init;
      assert p[|p| - 1] == last;
      assert Ext(p) == Ext(p[..|p| - 1]) + [last];
      assert ("." + init) + [last] == "." + ext;
    }
  }

  /** A name without any dot has no extension. */
  lemma {:induction false} ExtWithoutDot(p: string)
    requires '.' !in p
    ensures Ext(p) == ""
    decreases |p|
  {
    if p != [] {
      ExtWithoutDot(p[..|p| - 1]);
    }
  }

  // ---------------------------------------------------------------------------
  // Decimal rendering

  function DigitChar(d: nat): char
    requires d < 10
  {
    "0123456789"[d]
  }

  /** strconv / fmt "%d" of a non-negative integer: no leading zeros, "0" for zero. */
  function Decimal(n: nat): (r: string)
    ensures r != []
    ensures forall i :: 0 <= i < |r| ==> '0' <= r[i] <= '9'
    decreases n
  {
    if n < 10 then [DigitChar(n)] else Decimal(n / 10) + [DigitChar(n % 10)]
  }

  /** The value of a string of decimal digits. */
  function DecimalValue(s: string): nat
    requires forall i :: 0 <= i < |s| ==> '0' <= s[i] <= '9'
  {
    if s == [] then 0 else 10 * DecimalValue(s[..|s| - 1]) + (s[|s| - 1] - '0') as nat
  }

  /** Reading the rendering back gives the number: distinct numbers render distinctly. */
  lemma {:induction false} DecimalRoundTrip(n: nat)
    ensures DecimalValue(Decimal(n)) == n
    decreases n
  {
    if n >= 10 {
      DecimalRoundTrip(n / 10);
      var r := Decimal(n);
      assert r[..|r| - 1] == Decimal(n / 10);
    }
  }

  lemma DecimalInjective(a: nat, b: nat)
    ensures Decimal(a) == Decimal(b) ==> a == b
  {
    DecimalRoundTrip(a);
    DecimalRoundTrip(b);
  }
}
