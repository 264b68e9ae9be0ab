/**
  The handful of Go standard-library functions that the self-compile core
  calls, stated on `seq<char>`: `strings.Join`, `strings.SplitN(s, sep, 2)`
  for a one-character separator, `strings.Trim` with a one-character cutset,
  the `%d` rendering of a count, and the Unix forms of `filepath.Join` and
  `filepath.Base`.
 */
module GoLib {

  // ---------------------------------------------------------------------
  // strings.Join

  /** `strings.Join(parts, sep)`: the parts in order with `sep` between neighbours. */
  function Join(parts: seq<string>, sep: string): string
  {
    if |parts| == 0 then ""
    else if |parts| == 1 then parts[0]
    else Join(parts[..|parts| - 1], sep) + sep + parts[|parts| - 1]
  }

  /** Joining from the front gives the same string as joining from the back. */
  lemma {:induction false} JoinCons(x: string, rest: seq<string>, sep: string)
    requires |rest| > 0
    ensures Join([x] + rest, sep) == x + sep + Join(rest, sep)
  {
    var all := [x] + rest;
    assert all[..|all| - 1] == [x] + rest[..|rest| - 1];
    if |rest| > 1 {
      JoinCons(x, rest[..|rest| - 1], sep);
    } else {
      assert all[..|all| - 1] == [x];
    }
  }

  /** Two parts are joined with one separator between them. */
  lemma JoinPair(x: string, y: string, sep: string)
    ensures Join([x, y], sep) == x + sep + y
  {
    assert [x, y][..1] == [x];
  }

  /** The sum of the parts' lengths. */
  function TotalLength(parts: seq<string>): nat
  {
    if |parts| == 0 then 0 else TotalLength(parts[..|parts| - 1]) + |parts[|parts| - 1]|
  }

  /** The joined length is the parts' total length plus one separator per gap. */
  lemma {:induction false} JoinLength(parts: seq<string>, sep: string)
    requires |parts| > 0
    ensures |Join(parts, sep)| == TotalLength(parts) + (|parts| - 1) * |sep|
  {
    if |parts| > 1 {
      var init, last := parts[..|parts| - 1], parts[|parts| - 1];
      JoinLength(init, sep);
      assert |Join(parts, sep)| == |Join(init, sep)| + |sep| + |last|;
      assert TotalLength(parts) == TotalLength(init) + |last|;
      assert (|parts| - 1) * |sep| == (|init| - 1) * |sep| + |sep|;
    }
  }

  // ---------------------------------------------------------------------
  // fmt.Sprintf("%d", n) for a non-negative count

  /** The ASCII digit for `d`. */
  function DigitChar(d: nat): (c: char)
    requires d < 10
    ensures '0' <= c <= '9'
  {
    (48 + d) as char
  }

  /** Every character is a decimal digit. */
  ghost predicate IsDecimal(s: string)
  {
    forall i :: 0 <= i < |s| ==> '0' <= s[i] <= '9'
  }

  /** The decimal rendering of `n`: at least one digit and no leading zero. */
  function Itoa(n: nat): (r: string)
    ensures |r| >= 1 && IsDecimal(r)
    ensures |r| > 1 ==> r[0] != '0'
  {
    if n < 10 then [DigitChar(n)] else Itoa(n / 10) + [DigitChar(n % 10)]
  }

  /** The number a string of decimal digits denotes. */
  function DecimalValue(s: string): nat
    requires IsDecimal(s)
  {
    if |s| == 0 then 0
    else DecimalValue(s[..|s| - 1]) * 10 + (s[|s| - 1] as int - 48)
  }

  /** Rendering a count and reading it back gives the count. */
  lemma {:induction false} ItoaRoundTrip(n: nat)
    ensures DecimalValue(Itoa(n)) == n
  {
    if n >= 10 {
      ItoaRoundTrip(n / 10);
      var s := Itoa(n);
      assert s[..|s| - 1] == Itoa(n / 10);
    }
  }

  // ---------------------------------------------------------------------
  // strings.Index / strings.SplitN(s, string(sep), 2)

  /** Index of the first `c` in `s`, or -1. */
  function IndexOf(s: string, c: char): (r: int)
    ensures -1 <= r < |s|
    ensures r == -1 <==> c !in s
    ensures r >= 0 ==> s[r] == c && c !in s[..r]
  {
    if |s| == 0 then -1
    else if s[0] == c then 0
    else
      var k := IndexOf(s[1..], c);
      assert s[1..] + [] == s[1..];
      if k < 0 then -1
      else
        assert s[..k + 1] == [s[0]] + s[1..][..k];
        k + 1
  }

  /**
    `strings.SplitN(s, sep, 2)`: one part when `sep` does not occur,
    otherwise the text before the first `sep` and everything after it.
   */
  function SplitN2(s: string, sep: char): (parts: seq<string>)
    ensures |parts| == 1 || |parts| == 2
    ensures |parts| == 2 <==> sep in s
    ensures sep !in parts[0]
    ensures |parts| == 1 ==> parts[0] == s
    ensures |parts| == 2 ==> s == parts[0] + [sep] + parts[1]
  {
    var i := IndexOf(s, sep);
    if i < 0 then [s]
    else
      assert s == s[..i] + [sep] + s[i + 1..];
      [s[..i], s[i + 1..]]
  }

  /** The first `sep` after a key without one is at the key's length. */
  lemma {:induction false} IndexOfAfterKey(key: string, sep: char, rest: string)
    requires sep !in key
    ensures IndexOf(key + [sep] + rest, sep) == |key|
  {
    var s := key + [sep] + rest;
    if |key| > 0 {
      assert key[0] in key;
      assert s[1..] == key[1..] + [sep] + rest;
      assert sep !in key[1..] by {
        forall i | 0 <= i < |key[1..]| ensures key[1..][i] != sep {
          assert key[1..][i] == key[i + 1];
        }
      }
      IndexOfAfterKey(key[1..], sep, rest);
    }
  }

  /** A key without the separator splits off exactly at the separator that follows it. */
  lemma SplitN2Concat(key: string, sep: char, value: string)
    requires sep !in key
    ensures SplitN2(key + [sep] + value, sep) == [key, value]
  {
    var s := key + [sep] + value;
    IndexOfAfterKey(key, sep, value);
    assert s[..|key|] == key;
    assert s[|key| + 1..] == value;
  }

  // ---------------------------------------------------------------------
  // strings.Trim(s, string(c)), whose second argument is a cutset

  /** Every character of `s` is `c`. */
  ghost predicate AllChar(s: string, c: char)
  {
    forall i :: 0 <= i < |s| ==> s[i] == c
  }

  /** Drops every trailing `c`. */
  function TrimRight(s: string, c: char): (r: string)
    ensures |r| <= |s| && r == s[..|r|]
    ensures AllChar(s[|r|..], c)
    ensures r == [] || r[|r| - 1] != c
  {
    if |s| > 0 && s[|s| - 1] == c then
      var r := TrimRight(s[..|s| - 1], c);
      assert s[..|s| - 1][..|r|] == s[..|r|];
      assert s[|r|..] == s[..|s| - 1][|r|..] + [c];
      r
    else s
  }

  /**
    `strings.Trim(s, string(c))`: drops every leading `c`, then every
    trailing `c`.
   */
  function Trim(s: string, c: char): string
    decreases |s|
  {
    if |s| > 0 && s[0] == c then Trim(s[1..], c)
    else if |s| > 0 && s[|s| - 1] == c then Trim(s[..|s| - 1], c)
    else s
  }

  /** The result neither starts nor ends with `c`. */
  lemma {:induction false} TrimEnds(s: string, c: char)
    ensures var r := Trim(s, c); r == [] || (r[0] != c && r[|r| - 1] != c)
    decreases |s|
  {
    if |s| > 0 && s[0] == c {
      TrimEnds(s[1..], c);
    } else if |s| > 0 && s[|s| - 1] == c {
      TrimEnds(s[..|s| - 1], c);
    }
  }

  /** A leading run of `c` makes no difference. */
  lemma {:induction false} TrimDropsPrefix(p: string, rest: string, c: char)
    requires AllChar(p, c)
    ensures Trim(p + rest, c) == Trim(rest, c)
  {
    if p != [] {
      assert (p + rest)[0] == p[0] == c;
      assert (p + rest)[1..] == p[1..] + rest;
      assert AllChar(p[1..], c) by {
        forall i | 0 <= i < |p[1..]| ensures p[1..][i] == c {
          assert p[1..][i] == p[i + 1];
        }
      }
      TrimDropsPrefix(p[1..], rest, c);
    } else {
      assert p + rest == rest;
    }
  }

  /** After a first character other than `c`, a trailing run of `c` makes no difference. */
  lemma {:induction false} TrimDropsSuffix(v: string, q: string, c: char)
    requires v != [] && v[0] != c && AllChar(q, c)
    ensures Trim(v + q, c) == Trim(v, c)
  {
    if q != [] {
      var init := q[..|q| - 1];
      assert (v + q)[0] == v[0];
      assert (v + q)[|v + q| - 1] == q[|q| - 1] == c;
      assert (v + q)[..|v + q| - 1] == v + init;
      assert AllChar(init, c) by {
        forall i | 0 <= i < |init| ensures init[i] == c {
          assert init[i] == q[i];
        }
      }
      TrimDropsSuffix(v, init, c);
    } else {
      assert v + q == v;
    }
  }

  /**
    `Trim` takes a cutset: any run of `c` on either side goes, whatever
    its length, and a value that neither starts nor ends with `c` is kept
    as it is, copies of `c` inside it included.
   */
  lemma TrimWrapped(p: string, v: string, q: string, c: char)
    requires AllChar(p, c) && AllChar(q, c)
    requires v != [] && v[0] != c && v[|v| - 1] != c
    ensures Trim(p + v + q, c) == v
  {
    assert p + v + q == p + (v + q);
    TrimDropsPrefix(p, v + q, c);
    TrimDropsSuffix(v, q, c);
  }

  /** A string made of `c` alone trims to nothing. */
  lemma TrimAll(s: string, c: char)
    requires AllChar(s, c)
    ensures Trim(s, c) == []
  {
    assert s + [] == s;
    TrimDropsPrefix(s, [], c);
  }

  /** Trimming twice is trimming once. */
  lemma TrimIdempotent(s: string, c: char)
    ensures Trim(Trim(s, c), c) == Trim(s, c)
  {
    TrimEnds(s, c);
  }

  // ---------------------------------------------------------------------
  // filepath.Join and filepath.Base, Unix separator

  /** The non-empty elements, in order. */
  function NonEmpty(elems: seq<string>): (r: seq<string>)
    ensures forall i :: 0 <= i < |r| ==> r[i] != ""
  {
    if |elems| == 0 then []
    else NonEmpty(elems[..|elems| - 1]) + (if elems[|elems| - 1] == "" then [] else [elems[|elems| - 1]])
  }

  /** `filepath.Join(elems...)`: empty elements are ignored, the rest joined by `/`. */
  function PathJoin(elems: seq<string>): string
  {
    Join(NonEmpty(elems), "/")
  }

  /** Two non-empty elements are joined with one `/`. */
  lemma PathJoin2(a: string, b: string)
    requires a != "" && b != ""
    ensures PathJoin([a, b]) == a + "/" + b
  {
    assert [a, b][..1] == [a];
    assert [a][..0] == [];
    assert NonEmpty([a]) == [a];
    assert NonEmpty([a, b]) == [a, b];
    assert Join([a], "/") == a;
    assert Join([a, b], "/") == Join([a], "/") + "/" + b;
  }

  /** Three non-empty elements are joined with a `/` between neighbours. */
  lemma PathJoin3(a: string, b: string, c: string)
    requires a != "" && b != "" && c != ""
    ensures PathJoin([a, b, c]) == a + "/" + b + "/" + c
  {
    assert [a, b, c][..2] == [a, b];
    assert [a, b][..1] == [a];
    assert [a][..0] == [];
    assert NonEmpty([a]) == [a];
    assert NonEmpty([a, b]) == [a, b];
    assert NonEmpty([a, b, c]) == [a, b, c];
    assert Join([a], "/") == a;
    assert Join([a, b], "/") == Join([a], "/") + "/" + b;
    assert Join([a, b, c], "/") == Join([a, b], "/") + "/" + c;
  }

  /** `s` without its trailing `/` characters. */
  function StripTrailingSlashes(s: string): (r: string)
    ensures |r| <= |s| && r == s[..|r|] && AllChar(s[|r|..], '/')
    ensures r == [] || r[|r| - 1] != '/'
  {
    TrimRight(s, '/')
  }

  /** The text after the last `/` of `s` (all of `s` when it has none). */
  function AfterLastSlash(s: string): (r: string)
    ensures |r| <= |s| && r == s[|s| - |r|..]
    ensures '/' !in r
    ensures |r| < |s| ==> s[|s| - |r| - 1] == '/'
  {
    if |s| == 0 || s[|s| - 1] == '/' then []
    else
      var init := s[..|s| - 1];
      var inner := AfterLastSlash(init);
      assert init[|init| - |inner|..] + [s[|s| - 1]] == s[|s| - |inner| - 1..];
      inner + [s[|s| - 1]]
  }

  /**
    `filepath.Base(path)`: the last element, with trailing slashes removed
    first; `.` for the empty path and `/` for a path of slashes only.
   */
  function Base(path: string): (r: string)
    ensures r != ""
    ensures path == "" ==> r == "."
    ensures r == "/" || '/' !in r
  {
    if path == "" then "."
    else
      var last := AfterLastSlash(StripTrailingSlashes(path));
      if last == "" then "/" else last
  }

  /** Everything after the last `/` of a path ending in a slash-free name is that name. */
  lemma {:induction false} AfterLastSlashOfChild(dir: string, name: string)
    requires '/' !in name
    ensures AfterLastSlash(dir + "/" + name) == name
  {
    var p := dir + "/" + name;
    if name != [] {
      var init := name[..|name| - 1];
      assert name == init + [name[|name| - 1]];
      assert p[..|p| - 1] == dir + "/" + init;
      assert p[|p| - 1] == name[|name| - 1];
      AfterLastSlashOfChild(dir, init);
    }
  }

  /** A slash-free string is all text after its last `/`. */
  lemma {:induction false} AfterLastSlashOfName(name: string)
    requires '/' !in name
    ensures AfterLastSlash(name) == name
  {
    if name != [] {
      var init := name[..|name| - 1];
      assert name == init + [name[|name| - 1]];
      AfterLastSlashOfName(init);
    }
  }

  /** The base of a directory joined with a slash-free name is that name. */
  lemma BaseOfChild(dir: string, name: string)
    requires name != "" && '/' !in name
    ensures Base(dir + "/" + name) == name
  {
    var p := dir + "/" + name;
    assert p[|p| - 1] == name[|name| - 1];
    assert name[|name| - 1] in name;
    assert StripTrailingSlashes(p) == p;
    AfterLastSlashOfChild(dir, name);
  }

  /** A path without any `/` is its own base. */
  lemma BaseOfName(name: string)
    requires name != "" && '/' !in name
    ensures Base(name) == name
  {
    assert name[|name| - 1] in name;
    assert StripTrailingSlashes(name) == name;
    AfterLastSlashOfName(name);
  }
}
