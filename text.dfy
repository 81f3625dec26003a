/** The PHP and JavaScript string built-ins the core relies on. */
module Text {
  import opened Wrappers

  /** Drops the longest prefix of `s` whose characters all satisfy `p`. */
  function TrimStart(s: string, p: char -> bool): (r: string)
    ensures |r| <= |s| && r == s[|s| - |r|..]
    ensures forall i :: 0 <= i < |s| - |r| ==> p(s[i])
    ensures r == [] || !p(r[0])
  {
    if s != [] && p(s[0]) then TrimStart(s[1..], p) else s
  }

  /** Drops the longest suffix of `s` whose characters all satisfy `p`. */
  function TrimEnd(s: string, p: char -> bool): (r: string)
    ensures |r| <= |s| && r == s[..|r|]
    ensures forall i :: |r| <= i < |s| ==> p(s[i])
    ensures r == [] || !p(r[|r| - 1])
  {
    if s != [] && p(s[|s| - 1]) then TrimEnd(s[..|s| - 1], p) else s
  }

  /** The characters PHP's `trim` removes by default: " \t\n\r\0\x0B". */
  predicate IsTrimmable(c: char)
  {
    c == ' ' || c == '\t' || c == '\n' || c == '\r' || c == '\0' || c == '\U{B}'
  }

  predicate IsSlash(c: char)
  {
    c == '/'
  }

  predicate IsNotSlash(c: char)
  {
    c != '/'
  }

  /** PHP's `trim($s)`. */
  function PhpTrim(s: string): (r: string)
    ensures r == [] || (!IsTrimmable(r[0]) && !IsTrimmable(r[|r| - 1]))
    ensures (forall i :: 0 <= i < |s| ==> IsTrimmable(s[i])) ==> r == []
  {
    var t := TrimStart(s, IsTrimmable);
    var r := TrimEnd(t, IsTrimmable);
    assert r != [] ==> r[0] == t[0];
    r
  }

  /** Trimming text that neither starts nor ends with whitespace changes nothing. */
  lemma PhpTrimKeepsTrimmed(s: string)
    requires s == [] || (!IsTrimmable(s[0]) && !IsTrimmable(s[|s| - 1]))
    ensures PhpTrim(s) == s
  {
    assert TrimStart(s, IsTrimmable) == s;
    assert TrimEnd(s, IsTrimmable) == s;
  }

  lemma {:induction false} TrimStartStopsAt(a: string, b: string, p: char -> bool)
    requires forall i :: 0 <= i < |a| ==> p(a[i])
    requires b == [] || !p(b[0])
    ensures TrimStart(a + b, p) == b
  {
    if a == [] {
      assert a + b == b;
    } else {
      assert (a + b)[1..] == a[1..] + b;
      TrimStartStopsAt(a[1..], b, p);
    }
  }

  /** `trim` removes exactly the whitespace around the text (" /x " gives "/x"). */
  lemma PhpTrimStrips(lead: string, core: string, trail: string)
    requires forall i :: 0 <= i < |lead| ==> IsTrimmable(lead[i])
    requires forall i :: 0 <= i < |trail| ==> IsTrimmable(trail[i])
    requires core != [] && !IsTrimmable(core[0]) && !IsTrimmable(core[|core| - 1])
    ensures PhpTrim(lead + core + trail) == core
  {
    assert lead + core + trail == lead + (core + trail);
    TrimStartStopsAt(lead, core + trail, IsTrimmable);
    TrimEndStopsAt(core, trail, IsTrimmable);
  }

  /** PHP's `dirname($path)` (one level, '/' as the only separator). */
  function Dirname(path: string): (r: string)
    ensures r == "" <==> path == ""
    ensures r == "/" || r == "." || r == "" ||
            (|r| < |path| && r == path[..|r|] && path[|r|] == '/' && r[|r| - 1] != '/')
  {
    if path == "" then ""
    else
      var noTrailing := TrimEnd(path, IsSlash);
      if noTrailing == "" then "/"
      else
        var withoutName := TrimEnd(noTrailing, IsNotSlash);
        if withoutName == "" then "."
        else
          var parent := TrimEnd(withoutName, IsSlash);
          if parent == "" then "/" else parent
  }

  /** Trimming from the end stops at the first character, counting back, that `p`
      rejects. */
  lemma {:induction false} TrimEndStopsAt(a: string, b: string, p: char -> bool)
    requires a == [] || !p(a[|a| - 1])
    requires forall i :: 0 <= i < |b| ==> p(b[i])
    ensures TrimEnd(a + b, p) == a
  {
    if b == [] {
      assert a + b == a;
    } else {
      assert (a + b)[..|a + b| - 1] == a + b[..|b| - 1];
      TrimEndStopsAt(a, b[..|b| - 1], p);
    }
  }

  /** The parent of `dir/name` is `dir` ("/a/b.php" gives "/a"). */
  lemma DirnameOfJoin(dir: string, name: string)
    requires dir != [] && dir[|dir| - 1] != '/'
    requires name != [] && forall i :: 0 <= i < |name| ==> name[i] != '/'
    ensures Dirname(dir + "/" + name) == dir
  {
    var path := dir + "/" + name;
    TrimEndStopsAt(path, [], IsSlash);
    assert path == (dir + "/") + name;
    TrimEndStopsAt(dir + "/", name, IsNotSlash);
    TrimEndStopsAt(dir, "/", IsSlash);
  }

  /** A file at the root has the root as its parent ("/b.php" gives "/"). */
  lemma DirnameAtRoot(name: string)
    requires name != [] && forall i :: 0 <= i < |name| ==> name[i] != '/'
    ensures Dirname("/" + name) == "/"
  {
    TrimEndStopsAt("/" + name, [], IsSlash);
    TrimEndStopsAt("/", name, IsNotSlash);
    TrimEndStopsAt([], "/", IsSlash);
  }

  /** A bare name has "." as its parent ("b.php" gives "."). */
  lemma DirnameOfBareName(name: string)
    requires name != [] && forall i :: 0 <= i < |name| ==> name[i] != '/'
    ensures Dirname(name) == "."
  {
    TrimEndStopsAt(name, [], IsSlash);
    assert name == [] + name;
    TrimEndStopsAt([], name, IsNotSlash);
  }

  /** Trailing slashes are ignored ("/a/b/" has the parent of "/a/b", which is "/a"). */
  lemma DirnameIgnoresTrailingSlashes(path: string, slashes: string)
    requires path != [] && path[|path| - 1] != '/'
    requires forall i :: 0 <= i < |slashes| ==> slashes[i] == '/'
    ensures Dirname(path + slashes) == Dirname(path)
  {
    TrimEndStopsAt(path, slashes, IsSlash);
    TrimEndStopsAt(path, [], IsSlash);
  }

  /** `rtrim(dirname($_SERVER['SCRIPT_NAME']), '/')`: the directory a script is served
      from, without a trailing slash ('' for a script at the web root). */
  function ScriptBase(scriptName: string): (r: string)
    ensures r == [] || r[|r| - 1] != '/'
  {
    TrimEnd(Dirname(scriptName), IsSlash)
  }

  function DigitChar(d: nat): char
    requires d < 10
  {
    ('0' as int + d) as char
  }

  predicate IsDigit(c: char)
  {
    '0' <= c <= '9'
  }

  /** Decimal digits of a natural number, most significant first. */
  function NatDigits(n: nat): (r: string)
    ensures r != [] && forall i :: 0 <= i < |r| ==> IsDigit(r[i])
    ensures n >= 10 ==> r[0] != '0'
  {
    if n < 10 then [DigitChar(n)] else NatDigits(n / 10) + [DigitChar(n % 10)]
  }

  /** The value of a string of decimal digits. */
  function DigitsValue(s: string): nat
    requires forall i :: 0 <= i < |s| ==> IsDigit(s[i])
  {
    if s == [] then 0
    else
      assert IsDigit(s[|s| - 1]);
      DigitsValue(s[..|s| - 1]) * 10 + (s[|s| - 1] as int - '0' as int)
  }

  lemma {:induction false} DigitsRoundTrip(n: nat)
    ensures DigitsValue(NatDigits(n)) == n
  {
    if n >= 10 {
      var r := NatDigits(n);
      DigitsRoundTrip(n / 10);
      assert r[..|r| - 1] == NatDigits(n / 10);
    }
  }

  /** PHP's `(string)$n` for an integer. */
  function IntToString(n: int): (r: string)
    ensures r != []
    ensures n < 0 <==> r[0] == '-'
    ensures n >= 0 ==> (forall i :: 0 <= i < |r| ==> IsDigit(r[i])) && DigitsValue(r) == n
    ensures n < 0 ==> r[1..] == NatDigits(-n) && DigitsValue(r[1..]) == -n
  {
    DigitsRoundTrip(if n < 0 then -n else n);
    if n < 0 then "-" + NatDigits(-n) else NatDigits(n)
  }

  /** The pieces of `s` between occurrences of `sep`. */
  function SplitOn(s: string, sep: char): (r: seq<string>)
    ensures |r| >= 1
  {
    if s == [] then [""]
    else if s[0] == sep then [""] + SplitOn(s[1..], sep)
    else
      var rest := SplitOn(s[1..], sep);
      [[s[0]] + rest[0]] + rest[1..]
  }

  lemma {:induction false} SplitOnNoSep(a: string, sep: char)
    requires forall i :: 0 <= i < |a| ==> a[i] != sep
    ensures SplitOn(a, sep) == [a]
  {
    if a != [] {
      SplitOnNoSep(a[1..], sep);
      assert [a[0]] + a[1..] == a;
    }
  }

  lemma {:induction false} SplitOnJoin(a: string, sep: char, b: string)
    requires forall i :: 0 <= i < |a| ==> a[i] != sep
    ensures SplitOn(a + [sep] + b, sep) == [a] + SplitOn(b, sep)
  {
    if a == [] {
      assert a + [sep] + b == [sep] + b;
      assert ([sep] + b)[1..] == b;
    } else {
      SplitOnJoin(a[1..], sep, b);
      assert (a + [sep] + b)[1..] == a[1..] + [sep] + b;
      assert [a[0]] + a[1..] == a;
    }
  }

  /** The text before and after the first `sep` in `s`, or None when there is none. */
  function SplitFirst(s: string, sep: char): Option<(string, string)>
  {
    if s == [] then None
    else if s[0] == sep then Some(("", s[1..]))
    else
      match SplitFirst(s[1..], sep)
      case Some(parts) => Some(([s[0]] + parts.0, parts.1))
      case None => None
  }

  lemma {:induction false} SplitFirstJoin(a: string, sep: char, b: string)
    requires forall i :: 0 <= i < |a| ==> a[i] != sep
    ensures SplitFirst(a + [sep] + b, sep) == Some((a, b))
  {
    if a == [] {
      assert a + [sep] + b == [sep] + b;
      assert ([sep] + b)[1..] == b;
    } else {
      SplitFirstJoin(a[1..], sep, b);
      assert (a + [sep] + b)[1..] == a[1..] + [sep] + b;
      assert [a[0]] + a[1..] == a;
    }
  }

  /** No line terminator of an event stream (LF or CR) occurs in `s`. */
  predicate NoLineBreak(s: string)
  {
    forall i :: 0 <= i < |s| ==> s[i] != '\n' && s[i] != '\r'
  }

  lemma NoLineBreakConcat(a: string, b: string)
    ensures NoLineBreak(a + b) <==> NoLineBreak(a) && NoLineBreak(b)
  {
    if NoLineBreak(a) && NoLineBreak(b) {
      forall i | 0 <= i < |a + b| ensures (a + b)[i] != '\n' && (a + b)[i] != '\r' {
        if i >= |a| { assert (a + b)[i] == b[i - |a|]; }
      }
    }
    if NoLineBreak(a + b) {
      forall i | 0 <= i < |a| ensures a[i] != '\n' && a[i] != '\r' {
        assert (a + b)[i] == a[i];
      }
      forall i | 0 <= i < |b| ensures b[i] != '\n' && b[i] != '\r' {
        assert (a + b)[|a| + i] == b[i];
      }
    }
  }
}
