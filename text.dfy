/** String helpers the plugin uses through JavaScript and Node: `Array.prototype.join`,
    `String.prototype.split` (its inverse), lodash `_.endsWith` and Node's POSIX
    `path.basename`. */
module Text {

  /** `_.endsWith(s, suffix)` on two strings. */
  function EndsWith(s: string, suffix: string): (r: bool)
    ensures r <==> exists p: string :: p + suffix == s
  {
    if |suffix| <= |s| && s[|s| - |suffix|..] == suffix then
      assert s[..|s| - |suffix|] + suffix == s;
      true
    else
      false
  }

  /** `parts.join(sep)`: the parts with one separator between neighbours; `[].join(sep)` is "". */
  function Join(parts: seq<string>, sep: char): string
    decreases |parts|
  {
    if |parts| == 0 then ""
    else if |parts| == 1 then parts[0]
    else parts[0] + [sep] + Join(parts[1..], sep)
  }

  /** `s.split(sep)`: the maximal runs between separators, empty runs included; "" splits to [""]. */
  function Split(s: string, sep: char): (r: seq<string>)
    ensures |r| >= 1
    decreases |s|
  {
    if |s| == 0 then [""]
    else
      var rest := Split(s[1..], sep);
      if s[0] == sep then [""] + rest else [[s[0]] + rest[0]] + rest[1..]
  }

  /** Joining the pieces of a split gives back the string. */
  lemma {:induction false} JoinSplit(s: string, sep: char)
    ensures Join(Split(s, sep), sep) == s
    decreases |s|
  {
    if |s| > 0 {
      var rest := Split(s[1..], sep);
      JoinSplit(s[1..], sep);
      if s[0] == sep {
        assert Split(s, sep) == [""] + rest;
        assert ([""] + rest)[1..] == rest;
      } else {
        var head := [s[0]] + rest[0];
        assert Split(s, sep) == [head] + rest[1..];
        if |rest| == 1 {
          assert Join(rest, sep) == rest[0];
        } else {
          assert ([head] + rest[1..])[1..] == rest[1..];
          assert Join(rest, sep) == rest[0] + [sep] + Join(rest[1..], sep);
        }
      }
    }
  }

  /** A string without the separator splits into itself alone. */
  lemma {:induction false} SplitNoSeparator(s: string, sep: char)
    requires sep !in s
    ensures Split(s, sep) == [s]
    decreases |s|
  {
    if |s| > 0 {
      SplitNoSeparator(s[1..], sep);
      assert [s[0]] + s[1..] == s;
    }
  }

  /** One step of `Split` on a string that starts with the separator. */
  lemma SplitConsSep(t: string, sep: char)
    ensures Split([sep] + t, sep) == [""] + Split(t, sep)
  {
    assert ([sep] + t)[1..] == t;
  }

  /** One step of `Split` on a string that starts with another character. */
  lemma SplitConsChar(c: char, t: string, sep: char)
    requires c != sep
    ensures Split([c] + t, sep) == [[c] + Split(t, sep)[0]] + Split(t, sep)[1..]
  {
    assert ([c] + t)[0] == c;
    assert ([c] + t)[1..] == t;
  }

  /** Splitting distributes over one separator. */
  lemma {:induction false} SplitConcat(a: string, b: string, sep: char)
    ensures Split(a + [sep] + b, sep) == Split(a, sep) + Split(b, sep)
    decreases |a|
  {
    if |a| == 0 {
      assert a + [sep] + b == [sep] + b;
      SplitConsSep(b, sep);
    } else {
      SplitConcat(a[1..], b, sep);
      assert a == [a[0]] + a[1..];
      assert a + [sep] + b == [a[0]] + (a[1..] + [sep] + b);
      SplitPrefixStep(a[0], a[1..] + [sep] + b, a[1..], Split(b, sep), sep);
    }
  }

  /** When `t` splits into the pieces of `a` followed by `rest`, the same holds with one more
      leading character on both. */
  lemma SplitPrefixStep(c: char, t: string, a: string, rest: seq<string>, sep: char)
    requires Split(t, sep) == Split(a, sep) + rest
    ensures Split([c] + t, sep) == Split([c] + a, sep) + rest
  {
    if c == sep {
      SplitConsSep(t, sep);
      SplitConsSep(a, sep);
    } else {
      SplitPrefixChar(c, Split(t, sep), Split(a, sep), rest);
      SplitConsChar(c, t, sep);
      SplitConsChar(c, a, sep);
    }
  }

  /** The sequence identity behind `SplitPrefixStep` for a character other than the separator. */
  lemma SplitPrefixChar(c: char, rt: seq<string>, ra: seq<string>, rest: seq<string>)
    requires |ra| >= 1 && rt == ra + rest
    ensures [[c] + rt[0]] + rt[1..] == ([[c] + ra[0]] + ra[1..]) + rest
  {
    assert rt[0] == ra[0];
    assert rt[1..] == ra[1..] + rest;
  }

  /** Splitting a join gives back the parts, when no part holds the separator. */
  lemma {:induction false} SplitJoin(parts: seq<string>, sep: char)
    requires |parts| >= 1
    requires forall i :: 0 <= i < |parts| ==> sep !in parts[i]
    ensures Split(Join(parts, sep), sep) == parts
    decreases |parts|
  {
    SplitNoSeparator(parts[0], sep);
    if |parts| > 1 {
      SplitJoin(parts[1..], sep);
      SplitConcat(parts[0], Join(parts[1..], sep), sep);
      assert [parts[0]] + parts[1..] == parts;
    }
  }

  /** The string with its trailing '/' characters removed. */
  function TrimTrailingSlashes(p: string): (r: string)
    ensures |r| <= |p| && r == p[..|r|]
    ensures |r| > 0 ==> r[|r| - 1] != '/'
    decreases |p|
  {
    if |p| > 0 && p[|p| - 1] == '/' then TrimTrailingSlashes(p[..|p| - 1]) else p
  }

  /** The part of the string after its last '/', or all of it when it has none. */
  function LastSegment(p: string): (r: string)
    ensures '/' !in r
    ensures |r| <= |p| && r == p[|p| - |r|..]
    ensures |r| < |p| ==> p[|p| - |r| - 1] == '/'
    decreases |p|
  {
    if |p| == 0 || p[|p| - 1] == '/' then ""
    else
      var r := LastSegment(p[..|p| - 1]) + [p[|p| - 1]];
      assert p[|p| - |r|..] == p[..|p| - 1][|p| - |r|..] + [p[|p| - 1]];
      r
  }

  /** Node's POSIX `path.basename(p)`: the last non-empty segment, trailing slashes ignored. */
  function Basename(p: string): string {
    LastSegment(TrimTrailingSlashes(p))
  }

  /** The basename of a file inside any directory is that file's name. */
  lemma BasenameOfChild(dir: string, name: string)
    requires name != "" && '/' !in name
    ensures Basename(dir + "/" + name) == name
  {
    var p := dir + "/" + name;
    assert TrimTrailingSlashes(p) == p by {
      assert p[|p| - 1] == name[|name| - 1];
    }
    LastSegmentAfterSlash(dir + "/", name);
  }

  lemma {:induction false} LastSegmentAfterSlash(d: string, name: string)
    requires |d| > 0 && d[|d| - 1] == '/' && '/' !in name
    ensures LastSegment(d + name) == name
    decreases |name|
  {
    if |name| > 0 {
      var p := d + name;
      assert p[..|p| - 1] == d + name[..|name| - 1];
      LastSegmentAfterSlash(d, name[..|name| - 1]);
      assert name[..|name| - 1] + [name[|name| - 1]] == name;
    } else {
      assert d + name == d;
    }
  }
}
