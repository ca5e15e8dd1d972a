/** scripts/security/scan_diff.py: `glob_match`, which compiles a path pattern to
    a regular expression. The expression is built as a syntax tree and read by
    its language; a direct recursive matcher is the specification. */
module Glob {

  // ----- Regular expressions -----

  datatype Re =
    | Lit(c: char)
    | NotSlash                 // [^/]
    | Dot                      // any character but a newline
    | Many(item: Re)           // item*
    | Maybe(group: seq<Re>)    // (?:group)?

  /** Whether an expression matches the whole of a text. */
  predicate In(s: string, r: Re)
    decreases r, |s|
  {
    match r
    case Lit(c) => s == [c]
    case NotSlash => |s| == 1 && s[0] != '/'
    case Dot => |s| == 1 && s[0] != '\n'
    case Many(item) => s == "" || exists k :: 0 < k <= |s| && In(s[..k], item) && In(s[k..], r)
    case Maybe(group) => s == "" || FullMatch(s, group)
  }

  /** re.fullmatch: the concatenation of the items matches the whole text. */
  predicate FullMatch(s: string, items: seq<Re>)
    decreases items, |s|
  {
    if items == [] then s == ""
    else exists k :: 0 <= k <= |s| && In(s[..k], items[0]) && FullMatch(s[k..], items[1..])
  }

  // ----- The compiler -----

  /** (?:.*\/)? : any leading directories. */
  const AnyDirs: Re := Maybe([Many(Dot), Lit('/')])

  function Compile(pattern: string): seq<Re> {
    if pattern == "" then []
    else if "**/" <= pattern then [AnyDirs] + Compile(pattern[3..])
    else if "**" <= pattern then [Many(Dot)] + Compile(pattern[2..])
    else if pattern[0] == '*' then [Many(NotSlash)] + Compile(pattern[1..])
    else if pattern[0] == '?' then [NotSlash] + Compile(pattern[1..])
    else [Lit(pattern[0])] + Compile(pattern[1..])
  }

  /** A pattern without a slash matches at any depth. */
  function Regex(pattern: string): seq<Re> {
    (if '/' in pattern then [] else [AnyDirs]) + Compile(pattern)
  }

  method GlobMatch(path: string, pattern: string) returns (matched: bool)
    ensures matched == Matches(pattern, path, false)
  {
    var regex: seq<Re> := [];
    var i := 0;
    while i < |pattern|
      invariant i <= |pattern|
      invariant regex + Compile(pattern[i..]) == Compile(pattern)
    {
      ghost var before, at := regex, i;
      if "**/" <= pattern[i..] {
        regex := regex + [AnyDirs];
        i := i + 3;
      } else if "**" <= pattern[i..] {
        regex := regex + [Many(Dot)];
        i := i + 2;
      } else if pattern[i] == '*' {
        regex := regex + [Many(NotSlash)];
        i := i + 1;
      } else if pattern[i] == '?' {
        regex := regex + [NotSlash];
        i := i + 1;
      } else {
        regex := regex + [Lit(pattern[i])];
        i := i + 1;
      }
      CompileAdvance(pattern, before, at, i, regex[|before|]);
    }
    assert regex == Compile(pattern);
    if '/' !in pattern {
      regex := [AnyDirs] + regex;
    }
    assert regex == Regex(pattern);
    RegexIsGlob(pattern, path);
    matched := FullMatch(path, regex);
  }

  lemma CompileAdvance(pattern: string, regex: seq<Re>, i: nat, j: nat, item: Re)
    requires i < j <= |pattern|
    requires Compile(pattern[i..]) == [item] + Compile(pattern[i..][j - i..])
    ensures regex + Compile(pattern[i..]) == regex + [item] + Compile(pattern[j..])
  {
    assert pattern[i..][j - i..] == pattern[j..];
  }

  // ----- The direct matcher -----

  /** What `**` runs over: everything when `dotAll`, else all but newlines. */
  predicate Passes(c: char, dotAll: bool) {
    dotAll || c != '\n'
  }

  predicate AllPass(s: string, dotAll: bool) {
    forall i :: 0 <= i < |s| ==> Passes(s[i], dotAll)
  }

  /** s[..k] is a directory prefix, its slash at position k. */
  predicate DirsEndAt(s: string, k: int, dotAll: bool) {
    0 <= k < |s| && s[k] == '/' && AllPass(s[..k], dotAll)
  }

  ghost predicate GlobBody(pattern: string, s: string, dotAll: bool)
    decreases |pattern|, |s|
  {
    if pattern == "" then s == ""
    else if "**/" <= pattern then
      GlobBody(pattern[3..], s, dotAll) || exists k :: DirsEndAt(s, k, dotAll) && GlobBody(pattern[3..], s[k + 1..], dotAll)
    else if "**" <= pattern then
      GlobBody(pattern[2..], s, dotAll) || (s != "" && Passes(s[0], dotAll) && GlobBody(pattern, s[1..], dotAll))
    else if pattern[0] == '*' then
      GlobBody(pattern[1..], s, dotAll) || (s != "" && s[0] != '/' && GlobBody(pattern, s[1..], dotAll))
    else if pattern[0] == '?' then
      s != "" && s[0] != '/' && GlobBody(pattern[1..], s[1..], dotAll)
    else
      s != "" && s[0] == pattern[0] && GlobBody(pattern[1..], s[1..], dotAll)
  }

  ghost predicate Matches(pattern: string, path: string, dotAll: bool) {
    || GlobBody(pattern, path, dotAll)
    || ('/' !in pattern && exists k :: DirsEndAt(path, k, dotAll) && GlobBody(pattern, path[k + 1..], dotAll))
  }

  // ----- The language of the compiled expression -----

  /** The items that match one character. */
  predicate IsClass(r: Re) {
    r.Lit? || r.NotSlash? || r.Dot?
  }

  lemma ClassStep(s: string, r: Re, items: seq<Re>)
    requires IsClass(r)
    ensures FullMatch(s, [r] + items) <==> s != "" && In(s[..1], r) && FullMatch(s[1..], items)
  {
    assert ([r] + items)[1..] == items;
  }

  lemma ManySplits(s: string, r: Re, items: seq<Re>)
    requires IsClass(r) && FullMatch(s, [Many(r)] + items)
    ensures FullMatch(s, items) || (s != "" && In(s[..1], r) && FullMatch(s[1..], [Many(r)] + items))
  {
    var all := [Many(r)] + items;
    assert all[1..] == items;
    var k :| 0 <= k <= |s| && In(s[..k], Many(r)) && FullMatch(s[k..], items);
    if k == 0 {
      assert s[0..] == s;
    } else {
      var j :| 0 < j <= k && In(s[..k][..j], r) && In(s[..k][j..], Many(r));
      assert j == 1 && s[..k][..1] == s[..1] && s[..k][1..] == s[1..][..k - 1];
      assert s[k..] == s[1..][k - 1..];
    }
  }

  lemma ManyJoins(s: string, r: Re, items: seq<Re>)
    requires IsClass(r)
    requires FullMatch(s, items) || (s != "" && In(s[..1], r) && FullMatch(s[1..], [Many(r)] + items))
    ensures FullMatch(s, [Many(r)] + items)
  {
    var all := [Many(r)] + items;
    assert all[1..] == items;
    if FullMatch(s, items) {
      assert s[0..] == s && In(s[..0], Many(r));
    } else {
      var k :| 0 <= k <= |s[1..]| && In(s[1..][..k], Many(r)) && FullMatch(s[1..][k..], items);
      assert s[..k + 1][..1] == s[..1] && s[..k + 1][1..] == s[1..][..k];
      assert In(s[..k + 1], Many(r)) && s[k + 1..] == s[1..][k..];
    }
  }

  lemma ManyStep(s: string, r: Re, items: seq<Re>)
    requires IsClass(r)
    ensures FullMatch(s, [Many(r)] + items) <==>
            FullMatch(s, items) || (s != "" && In(s[..1], r) && FullMatch(s[1..], [Many(r)] + items))
  {
    if FullMatch(s, [Many(r)] + items) {
      ManySplits(s, r, items);
    } else if FullMatch(s, items) || (s != "" && In(s[..1], r) && FullMatch(s[1..], [Many(r)] + items)) {
      ManyJoins(s, r, items);
    }
  }

  lemma {:induction false} ManyDots(s: string)
    ensures In(s, Many(Dot)) <==> AllPass(s, false)
    decreases |s|
  {
    if s != "" {
      ManyDots(s[1..]);
      if In(s, Many(Dot)) {
        var k :| 0 < k <= |s| && In(s[..k], Dot) && In(s[k..], Many(Dot));
        assert k == 1;
      }
      if AllPass(s, false) {
        assert In(s[..1], Dot);
      }
    }
  }

  lemma SlashAlone(t: string)
    ensures FullMatch(t, [Lit('/')]) <==> t == "/"
  {
    ClassStep(t, Lit('/'), []);
    assert [Lit('/')] + [] == [Lit('/')];
    if t != "" && t[1..] == "" {
      assert t == t[..1];
    }
  }

  lemma DirsLanguage(s: string)
    ensures FullMatch(s, [Many(Dot), Lit('/')]) <==> s != "" && DirsEndAt(s, |s| - 1, false)
  {
    var items := [Many(Dot), Lit('/')];
    assert items[1..] == [Lit('/')];
    if FullMatch(s, items) {
      var k :| 0 <= k <= |s| && In(s[..k], Many(Dot)) && FullMatch(s[k..], items[1..]);
      ManyDots(s[..k]);
      SlashAlone(s[k..]);
      assert k == |s| - 1 && s[k] == s[k..][0];
    }
    if s != "" && DirsEndAt(s, |s| - 1, false) {
      var k := |s| - 1;
      ManyDots(s[..k]);
      SlashAlone(s[k..]);
      assert In(s[..k], items[0]) && FullMatch(s[k..], items[1..]);
    }
  }

  lemma DirsStep(s: string, items: seq<Re>)
    ensures FullMatch(s, [AnyDirs] + items) <==>
            FullMatch(s, items) || exists k :: DirsEndAt(s, k, false) && FullMatch(s[k + 1..], items)
  {
    var all := [AnyDirs] + items;
    assert all[1..] == items;
    if FullMatch(s, all) {
      var k :| 0 <= k <= |s| && In(s[..k], AnyDirs) && FullMatch(s[k..], items);
      if k == 0 {
        assert s[0..] == s;
      } else {
        DirsLanguage(s[..k]);
        assert s[..k][..k - 1] == s[..k - 1];
        assert DirsEndAt(s, k - 1, false) && s[k - 1 + 1..] == s[k..];
      }
    }
    if FullMatch(s, items) {
      assert s[0..] == s && In(s[..0], AnyDirs);
    }
    if k :| DirsEndAt(s, k, false) && FullMatch(s[k + 1..], items) {
      DirsLanguage(s[..k + 1]);
      assert s[..k + 1][..k] == s[..k];
      assert In(s[..k + 1], AnyDirs);
    }
  }

  lemma {:induction false} CompileIsGlobBody(pattern: string, s: string)
    ensures FullMatch(s, Compile(pattern)) <==> GlobBody(pattern, s, false)
    decreases |pattern|, |s|
  {
    if pattern == "" {
    } else if "**/" <= pattern {
      DirsStep(s, Compile(pattern[3..]));
      CompileIsGlobBody(pattern[3..], s);
      forall k | DirsEndAt(s, k, false)
        ensures FullMatch(s[k + 1..], Compile(pattern[3..])) <==> GlobBody(pattern[3..], s[k + 1..], false)
      {
        CompileIsGlobBody(pattern[3..], s[k + 1..]);
      }
    } else if "**" <= pattern {
      ManyStep(s, Dot, Compile(pattern[2..]));
      CompileIsGlobBody(pattern[2..], s);
      if s != "" { CompileIsGlobBody(pattern, s[1..]); }
    } else if pattern[0] == '*' {
      ManyStep(s, NotSlash, Compile(pattern[1..]));
      CompileIsGlobBody(pattern[1..], s);
      if s != "" { CompileIsGlobBody(pattern, s[1..]); }
    } else {
      var r := if pattern[0] == '?' then NotSlash else Lit(pattern[0]);
      ClassStep(s, r, Compile(pattern[1..]));
      if s != "" { CompileIsGlobBody(pattern[1..], s[1..]); }
    }
  }

  /** The compiled expression accepts exactly what the direct matcher accepts,
      `**` not crossing newlines. */
  lemma RegexIsGlob(pattern: string, path: string)
    ensures FullMatch(path, Regex(pattern)) <==> Matches(pattern, path, false)
  {
    CompileIsGlobBody(pattern, path);
    if '/' in pattern {
      assert [] + Compile(pattern) == Compile(pattern);
    } else {
      DirsStep(path, Compile(pattern));
      forall k | DirsEndAt(path, k, false)
        ensures FullMatch(path[k + 1..], Compile(pattern)) <==> GlobBody(pattern, path[k + 1..], false)
      {
        CompileIsGlobBody(pattern, path[k + 1..]);
      }
    }
  }
}
