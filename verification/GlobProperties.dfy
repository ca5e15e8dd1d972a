/** What a compiled pattern means for paths: newlines, slash counts and bare
    names. */
module GlobProperties {
  import opened Glob

  // ----- Newlines -----

  /** The compiled matcher never accepts more than the newline-blind one, and
      accepts the same newline-free paths. */
  lemma {:induction false} BodyNewlines(pattern: string, s: string)
    ensures GlobBody(pattern, s, false) ==> GlobBody(pattern, s, true)
    ensures '\n' !in s && GlobBody(pattern, s, true) ==> GlobBody(pattern, s, false)
    decreases |pattern|, |s|
  {
    if pattern == "" {
    } else if "**/" <= pattern {
      BodyNewlines(pattern[3..], s);
      forall k | DirsEndAt(s, k, true)
        ensures GlobBody(pattern[3..], s[k + 1..], false) ==> GlobBody(pattern[3..], s[k + 1..], true)
        ensures '\n' !in s && GlobBody(pattern[3..], s[k + 1..], true) ==> GlobBody(pattern[3..], s[k + 1..], false)
        ensures '\n' !in s ==> DirsEndAt(s, k, false)
      {
        BodyNewlines(pattern[3..], s[k + 1..]);
      }
      assert forall k :: DirsEndAt(s, k, false) ==> DirsEndAt(s, k, true);
    } else if "**" <= pattern {
      BodyNewlines(pattern[2..], s);
      if s != "" { BodyNewlines(pattern, s[1..]); }
    } else if pattern[0] == '*' {
      BodyNewlines(pattern[1..], s);
      if s != "" { BodyNewlines(pattern, s[1..]); }
    } else if s != "" {
      BodyNewlines(pattern[1..], s[1..]);
    }
  }

  lemma NewlineFreePaths(pattern: string, path: string)
    ensures Matches(pattern, path, false) ==> Matches(pattern, path, true)
    ensures '\n' !in path ==> (Matches(pattern, path, true) <==> FullMatch(path, Regex(pattern)))
  {
    RegexIsGlob(pattern, path);
    BodyNewlines(pattern, path);
    forall k | DirsEndAt(path, k, true)
      ensures GlobBody(pattern, path[k + 1..], false) ==> GlobBody(pattern, path[k + 1..], true)
      ensures '\n' !in path && GlobBody(pattern, path[k + 1..], true) ==> GlobBody(pattern, path[k + 1..], false)
      ensures '\n' !in path ==> DirsEndAt(path, k, false)
    {
      BodyNewlines(pattern, path[k + 1..]);
    }
    assert forall k :: DirsEndAt(path, k, false) ==> DirsEndAt(path, k, true);
  }

  // ----- Which patterns are newline-blind -----

  predicate HasDoubleStar(pattern: string) {
    |pattern| >= 2 && ("**" <= pattern || HasDoubleStar(pattern[1..]))
  }

  /** A newline right before a slash. Only a single-character item can end on
      such a newline, so each one on a matched path costs a pattern character. */
  function Breaks(s: string): nat {
    if |s| < 2 then 0
    else (if s[0] == '\n' && s[1] == '/' then 1 else 0) + Breaks(s[1..])
  }

  lemma {:induction false} BreaksAfterDirs(s: string, k: nat)
    requires DirsEndAt(s, k, false)
    ensures Breaks(s) == Breaks(s[k + 1..])
    decreases k
  {
    if k == 0 {
    } else {
      assert DirsEndAt(s[1..], k - 1, false) by {
        var front := s[1..][..k - 1];
        forall i | 0 <= i < |front| ensures Passes(front[i], false) {
          assert front[i] == s[..k][i + 1];
        }
      }
      assert s[1..][k - 1 + 1..] == s[k + 1..];
      BreaksAfterDirs(s[1..], k - 1);
      assert s[0] == s[..k][0];
    }
  }

  lemma {:induction false} BreaksBounded(pattern: string, s: string)
    requires GlobBody(pattern, s, false)
    ensures Breaks(s) <= |pattern|
    decreases |pattern|, |s|
  {
    if pattern == "" {
    } else if "**/" <= pattern {
      if GlobBody(pattern[3..], s, false) {
        BreaksBounded(pattern[3..], s);
      } else {
        var k :| DirsEndAt(s, k, false) && GlobBody(pattern[3..], s[k + 1..], false);
        BreaksBounded(pattern[3..], s[k + 1..]);
        BreaksAfterDirs(s, k);
      }
    } else if "**" <= pattern {
      if GlobBody(pattern[2..], s, false) {
        BreaksBounded(pattern[2..], s);
      } else {
        BreaksBounded(pattern, s[1..]);
      }
    } else if pattern[0] == '*' {
      if GlobBody(pattern[1..], s, false) {
        BreaksBounded(pattern[1..], s);
      } else if |s| >= 2 && s[0] == '\n' && s[1] == '/' {
        assert GlobBody(pattern[1..], s[1..], false);
        BreaksBounded(pattern[1..], s[1..]);
      } else {
        BreaksBounded(pattern, s[1..]);
      }
    } else {
      BreaksBounded(pattern[1..], s[1..]);
    }
  }

  /** n directories whose names end in a newline. */
  function BrokenDirs(n: nat): string {
    if n == 0 then "" else "\n/" + BrokenDirs(n - 1)
  }

  /** A path for the pattern, with the broken directories wherever `**` stands. */
  function Instance(pattern: string, dirs: string): string {
    if pattern == "" then ""
    else if "**/" <= pattern then dirs + Instance(pattern[3..], dirs)
    else if "**" <= pattern then dirs + Instance(pattern[2..], dirs)
    else if pattern[0] == '*' then Instance(pattern[1..], dirs)
    else if pattern[0] == '?' then "a" + Instance(pattern[1..], dirs)
    else [pattern[0]] + Instance(pattern[1..], dirs)
  }

  lemma {:induction false} BreaksOfDirs(n: nat, rest: string)
    ensures Breaks(BrokenDirs(n) + rest) >= n
  {
    if n > 0 {
      BreaksOfDirs(n - 1, rest);
      var s := BrokenDirs(n) + rest;
      assert s[1..][1..] == BrokenDirs(n - 1) + rest;
      assert s[0] == '\n' && s[1] == '/';
    }
  }

  lemma {:induction false} BreaksPrepend(front: string, s: string)
    ensures Breaks(front + s) >= Breaks(s)
  {
    if front == "" {
      assert front + s == s;
    } else {
      assert (front + s)[1..] == front[1..] + s;
      BreaksPrepend(front[1..], s);
    }
  }

  lemma {:induction false} InstanceBreaks(pattern: string, n: nat)
    requires HasDoubleStar(pattern)
    ensures Breaks(Instance(pattern, BrokenDirs(n))) >= n
  {
    var dirs := BrokenDirs(n);
    if "**/" <= pattern {
      BreaksOfDirs(n, Instance(pattern[3..], dirs));
    } else if "**" <= pattern {
      BreaksOfDirs(n, Instance(pattern[2..], dirs));
    } else {
      var rest := Instance(pattern[1..], dirs);
      InstanceBreaks(pattern[1..], n);
      if pattern[0] != '*' {
        BreaksPrepend([if pattern[0] == '?' then 'a' else pattern[0]], rest);
      }
    }
  }

  lemma {:induction false} StarsRunOver(pattern: string, dirs: string, s: string)
    requires "**" <= pattern && !("**/" <= pattern) && GlobBody(pattern[2..], s, true)
    ensures GlobBody(pattern, dirs + s, true)
    decreases |dirs|
  {
    if dirs == "" {
      assert dirs + s == s;
    } else {
      assert (dirs + s)[1..] == dirs[1..] + s;
      StarsRunOver(pattern, dirs[1..], s);
    }
  }

  lemma DirsThen(pattern: string, n: nat, s: string)
    requires GlobBody(pattern, s, true)
    ensures GlobBody(pattern, BrokenDirs(n) + s, true) ||
            exists k :: DirsEndAt(BrokenDirs(n) + s, k, true) && GlobBody(pattern, (BrokenDirs(n) + s)[k + 1..], true)
  {
    var dirs := BrokenDirs(n);
    var t := dirs + s;
    if n == 0 {
      assert t == s;
    } else {
      EndsInSlash(n);
      var k := |dirs| - 1;
      assert t[k] == dirs[k] && t[k + 1..] == s;
      assert DirsEndAt(t, k, true);
    }
  }

  lemma {:induction false} EndsInSlash(n: nat)
    requires n > 0
    ensures BrokenDirs(n) != "" && BrokenDirs(n)[|BrokenDirs(n)| - 1] == '/'
  {
    if n > 1 { EndsInSlash(n - 1); }
  }

  lemma {:induction false} InstanceMatches(pattern: string, n: nat)
    ensures GlobBody(pattern, Instance(pattern, BrokenDirs(n)), true)
  {
    var dirs := BrokenDirs(n);
    if pattern == "" {
    } else if "**/" <= pattern {
      InstanceMatches(pattern[3..], n);
      DirsThen(pattern[3..], n, Instance(pattern[3..], dirs));
    } else if "**" <= pattern {
      InstanceMatches(pattern[2..], n);
      StarsRunOver(pattern, dirs, Instance(pattern[2..], dirs));
    } else {
      InstanceMatches(pattern[1..], n);
      if pattern[0] != '*' {
        assert Instance(pattern, dirs)[1..] == Instance(pattern[1..], dirs);
      }
    }
  }

  lemma {:induction false} PlainBody(pattern: string, s: string)
    requires !HasDoubleStar(pattern)
    ensures GlobBody(pattern, s, false) <==> GlobBody(pattern, s, true)
    decreases |pattern|, |s|
  {
    if pattern != "" {
      if pattern[0] == '*' {
        PlainBody(pattern[1..], s);
        if s != "" { PlainBody(pattern, s[1..]); }
      } else if s != "" {
        PlainBody(pattern[1..], s[1..]);
      }
    }
  }

  /** `**` is meant to span directories whatever their names. The compiled
      expression does that on every path exactly when it has no `.*` in it: the
      pattern has a slash and no `**`. */
  lemma NewlineBlindExactly(pattern: string)
    ensures (forall path :: Matches(pattern, path, false) <==> Matches(pattern, path, true))
            <==> '/' in pattern && !HasDoubleStar(pattern)
  {
    if '/' in pattern && !HasDoubleStar(pattern) {
      forall path ensures Matches(pattern, path, false) <==> Matches(pattern, path, true) {
        PlainBody(pattern, path);
      }
    } else {
      var n := |pattern| + 1;
      var path := if '/' in pattern then Instance(pattern, BrokenDirs(n))
                  else BrokenDirs(n) + Instance(pattern, BrokenDirs(n));
      InstanceMatches(pattern, n);
      if '/' in pattern {
        InstanceBreaks(pattern, n);
      } else {
        DirsThen(pattern, n, Instance(pattern, BrokenDirs(n)));
        BreaksOfDirs(n, Instance(pattern, BrokenDirs(n)));
      }
      assert Matches(pattern, path, true) && Breaks(path) >= n;
      TooManyBreaks(pattern, path);
      assert !Matches(pattern, path, false);
    }
  }

  lemma TooManyBreaks(pattern: string, path: string)
    requires Breaks(path) > |pattern|
    ensures !Matches(pattern, path, false)
  {
    if GlobBody(pattern, path, false) {
      BreaksBounded(pattern, path);
    } else if k :| DirsEndAt(path, k, false) && GlobBody(pattern, path[k + 1..], false) {
      BreaksAfterDirs(path, k);
      BreaksBounded(pattern, path[k + 1..]);
    }
  }

  // ----- Slashes -----

  function Slashes(s: string): nat {
    if s == "" then 0 else (if s[0] == '/' then 1 else 0) + Slashes(s[1..])
  }

  lemma {:induction false} BodyKeepsSlashes(pattern: string, s: string)
    requires !HasDoubleStar(pattern) && GlobBody(pattern, s, false)
    ensures Slashes(s) == Slashes(pattern)
    decreases |pattern|, |s|
  {
    if pattern != "" {
      if pattern[0] == '*' {
        if GlobBody(pattern[1..], s, false) {
          BodyKeepsSlashes(pattern[1..], s);
        } else {
          BodyKeepsSlashes(pattern, s[1..]);
        }
      } else {
        BodyKeepsSlashes(pattern[1..], s[1..]);
      }
    }
  }

  /** `*` and `?` stay inside one directory. */
  lemma SameDepth(pattern: string, path: string)
    requires '/' in pattern && !HasDoubleStar(pattern) && Matches(pattern, path, false)
    ensures Slashes(path) == Slashes(pattern)
  {
    BodyKeepsSlashes(pattern, path);
  }

  lemma {:induction false} NoSlashes(s: string)
    ensures Slashes(s) == 0 <==> '/' !in s
  {
    if s != "" {
      NoSlashes(s[1..]);
      assert s == [s[0]] + s[1..];
    }
  }

  /** Where the last segment of a path starts. */
  function SegmentStart(path: string): (i: nat)
    ensures i <= |path|
    ensures i > 0 ==> path[i - 1] == '/'
    ensures forall j :: i <= j < |path| ==> path[j] != '/'
  {
    if path == "" then 0
    else if path[|path| - 1] == '/' then |path|
    else SegmentStart(path[..|path| - 1])
  }

  lemma SegmentStartsAfter(path: string, k: nat)
    requires k < |path| && path[k] == '/'
    requires forall j :: k < j < |path| ==> path[j] != '/'
    ensures SegmentStart(path) == k + 1
  {
  }

  /** The directories before the last segment, free of newlines or not. */
  lemma DirsBeforeSegment(path: string)
    ensures var i := SegmentStart(path);
            AllPass(path[..i], false) <==> i == 0 || DirsEndAt(path, i - 1, false)
  {
    var i := SegmentStart(path);
    if i > 0 {
      assert path[..i] == path[..i - 1] + ['/'];
      assert path[..i - 1] == path[..i][..i - 1];
    }
  }

  lemma BodyIsName(pattern: string, s: string)
    requires '/' !in pattern && !HasDoubleStar(pattern) && GlobBody(pattern, s, false)
    ensures '/' !in s
  {
    NoSlashes(pattern);
    BodyKeepsSlashes(pattern, s);
    NoSlashes(s);
  }

  /** A bare pattern without `**` is a pattern for names: it accepts a path
      exactly when it accepts the last segment and no directory name before it
      has a newline. */
  lemma BareNameMatchesLastSegment(pattern: string, path: string)
    requires '/' !in pattern && !HasDoubleStar(pattern)
    ensures var i := SegmentStart(path);
            Matches(pattern, path, false) <==> Matches(pattern, path[i..], false) && AllPass(path[..i], false)
  {
    var i := SegmentStart(path);
    DirsBeforeSegment(path);
    assert i == 0 ==> path[i..] == path;
    assert i > 0 ==> path[i - 1 + 1..] == path[i..];
    assert forall j :: 0 <= j < |path[i..]| ==> path[i..][j] == path[i + j];
    assert Matches(pattern, path[i..], false) <==> GlobBody(pattern, path[i..], false);
    if GlobBody(pattern, path, false) {
      BodyIsName(pattern, path);
      assert i == 0 && path[i..] == path;
    } else if k :| DirsEndAt(path, k, false) && GlobBody(pattern, path[k + 1..], false) {
      BodyIsName(pattern, path[k + 1..]);
      assert forall j :: k < j < |path| ==> path[j] == path[k + 1..][j - (k + 1)];
      SegmentStartsAfter(path, k);
    }
  }

  // ----- What single patterns mean -----

  /** A pattern without wildcards. */
  predicate IsLiteral(pattern: string) {
    '*' !in pattern && '?' !in pattern
  }

  lemma {:induction false} LiteralBody(pattern: string, s: string)
    requires IsLiteral(pattern)
    ensures GlobBody(pattern, s, false) <==> s == pattern
    decreases |pattern|
  {
    if pattern != "" {
      assert pattern[0] in pattern;
      assert forall c :: c in pattern[1..] ==> c in pattern;
      if s != "" {
        LiteralBody(pattern[1..], s[1..]);
        assert s == [s[0]] + s[1..] && pattern == [pattern[0]] + pattern[1..];
      }
    }
  }

  /** A path spelled out matches itself alone; a name matches itself in any directory
      that has no newline. */
  lemma LiteralMatchesItself(pattern: string, path: string)
    requires IsLiteral(pattern)
    ensures '/' in pattern ==> (Matches(pattern, path, false) <==> path == pattern)
    ensures '/' !in pattern ==>
              (Matches(pattern, path, false) <==> path[SegmentStart(path)..] == pattern && '\n' !in path[..SegmentStart(path)])
  {
    LiteralBody(pattern, path);
    if '/' !in pattern {
      LiteralHasNoStars(pattern);
      BareNameMatchesLastSegment(pattern, path);
      NameOnly(pattern, path[SegmentStart(path)..]);
    }
  }

  lemma {:induction false} LiteralHasNoStars(pattern: string)
    requires IsLiteral(pattern)
    ensures !HasDoubleStar(pattern)
  {
    if pattern != "" {
      assert pattern[0] in pattern;
      assert forall c :: c in pattern[1..] ==> c in pattern;
      LiteralHasNoStars(pattern[1..]);
    }
  }

  lemma NameOnly(pattern: string, name: string)
    requires IsLiteral(pattern) && '/' !in pattern && '/' !in name
    ensures Matches(pattern, name, false) <==> name == pattern
  {
    LiteralBody(pattern, name);
  }

  /** s is the suffix behind a run of characters that are not slashes. */
  predicate EndsIn(s: string, suffix: string) {
    |s| >= |suffix| && s[|s| - |suffix|..] == suffix && '/' !in s[..|s| - |suffix|]
  }

  lemma EndsInStep(s: string, suffix: string)
    requires s != ""
    ensures EndsIn(s, suffix) <==> s == suffix || (s[0] != '/' && EndsIn(s[1..], suffix))
  {
    var n := |s| - |suffix|;
    if n > 0 {
      assert s[1..][n - 1..] == s[n..];
      assert s[..n] == [s[0]] + s[1..][..n - 1];
    } else if n == 0 {
      assert s[n..] == s && s[..n] == "";
    }
  }

  /** A star stands for any run of characters within one directory. */
  lemma {:induction false} StarSuffix(suffix: string, s: string)
    requires IsLiteral(suffix)
    ensures GlobBody("*" + suffix, s, false) <==> EndsIn(s, suffix)
    decreases |s|
  {
    var pattern := "*" + suffix;
    assert pattern[1..] == suffix && (|suffix| > 0 ==> suffix[0] in suffix);
    assert !("**" <= pattern);
    LiteralBody(suffix, s);
    if s != "" {
      StarSuffix(suffix, s[1..]);
      EndsInStep(s, suffix);
    }
  }

  /** A question mark stands for one character that is not a slash. */
  lemma QuestionMark(rest: string, s: string)
    requires IsLiteral(rest)
    ensures GlobBody("?" + rest, s, false) <==> |s| > 0 && s[0] != '/' && s[1..] == rest
  {
    assert ("?" + rest)[1..] == rest && ("?" + rest)[0] == '?';
    if s != "" {
      LiteralBody(rest, s[1..]);
    }
  }

  /** Two stars stand for anything without a newline, slashes included. */
  lemma {:induction false} DoubleStar(s: string)
    ensures GlobBody("**", s, false) <==> '\n' !in s
  {
    assert "**"[2..] == "";
    if s != "" {
      DoubleStar(s[1..]);
      assert s == [s[0]] + s[1..];
    }
  }

  /** Two stars and a slash stand for any directories without a newline, and for none. */
  lemma LeadingDirs(name: string, path: string)
    requires IsLiteral(name) && '/' !in name
    ensures Matches("**/" + name, path, false) <==> Matches(name, path, false)
  {
    var pattern := "**/" + name;
    assert pattern[3..] == name && pattern[2] == '/';
  }
}
