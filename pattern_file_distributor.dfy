/**
 * PatternMatchingFileDistributor: picks a file from the first value of a
 * request parameter, by matching that value against a pattern and
 * substituting the capture groups into a file-path template, and sends the
 * file's bytes, or a configured empty response when there is no such file.
 *
 * The regular-expression engine and the file system are givens: a pattern is
 * a function from a value to the groups of its first match, and the file
 * system is a pair of functions (is this path a regular file, what are its
 * bytes).
 */
module PatternFileDistributor {
  import opened Wrappers
  import opened DistributorContext

  newtype byte = x: int | 0 <= x < 256

  /**
   * The outcome of Matcher.find on a value: group 0 (the whole match) and
   * groups 1..groupCount in order; None is a group that took no part in the
   * match, for which Matcher.group answers null.
   */
  datatype Match = Match(whole: string, groups: seq<Option<string>>)

  /** A compiled pattern: the first match in a value, if any. */
  type Pattern = string -> Option<Match>

  /** Matcher.group(i), for 0 <= i <= groupCount. */
  function Group(m: Match, i: nat): (r: Option<string>)
    requires i <= |m.groups|
  {
    if i == 0 then Some(m.whole) else m.groups[i - 1]
  }

  // ---------------------------------------------------------------------
  // Decimal placeholders: "\\" + i
  // ---------------------------------------------------------------------

  predicate IsDigit(c: char) { 48 <= c as int <= 57 }

  /** Integer.toString for a non-negative int. */
  function DecimalString(n: nat): (s: string)
    ensures |s| >= 1
    ensures forall k :: 0 <= k < |s| ==> IsDigit(s[k])
  {
    if n < 10 then [(48 + n) as char] else DecimalString(n / 10) + [(48 + n % 10) as char]
  }

  /** The number a string of decimal digits denotes. */
  function DecimalValue(s: string): (n: nat)
    requires forall k :: 0 <= k < |s| ==> IsDigit(s[k])
  {
    if |s| == 0 then 0
    else
      assert IsDigit(s[|s| - 1]);
      DecimalValue(s[..|s| - 1]) * 10 + (s[|s| - 1] as int - 48)
  }

  lemma {:induction false} DecimalRoundTrip(n: nat)
    ensures DecimalValue(DecimalString(n)) == n
  {
    var s := DecimalString(n);
    if n >= 10 {
      DecimalRoundTrip(n / 10);
      assert s[..|s| - 1] == DecimalString(n / 10);
    }
  }

  /** The placeholder for group i in a file-path template: a backslash and i in decimal. */
  function Placeholder(i: nat): (p: string)
    ensures |p| >= 2 && p[0] == '\\'
    ensures forall k :: 1 <= k < |p| ==> IsDigit(p[k])
  {
    "\\" + DecimalString(i)
  }

  /** Different groups have different placeholders. */
  lemma PlaceholderInjective(i: nat, j: nat)
    requires Placeholder(i) == Placeholder(j)
    ensures i == j
  {
    assert Placeholder(i)[1..] == DecimalString(i);
    assert Placeholder(j)[1..] == DecimalString(j);
    DecimalRoundTrip(i);
    DecimalRoundTrip(j);
  }

  // ---------------------------------------------------------------------
  // String.replace(CharSequence, CharSequence)
  // ---------------------------------------------------------------------

  /** Does t occur in s at index k? */
  predicate IsAt(t: string, s: string, k: nat)
  {
    k + |t| <= |s| && s[k..k + |t|] == t
  }

  /** Does t occur in s? */
  predicate Occurs(t: string, s: string)
  {
    exists k: nat | k <= |s| :: IsAt(t, s, k)
  }

  /**
   * Every occurrence of `target` in `s`, scanning from the left and not
   * overlapping, replaced by `rep` taken literally; an empty target inserts
   * `rep` before every character and at the end.
   */
  function Replace(s: string, target: string, rep: string): (r: string)
    ensures rep == target ==> r == s
    decreases |s|
  {
    if |target| == 0 then
      if |s| == 0 then rep else rep + [s[0]] + Replace(s[1..], target, rep)
    else if |s| < |target| then s
    else if s[..|target|] == target then
      assert s == s[..|target|] + s[|target|..];
      rep + Replace(s[|target|..], target, rep)
    else [s[0]] + Replace(s[1..], target, rep)
  }

  /** A string that does not contain the target comes back unchanged. */
  lemma {:induction false} ReplaceAbsent(s: string, target: string, rep: string)
    requires |target| > 0 && !Occurs(target, s)
    ensures Replace(s, target, rep) == s
    decreases |s|
  {
    if |s| >= |target| {
      assert !IsAt(target, s, 0);
      assert s[0..0 + |target|] == s[..|target|];
      forall k: nat
        ensures !IsAt(target, s[1..], k)
      {
        assert !IsAt(target, s, k + 1);
        IsAtTail(target, s, k);
      }
      ReplaceAbsent(s[1..], target, rep);
    }
  }

  /**
   * The scan is left to right: the first occurrence of the target is
   * replaced, and the scan resumes after it.
   */
  lemma {:induction false} ReplaceFirstOccurrence(a: string, target: string, b: string, rep: string)
    requires |target| > 0
    requires forall k: nat :: k < |a| ==> !IsAt(target, a + target + b, k)
    ensures Replace(a + target + b, target, rep) == a + rep + Replace(b, target, rep)
    decreases |a|
  {
    var s := a + target + b;
    if |a| == 0 {
      assert s[..|target|] == target && s[|target|..] == b;
    } else {
      var s' := a[1..] + target + b;
      assert s[1..] == s';
      assert Replace(s, target, rep) == [a[0]] + Replace(s', target, rep) by {
        assert !IsAt(target, s, 0);
        ReplaceMiss(s, target, rep);
      }
      assert Replace(s', target, rep) == a[1..] + rep + Replace(b, target, rep) by {
        forall k: nat | k < |a[1..]|
          ensures !IsAt(target, s', k)
        {
          assert !IsAt(target, s, k + 1);
          IsAtTail(target, s, k);
        }
        ReplaceFirstOccurrence(a[1..], target, b, rep);
      }
      var tail := rep + Replace(b, target, rep);
      assert a[1..] + rep + Replace(b, target, rep) == a[1..] + tail;
      assert [a[0]] + (a[1..] + tail) == a + tail;
    }
  }

  /** Where the target does not start, the scan keeps the character and moves on. */
  lemma ReplaceMiss(s: string, target: string, rep: string)
    requires |target| > 0 && |s| >= |target| && !IsAt(target, s, 0)
    ensures Replace(s, target, rep) == [s[0]] + Replace(s[1..], target, rep)
  {
    assert s[0..0 + |target|] == s[..|target|];
  }

  /** An occurrence in the tail of s is an occurrence in s one place further on. */
  lemma IsAtTail(t: string, s: string, k: nat)
    requires |s| > 0
    ensures IsAt(t, s[1..], k) <==> IsAt(t, s, k + 1)
  {
    if k + |t| <= |s[1..]| {
      assert s[1..][k..k + |t|] == s[k + 1..k + 1 + |t|];
    }
  }

  /** A string without a backslash contains no placeholder. */
  lemma NoBackslashNoPlaceholder(s: string, i: nat)
    requires Plain(s)
    ensures !Occurs(Placeholder(i), s)
  {
    var p := Placeholder(i);
    forall k: nat
      ensures !IsAt(p, s, k)
    {
      if k + |p| <= |s| {
        assert s[k..k + |p|][0] == s[k];
      }
    }
  }

  // ---------------------------------------------------------------------
  // Substituting the groups into the template, and resolving the path
  // ---------------------------------------------------------------------

  /**
   * The template after groups 0..n-1 have been substituted, in ascending
   * order, each placeholder replaced by its group; None when one of those
   * groups is null, for which String.replace throws a NullPointerException.
   */
  function Substituted(template: string, m: Match, n: nat): (r: Option<string>)
    requires n <= |m.groups| + 1
    ensures r.Some? <==> forall i :: 0 <= i < n ==> Group(m, i).Some?
  {
    if n == 0 then Some(template)
    else
      match Substituted(template, m, n - 1)
      case None => None
      case Some(path) =>
        match Group(m, n - 1)
        case None => None
        case Some(g) => Some(Replace(path, Placeholder(n - 1), g))
  }

  /** A template without placeholders is left as it is. */
  lemma {:induction false} SubstituteNoPlaceholder(template: string, m: Match, n: nat)
    requires n <= |m.groups| + 1
    requires forall i :: 0 <= i < n ==> Group(m, i).Some?
    requires forall i :: 0 <= i < n ==> !Occurs(Placeholder(i), template)
    ensures Substituted(template, m, n) == Some(template)
  {
    if n > 0 {
      SubstituteNoPlaceholder(template, m, n - 1);
      ReplaceAbsent(template, Placeholder(n - 1), Group(m, n - 1).value);
    }
  }

  /**
   * Path.resolve on a Unix file system: an absolute path stands for itself,
   * an empty one for the base, and otherwise the two are joined by a slash.
   */
  function Resolve(home: string, path: string): (r: string)
    ensures |r| >= |path| && r[|r| - |path|..] == path
    ensures |path| > 0 && path[0] != '/' && |home| > 0 ==> |r| > |home| && r[..|home|] == home
  {
    if |path| > 0 && path[0] == '/' then path
    else if |path| == 0 then home
    else if |home| == 0 then path
    else if home == "/" then "/" + path
    else home + "/" + path
  }

  /**
   * Is the text acceptable as a Unix path? Turning a string into a path
   * throws an InvalidPathException for a NUL character.
   */
  predicate NulFree(path: string)
  {
    forall k :: 0 <= k < |path| ==> path[k] != '\0'
  }

  /** What FileFinder.find yields, or the unchecked exception it throws. */
  datatype FindOutcome = NoFile | Found(path: string) | NullPointerThrown | InvalidPathThrown

  /**
   * The file finder: the request's parameters and the distributor's
   * configuration, fixed when the distributor is initialised.
   */
  datatype FileFinder = FileFinder(parameters: Parameters, parameterName: string, parameterParser: Pattern,
                                   filepathPattern: string, home: string)
  {
    /** The first value of the parameter; none when it is missing or has no values. */
    function ParameterFromRequest(): (r: Option<string>)
      ensures r.Some? <==> parameterName in parameters && |parameters[parameterName]| > 0
      ensures r.Some? ==> r.value == parameters[parameterName][0]
    {
      if parameterName !in parameters || |parameters[parameterName]| == 0 then None
      else Some(parameters[parameterName][0])
    }

    /**
     * The file named by a matched value: the substituted template resolved
     * against the home directory, unless a group is null or the substituted
     * text is not a valid path.
     */
    function FileFor(m: Match): (r: FindOutcome)
      ensures r.NullPointerThrown? <==> exists i :: 0 <= i <= |m.groups| && Group(m, i).None?
      ensures r.InvalidPathThrown? <==>
        (var path := Substituted(filepathPattern, m, |m.groups| + 1); path.Some? && !NulFree(path.value))
      ensures r.NullPointerThrown? || r.InvalidPathThrown? || r.Found?
    {
      match Substituted(filepathPattern, m, |m.groups| + 1)
      case None => NullPointerThrown
      case Some(path) => if NulFree(path) then Found(Resolve(home, path)) else InvalidPathThrown
    }

    /** The file named by a parameter value, if the pattern is found in it. */
    function MatchOutcome(parameter: string): (r: FindOutcome)
      ensures r.NoFile? <==> parameterParser(parameter).None?
    {
      match parameterParser(parameter)
      case None => NoFile
      case Some(m) => FileFor(m)
    }

    /** The file the request selects. */
    function Resolution(): (r: FindOutcome)
      ensures r.NoFile? <==> ParameterFromRequest().None? || parameterParser(ParameterFromRequest().value).None?
    {
      match ParameterFromRequest()
      case None => NoFile
      case Some(v) => MatchOutcome(v)
    }

    /** substituteIntoFilepath: every group, in ascending order, into the template. */
    method SubstituteIntoFilepath(m: Match) returns (r: FindOutcome)
      ensures r == FileFor(m)
    {
      var path := filepathPattern;
      var i := 0;
      while i <= |m.groups|
        invariant 0 <= i <= |m.groups| + 1
        invariant Substituted(filepathPattern, m, i) == Some(path)
      {
        var g := Group(m, i);
        if g.None? {
          assert Substituted(filepathPattern, m, |m.groups| + 1).None?;
          return NullPointerThrown;
        }
        path := Replace(path, Placeholder(i), g.value);
        i := i + 1;
      }
      if NulFree(path) {
        r := Found(Resolve(home, path));
      } else {
        r := InvalidPathThrown;
      }
    }

    /** doPatternMatching */
    method DoPatternMatching(parameter: string) returns (r: FindOutcome)
      ensures r == MatchOutcome(parameter)
    {
      var found := parameterParser(parameter);
      if found.Some? {
        r := SubstituteIntoFilepath(found.value);
      } else {
        r := NoFile;
      }
    }

    /** find */
    method Find() returns (r: FindOutcome)
      ensures r == Resolution()
    {
      var parameter := ParameterFromRequest();
      if parameter.None? {
        r := NoFile;
      } else {
        r := DoPatternMatching(parameter.value);
      }
    }
  }

  // ---------------------------------------------------------------------
  // Properties of the file finder
  // ---------------------------------------------------------------------

  /** A missing parameter, or one without values, selects no file. */
  lemma NoValueNoFile(ff: FileFinder)
    requires ff.parameterName !in ff.parameters || ff.parameters[ff.parameterName] == []
    ensures ff.Resolution() == NoFile
  {
  }

  /** Only the first value of the parameter matters. */
  lemma FirstValueOnly(ff: FileFinder, values: seq<string>, values': seq<string>)
    requires |values| > 0 && |values'| > 0 && values[0] == values'[0]
    ensures ff.(parameters := ff.parameters[ff.parameterName := values]).Resolution()
         == ff.(parameters := ff.parameters[ff.parameterName := values']).Resolution()
  {
  }

  /** A value in which the pattern is not found selects no file. */
  lemma NoMatchNoFile(ff: FileFinder)
    requires ff.parameterName in ff.parameters && |ff.parameters[ff.parameterName]| > 0
    requires ff.parameterParser(ff.parameters[ff.parameterName][0]).None?
    ensures ff.Resolution() == NoFile
  {
  }

  /**
   * A match in which every group takes part selects the substituted template
   * resolved against the home directory, unless that text holds a NUL
   * character, which ends in an InvalidPathException; one with a group that
   * takes no part ends in a NullPointerException.
   */
  lemma MatchSelectsFile(ff: FileFinder, m: Match)
    requires ff.parameterName in ff.parameters && |ff.parameters[ff.parameterName]| > 0
    requires ff.parameterParser(ff.parameters[ff.parameterName][0]) == Some(m)
    ensures ff.Resolution() == ff.FileFor(m)
    ensures ff.Resolution() == NullPointerThrown <==> exists i :: 0 <= i <= |m.groups| && Group(m, i).None?
    ensures (forall i :: 0 <= i <= |m.groups| ==> Group(m, i).Some?) ==>
      Substituted(ff.filepathPattern, m, |m.groups| + 1).Some? &&
      ff.Resolution() == if NulFree(Substituted(ff.filepathPattern, m, |m.groups| + 1).value)
                         then Found(Resolve(ff.home, Substituted(ff.filepathPattern, m, |m.groups| + 1).value))
                         else InvalidPathThrown
  {
  }

  /**
   * A template without placeholders names the same file for every value the
   * pattern is found in, provided every group of the match takes part.
   */
  lemma FixedTemplate(ff: FileFinder, m: Match)
    requires ff.parameterName in ff.parameters && |ff.parameters[ff.parameterName]| > 0
    requires ff.parameterParser(ff.parameters[ff.parameterName][0]) == Some(m)
    requires forall i :: 0 <= i <= |m.groups| ==> Group(m, i).Some?
    requires forall i :: 0 <= i <= |m.groups| ==> !Occurs(Placeholder(i), ff.filepathPattern)
    ensures ff.Resolution() == if NulFree(ff.filepathPattern) then Found(Resolve(ff.home, ff.filepathPattern))
                               else InvalidPathThrown
  {
    SubstituteNoPlaceholder(ff.filepathPattern, m, |m.groups| + 1);
  }

  /**
   * Placeholders are replaced literally and in ascending order, so once
   * groups 0 and 1 have been substituted, the text "\10" has become group 1's
   * value followed by a "0" and no later group can take it, provided that
   * value has no backslash and no group so far is null.
   */
  lemma TenthGroupShadowed(m: Match, g: string, n: nat)
    requires 2 <= n <= |m.groups| + 1
    requires m.groups[0] == Some(g)
    requires forall i :: 0 <= i < n ==> Group(m, i).Some?
    requires Plain(g)
    ensures Substituted("\\10", m, n) == Some(g + "0")
  {
    if n == 2 {
      ShadowedByGroupOne(m, g);
    } else {
      TenthGroupShadowed(m, g, n - 1);
      forall k | 0 <= k < |g + "0"|
        ensures (g + "0")[k] != '\\'
      {
        if k < |g| {
          assert (g + "0")[k] == g[k];
        }
      }
      NoBackslashNoPlaceholder(g + "0", n - 1);
      ReplaceAbsent(g + "0", Placeholder(n - 1), Group(m, n - 1).value);
    }
  }

  /** The base case of TenthGroupShadowed: groups 0 and 1 substituted. */
  lemma ShadowedByGroupOne(m: Match, g: string)
    requires 1 <= |m.groups|
    requires m.groups[0] == Some(g)
    ensures Substituted("\\10", m, 2) == Some(g + "0")
  {
    assert Placeholder(0) == "\\0";
    assert Placeholder(1) == "\\1";
    assert Substituted("\\10", m, 1) == Some("\\10") by {
      assert Substituted("\\10", m, 0) == Some("\\10");
      assert Replace("0", "\\0", m.whole) == "0";
      assert Replace("10", "\\0", m.whole) == "10";
      assert Replace("\\10", "\\0", m.whole) == "\\10";
    }
    assert Group(m, 1) == Some(g);
    assert Replace("\\10", "\\1", g) == g + "0" by {
      assert Replace("0", "\\1", g) == "0";
      assert "\\10"[..2] == "\\1";
      assert "\\10"[2..] == "0";
    }
  }

  /** No backslash anywhere in s. */
  predicate Plain(s: string)
  {
    forall k :: 0 <= k < |s| ==> s[k] != '\\'
  }

  /**
   * A template with the single placeholder "\0", amid text without
   * backslashes, becomes that text around the whole match, whatever the
   * values of the other groups, provided every group takes part and the
   * whole match has no backslash either.
   */
  lemma {:induction false} WholeMatchTemplate(a: string, b: string, m: Match, n: nat)
    requires Plain(a) && Plain(b) && Plain(m.whole)
    requires 1 <= n <= |m.groups| + 1
    requires forall i :: 0 <= i < n ==> Group(m, i).Some?
    ensures Substituted(a + "\\0" + b, m, n) == Some(a + m.whole + b)
  {
    var t := "\\0";
    if n == 1 {
      assert Placeholder(0) == t;
      assert Substituted(a + t + b, m, 0) == Some(a + t + b);
      assert Group(m, 0) == Some(m.whole);
      PlainPrefix(a, t, b);
      ReplaceFirstOccurrence(a, t, b, m.whole);
      NoBackslashNoPlaceholder(b, 0);
      ReplaceAbsent(b, t, m.whole);
    } else {
      WholeMatchTemplate(a, b, m, n - 1);
      var r := a + m.whole + b;
      forall k | 0 <= k < |r|
        ensures r[k] != '\\'
      {
        if k < |a| {
          assert r[k] == a[k];
        } else if k < |a| + |m.whole| {
          assert r[k] == m.whole[k - |a|];
        } else {
          assert r[k] == b[k - |a| - |m.whole|];
        }
      }
      NoBackslashNoPlaceholder(r, n - 1);
      ReplaceAbsent(r, Placeholder(n - 1), Group(m, n - 1).value);
    }
  }

  /**
   * Nothing confines the file to the home directory: with the template "\0",
   * a value whose whole match is an absolute path without backslashes or NUL
   * characters, every group taking part, names that path itself.
   */
  lemma AbsoluteMatchIgnoresHome(ff: FileFinder, m: Match)
    requires ff.filepathPattern == "\\0"
    requires forall i :: 0 <= i <= |m.groups| ==> Group(m, i).Some?
    requires Plain(m.whole) && NulFree(m.whole) && |m.whole| > 0 && m.whole[0] == '/'
    ensures ff.FileFor(m) == Found(m.whole)
  {
    assert "" + "\\0" + "" == ff.filepathPattern;
    WholeMatchTemplate("", "", m, |m.groups| + 1);
    assert "" + m.whole + "" == m.whole;
  }

  /**
   * The configuration shown in the class comment: parameter "department",
   * template "crossunit-\\0.json"; a value in which the pattern matches `w`
   * selects crossunit-`w`.json in the home directory, whatever the home
   * directory, given without a trailing slash, is; a `w` holding a NUL
   * character ends in an InvalidPathException instead.
   */
  lemma CrossUnitExample(parser: Pattern, value: string, w: string, home: string)
    requires parser(value) == Some(Match(w, []))
    requires |home| > 0 && home[|home| - 1] != '/'
    ensures FileFinder(map["department" := [value]], "department", parser, "crossunit-\\0.json", home)
              .Resolution() == if NulFree(w) then Found(home + "/crossunit-" + w + ".json") else InvalidPathThrown
  {
    var ff := FileFinder(map["department" := [value]], "department", parser, "crossunit-\\0.json", home);
    var path := "crossunit-" + w + ".json";
    assert ff.ParameterFromRequest() == Some(value);
    assert Substituted(ff.filepathPattern, Match(w, []), 1) == Some(path) by {
      CrossUnitSubstitution(w);
    }
    assert NulFree(path) <==> NulFree(w) by {
      CrossUnitNul(w);
    }
    assert Resolve(home, path) == home + "/crossunit-" + w + ".json" by {
      CrossUnitResolve(w, home);
    }
  }

  /** The validity step of CrossUnitExample. */
  lemma CrossUnitNul(w: string)
    ensures NulFree("crossunit-" + w + ".json") <==> NulFree(w)
  {
    var a, b := "crossunit-", ".json";
    assert NulFree(a) && NulFree(b);
    NulFreeAround(a, w, b);
  }

  /** Text between two NUL-free strings is a valid path exactly when it is NUL-free itself. */
  lemma NulFreeAround(a: string, w: string, b: string)
    requires NulFree(a) && NulFree(b)
    ensures NulFree(a + w + b) <==> NulFree(w)
  {
    if NulFree(w) {
      forall k | 0 <= k < |a + w + b|
        ensures (a + w + b)[k] != '\0'
      {
        if k < |a| {
          assert (a + w + b)[k] == a[k];
        } else if k < |a| + |w| {
          assert (a + w + b)[k] == w[k - |a|];
        } else {
          assert (a + w + b)[k] == b[k - |a| - |w|];
        }
      }
    } else {
      var k :| 0 <= k < |w| && w[k] == '\0';
      assert (a + w + b)[|a| + k] == w[k];
    }
  }

  /** The substitution step of CrossUnitExample. */
  lemma CrossUnitSubstitution(w: string)
    ensures Substituted("crossunit-\\0.json", Match(w, []), 1) == Some("crossunit-" + w + ".json")
  {
    assert Placeholder(0) == "\\0";
    assert "crossunit-\\0.json" == "crossunit-" + "\\0" + ".json";
    ReplaceAround("crossunit-", 0, ".json", w);
  }

  /** The resolution step of CrossUnitExample. */
  lemma CrossUnitResolve(w: string, home: string)
    requires |home| > 0 && home[|home| - 1] != '/'
    ensures Resolve(home, "crossunit-" + w + ".json") == home + "/crossunit-" + w + ".json"
  {
    var path := "crossunit-" + w + ".json";
    assert path[0] == 'c';
    assert home != "/";
    assert home + "/" + path == home + "/crossunit-" + w + ".json";
  }

  /** One placeholder amid plain text, replaced by any value. */
  lemma ReplaceAround(a: string, i: nat, b: string, w: string)
    requires Plain(a) && Plain(b)
    ensures Replace(a + Placeholder(i) + b, Placeholder(i), w) == a + w + b
  {
    var p := Placeholder(i);
    PlainPrefix(a, p, b);
    ReplaceFirstOccurrence(a, p, b, w);
    NoBackslashNoPlaceholder(b, i);
    ReplaceAbsent(b, p, w);
  }

  /**
   * Text a group brings into the path is itself open to the replacements
   * that follow: a whole match holding "\\1" amid plain text comes out with
   * group 1's value in its place.
   */
  lemma InsertedPlaceholderResubstituted(a: string, b: string, x: string)
    requires Plain(a) && Plain(b)
    ensures Substituted("\\0", Match(a + "\\1" + b, [Some(x)]), 2) == Some(a + x + b)
  {
    var m := Match(a + "\\1" + b, [Some(x)]);
    assert Placeholder(0) == "\\0" && Placeholder(1) == "\\1";
    assert Substituted("\\0", m, 1) == Some(m.whole) by {
      assert "" + Placeholder(0) + "" == Placeholder(0);
      assert Substituted("\\0", m, 0) == Some(Placeholder(0));
      ReplaceAround("", 0, "", m.whole);
      assert "" + m.whole + "" == m.whole;
    }
    assert Group(m, 1) == Some(x);
    ReplaceAround(a, 1, b, x);
  }

  /** A target that starts with a backslash cannot occur inside a prefix without one. */
  lemma PlainPrefix(a: string, target: string, b: string)
    requires |target| > 0 && target[0] == '\\'
    requires Plain(a)
    ensures forall k: nat :: k < |a| ==> !IsAt(target, a + target + b, k)
  {
    forall k: nat | k < |a|
      ensures !IsAt(target, a + target + b, k)
    {
      assert (a + target + b)[k..k + |target|][0] == a[k];
    }
  }

  // ---------------------------------------------------------------------
  // The distributor
  // ---------------------------------------------------------------------

  /** The file system, as far as writeOutput sees it; a read error carries the IOException's message. */
  datatype FileSystem = FileSystem(isFile: string -> bool, read: string -> Result<seq<byte>, string>)

  /** An output stream that either accepts every write or refuses every write with one IOException. */
  class OutputStream {
    var written: seq<byte>
    const failure: Option<string>

    constructor(failure: Option<string>)
      ensures written == [] && this.failure == failure
    {
      written := [];
      this.failure := failure;
    }

    method Write(bytes: seq<byte>) returns (err: Option<string>)
      modifies this
      ensures err == failure
      ensures written == if failure.None? then old(written) + bytes else old(written)
    {
      err := failure;
      if failure.None? {
        written := written + bytes;
      }
    }
  }

  /** What writeOutput sends. */
  datatype Payload = FileContents(path: string) | EmptyResponse

  /**
   * The choice writeOutput makes on what find yielded: the file's contents
   * when it names a regular file, the empty response otherwise; nothing when
   * find threw.
   */
  function Choice(found: FindOutcome, isFile: string -> bool): (r: Option<Payload>)
    ensures r.None? <==> found.NullPointerThrown? || found.InvalidPathThrown?
    ensures r == Some(EmptyResponse) <==> found.NoFile? || (found.Found? && !isFile(found.path))
    ensures (r.Some? && r.value.FileContents?) <==> found.Found? && isFile(found.path)
    ensures r.Some? && r.value.FileContents? ==> r.value.path == found.path
  {
    match found
    case NullPointerThrown => None
    case InvalidPathThrown => None
    case NoFile => Some(EmptyResponse)
    case Found(p) => if isFile(p) then Some(FileContents(p)) else Some(EmptyResponse)
  }

  /** The bytes of a payload; a failed read is an IOException, rethrown as a DataDistributorException. */
  function PayloadBytes(p: Payload, fs: FileSystem, encode: string -> seq<byte>, emptyResponse: string)
    : (r: Result<seq<byte>, DistributorError>)
  {
    match p
    case EmptyResponse => Success(encode(emptyResponse))
    case FileContents(path) =>
      match fs.read(path)
      case Success(bytes) => Success(bytes)
      case Failure(cause) => Failure(DistributorError(cause))
  }

  /** How writeOutput ends. */
  datatype WriteResult = Written | Failed(error: DistributorError) | NullPointer | InvalidPath

  class PatternMatchingFileDistributor {
    /** The request parameters, as DataDistributorBase.init stores them. */
    var parameters: Parameters
    var parameterName: string
    var parameterParser: Pattern
    var filepathPattern: string
    var contentType: string
    var emptyResponse: string
    var fileFinder: Option<FileFinder>

    /** A distributor before configuration: an empty name, a pattern found nowhere, empty strings. */
    constructor()
      ensures parameters == map[] && parameterName == "" && filepathPattern == ""
      ensures contentType == "" && emptyResponse == "" && fileFinder == None
      ensures forall v :: parameterParser(v) == None
    {
      parameters := map[];
      parameterName := "";
      parameterParser := (v: string) => None;
      filepathPattern := "";
      contentType := "";
      emptyResponse := "";
      fileFinder := None;
    }

    method SetParameterName(name: string)
      modifies this
      ensures parameterName == name
      ensures parameters == old(parameters) && parameterParser == old(parameterParser)
      ensures filepathPattern == old(filepathPattern) && contentType == old(contentType)
      ensures emptyResponse == old(emptyResponse) && fileFinder == old(fileFinder)
    {
      parameterName := name;
    }

    /** setParameterPattern; compiling the regular expression is outside the model. */
    method SetParameterPattern(pattern: Pattern)
      modifies this
      ensures parameterParser == pattern
      ensures parameters == old(parameters) && parameterName == old(parameterName)
      ensures filepathPattern == old(filepathPattern) && contentType == old(contentType)
      ensures emptyResponse == old(emptyResponse) && fileFinder == old(fileFinder)
    {
      parameterParser := pattern;
    }

    method SetFilepathPattern(pattern: string)
      modifies this
      ensures filepathPattern == pattern
      ensures parameters == old(parameters) && parameterName == old(parameterName)
      ensures parameterParser == old(parameterParser) && contentType == old(contentType)
      ensures emptyResponse == old(emptyResponse) && fileFinder == old(fileFinder)
    {
      filepathPattern := pattern;
    }

    method SetContentType(cType: string)
      modifies this
      ensures contentType == cType
      ensures parameters == old(parameters) && parameterName == old(parameterName)
      ensures parameterParser == old(parameterParser) && filepathPattern == old(filepathPattern)
      ensures emptyResponse == old(emptyResponse) && fileFinder == old(fileFinder)
    {
      contentType := cType;
    }

    method SetEmptyResponse(response: string)
      modifies this
      ensures emptyResponse == response
      ensures parameters == old(parameters) && parameterName == old(parameterName)
      ensures parameterParser == old(parameterParser) && filepathPattern == old(filepathPattern)
      ensures contentType == old(contentType) && fileFinder == old(fileFinder)
    {
      emptyResponse := response;
    }

    /**
     * init: keep the request's parameters and build the file finder from the
     * configuration and the application's home directory.
     */
    method Init(context: Context, home: string)
      modifies this
      ensures parameters == GetRequestParameters(context)
      ensures fileFinder == Some(FileFinder(parameters, parameterName, parameterParser, filepathPattern, home))
      ensures parameterName == old(parameterName) && parameterParser == old(parameterParser)
      ensures filepathPattern == old(filepathPattern) && contentType == old(contentType)
      ensures emptyResponse == old(emptyResponse)
    {
      parameters := GetRequestParameters(context);
      fileFinder := Some(FileFinder(parameters, parameterName, parameterParser, filepathPattern, home));
    }

    /** The configured content type, whatever file is or is not found. */
    method GetContentType() returns (r: string)
      ensures r == contentType
    {
      r := contentType;
    }

    /**
     * writeOutput: copy the selected file to the output, or write the empty
     * response (in the platform encoding `encode`) when there is no regular
     * file to copy. A failed read or write is rethrown as a
     * DataDistributorException; a NullPointerException or an
     * InvalidPathException from find propagates.
     */
    method WriteOutput(fs: FileSystem, encode: string -> seq<byte>, output: OutputStream) returns (r: WriteResult)
      requires fileFinder.Some?
      modifies output
      ensures match Choice(fileFinder.value.Resolution(), fs.isFile)
        case None =>
          r == (if fileFinder.value.Resolution().NullPointerThrown? then NullPointer else InvalidPath) &&
          output.written == old(output.written)
        case Some(p) =>
          match PayloadBytes(p, fs, encode, emptyResponse)
          case Failure(e) => r == Failed(e) && output.written == old(output.written)
          case Success(bytes) =>
            if output.failure.Some? && (p.EmptyResponse? || |bytes| > 0)
            then r == Failed(DistributorError(output.failure.value)) && output.written == old(output.written)
            else r == Written && output.written == old(output.written) + bytes
    {
      var found := fileFinder.value.Find();
      if found.NullPointerThrown? {
        return NullPointer;
      }
      if found.InvalidPathThrown? {
        return InvalidPath;
      }
      if found.Found? && fs.isFile(found.path) {
        var content := fs.read(found.path);
        if content.Failure? {
          return Failed(DistributorError(content.error));
        }
        // IOUtils.copy writes only what it reads: an empty file makes no write.
        if |content.value| > 0 {
          var err := output.Write(content.value);
          if err.Some? {
            return Failed(DistributorError(err.value));
          }
        }
        return Written;
      } else {
        var err := output.Write(encode(emptyResponse));
        if err.Some? {
          return Failed(DistributorError(err.value));
        }
        r := Written;
      }
    }

    /** close: no state changes. */
    method Close()
      ensures unchanged(this)
    {
    }
  }
}
