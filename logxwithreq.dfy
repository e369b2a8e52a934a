/**
 * The request-aware debug entry point (logxwithreq.go): Debugf puts a short
 * form of the request's URL path, padded into a column, in front of the
 * format, and logs through Printf.
 */
module LogxWithReq {
  import opened GoStrings
  import opened Logx

  /**
   * choppOffLeadingDirs: drop everything up to and including the first '/',
   * then drop everything before the next '/', if there is one.
   */
  function ChoppOffLeadingDirs(p: string): (r: string)
    ensures |r| <= |p| && r == p[|p| - |r|..]
    ensures '/' !in p ==> r == p
    ensures '/' in p ==> |r| < |p|
  {
    var p1 := if Index(p, '/') > -1 then p[Index(p, '/') + 1..] else p;
    if Index(p1, '/') > -1 then p1[Index(p1, '/')..] else p1
  }

  /** Up to and including the first '/', a string holds exactly one '/'. */
  lemma CountThroughFirstSlash(p: string)
    requires '/' in p
    ensures Count(p[..Index(p, '/') + 1], '/') == 1
  {
    var i := Index(p, '/');
    var before, slash := p[..i], [p[i]];
    assert p[..i + 1] == before + slash;
    CountZero(before, '/');
    assert Count(slash, '/') == 1 by {
      assert slash[1..] == [];
    }
    CountConcat(before, slash, '/');
  }

  /** Cutting through the first '/' removes one '/'. */
  lemma CountAfterFirstSlash(p: string)
    requires '/' in p
    ensures Count(p[Index(p, '/') + 1..], '/') == Count(p, '/') - 1
  {
    CountThroughFirstSlash(p);
    CountSplit(p, Index(p, '/') + 1, '/');
  }

  /** Cutting in front of the first '/' removes none. */
  lemma CountFromFirstSlash(p: string)
    requires '/' in p
    ensures Count(p[Index(p, '/')..], '/') == Count(p, '/')
  {
    var i := Index(p, '/');
    CountZero(p[..i], '/');
    CountSplit(p, i, '/');
  }

  /** With a single '/', the result is the text after it. */
  lemma ChopOneSlash(p: string)
    requires Count(p, '/') == 1
    ensures ChoppOffLeadingDirs(p) == p[Index(p, '/') + 1..]
    ensures '/' !in ChoppOffLeadingDirs(p)
  {
    CountZero(p, '/');
    CountAfterFirstSlash(p);
    CountZero(p[Index(p, '/') + 1..], '/');
  }

  lemma ChopCutsAtSecondSlash(p: string)
    requires '/' in p && '/' in p[Index(p, '/') + 1..]
    ensures var p1 := p[Index(p, '/') + 1..];
            ChoppOffLeadingDirs(p) == p1[Index(p1, '/')..]
  {
  }

  /**
   * With two or more, the result is the input from its second '/' on: it
   * starts with '/', and what was cut off held exactly one '/'.
   */
  lemma ChopTwoSlashes(p: string)
    requires Count(p, '/') >= 2
    ensures var r := ChoppOffLeadingDirs(p);
            |r| > 0 && r[0] == '/' &&
            Count(p[..|p| - |r|], '/') == 1 && Count(r, '/') == Count(p, '/') - 1
  {
    assert '/' in p by { CountZero(p, '/'); }
    var i := Index(p, '/');
    var p1 := p[i + 1..];
    assert Count(p1, '/') == Count(p, '/') - 1 by { CountAfterFirstSlash(p); }
    assert '/' in p1 by { CountZero(p1, '/'); }
    var j := Index(p1, '/');
    var r := p1[j..];
    assert Count(r, '/') == Count(p1, '/') by { CountFromFirstSlash(p1); }
    assert ChoppOffLeadingDirs(p) == r by { ChopCutsAtSecondSlash(p); }
    var k := i + 1 + j;
    assert r == p[k..];
    assert Count(p[..k], '/') == 1 by {
      CountSplit(p, k, '/');
    }
    assert p[..|p| - |ChoppOffLeadingDirs(p)|] == p[..k];
  }

  /** An example: the first segment of a request path is dropped. */
  lemma ChopExample()
    ensures ChoppOffLeadingDirs("/app/foo/bar") == "/foo/bar"
  {
    assert Index("/app/foo/bar", '/') == 0;
    assert "/app/foo/bar"[1..] == "app/foo/bar";
    assert Index("app/foo/bar", '/') == 3;
  }

  /** Debugf's format: the shortened request path in a 12/4 column, then the caller's format. */
  function DebugfFormat(urlPath: string, format: string): (r: string)
    ensures var p := ChoppOffLeadingDirs(urlPath);
            |r| >= |p| + MinCX + |format| && r[..|p|] == p &&
            (forall i :: |p| <= i < |r| - |format| ==> r[i] == ' ') &&
            r[|r| - |format|..] == format &&
            (|p| >= 12 ==> (|r| - |format|) % 4 == 0)
  {
    Columnify(ChoppOffLeadingDirs(urlPath), 12, 4) + format
  }

  /** Where logxwithreq.go sits in its module tree. */
  const ReqSourceFile: seq<string> := ["github.com", "zew", "logx", "logxwithreq.go"]

  /**
   * The line Debugf logs outside App Engine, given the text its arguments
   * format to. `SL().Incr()` raises `sl.lvl` by one for Debugf's own frame,
   * so the line is located exactly where Printf, called at the same place with
   * the prefixed format, would locate it.
   */
  function DebugfLine(callers: Stack, lvl: nat, urlPath: string, message: string): (r: string)
    ensures 2 <= lvl ==> r == PrintfLine(callers, lvl, DebugfFormat(urlPath, message))
    ensures 2 <= lvl ==>
              r == LocationPrefix(FrameOrMissing(callers, lvl - 2)) + PrintfPayload(DebugfFormat(urlPath, message))
  {
    var here := Frame(ReqSourceFile, 20);
    assert 2 <= lvl ==> FrameOrMissing(Enter(callers, here), lvl - 1) == FrameOrMissing(callers, lvl - 2) by {
      if 2 <= lvl { FrameOrMissingEnter(callers, here, lvl - 2); }
    }
    PrintfLine(Enter(callers, here), lvl + 1, DebugfFormat(urlPath, message))
  }
}
