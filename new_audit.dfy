/** The domain field of the new-audit form (client/src/pages/NewAudit.tsx): what
    handleSubmit does with the raw input before it submits an audit. */
module NewAudit {
  import opened Text

  /** Drop whitespace from the front. */
  function TrimStart(s: string): (r: string)
    ensures |r| <= |s| && r == s[|s| - |r|..]
    ensures |r| > 0 ==> !IsJsWhitespace(r[0])
    ensures forall i :: 0 <= i < |s| - |r| ==> IsJsWhitespace(s[i])
  {
    if |s| > 0 && IsJsWhitespace(s[0]) then
      var r := TrimStart(s[1..]);
      assert forall i :: 1 <= i < |s| - |r| ==> s[i] == s[1..][i - 1];
      r
    else s
  }

  /** Drop whitespace from the back. */
  function TrimEnd(s: string): (r: string)
    ensures |r| <= |s| && r == s[..|r|]
    ensures |r| > 0 ==> !IsJsWhitespace(r[|r| - 1])
    ensures forall i :: |r| <= i < |s| ==> IsJsWhitespace(s[i])
  {
    if |s| > 0 && IsJsWhitespace(s[|s| - 1]) then
      var r := TrimEnd(s[..|s| - 1]);
      assert forall i :: |r| <= i < |s| - 1 ==> s[i] == s[..|s| - 1][i];
      r
    else s
  }

  /** `r` is the slice of `s` at `lo`, and only whitespace lies around it. */
  predicate TrimmedAt(s: string, r: string, lo: int)
  {
    && 0 <= lo <= lo + |r| <= |s| && s[lo..lo + |r|] == r
    && (forall i :: 0 <= i < lo ==> IsJsWhitespace(s[i]))
    && (forall i :: lo + |r| <= i < |s| ==> IsJsWhitespace(s[i]))
  }

  /** A prefix of a suffix of `s` is a slice of `s`. */
  lemma SliceOfSuffix(s: string, front: string, r: string)
    requires |front| <= |s| && front == s[|s| - |front|..]
    requires |r| <= |front| && r == front[..|r|]
    ensures var lo := |s| - |front|;
      && s[lo..lo + |r|] == r
      && forall i :: lo + |r| <= i < |s| ==> s[i] == front[i - lo]
  {
  }

  /** Dropping whitespace from the front and then from the back leaves a slice of `s`
      with only whitespace around it. */
  lemma TrimmedAtParts(s: string, front: string, r: string)
    requires |front| <= |s| && front == s[|s| - |front|..]
    requires forall i :: 0 <= i < |s| - |front| ==> IsJsWhitespace(s[i])
    requires |r| <= |front| && r == front[..|r|]
    requires forall i :: |r| <= i < |front| ==> IsJsWhitespace(front[i])
    ensures TrimmedAt(s, r, |s| - |front|)
  {
    SliceOfSuffix(s, front, r);
  }

  /** Trimming the back of the front-trimmed string yields such a slice. */
  lemma TrimmedAtFront(s: string)
    ensures TrimmedAt(s, TrimEnd(TrimStart(s)), |s| - |TrimStart(s)|)
  {
    TrimmedAtParts(s, TrimStart(s), TrimEnd(TrimStart(s)));
  }

  /** `s.trim()`: the slice of `s` left once whitespace is dropped at both ends. */
  function Trim(s: string): (r: string)
    ensures exists lo :: TrimmedAt(s, r, lo)
    ensures |r| > 0 ==> !IsJsWhitespace(r[0]) && !IsJsWhitespace(r[|r| - 1])
  {
    TrimmedAtFront(s);
    TrimEnd(TrimStart(s))
  }

  /** Trimming has one possible result: the slice between the first and the last
      non-whitespace character, or nothing when there is none. */
  lemma {:induction false} TrimUnique(s: string, lo: int, hi: int)
    requires 0 <= lo <= hi <= |s|
    requires forall i :: 0 <= i < lo ==> IsJsWhitespace(s[i])
    requires forall i :: hi <= i < |s| ==> IsJsWhitespace(s[i])
    requires lo == hi ==> forall i :: lo <= i < |s| ==> IsJsWhitespace(s[i])
    requires lo < hi ==> !IsJsWhitespace(s[lo]) && !IsJsWhitespace(s[hi - 1])
    ensures Trim(s) == s[lo..hi]
  {
    var front := TrimStart(s);
    if lo < hi {
      assert |s| - |front| == lo;
      var r := TrimEnd(front);
      assert |r| == hi - lo;
    }
  }

  /** Trimming a trimmed string changes nothing. */
  lemma TrimIdempotent(s: string)
    ensures Trim(Trim(s)) == Trim(s)
  {
    var t := Trim(s);
    if |t| > 0 {
      TrimKeeps(t);
    }
  }

  /** `replace(/^https?:\/\//, '')`: one leading "https://" or "http://" is removed. */
  function StripProtocol(s: string): (r: string)
    ensures StartsWith(s, "https://") ==> r == s[8..]
    ensures !StartsWith(s, "https://") && StartsWith(s, "http://") ==> r == s[7..]
    ensures !StartsWith(s, "https://") && !StartsWith(s, "http://") ==> r == s
  {
    if StartsWith(s, "https://") then s[8..]
    else if StartsWith(s, "http://") then s[7..]
    else s
  }

  /** `replace(/\/$/, '')`: one trailing slash is removed. */
  function StripTrailingSlash(s: string): (r: string)
    ensures |s| > 0 && s[|s| - 1] == '/' ==> r == s[..|s| - 1]
    ensures (|s| == 0 || s[|s| - 1] != '/') ==> r == s
  {
    if |s| > 0 && s[|s| - 1] == '/' then s[..|s| - 1] else s
  }

  /** Cutting the protocol and the slash leaves a slice of `t` at offset 0, 7 or 8,
      at most nine characters shorter. */
  lemma StripsToSlice(t: string)
    ensures var r := StripTrailingSlash(StripProtocol(t));
      && |t| - 9 <= |r| <= |t|
      && (OccursAt(t, r, 0) || OccursAt(t, r, 7) || OccursAt(t, r, 8))
  {
    var p := StripProtocol(t);
    var k := |t| - |p|;
    assert p == t[k..];
    assert OccursAt(t, StripTrailingSlash(p), k);
  }

  /** The three cleaning steps in order: what is left of the trimmed input once at most
      a protocol prefix and a slash are cut off. */
  function CleanDomain(domain: string): (r: string)
    ensures var t := Trim(domain);
      && |t| - 9 <= |r| <= |t|
      && (OccursAt(t, r, 0) || OccursAt(t, r, 7) || OccursAt(t, r, 8))
  {
    var t := Trim(domain);
    StripsToSlice(t);
    StripTrailingSlash(StripProtocol(t))
  }

  /** What handleSubmit does with the raw input. */
  datatype Submission =
    | EmptyInput          // 'Please enter a domain'
    | InvalidDomain       // 'Please enter a valid domain'
    | Submit(domain: string)

  /** handleSubmit: reject an empty input, clean it, reject an empty result, submit it. */
  function HandleSubmit(domain: string): (r: Submission)
    ensures r.EmptyInput? <==> domain == ""
    ensures r.InvalidDomain? <==> domain != "" && CleanDomain(domain) == ""
    ensures r.Submit? <==> domain != "" && CleanDomain(domain) != ""
    ensures r.Submit? ==> r.domain == CleanDomain(domain) && |r.domain| <= |domain|
  {
    if domain == "" then EmptyInput
    else
      var cleanDomain := CleanDomain(domain);
      if cleanDomain == "" then InvalidDomain else Submit(cleanDomain)
  }

  /** A string whose character at `i` differs from the prefix's does not start with it. */
  lemma DiffersAt(s: string, prefix: string, i: int)
    requires 0 <= i < |prefix| && i < |s| && s[i] != prefix[i]
    ensures !StartsWith(s, prefix)
  {
  }

  /** A string with no whitespace at either end is its own trim. */
  lemma TrimKeeps(s: string)
    requires |s| > 0 && !IsJsWhitespace(s[0]) && !IsJsWhitespace(s[|s| - 1])
    ensures Trim(s) == s
  {
    TrimUnique(s, 0, |s|);
  }

  /** "http://" is removed when the fifth character is not the "s" of "https://". */
  lemma StripsHttp(s: string)
    requires |s| >= 7 && s[..7] == "http://"
    ensures StripProtocol(s) == s[7..]
  {
    DiffersAt(s, "https://", 4);
  }

  /** Nothing is removed from a string that does not start with "h". */
  lemma KeepsNonProtocol(s: string)
    requires |s| > 0 && s[0] != 'h'
    ensures StripProtocol(s) == s
  {
    DiffersAt(s, "https://", 0);
    DiffersAt(s, "http://", 0);
  }

  lemma DoubleProtocolTrimmed()
    ensures Trim("http://http://a") == "http://http://a"
  {
    TrimKeeps("http://http://a");
  }

  lemma DoubleProtocolStripped()
    ensures StripProtocol("http://http://a") == "http://a"
  {
    assert "http://http://a"[..7] == "http://";
    StripsHttp("http://http://a");
    assert "http://http://a"[7..] == "http://a";
  }

  /** Only one protocol prefix is removed. */
  lemma StripsOneProtocol()
    ensures HandleSubmit("http://http://a") == Submit("http://a")
  {
    DoubleProtocolTrimmed();
    DoubleProtocolStripped();
  }

  lemma DoubleSlashTrimmed()
    ensures Trim("a.com//") == "a.com//" && Trim("a.com/") == "a.com/"
  {
    TrimKeeps("a.com//");
    TrimKeeps("a.com/");
  }

  lemma DoubleSlashUnprefixed()
    ensures StripProtocol("a.com//") == "a.com//" && StripProtocol("a.com/") == "a.com/"
  {
    KeepsNonProtocol("a.com//");
    KeepsNonProtocol("a.com/");
  }

  /** Only one trailing slash is removed, so cleaning twice can differ from cleaning once. */
  lemma CleaningNotIdempotent()
    ensures CleanDomain("a.com//") == "a.com/"
    ensures CleanDomain(CleanDomain("a.com//")) == "a.com"
  {
    DoubleSlashTrimmed();
    DoubleSlashUnprefixed();
    assert "a.com//"[..6] == "a.com/";
    assert "a.com/"[..5] == "a.com";
  }

  lemma BlankTrimmed()
    ensures Trim("   ") == ""
  {
    TrimUnique("   ", 0, 0);
  }

  lemma ProtocolOnlyTrimmed()
    ensures Trim("https://") == "https://"
  {
    TrimKeeps("https://");
  }

  lemma ProtocolOnlyStripped()
    ensures StripProtocol("https://") == ""
  {
    assert "https://"[..8] == "https://";
  }

  /** Inputs that clean to nothing are rejected; only the empty input is rejected as missing. */
  lemma RejectedInputs()
    ensures HandleSubmit("") == EmptyInput
    ensures HandleSubmit("   ") == InvalidDomain
    ensures HandleSubmit("https://") == InvalidDomain
  {
    BlankTrimmed();
    ProtocolOnlyTrimmed();
    ProtocolOnlyStripped();
  }

  lemma TypicalInputTrimmed()
    ensures Trim(" https://example.com/\n") == "https://example.com/"
  {
    var raw := " https://example.com/\n";
    TrimUnique(raw, 1, 21);
    assert raw[1..21] == "https://example.com/";
  }

  lemma TypicalInputStripped()
    ensures StripProtocol("https://example.com/") == "example.com/"
  {
    var t := "https://example.com/";
    assert t[..8] == "https://";
    assert t[8..] == "example.com/";
  }

  /** Surrounding whitespace, the protocol and the trailing slash are all removed. */
  lemma CleansTypicalInput()
    ensures HandleSubmit(" https://example.com/\n") == Submit("example.com")
  {
    TypicalInputTrimmed();
    TypicalInputStripped();
    assert "example.com/"[..11] == "example.com";
    assert StripTrailingSlash("example.com/") == "example.com";
    assert CleanDomain(" https://example.com/\n") == "example.com";
  }

  lemma SpaceAfterProtocolTrimmed()
    ensures Trim("http:// a.com") == "http:// a.com"
  {
    TrimKeeps("http:// a.com");
  }

  lemma SpaceAfterProtocolStripped()
    ensures StripProtocol("http:// a.com") == " a.com"
  {
    assert "http:// a.com"[..7] == "http://";
    StripsHttp("http:// a.com");
    assert "http:// a.com"[7..] == " a.com";
  }

  /** Trimming comes first, so whitespace behind the protocol survives cleaning. */
  lemma WhitespaceBehindProtocolSurvives()
    ensures HandleSubmit("http:// a.com") == Submit(" a.com")
  {
    SpaceAfterProtocolTrimmed();
    SpaceAfterProtocolStripped();
  }

  /** Without a protocol prefix or trailing slash after trimming, the submitted domain
      has no surrounding whitespace. */
  lemma CleanDomainTrimmed(domain: string)
    requires var t := Trim(domain);
      !StartsWith(t, "https://") && !StartsWith(t, "http://") && (|t| == 0 || t[|t| - 1] != '/')
    ensures var r := CleanDomain(domain);
      |r| > 0 ==> !IsJsWhitespace(r[0]) && !IsJsWhitespace(r[|r| - 1])
  {
  }
}
