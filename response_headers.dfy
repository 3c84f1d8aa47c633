/** `getAllowFramingResponseHeader`: the response header the HUD sends for its own pages,
    one CRLF-terminated line per field, in a fixed order. */
module ResponseHeaders {
  import opened JavaStrings

  /** Java's `int`. */
  type Int32 = n: int | -0x8000_0000 <= n < 0x8000_0000

  const Crlf: string := "\r\n"

  /** The content security policy, written directive by directive. */
  const CspPolicy: string :=
    "default-src 'none'; " + "script-src 'self'; " + "connect-src https://zap wss://zap; " + "frame-src 'self'; "
    + "img-src 'self' data:; " + "font-src 'self' data:; " + "style-src 'self' 'unsafe-inline' ;"

  /** The same policy with `'unsafe-eval'` allowed for scripts; the header never uses it. */
  const CspPolicyUnsafeEval: string :=
    "default-src 'none'; " + "script-src 'self' 'unsafe-eval'; " + "connect-src https://zap wss://zap; " + "frame-src 'self'; "
    + "img-src 'self' data:; " + "font-src 'self' data:; " + "style-src 'self' 'unsafe-inline' ;"

  const NoCachePragma: string := "Pragma: no-cache"
  const NoCacheControl: string := "Cache-Control: no-cache"
  const PublicCacheControl: string := "Cache-Control: public,max-age=3000000"
  const CspPrefix: string := "Content-Security-Policy: "
  const LengthPrefix: string := "Content-Length: "
  const TypePrefix: string := "Content-Type: "

  const CspLine: string := CspPrefix + CspPolicy
  const AllowMethods: string := "Access-Control-Allow-Methods: " + "GET,POST,OPTIONS"
  const AllowHeaders: string := "Access-Control-Allow-Headers: ZAP-Header"
  const XssProtection: string := "X-XSS-Protection: 1; mode=block"
  const NoSniff: string := "X-Content-Type-Options: nosniff"
  const Clacks: string := "X-Clacks-Overhead: GNU Terry Pratchett"

  /** The fixed lines after the cache directive, before the length and type. */
  const FixedLines: seq<string> := [CspLine, AllowMethods, AllowHeaders, XssProtection, NoSniff, Clacks]

  /** The cache directive lines chosen by `canCache`. */
  function CacheLines(canCache: bool): seq<string> {
    if canCache then [PublicCacheControl] else [NoCachePragma, NoCacheControl]
  }

  /** The header lines, without their line terminators, in the order they are sent. */
  function HeaderLines(status: string, contentType: string, contentLength: Int32, canCache: bool): seq<string> {
    ["HTTP/1.1 " + status] + CacheLines(canCache) + FixedLines + EntityLines(contentType, contentLength)
  }

  /** The last two lines: the length and the type of the body. */
  function EntityLines(contentType: string, contentLength: Int32): seq<string> {
    [LengthPrefix + IntToString(contentLength), TypePrefix + contentType]
  }

  /** Lines each followed by CRLF. */
  function Render(lines: seq<string>): string
    decreases |lines|
  {
    if lines == [] then [] else lines[0] + Crlf + Render(lines[1..])
  }

  /** Cut text at each CRLF; a final piece without CRLF is kept as a line. */
  function SplitCrlf(s: string): seq<string>
    decreases |s|
  {
    if s == [] then []
    else
      var i := IndexOf(s, Crlf);
      if i < 0 then [s] else [s[..i]] + SplitCrlf(s[i + 2..])
  }

  lemma {:induction false} RenderSnoc(lines: seq<string>, line: string)
    ensures Render(lines + [line]) == Render(lines) + line + Crlf
    decreases |lines|
  {
    if lines == [] {
      assert lines + [line] == [line];
      assert [line][1..] == [];
    } else {
      assert (lines + [line])[1..] == lines[1..] + [line];
      RenderSnoc(lines[1..], line);
    }
  }

  /** One more line of `h` rendered. */
  lemma RenderPrefixSnoc(h: seq<string>, j: nat)
    requires j < |h|
    ensures Render(h[..j + 1]) == Render(h[..j]) + h[j] + Crlf
  {
    assert h[..j + 1] == h[..j] + [h[j]];
    RenderSnoc(h[..j], h[j]);
  }

  lemma TakeAll(h: seq<string>)
    ensures h[..|h|] == h
  {
  }

  /** Where each line sits in the header. */
  lemma HeaderLineAt(status: string, contentType: string, contentLength: Int32, canCache: bool)
    ensures var h := HeaderLines(status, contentType, contentLength, canCache);
      var o := if canCache then 2 else 3;
      && |h| == o + 8
      && h[0] == "HTTP/1.1 " + status
      && (canCache ==> h[1] == PublicCacheControl)
      && (!canCache ==> h[1] == NoCachePragma && h[2] == NoCacheControl)
      && h[o] == FixedLines[0] && h[o + 1] == FixedLines[1] && h[o + 2] == FixedLines[2]
      && h[o + 3] == FixedLines[3] && h[o + 4] == FixedLines[4] && h[o + 5] == FixedLines[5]
      && h[o + 6] == LengthPrefix + IntToString(contentLength)
      && h[o + 7] == TypePrefix + contentType
  {
  }

  /** `getAllowFramingResponseHeader`: appends each line and its CRLF to a buffer. */
  method GetAllowFramingResponseHeader(status: string, contentType: string, contentLength: Int32, canCache: bool)
      returns (sb: string)
    ensures sb == Render(HeaderLines(status, contentType, contentLength, canCache))
  {
    ghost var h := HeaderLines(status, contentType, contentLength, canCache);
    HeaderLineAt(status, contentType, contentLength, canCache);
    ghost var o := if canCache then 2 else 3;
    sb := [];
    assert h[..0] == [];
    sb := sb + ("HTTP/1.1 " + status) + Crlf;
    RenderPrefixSnoc(h, 0);
    if !canCache {
      sb := sb + NoCachePragma + Crlf;
      RenderPrefixSnoc(h, 1);
      sb := sb + NoCacheControl + Crlf;
      RenderPrefixSnoc(h, 2);
    } else {
      sb := sb + PublicCacheControl + Crlf;
      RenderPrefixSnoc(h, 1);
    }
    assert sb == Render(h[..o]);
    sb := sb + CspLine + Crlf;
    RenderPrefixSnoc(h, o);
    sb := sb + AllowMethods + Crlf;
    RenderPrefixSnoc(h, o + 1);
    sb := sb + AllowHeaders + Crlf;
    RenderPrefixSnoc(h, o + 2);
    sb := sb + XssProtection + Crlf;
    RenderPrefixSnoc(h, o + 3);
    sb := sb + NoSniff + Crlf;
    RenderPrefixSnoc(h, o + 4);
    sb := sb + Clacks + Crlf;
    RenderPrefixSnoc(h, o + 5);
    sb := sb + (LengthPrefix + IntToString(contentLength)) + Crlf;
    RenderPrefixSnoc(h, o + 6);
    sb := sb + (TypePrefix + contentType) + Crlf;
    RenderPrefixSnoc(h, o + 7);
    TakeAll(h);
  }

  /** The first CRLF in `line + CRLF + rest` ends `line` when `line` holds no CR. */
  lemma FirstCrlf(line: string, rest: string)
    requires '\r' !in line
    ensures IndexOf(line + Crlf + rest, Crlf) == |line|
  {
    var s := line + Crlf + rest;
    assert OccursAt(s, Crlf, |line|) by { assert s[|line|..|line| + 2] == Crlf; }
    var i := IndexOf(s, Crlf);
    assert i != -1;
    assert i <= |line|;
    assert s[i] == s[i..i + 2][0] == '\r';
    forall j | 0 <= j < |line| ensures s[j] != '\r' {
      assert s[j] == line[j];
    }
  }

  /** No line holds a CR. */
  predicate NoCrLines(lines: seq<string>) {
    forall k :: 0 <= k < |lines| ==> '\r' !in lines[k]
  }

  lemma NoCrLinesConcat(a: seq<string>, b: seq<string>)
    requires NoCrLines(a) && NoCrLines(b)
    ensures NoCrLines(a + b)
  {
    forall k | 0 <= k < |a + b| ensures '\r' !in (a + b)[k] {
      if k < |a| { assert (a + b)[k] == a[k]; } else { assert (a + b)[k] == b[k - |a|]; }
    }
  }

  /** A first line without CR is split off at its CRLF. */
  lemma SplitFirstLine(line: string, rest: string)
    requires '\r' !in line
    ensures SplitCrlf(line + Crlf + rest) == [line] + SplitCrlf(rest)
  {
    var s := line + Crlf + rest;
    FirstCrlf(line, rest);
    assert s[..|line|] == line;
    assert s[|line| + 2..] == rest;
  }

  /** Splitting the rendered header at each CRLF gives back its lines, as long as no
      line holds a CR of its own. */
  lemma {:induction false} SplitRender(lines: seq<string>)
    requires forall k :: 0 <= k < |lines| ==> '\r' !in lines[k]
    ensures SplitCrlf(Render(lines)) == lines
    decreases |lines|
  {
    if lines != [] {
      SplitFirstLine(lines[0], Render(lines[1..]));
      SplitRender(lines[1..]);
      assert lines == [lines[0]] + lines[1..];
    }
  }

  /** The rendered header ends in CRLF. */
  lemma {:induction false} RenderEndsInCrlf(lines: seq<string>)
    requires lines != []
    ensures |Render(lines)| >= 2 && Render(lines)[|Render(lines)| - 2..] == Crlf
    decreases |lines|
  {
    if |lines| > 1 {
      RenderEndsInCrlf(lines[1..]);
      var r := Render(lines[1..]);
      assert Render(lines)[|Render(lines)| - 2..] == r[|r| - 2..];
    }
  }

  lemma SourceDirectivesHaveNoCr()
    ensures '\r' !in "default-src 'none'; " && '\r' !in "script-src 'self'; "
    ensures '\r' !in "connect-src https://zap wss://zap; "
  {
  }

  lemma AssetDirectivesHaveNoCr()
    ensures '\r' !in "frame-src 'self'; " && '\r' !in "img-src 'self' data:; "
    ensures '\r' !in "font-src 'self' data:; " && '\r' !in "style-src 'self' 'unsafe-inline' ;"
  {
  }

  lemma CspPolicyHasNoCr()
    ensures '\r' !in CspPolicy
  {
    SourceDirectivesHaveNoCr();
    AssetDirectivesHaveNoCr();
  }

  lemma PolicyLinesHaveNoCr()
    ensures '\r' !in CspLine && '\r' !in AllowMethods && '\r' !in AllowHeaders
  {
    CspPolicyHasNoCr();
    assert '\r' !in CspPrefix;
  }

  lemma OptionLinesHaveNoCr()
    ensures '\r' !in XssProtection && '\r' !in NoSniff && '\r' !in Clacks
  {
  }

  lemma FixedLinesHaveNoCr()
    ensures NoCrLines(FixedLines)
  {
    PolicyLinesHaveNoCr();
    OptionLinesHaveNoCr();
  }

  /** `line` and `other` both have a position `i`, and differ there. */
  predicate DiffersAt(line: string, other: string, i: nat) {
    i < |line| && i < |other| && line[i] != other[i]
  }

  lemma CacheLinesNotFixed()
    ensures NoCachePragma !in FixedLines && NoCacheControl !in FixedLines && PublicCacheControl !in FixedLines
  {
    assert DiffersAt(CspLine, NoCachePragma, 0) && DiffersAt(CspLine, NoCacheControl, 1);
    assert DiffersAt(CspLine, PublicCacheControl, 1);
  }

  /** The status line and the chosen cache lines hold only the chosen directive. */
  lemma CacheLinesInFront(status: string, canCache: bool)
    ensures var front := ["HTTP/1.1 " + status] + CacheLines(canCache);
      && (canCache ==> PublicCacheControl in front && NoCachePragma !in front && NoCacheControl !in front)
      && (!canCache ==> NoCachePragma in front && NoCacheControl in front && PublicCacheControl !in front)
  {
    var front := ["HTTP/1.1 " + status] + CacheLines(canCache);
    assert DiffersAt(front[0], NoCachePragma, 0) && DiffersAt(front[0], NoCacheControl, 0);
    assert DiffersAt(front[0], PublicCacheControl, 0);
    if canCache {
      assert front[1] == PublicCacheControl;
      assert DiffersAt(front[1], NoCachePragma, 0) && DiffersAt(front[1], NoCacheControl, 15);
    } else {
      assert front[1] == NoCachePragma && front[2] == NoCacheControl;
      assert DiffersAt(front[1], PublicCacheControl, 0) && DiffersAt(front[2], PublicCacheControl, 15);
    }
  }

  /** No cache directive is among the length and type lines. */
  lemma CacheLinesNotEntity(contentType: string, contentLength: Int32)
    ensures var entity := EntityLines(contentType, contentLength);
      NoCachePragma !in entity && NoCacheControl !in entity && PublicCacheControl !in entity
  {
    var entity := EntityLines(contentType, contentLength);
    assert DiffersAt(entity[0], NoCachePragma, 0) && DiffersAt(entity[0], NoCacheControl, 1);
    assert DiffersAt(entity[1], NoCachePragma, 0) && DiffersAt(entity[1], NoCacheControl, 1);
    assert DiffersAt(entity[0], PublicCacheControl, 1) && DiffersAt(entity[1], PublicCacheControl, 1);
  }

  /** Exactly one cache directive is sent: with `canCache` neither no-cache line appears,
      without it the public directive does not. */
  lemma CacheDirectiveExclusive(status: string, contentType: string, contentLength: Int32, canCache: bool)
    ensures var h := HeaderLines(status, contentType, contentLength, canCache);
      && (canCache ==> PublicCacheControl in h && NoCachePragma !in h && NoCacheControl !in h)
      && (!canCache ==> NoCachePragma in h && NoCacheControl in h && PublicCacheControl !in h)
  {
    var front := ["HTTP/1.1 " + status] + CacheLines(canCache);
    var entity := EntityLines(contentType, contentLength);
    CacheLinesNotFixed();
    CacheLinesInFront(status, canCache);
    CacheLinesNotEntity(contentType, contentLength);
    assert HeaderLines(status, contentType, contentLength, canCache) == front + FixedLines + entity;
  }

  lemma UnsafeNotFixed()
    ensures CspPrefix + CspPolicyUnsafeEval !in FixedLines
  {
    var unsafe := CspPrefix + CspPolicyUnsafeEval;
    assert |CspLine| != |unsafe|;
    assert DiffersAt(AllowMethods, unsafe, 0) && DiffersAt(AllowHeaders, unsafe, 0);
    assert DiffersAt(XssProtection, unsafe, 0) && DiffersAt(NoSniff, unsafe, 0) && DiffersAt(Clacks, unsafe, 0);
  }

  lemma UnsafeNotAround(status: string, contentType: string, contentLength: Int32, canCache: bool)
    ensures CspPrefix + CspPolicyUnsafeEval !in ["HTTP/1.1 " + status] + CacheLines(canCache)
    ensures CspPrefix + CspPolicyUnsafeEval !in EntityLines(contentType, contentLength)
  {
    var unsafe := CspPrefix + CspPolicyUnsafeEval;
    var front := ["HTTP/1.1 " + status] + CacheLines(canCache);
    var entity := EntityLines(contentType, contentLength);
    assert DiffersAt(front[0], unsafe, 1) && DiffersAt(front[1], unsafe, 1);
    assert !canCache ==> DiffersAt(front[2], unsafe, 1);
    assert DiffersAt(entity[0], unsafe, 8) && DiffersAt(entity[1], unsafe, 8);
  }

  /** The policy sent is the one without `'unsafe-eval'`: that variant never appears. */
  lemma NeverUnsafeEval(status: string, contentType: string, contentLength: Int32, canCache: bool)
    ensures var h := HeaderLines(status, contentType, contentLength, canCache);
      CspLine in h && CspPrefix + CspPolicyUnsafeEval !in h
  {
    var front := ["HTTP/1.1 " + status] + CacheLines(canCache);
    var entity := EntityLines(contentType, contentLength);
    UnsafeNotFixed();
    UnsafeNotAround(status, contentType, contentLength, canCache);
    assert HeaderLines(status, contentType, contentLength, canCache) == front + FixedLines + entity;
    assert FixedLines[0] == CspLine;
  }

  /** The length line reads back as the content length. */
  lemma ContentLengthReadsBack(contentLength: Int32)
    requires contentLength >= 0
    ensures var line := LengthPrefix + IntToString(contentLength);
      DecimalValue(line[|LengthPrefix|..]) == contentLength
  {
    var line := LengthPrefix + IntToString(contentLength);
    assert line[|LengthPrefix|..] == NatToString(contentLength);
    NatToStringValue(contentLength);
  }

  /** No header line holds a CR when the status and the content type hold none. */
  lemma HeaderLinesHaveNoCr(status: string, contentType: string, contentLength: Int32, canCache: bool)
    requires '\r' !in status && '\r' !in contentType
    ensures NoCrLines(HeaderLines(status, contentType, contentLength, canCache))
  {
    var front := ["HTTP/1.1 " + status] + CacheLines(canCache);
    FrontLinesHaveNoCr(status, canCache);
    EntityLinesHaveNoCr(contentType, contentLength);
    FixedLinesHaveNoCr();
    NoCrLinesConcat(front, FixedLines);
    NoCrLinesConcat(front + FixedLines, EntityLines(contentType, contentLength));
  }

  lemma FrontLinesHaveNoCr(status: string, canCache: bool)
    requires '\r' !in status
    ensures NoCrLines(["HTTP/1.1 " + status] + CacheLines(canCache))
  {
    assert '\r' !in "HTTP/1.1 ";
    assert '\r' !in NoCachePragma && '\r' !in NoCacheControl && '\r' !in PublicCacheControl;
  }

  lemma EntityLinesHaveNoCr(contentType: string, contentLength: Int32)
    requires '\r' !in contentType
    ensures NoCrLines(EntityLines(contentType, contentLength))
  {
    IntToStringHasNoNewline(contentLength);
    assert '\r' !in LengthPrefix && '\r' !in TypePrefix;
  }

  /** With a status and a content type free of CR, the header splits back into exactly
      its lines, each having been sent with its CRLF. */
  lemma HeaderRoundTrip(status: string, contentType: string, contentLength: Int32, canCache: bool)
    requires '\r' !in status && '\r' !in contentType
    ensures SplitCrlf(Render(HeaderLines(status, contentType, contentLength, canCache)))
         == HeaderLines(status, contentType, contentLength, canCache)
  {
    HeaderLinesHaveNoCr(status, contentType, contentLength, canCache);
    var h := HeaderLines(status, contentType, contentLength, canCache);
    SplitRender(h);
  }
}
