/** The code-block extractor: the first Python-fenced block of a model reply,
    as the regular expression ```` ```python\n(.*?)\n``` ```` (with DOTALL)
    finds it through `re.search`, modelled without a regex engine. */
module CodeBlocks {
  import opened Common
  import opened Text

  /** The opening fence, newline included (10 characters). */
  const Opener: string := "```python\n"

  /** The closing fence: a newline and three backticks; nothing is required
      after it. */
  const Closer: string := "\n```"

  /* ----- Reference semantics of the regular-expression search ----- */

  /** Some match of the pattern spans `s[p..e + |Closer|]`: an opener at `p`
      and a closer at `e`, with the body `s[p + |Opener|..e]` in between. */
  ghost predicate IsMatch(s: string, p: int, e: int)
  {
    OccursAt(s, Opener, p) && p + |Opener| <= e && OccursAt(s, Closer, e)
  }

  /** The lazy `(.*?)` stops at the first closer after the opener. */
  ghost predicate IsLazyMatch(s: string, p: int, e: int)
  {
    && IsMatch(s, p, e)
    && forall k :: p + |Opener| <= k < e ==> !OccursAt(s, Closer, k)
  }

  /** What `re.search` reports: the lazy match at the leftmost start index
      from which the pattern matches at all. */
  ghost predicate IsFirstMatch(s: string, p: int, e: int)
  {
    && IsLazyMatch(s, p, e)
    && forall q, k :: q < p ==> !IsMatch(s, q, k)
  }

  /* ----- The extractor ----- */

  /** Body of the first Python-fenced block of `reply`, or "" when there is
      none. The opener is the leftmost occurrence of `Opener`; the body ends at
      the first `Closer` at or after the end of that opener. */
  function MatchCodeBlocks(reply: string): (r: string)
    ensures r != "" ==> exists p :: OccursAt(reply, Opener + r + Closer, p)
    ensures !Contains(r, Closer)
    ensures !Contains(reply, Opener) ==> r == ""
    ensures |r| + |Opener| + |Closer| <= |reply| || r == ""
  {
    match IndexFrom(reply, Opener, 0)
    case None => ""
    case Some(p) =>
      match IndexFrom(reply, Closer, p + |Opener|)
      case None => ""
      case Some(e) =>
        var body := reply[p + |Opener|..e];
        BodyHasNoCloser(reply, p, e);
        FencedBodyOccurs(reply, p, e);
        body
  }

  /** A body that ends at the first closer after the opener contains no
      closer itself. */
  lemma BodyHasNoCloser(s: string, p: int, e: int)
    requires IsLazyMatch(s, p, e)
    ensures !Contains(s[p + |Opener|..e], Closer)
  {
    var b := s[p + |Opener|..e];
    if k :| 0 <= k <= |b| && OccursAt(b, Closer, k) {
      OccursInSlice(s, p + |Opener|, e, Closer, k);
      assert false;
    }
  }

  /** The fenced block (opener, body, closer) occurs verbatim at the match. */
  lemma FencedBodyOccurs(s: string, p: int, e: int)
    requires IsMatch(s, p, e)
    ensures OccursAt(s, Opener + s[p + |Opener|..e] + Closer, p)
  {
    var block := Opener + s[p + |Opener|..e] + Closer;
    assert s[p..p + |Opener|] == Opener;
    assert s[e..e + |Closer|] == Closer;
    assert s[p..e + |Closer|] == s[p..p + |Opener|] + s[p + |Opener|..e] + s[e..e + |Closer|];
  }

  /* ----- The extractor agrees with the regular-expression search ----- */

  /** If the leftmost opener has no closer after it, no later opener has one
      either: the pattern does not match anywhere. So "first match" is the same
      as "leftmost opener". */
  lemma LeftmostOpenerWithoutCloser(s: string, p: int)
    requires OccursAt(s, Opener, p)
    requires forall q :: 0 <= q < p ==> !OccursAt(s, Opener, q)
    requires forall k :: p + |Opener| <= k ==> !OccursAt(s, Closer, k)
    ensures forall q, k :: !IsMatch(s, q, k)
  {
  }

  /** Whenever the pattern matches, the extractor returns the group of the
      match that `re.search` reports. */
  lemma {:induction false} FirstMatchIsExtracted(s: string, p: int, e: int)
    requires IsFirstMatch(s, p, e)
    ensures MatchCodeBlocks(s) == s[p + |Opener|..e]
  {
    var op := IndexFrom(s, Opener, 0);
    assert op.Some?;
    var p0 := op.value;
    assert p0 <= p;
    assert p0 + |Opener| <= e ==> IsMatch(s, p0, e);
    assert p0 == p;
    var cl := IndexFrom(s, Closer, p + |Opener|);
    assert cl.Some?;
    assert cl.value == e;
  }

  /** The extractor is exactly the regular-expression search: either the
      pattern matches and the result is the first match's group, or it matches
      nowhere and the result is "". */
  lemma ExtractorIsRegexSearch(s: string)
    ensures || (exists p, e :: IsFirstMatch(s, p, e) && MatchCodeBlocks(s) == s[p + |Opener|..e])
            || ((forall p, e :: !IsMatch(s, p, e)) && MatchCodeBlocks(s) == "")
  {
    match IndexFrom(s, Opener, 0)
    case None =>
    case Some(p) =>
      match IndexFrom(s, Closer, p + |Opener|)
      case None =>
        LeftmostOpenerWithoutCloser(s, p);
      case Some(e) =>
        assert IsFirstMatch(s, p, e);
  }

  /** Without any match of the pattern the extractor returns "". */
  lemma NoMatchGivesEmpty(s: string)
    requires forall p, e :: !IsMatch(s, p, e)
    ensures MatchCodeBlocks(s) == ""
  {
    ExtractorIsRegexSearch(s);
  }

  /* ----- Blocks written out ----- */

  /** A text without a newline contains no closer. */
  lemma NoNewlineNoCloser(b: string)
    requires '\n' !in b
    ensures !Contains(b, Closer)
  {
    forall k | 0 <= k <= |b|
      ensures !OccursAt(b, Closer, k)
    {
      if k + |Closer| <= |b| {
        assert b[k..k + |Closer|][0] == b[k];
      }
    }
  }

  /** An opener cannot start at an index among the first characters of another
      opener: the two would disagree on a backtick. */
  lemma OpenersDoNotOverlap(s: string, p: int, q: int)
    requires OccursAt(s, Opener, p)
    requires p - |Opener| < q < p
    ensures !OccursAt(s, Opener, q)
  {
    if 0 <= q && q + |Opener| <= |s| {
      var d := p - q;
      var idx := if d <= 2 then 3 else d;
      assert s[q + idx] == s[p..p + |Opener|][idx - d] == '`';
      assert s[q..q + |Opener|][idx] == s[q + idx];
      assert Opener[idx] != '`';
    }
  }

  /** A well-formed block preceded by text without an opener yields exactly its
      body, whatever follows the closing fence (more blocks, or text glued to
      the fence such as "python"). */
  lemma {:induction false} FirstBlockWins(pre: string, body: string, rest: string)
    requires !Contains(pre, Opener)
    requires !Contains(body, Closer)
    ensures MatchCodeBlocks(pre + Opener + body + Closer + rest) == body
  {
    var s := pre + Opener + body + Closer + rest;
    var p := |pre|;
    var e := p + |Opener| + |body|;
    assert s[p..p + |Opener|] == Opener;
    assert s[e..e + |Closer|] == Closer;
    assert s[p + |Opener|..e] == body;
    assert s[e] == '\n';
    forall k | p + |Opener| <= k < e
      ensures !OccursAt(s, Closer, k)
    {
      var i := k - p - |Opener|;
      if k + |Closer| <= e {
        assert body[i..i + |Closer|] == s[k..k + |Closer|];
        assert !OccursAt(body, Closer, i);
      } else if k + |Closer| <= |s| {
        assert s[k..k + |Closer|][e - k] == s[e];
      }
    }
    forall q, k | q < p
      ensures !IsMatch(s, q, k)
    {
      if q < 0 {
      } else if q + |Opener| <= p {
        assert pre[q..q + |Opener|] == s[q..q + |Opener|];
        assert !OccursAt(pre, Opener, q);
      } else {
        OpenersDoNotOverlap(s, p, q);
      }
    }
    FirstMatchIsExtracted(s, p, e);
  }

  /** Concrete replies: an opener directly followed by the fence has no
      closer (the newline before the fence is required), and an empty body
      yields "". */
  lemma EmptyBlocksYieldEmpty()
    ensures MatchCodeBlocks("```python\n```") == ""
    ensures MatchCodeBlocks("```python\n\n```") == ""
  {
  }
}
