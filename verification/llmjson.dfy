/** The JSON-text extraction shared by frontend/app/api/analyze-prompts/route.ts
    and frontend/app/api/letta-analytics/route.ts:

      content.match(/```(?:json)?\s*([\s\S]*?)\s*```/) || content.match(/\{[\s\S]*\}/)
      jsonStr = jsonMatch[1] || jsonMatch[0]

    The fence pattern matches from the first three backticks that are
    followed, somewhere later, by another three; `json` right after the
    opening fence is always consumed; the lazy capture stops at the first
    closing fence and loses its surrounding white space. The brace pattern
    runs from the first `{` to the last `}`. */
module LlmJson {
  import opened Wrappers
  import opened Strings

  predicate AllSpace(s: string) {
    forall i :: 0 <= i < |s| ==> IsJsSpace(s[i])
  }

  /** The end of the run of `\s` characters starting at `i`. */
  function SpaceRunEnd(s: string, i: nat): (n: nat)
    requires i <= |s|
    decreases |s| - i
    ensures i <= n <= |s|
    ensures forall k :: i <= k < n ==> IsJsSpace(s[k])
    ensures n < |s| ==> !IsJsSpace(s[n])
  {
    if i < |s| && IsJsSpace(s[i]) then SpaceRunEnd(s, i + 1) else i
  }

  /** The start of the run of `\s` characters ending at `j`, not going
      below `lo`. */
  function SpaceRunStart(s: string, lo: nat, j: nat): (n: nat)
    requires lo <= j <= |s|
    decreases j
    ensures lo <= n <= j
    ensures forall k :: n <= k < j ==> IsJsSpace(s[k])
    ensures n > lo ==> !IsJsSpace(s[n - 1])
  {
    if j > lo && IsJsSpace(s[j - 1]) then SpaceRunStart(s, lo, j - 1) else j
  }

  /** The capture of `\s*([\s\S]*?)\s*` in front of a closing fence: the
      text between the fences without its surrounding white space. */
  function Trim(s: string): (r: string)
    ensures |r| <= |s|
  {
    var i := SpaceRunEnd(s, 0);
    s[i..SpaceRunStart(s, i, |s|)]
  }

  /** What `Trim` keeps is a slice of its input with only white space
      around it, and it neither starts nor ends with white space. */
  lemma TrimSlice(s: string)
    ensures exists i, j :: 0 <= i <= j <= |s| && Trim(s) == s[i..j] &&
                           AllSpace(s[..i]) && AllSpace(s[j..])
    ensures var r := Trim(s); |r| > 0 ==> !IsJsSpace(r[0]) && !IsJsSpace(r[|r| - 1])
  {
    var i := SpaceRunEnd(s, 0);
    var j := SpaceRunStart(s, i, |s|);
    assert AllSpace(s[..i]) by {
      forall k | 0 <= k < i ensures IsJsSpace(s[..i][k]) {
        assert s[..i][k] == s[k];
      }
    }
    assert AllSpace(s[j..]) by {
      forall k | 0 <= k < |s| - j ensures IsJsSpace(s[j..][k]) {
        assert s[j..][k] == s[j + k];
      }
    }
    if i < j {
      assert s[i..j][0] == s[i];
      assert s[i..j][j - i - 1] == s[j - 1];
    }
  }

  /** White space alone trims to nothing. */
  lemma TrimAllSpace(s: string)
    requires AllSpace(s)
    ensures Trim(s) == ""
  {
  }

  /** The first fence match: the whole match and the capture. */
  function FenceMatch(s: string): (r: Option<(string, string)>)
    ensures r.Some? ==> |r.value.0| >= 6 && |r.value.1| <= |r.value.0| - 6
  {
    match OpenFence(s)
    case None => None
    case Some(p0) =>
      var a := TagEnd(s, p0);
      match CloseFence(s, a)
      case None => None
      case Some(f) => Some((s[p0..f + 3], Trim(s[a..f])))
  }

  /** A fence match runs from one fence to another, at least three
      characters later; its capture is the trimmed text between the
      opening fence (or its `json` tag) and the closing fence. */
  lemma FenceMatchShape(s: string)
    ensures FenceMatch(s).Some? ==>
              exists p, q :: 0 <= p && p + 6 <= q <= |s| && FenceMatch(s).value.0 == s[p..q] &&
                OccursAt(s, "```", p) && OccursAt(s, "```", q - 3) &&
                (FenceMatch(s).value.1 == Trim(s[p + 3..q - 3]) ||
                 (p + 7 <= q - 3 && OccursAt(s, "json", p + 3) && FenceMatch(s).value.1 == Trim(s[p + 7..q - 3])))
  {
    if FenceMatch(s).Some? {
      var p0 := OpenFence(s).value;
      var f := CloseFence(s, TagEnd(s, p0)).value;
      FenceMatchFound(s, p0, TagEnd(s, p0), f);
    }
  }

  /** Where the first fence opens. */
  function OpenFence(s: string): (r: Option<nat>)
    ensures r.Some? ==> OccursAt(s, "```", r.value)
  {
    IndexOf(s, "```")
  }

  /** Where the capture starts: `json` right after the opening fence is
      consumed by `(?:json)?`. */
  function TagEnd(s: string, p0: nat): (a: nat)
    ensures a == p0 + 3 || a == p0 + 7
  {
    if OccursAt(s, "json", p0 + 3) then p0 + 7 else p0 + 3
  }

  /** Where the lazy capture stops: the first fence at or after `a`. */
  function CloseFence(s: string, a: nat): (r: Option<nat>)
    ensures r.Some? ==> a <= r.value && OccursAt(s, "```", r.value)
  {
    IndexOfFrom(s, "```", a)
  }

  /** The last index of `c` in `s`. */
  function LastIndexOf(s: string, c: char): (r: Option<nat>)
    ensures r.Some? ==> r.value < |s| && s[r.value] == c && forall j :: r.value < j < |s| ==> s[j] != c
    ensures r.None? ==> forall j :: 0 <= j < |s| ==> s[j] != c
  {
    if |s| == 0 then None
    else if s[|s| - 1] == c then Some(|s| - 1)
    else LastIndexOf(s[..|s| - 1], c)
  }

  /** The match of `\{[\s\S]*\}`: first `{` to last `}`, when the last `}`
      comes after the first `{`. */
  function BraceSpan(s: string): (r: Option<string>)
    ensures r.Some? ==> |r.value| >= 2 && r.value[0] == '{' && r.value[|r.value| - 1] == '}' && Contains(s, r.value)
  {
    var i := IndexOf(s, "{");
    var j := LastIndexOf(s, '}');
    if i.Some? && j.Some? && j.value > i.value then
      var span := s[i.value..j.value + 1];
      assert OccursAt(s, "{", i.value);
      assert OccursAt(s, span, i.value);
      ContainsIff(s, span);
      Some(span)
    else
      None
  }

  /** The brace pattern fails exactly when no `}` comes after a `{`. */
  lemma BraceSpanNone(s: string)
    ensures BraceSpan(s).None? <==> forall i, j :: 0 <= i < j < |s| ==> !(s[i] == '{' && s[j] == '}')
  {
    assert forall k :: 0 <= k < |s| && s[k] == '{' ==> OccursAt(s, "{", k);
  }

  /** The text handed to `JSON.parse`, or `None` when neither pattern
      matches. An empty capture is falsy, so the whole fence is used. */
  function JsonText(content: string): (r: Option<string>)
    ensures r.Some? ==> |r.value| > 0
  {
    match FenceMatch(content)
    case Some((whole, capture)) => Some(if capture != "" then capture else whole)
    case None => BraceSpan(content)
  }

  predicate NoBacktick(s: string) {
    forall i :: 0 <= i < |s| ==> s[i] != '`'
  }

  /** The first fence at or after `a` is at `f` when no backtick comes
      between them. */
  lemma FenceFound(s: string, a: nat, f: nat)
    requires a <= f && OccursAt(s, "```", f)
    requires forall k :: a <= k < f ==> s[k] != '`'
    ensures CloseFence(s, a) == Some(f)
    ensures a == 0 ==> OpenFence(s) == Some(f)
  {
    forall k | a <= k < f ensures !OccursAt(s, "```", k) {
      assert s[k..k + 3][0] == s[k];
    }
    var g := IndexOfFrom(s, "```", a);
    assert g.Some?;
  }

  /** Where the capture starts: after the opening fence and, when present,
      the `json` tag. */
  lemma TagConsumed(s: string, head: string, p0: nat, tag: string, inner: string, rest: string)
    requires |head| == p0 + 3 && s == head + tag + inner + "```" + rest
    requires tag == "json" || tag == ""
    requires tag == "" ==> !StartsWith(inner, "json")
    ensures TagEnd(s, p0) == p0 + 3 + |tag|
  {
    if tag == "json" {
      assert s[p0 + 3..p0 + 7] == "json";
      assert OccursAt(s, "json", p0 + 3);
    } else if |inner| >= 4 {
      assert s[p0 + 3..p0 + 7] == inner[..4];
      assert !OccursAt(s, "json", p0 + 3);
    } else {
      assert s[p0 + 3 + |inner|] == '`';
      assert |s| < p0 + 7 || s[p0 + 3..p0 + 7][|inner|] == '`';
      assert !OccursAt(s, "json", p0 + 3);
    }
  }

  /** The fence match once its three positions are known. */
  lemma FenceMatchAt(s: string, p0: nat, a: nat, f: nat, inner: string, whole: string)
    requires OpenFence(s) == Some(p0) && TagEnd(s, p0) == a && CloseFence(s, a) == Some(f)
    requires s[a..f] == inner && s[p0..f + 3] == whole
    ensures JsonText(s) == Some(if Trim(inner) != "" then Trim(inner) else whole)
  {
    FenceMatchFound(s, p0, a, f);
  }

  lemma FenceMatchFound(s: string, p0: nat, a: nat, f: nat)
    requires OpenFence(s) == Some(p0) && TagEnd(s, p0) == a && CloseFence(s, a) == Some(f)
    ensures a <= f + 3 <= |s| && FenceMatch(s) == Some((s[p0..f + 3], Trim(s[a..f])))
  {
  }

  /** Where the pieces of a fenced block sit in the text. */
  lemma FenceLayout(prefix: string, tag: string, inner: string, rest: string)
    ensures var s := prefix + "```" + tag + inner + "```" + rest;
            var a := |prefix| + 3 + |tag|;
            && OccursAt(s, "```", |prefix|)
            && OccursAt(s, "```", a + |inner|)
            && s[a..a + |inner|] == inner
            && s[|prefix|..a + |inner| + 3] == "```" + tag + inner + "```"
            && (forall k :: 0 <= k < |prefix| ==> s[k] == prefix[k])
            && (forall k :: a <= k < a + |inner| ==> s[k] == inner[k - a])
  {
    var s := prefix + "```" + tag + inner + "```" + rest;
    var whole := "```" + tag + inner + "```";
    assert s == prefix + whole + rest;
    var a := |prefix| + 3 + |tag|;
    assert s[|prefix|..|prefix| + |whole|] == whole;
    assert whole[3 + |tag|..3 + |tag| + |inner|] == inner;
    assert whole[..3] == "```";
    assert whole[|whole| - 3..] == "```";
  }

  /** The opening fence of a block after text without backticks. */
  lemma FenceOpens(prefix: string, tag: string, inner: string, rest: string)
    requires NoBacktick(prefix)
    ensures OpenFence(prefix + "```" + tag + inner + "```" + rest) == Some(|prefix|)
  {
    FenceLayout(prefix, tag, inner, rest);
    FenceFound(prefix + "```" + tag + inner + "```" + rest, 0, |prefix|);
  }

  /** The closing fence of a block whose content has no backticks. */
  lemma FenceCloses(prefix: string, tag: string, inner: string, rest: string)
    requires NoBacktick(inner)
    ensures var s := prefix + "```" + tag + inner + "```" + rest;
            var a := |prefix| + 3 + |tag|;
            && CloseFence(s, a) == Some(a + |inner|)
            && s[a..a + |inner|] == inner
            && s[|prefix|..a + |inner| + 3] == "```" + tag + inner + "```"
  {
    FenceLayout(prefix, tag, inner, rest);
    var a := |prefix| + 3 + |tag|;
    FenceFound(prefix + "```" + tag + inner + "```" + rest, a, a + |inner|);
  }

  /** A fenced block after text without backticks yields the block's
      content without surrounding white space, or, when that is empty, the
      whole fence. The `json` tag is dropped. */
  lemma FencedBlock(prefix: string, tag: string, inner: string, rest: string)
    requires NoBacktick(prefix) && NoBacktick(inner)
    requires tag == "json" || tag == ""
    requires tag == "" ==> !StartsWith(inner, "json")
    ensures JsonText(prefix + "```" + tag + inner + "```" + rest) ==
            Some(if Trim(inner) != "" then Trim(inner) else "```" + tag + inner + "```")
  {
    var s := prefix + "```" + tag + inner + "```" + rest;
    var p0 := |prefix|;
    var a := p0 + 3 + |tag|;
    var f := a + |inner|;
    var whole := "```" + tag + inner + "```";
    FenceOpens(prefix, tag, inner, rest);
    TagConsumed(s, prefix + "```", p0, tag, inner, rest);
    FenceCloses(prefix, tag, inner, rest);
    FenceMatchAt(s, p0, a, f, inner, whole);
  }

  /** The usual answer: a block opened by three backticks and `json`. */
  lemma TaggedFence(prefix: string, inner: string, rest: string)
    requires NoBacktick(prefix) && NoBacktick(inner) && Trim(inner) != ""
    ensures JsonText(prefix + "```json" + inner + "```" + rest) == Some(Trim(inner))
  {
    FencedBlock(prefix, "json", inner, rest);
    assert "```" + "json" == "```json";
    assert prefix + "```" + "json" == prefix + "```json";
  }

  /** A block opened by three backticks alone, its content not starting
      with `json`. */
  lemma UntaggedFence(prefix: string, inner: string, rest: string)
    requires NoBacktick(prefix) && NoBacktick(inner) && Trim(inner) != ""
    requires !StartsWith(inner, "json")
    ensures JsonText(prefix + "```" + inner + "```" + rest) == Some(Trim(inner))
  {
    FencedBlock(prefix, "", inner, rest);
    assert prefix + "```" + "" == prefix + "```";
  }

  /** A block holding only white space is the quirk: its capture is empty,
      hence falsy, and the whole fence is returned instead. */
  lemma EmptyFenceGivesWholeMatch(prefix: string, tag: string, ws: string, rest: string)
    requires NoBacktick(prefix) && AllSpace(ws)
    requires tag == "json" || tag == ""
    ensures JsonText(prefix + "```" + tag + ws + "```" + rest) == Some("```" + tag + ws + "```")
  {
    assert NoBacktick(ws) by {
      forall i | 0 <= i < |ws| ensures ws[i] != '`' {
        assert IsJsSpace(ws[i]);
      }
    }
    assert !StartsWith(ws, "json") by {
      if |ws| >= 4 {
        assert IsJsSpace(ws[0]) && ws[..4][0] == ws[0];
      }
    }
    TrimAllSpace(ws);
    FencedBlock(prefix, tag, ws, rest);
  }

  /** Nothing is extracted exactly when there is no fenced block and no
      `}` after a `{`. */
  lemma JsonTextNone(content: string)
    ensures JsonText(content).None? <==>
              FenceMatch(content).None? &&
              forall i, j :: 0 <= i < j < |content| ==> !(content[i] == '{' && content[j] == '}')
  {
    BraceSpanNone(content);
  }

  /** Without backticks the text from the first `{` to the last `}` is
      taken, inclusive. */
  lemma BraceBlock(prefix: string, mid: string, suffix: string)
    requires NoBacktick(prefix + "{" + mid + "}" + suffix)
    requires forall i :: 0 <= i < |prefix| ==> prefix[i] != '{'
    requires forall i :: 0 <= i < |suffix| ==> suffix[i] != '}'
    ensures JsonText(prefix + "{" + mid + "}" + suffix) == Some("{" + mid + "}")
  {
    var s := prefix + "{" + mid + "}" + suffix;
    forall k: nat ensures !OccursAt(s, "```", k) {
      if k + 3 <= |s| {
        assert s[k..k + 3][0] == s[k];
      }
    }
    assert IndexOf(s, "```").None?;
    var i := |prefix|;
    assert OccursAt(s, "{", i);
    forall k | 0 <= k < i ensures !OccursAt(s, "{", k) {
      assert s[k..k + 1] == [prefix[k]];
    }
    assert IndexOf(s, "{") == Some(i);
    var j := i + 1 + |mid|;
    assert s[j] == '}';
    forall k | j < k < |s| ensures s[k] != '}' {
      assert s[k] == suffix[k - j - 1];
    }
    assert LastIndexOf(s, '}') == Some(j);
    assert s[i..j + 1] == "{" + mid + "}";
  }
}
