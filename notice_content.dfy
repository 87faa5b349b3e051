/**
 * The formatter of the notice-content column: `(value || '').replaceAll(/<[^>]+>/g, '')`.
 * The regular expression matches a `<`, then the longest run of characters other
 * than `>` (at least one), then `>`; the global replacement scans left to right and
 * resumes after each match.
 */
module NoticeContent {
  import opened JsValues

  /** The position of the first `c` in `s`. */
  function FirstIndex(s: string, c: char): (r: Option<nat>)
    ensures r.Some? ==> r.value < |s| && s[r.value] == c && c !in s[..r.value]
    ensures r.None? ==> c !in s
  {
    if s == [] then None
    else if s[0] == c then Some(0)
    else match FirstIndex(s[1..], c)
      case None => None
      case Some(k) => assert s[..k + 1] == [s[0]] + s[1..][..k]; Some(k + 1)
  }

  /** The length of the tag the pattern matches at the start of `s`, if it matches there. */
  function TagLength(s: string): (r: Option<nat>)
    ensures r.Some? ==> 3 <= r.value <= |s| && s[0] == '<' && s[r.value - 1] == '>'
    ensures r.Some? ==> '>' !in s[1..r.value - 1]
  {
    if s == [] || s[0] != '<' then None
    else match FirstIndex(s[1..], '>')
      case Some(k) =>
        if k >= 1 then
          assert s[1..k + 1] == s[1..][..k];
          Some(k + 2)
        else None
      case None => None
  }

  /** `replaceAll(/<[^>]+>/g, '')`. */
  function StripTags(s: string): (r: string)
    ensures |r| <= |s|
    ensures TagLength(s).Some? ==> |r| <= |s| - 3
    decreases |s|
  {
    if s == [] then []
    else match TagLength(s)
      case Some(n) => StripTags(s[n..])
      case None => [s[0]] + StripTags(s[1..])
  }

  /** No position of `t` starts a tag: the pattern has no match in `t`. */
  predicate Clean(t: string)
    decreases |t|
  {
    t == [] || (TagLength(t).None? && Clean(t[1..]))
  }

  /** `a` is `b` with some characters deleted, the rest in their order. */
  predicate IsSubsequence(a: string, b: string)
    decreases |b|
  {
    a == [] || (b != [] && ((a[0] == b[0] && IsSubsequence(a[1..], b[1..])) || IsSubsequence(a, b[1..])))
  }

  /** The formatter: a missing or empty value gives the empty string. */
  function FormatNoticeContent(value: Option<string>): (r: string)
    ensures !HasText(value) ==> r == ""
    ensures HasText(value) && '<' !in value.value ==> r == value.value
  {
    if HasText(value) then
      assert '<' !in value.value ==> StripTags(value.value) == value.value by {
        if '<' !in value.value {
          StripNoTag(value.value);
        }
      }
      StripTags(value.value)
    else StripTags("")
  }

  /** Text without a `<` has nothing to strip. */
  lemma {:induction false} StripNoTag(s: string)
    requires '<' !in s
    ensures StripTags(s) == s
    decreases |s|
  {
    if s != [] {
      assert s[1..] == s[|s| - |s[1..]|..];
      assert forall c :: c in s[1..] ==> c in s;
      StripNoTag(s[1..]);
    }
  }

  /** Every character the stripper keeps comes from its input. */
  lemma {:induction false} StripKeepsOnlyInput(s: string, c: char)
    requires c in StripTags(s)
    ensures c in s
    decreases |s|
  {
    if s != [] {
      match TagLength(s)
      case Some(n) =>
        StripKeepsOnlyInput(s[n..], c);
        assert forall x :: x in s[n..] ==> x in s;
      case None =>
        if c != s[0] {
          StripKeepsOnlyInput(s[1..], c);
          assert forall x :: x in s[1..] ==> x in s;
        }
    }
  }

  /** The characters that survive keep their relative order. */
  lemma {:induction false} StripIsSubsequence(s: string)
    ensures IsSubsequence(StripTags(s), s)
    decreases |s|
  {
    if s != [] {
      match TagLength(s)
      case Some(n) =>
        StripIsSubsequence(s[n..]);
        SubsequenceOfSuffix(StripTags(s[n..]), s, n);
      case None =>
        StripIsSubsequence(s[1..]);
        var t := [s[0]] + StripTags(s[1..]);
        assert t[0] == s[0] && t[1..] == StripTags(s[1..]);
    }
  }

  lemma {:induction false} SubsequenceOfSuffix(a: string, b: string, n: nat)
    requires n <= |b| && IsSubsequence(a, b[n..])
    ensures IsSubsequence(a, b)
    decreases n
  {
    if n > 0 {
      assert b[1..][n - 1..] == b[n..];
      SubsequenceOfSuffix(a, b[1..], n - 1);
    }
  }

  /** The stripper leaves no tag behind. */
  lemma {:induction false} StripLeavesNoTag(s: string)
    ensures Clean(StripTags(s))
    decreases |s|
  {
    if s != [] {
      match TagLength(s)
      case Some(n) =>
        StripLeavesNoTag(s[n..]);
      case None =>
        StripLeavesNoTag(s[1..]);
        var rest := StripTags(s[1..]);
        var t := [s[0]] + rest;
        assert t[1..] == rest;
        if s[0] == '<' {
          // the `<` was not a tag: either no `>` follows it, or a `>` follows at once
          if FirstIndex(s[1..], '>').None? {
            if '>' in rest {
              StripKeepsOnlyInput(s[1..], '>');
            }
            assert FirstIndex(t[1..], '>').None?;
          } else {
            assert s[1] == '>';
            assert TagLength(s[1..]).None?;
            assert rest == [s[1]] + StripTags(s[2..]);
            assert FirstIndex(t[1..], '>') == Some(0);
          }
        }
        assert TagLength(t).None?;
    }
  }

  /** Text without a tag is returned unchanged. */
  lemma {:induction false} StripClean(t: string)
    requires Clean(t)
    ensures StripTags(t) == t
    decreases |t|
  {
    if t != [] {
      StripClean(t[1..]);
    }
  }

  /** Stripping twice is the same as stripping once. */
  lemma StripIdempotent(s: string)
    ensures StripTags(StripTags(s)) == StripTags(s)
  {
    StripLeavesNoTag(s);
    StripClean(StripTags(s));
  }

  /** Tags go, text between them stays, and an empty `<>` is not a tag. */
  lemma StripExamples()
    ensures StripTags("<b>x") == "x"
    ensures StripTags("<>") == "<>"
  {
    assert TagLength("<b>x") == Some(3);
    assert "<b>x"[3..] == "x";
    assert TagLength("<>") == None;
    assert "<>"[1..] == ">";
  }
}
