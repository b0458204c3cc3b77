/** `clean_html`: replace every HTML tag by a space, collapse each run of
    whitespace to one space, and trim the ends. The two regular-expression
    substitutions are written out as left-to-right character scans. */
module HtmlCleaning {
  import opened Text

  /** The pattern `<[^>]+>` matches at the start of `s`: a `<`, at least one
      character, and a `>` (the first one after the `<`). */
  predicate TagAtStart(s: string) {
    |s| > 0 && s[0] == '<' && 1 <= IndexOf(s[1..], '>') < |s| - 1
  }

  /** `re.sub(r'<[^>]+>', ' ', s)`: matches are taken leftmost first and do
      not overlap; a `<` where no match starts is kept. */
  function StripTags(s: string): string
    decreases |s|
  {
    if s == [] then []
    else if TagAtStart(s) then " " + StripTags(s[IndexOf(s[1..], '>') + 2..])
    else [s[0]] + StripTags(s[1..])
  }

  /** `s` with its leading whitespace removed. */
  function DropSpaces(s: string): (r: string)
    ensures |r| <= |s|
    ensures s != [] && IsSpace(s[0]) ==> |r| < |s|
  {
    if s != [] && IsSpace(s[0]) then DropSpaces(s[1..]) else s
  }

  /** `s` with its trailing whitespace removed. */
  function DropTrailingSpaces(s: string): string {
    if s != [] && IsSpace(s[|s| - 1]) then DropTrailingSpaces(s[..|s| - 1]) else s
  }

  /** Exactly the leading whitespace is dropped. */
  lemma {:induction false} DropSpacesSpec(s: string)
    ensures var r := DropSpaces(s);
      && r == s[|s| - |r|..]
      && (r == [] || !IsSpace(r[0]))
      && forall i :: 0 <= i < |s| - |r| ==> IsSpace(s[i])
    decreases |s|
  {
    if s != [] && IsSpace(s[0]) {
      DropSpacesSpec(s[1..]);
    }
  }

  /** Exactly the trailing whitespace is dropped. */
  lemma {:induction false} DropTrailingSpacesSpec(s: string)
    ensures var r := DropTrailingSpaces(s);
      && |r| <= |s| && r == s[..|r|]
      && (r == [] || !IsSpace(r[|r| - 1]))
      && forall i :: |r| <= i < |s| ==> IsSpace(s[i])
    decreases |s|
  {
    if s != [] && IsSpace(s[|s| - 1]) {
      DropTrailingSpacesSpec(s[..|s| - 1]);
    }
  }

  /** `re.sub(r'\s+', ' ', s)`: every maximal run of whitespace becomes one
      space. */
  function CollapseSpaces(s: string): string
    decreases |s|
  {
    if s == [] then []
    else if IsSpace(s[0]) then " " + CollapseSpaces(DropSpaces(s))
    else [s[0]] + CollapseSpaces(s[1..])
  }

  /** `str.strip()`. */
  function Strip(s: string): string {
    DropTrailingSpaces(DropSpaces(s))
  }

  /** `clean_html` (comment_analyzer.py:37-41). */
  function CleanHtml(s: string): string {
    Strip(CollapseSpaces(StripTags(s)))
  }

  /** No `<[^>]+>` match starts anywhere in `s`: a `<` that has some `>`
      after it is immediately followed by one. */
  predicate TagFree(s: string)
    decreases |s|
  {
    s == [] || ((s[0] == '<' && '>' in s[1..] ==> s[1] == '>') && TagFree(s[1..]))
  }

  /** Every whitespace character is a plain space, and none is followed by
      another whitespace character. */
  predicate SpacesCollapsed(s: string)
    decreases |s|
  {
    s == [] || ((IsSpace(s[0]) ==> s[0] == ' ' && (|s| == 1 || !IsSpace(s[1]))) && SpacesCollapsed(s[1..]))
  }

  /** No whitespace at either end. */
  predicate Trimmed(s: string) {
    s == [] || (!IsSpace(s[0]) && !IsSpace(s[|s| - 1]))
  }

  lemma {:induction false} StripTagsChars(s: string)
    ensures forall c :: c in StripTags(s) ==> c == ' ' || c in s
    decreases |s|
  {
    if s == [] {
    } else if TagAtStart(s) {
      var k := IndexOf(s[1..], '>');
      StripTagsChars(s[k + 2..]);
      assert forall c :: c in s[k + 2..] ==> c in s;
    } else {
      StripTagsChars(s[1..]);
      assert forall c :: c in s[1..] ==> c in s;
    }
  }

  lemma {:induction false} StripTagsTagFree(s: string)
    ensures TagFree(StripTags(s))
    decreases |s|
  {
    if s == [] {
    } else if TagAtStart(s) {
      var k := IndexOf(s[1..], '>');
      var t := StripTags(s[k + 2..]);
      StripTagsTagFree(s[k + 2..]);
      assert (" " + t)[1..] == t;
    } else {
      var t := StripTags(s[1..]);
      StripTagsTagFree(s[1..]);
      assert ([s[0]] + t)[1..] == t;
      if s[0] == '<' && '>' in t {
        StripTagsChars(s[1..]);
        assert '>' in s[1..];
        var k := IndexOf(s[1..], '>');
        IndexOfSpec(s[1..], '>');
        assert k < |s| - 1;
        assert k == 0;
        assert !TagAtStart(s[1..]);
        assert t == [s[1]] + StripTags(s[2..]);
      }
    }
  }

  lemma {:induction false} TagFreeUnchanged(s: string)
    requires TagFree(s)
    ensures StripTags(s) == s
    decreases |s|
  {
    if s != [] {
      TagFreeUnchanged(s[1..]);
      if s[0] == '<' {
        var k := IndexOf(s[1..], '>');
        IndexOfSpec(s[1..], '>');
        if '>' in s[1..] {
          assert s[1..][0] == '>';
          assert k == 0;
        } else {
          assert k == |s| - 1;
        }
      }
      assert !TagAtStart(s);
    }
  }

  lemma {:induction false} TagFreeSuffix(s: string, k: nat)
    requires TagFree(s) && k <= |s|
    ensures TagFree(s[k..])
    decreases k
  {
    if k > 0 {
      TagFreeSuffix(s[1..], k - 1);
      assert s[1..][k - 1..] == s[k..];
    }
  }

  lemma {:induction false} TagFreePrefix(s: string, k: nat)
    requires TagFree(s) && k <= |s|
    ensures TagFree(s[..k])
    decreases k
  {
    if k > 0 {
      TagFreePrefix(s[1..], k - 1);
      assert s[..k][1..] == s[1..][..k - 1];
      if s[0] == '<' && '>' in s[..k][1..] {
        assert '>' in s[1..];
      }
    }
  }

  lemma {:induction false} CollapseChars(s: string)
    ensures forall c :: c in CollapseSpaces(s) ==> c == ' ' || c in s
    decreases |s|
  {
    if s == [] {
    } else if IsSpace(s[0]) {
      var r := DropSpaces(s);
      DropSpacesSpec(s);
      CollapseChars(r);
      assert forall c :: c in r ==> c in s;
    } else {
      CollapseChars(s[1..]);
      assert forall c :: c in s[1..] ==> c in s;
    }
  }

  lemma {:induction false} CollapseKeepsTagFree(s: string)
    requires TagFree(s)
    ensures TagFree(CollapseSpaces(s))
    decreases |s|
  {
    if s == [] {
    } else if IsSpace(s[0]) {
      var r := DropSpaces(s);
      DropSpacesSpec(s);
      TagFreeSuffix(s, |s| - |r|);
      CollapseKeepsTagFree(r);
      var t := CollapseSpaces(r);
      assert (" " + t)[1..] == t;
    } else {
      TagFreeSuffix(s, 1);
      CollapseKeepsTagFree(s[1..]);
      var t := CollapseSpaces(s[1..]);
      assert ([s[0]] + t)[1..] == t;
      if s[0] == '<' && '>' in t {
        CollapseChars(s[1..]);
        assert s[1] == '>';
        assert t == [s[1]] + CollapseSpaces(s[2..]);
      }
    }
  }

  lemma {:induction false} CollapseSpacesCollapsed(s: string)
    ensures SpacesCollapsed(CollapseSpaces(s))
    decreases |s|
  {
    if s == [] {
    } else if IsSpace(s[0]) {
      var r := DropSpaces(s);
      DropSpacesSpec(s);
      CollapseSpacesCollapsed(r);
      var t := CollapseSpaces(r);
      assert (" " + t)[1..] == t;
      if r != [] {
        assert t == [r[0]] + CollapseSpaces(r[1..]);
      }
    } else {
      CollapseSpacesCollapsed(s[1..]);
      var t := CollapseSpaces(s[1..]);
      assert ([s[0]] + t)[1..] == t;
    }
  }

  lemma {:induction false} CollapsedUnchanged(s: string)
    requires SpacesCollapsed(s)
    ensures CollapseSpaces(s) == s
    decreases |s|
  {
    if s != [] {
      CollapsedUnchanged(s[1..]);
      if IsSpace(s[0]) {
        assert DropSpaces(s[1..]) == s[1..];
        assert DropSpaces(s) == s[1..];
      }
    }
  }

  lemma {:induction false} CollapsedSuffix(s: string, k: nat)
    requires SpacesCollapsed(s) && k <= |s|
    ensures SpacesCollapsed(s[k..])
    decreases k
  {
    if k > 0 {
      CollapsedSuffix(s[1..], k - 1);
      assert s[1..][k - 1..] == s[k..];
    }
  }

  lemma {:induction false} CollapsedPrefix(s: string, k: nat)
    requires SpacesCollapsed(s) && k <= |s|
    ensures SpacesCollapsed(s[..k])
    decreases k
  {
    if k > 0 {
      CollapsedPrefix(s[1..], k - 1);
      assert s[..k][1..] == s[1..][..k - 1];
    }
  }

  /** Spelled out: no two adjacent whitespace characters, and every
      whitespace character is a plain space. */
  lemma {:induction false} CollapsedMeaning(s: string)
    requires SpacesCollapsed(s)
    ensures forall i :: 0 <= i < |s| - 1 ==> !(IsSpace(s[i]) && IsSpace(s[i + 1]))
    ensures forall i :: 0 <= i < |s| && IsSpace(s[i]) ==> s[i] == ' '
    decreases |s|
  {
    if s != [] {
      CollapsedMeaning(s[1..]);
      assert forall i :: 1 <= i < |s| ==> s[i] == s[1..][i - 1];
    }
  }

  lemma StripNormalForm(s: string)
    requires TagFree(s) && SpacesCollapsed(s)
    ensures TagFree(Strip(s)) && SpacesCollapsed(Strip(s)) && Trimmed(Strip(s))
  {
    var d := DropSpaces(s);
    DropSpacesSpec(s);
    var k := |s| - |d|;
    TagFreeSuffix(s, k);
    CollapsedSuffix(s, k);
    assert s[k..] == d;
    var r := DropTrailingSpaces(d);
    DropTrailingSpacesSpec(d);
    TagFreePrefix(d, |r|);
    CollapsedPrefix(d, |r|);
    assert d[..|r|] == r;
    assert Strip(s) == r;
    if r != [] {
      assert r[0] == d[0];
    }
  }

  /** The output of `clean_html` has no tag left, no whitespace other than
      single spaces between words, and none at either end. */
  lemma CleanHtmlNormalForm(s: string)
    ensures var r := CleanHtml(s);
      && TagFree(r) && SpacesCollapsed(r) && Trimmed(r)
      && (|r| > 0 ==> !IsSpace(r[0]) && !IsSpace(r[|r| - 1]))
      && (forall i :: 0 <= i < |r| - 1 ==> !(IsSpace(r[i]) && IsSpace(r[i + 1])))
      && (forall i :: 0 <= i < |r| && IsSpace(r[i]) ==> r[i] == ' ')
  {
    var t := StripTags(s);
    StripTagsTagFree(s);
    var c := CollapseSpaces(t);
    CollapseKeepsTagFree(t);
    CollapseSpacesCollapsed(t);
    StripNormalForm(c);
    CollapsedMeaning(CleanHtml(s));
  }

  /** Text that is already clean passes through `clean_html` unchanged. */
  lemma CleanHtmlKeepsCleanText(s: string)
    requires TagFree(s) && SpacesCollapsed(s) && Trimmed(s)
    ensures CleanHtml(s) == s
  {
    TagFreeUnchanged(s);
    CollapsedUnchanged(s);
  }

  /** Cleaning twice is the same as cleaning once. */
  lemma CleanHtmlIdempotent(s: string)
    ensures CleanHtml(CleanHtml(s)) == CleanHtml(s)
  {
    CleanHtmlNormalForm(s);
    CleanHtmlKeepsCleanText(CleanHtml(s));
  }
}
