/**
  * The source-platform classifier of the video router: a chain of
  * case-sensitive substring tests on the raw URL, the first hit deciding.
  */
module Platform {
  import opened Wrappers
  import Schema

  /** `s.includes(sub)`. */
  predicate Contains(s: string, sub: string)
    decreases |s|
  {
    sub <= s || (|s| > 0 && Contains(s[1..], sub))
  }

  /** `sub` sits in `s` starting at index `i`: the reference reading of Contains. */
  predicate OccursAt(s: string, sub: string, i: int)
  {
    0 <= i && i + |sub| <= |s| && s[i..i + |sub|] == sub
  }

  lemma {:induction false} OccursImpliesContains(s: string, sub: string, i: int)
    requires OccursAt(s, sub, i)
    ensures Contains(s, sub)
    decreases i
  {
    if i == 0 {
      assert s[..|sub|] == sub;
    } else {
      assert s[1..][i - 1..i - 1 + |sub|] == s[i..i + |sub|];
      OccursImpliesContains(s[1..], sub, i - 1);
    }
  }

  lemma {:induction false} ContainsImpliesOccurs(s: string, sub: string) returns (i: int)
    requires Contains(s, sub)
    ensures OccursAt(s, sub, i)
    decreases |s|
  {
    if sub <= s {
      assert s[0..|sub|] == sub;
      i := 0;
    } else {
      var j := ContainsImpliesOccurs(s[1..], sub);
      assert s[j + 1..j + 1 + |sub|] == s[1..][j..j + |sub|];
      i := j + 1;
    }
  }

  /** Contains holds exactly when the needle occurs at some index. */
  lemma ContainsIffOccurs(s: string, sub: string)
    ensures Contains(s, sub) <==> exists i :: OccursAt(s, sub, i)
  {
    if Contains(s, sub) {
      var i := ContainsImpliesOccurs(s, sub);
    }
    forall i | OccursAt(s, sub, i)
      ensures Contains(s, sub)
    {
      OccursImpliesContains(s, sub, i);
    }
  }

  lemma ContainsInfix(a: string, sub: string, b: string)
    ensures Contains(a + sub + b, sub)
  {
    assert OccursAt(a + sub + b, sub, |a|) by {
      assert (a + sub + b)[|a|..|a| + |sub|] == sub;
    }
    OccursImpliesContains(a + sub + b, sub, |a|);
  }

  /** A string cannot contain a needle holding a character the string lacks. */
  lemma {:induction false} AbsentCharNotContained(s: string, sub: string, c: char)
    requires c in sub && c !in s
    ensures !Contains(s, sub)
    decreases |s|
  {
    if |s| > 0 && !(sub <= s) {
      AbsentCharNotContained(s[1..], sub, c);
    }
  }

  /** One check of the chain: any of its needles sends the URL to its tag. */
  datatype Rule = Rule(needles: seq<string>, tag: string)

  const Unknown: string := "unknown"

  /** The checks in source order. */
  const Rules: seq<Rule> := [
    Rule(["youtube.com", "youtu.be"], "youtube"),
    Rule(["tiktok.com"], "tiktok"),
    Rule(["instagram.com"], "instagram"),
    Rule(["facebook.com"], "facebook"),
    Rule(["twitter.com", "x.com"], "twitter"),
    Rule(["vimeo.com"], "vimeo"),
    Rule(["reddit.com"], "reddit")
  ]

  const PlatformTags: set<string> :=
    {"youtube", "tiktok", "instagram", "facebook", "twitter", "vimeo", "reddit", "unknown"}

  predicate Matches(url: string, rule: Rule)
  {
    exists needle :: needle in rule.needles && Contains(url, needle)
  }

  /** The index of the earliest rule that matches, if any. */
  function FirstMatch(url: string, rules: seq<Rule>, from: nat): (r: Option<nat>)
    requires from <= |rules|
    decreases |rules| - from
    ensures r.Some? ==> from <= r.value < |rules| && Matches(url, rules[r.value])
    ensures r.Some? ==> forall j :: from <= j < r.value ==> !Matches(url, rules[j])
    ensures r.None? ==> forall j :: from <= j < |rules| ==> !Matches(url, rules[j])
  {
    if from == |rules| then None
    else if Matches(url, rules[from]) then Some(from)
    else FirstMatch(url, rules, from + 1)
  }

  /** extractPlatformFromUrl, as the if-chain of the source. */
  function ExtractPlatform(url: string): (tag: string)
    ensures tag in PlatformTags
    ensures |tag| <= Schema.SourcePlatformMaxLength
  {
    if Contains(url, "youtube.com") || Contains(url, "youtu.be") then "youtube"
    else if Contains(url, "tiktok.com") then "tiktok"
    else if Contains(url, "instagram.com") then "instagram"
    else if Contains(url, "facebook.com") then "facebook"
    else if Contains(url, "twitter.com") || Contains(url, "x.com") then "twitter"
    else if Contains(url, "vimeo.com") then "vimeo"
    else if Contains(url, "reddit.com") then "reddit"
    else "unknown"
  }

  /** The chain is the rule table read first-match-wins: the earliest matching rule's tag, else unknown. */
  lemma ExtractPlatformIsFirstMatch(url: string)
    ensures var m := FirstMatch(url, Rules, 0);
            ExtractPlatform(url) == if m.Some? then Rules[m.value].tag else Unknown
  {
    var m := FirstMatch(url, Rules, 0);
    assert Matches(url, Rules[0]) <==> Contains(url, "youtube.com") || Contains(url, "youtu.be") by {
      assert Rules[0].needles == ["youtube.com", "youtu.be"];
    }
    assert Matches(url, Rules[4]) <==> Contains(url, "twitter.com") || Contains(url, "x.com") by {
      assert Rules[4].needles == ["twitter.com", "x.com"];
    }
    assert Matches(url, Rules[1]) <==> Contains(url, "tiktok.com") by { assert Rules[1].needles[0] == "tiktok.com"; }
    assert Matches(url, Rules[2]) <==> Contains(url, "instagram.com") by { assert Rules[2].needles[0] == "instagram.com"; }
    assert Matches(url, Rules[3]) <==> Contains(url, "facebook.com") by { assert Rules[3].needles[0] == "facebook.com"; }
    assert Matches(url, Rules[5]) <==> Contains(url, "vimeo.com") by { assert Rules[5].needles[0] == "vimeo.com"; }
    assert Matches(url, Rules[6]) <==> Contains(url, "reddit.com") by { assert Rules[6].needles[0] == "reddit.com"; }
  }

  /** Any URL that contains `x.com` and none of the needles checked before it is classified as twitter. */
  lemma XComWithoutEarlierNeedlesIsTwitter(url: string)
    requires Contains(url, "x.com")
    requires !Contains(url, "youtube.com") && !Contains(url, "youtu.be") && !Contains(url, "tiktok.com")
    requires !Contains(url, "instagram.com") && !Contains(url, "facebook.com")
    ensures ExtractPlatform(url) == "twitter"
  {
  }

  /** Substring, not host: a Netflix URL ending in `x.com/x` is classified as twitter. */
  lemma NetflixUrlIsTwitter(url: string)
    requires url == "https://netflix.com/x"
    ensures ExtractPlatform(url) == "twitter"
  {
    assert url == "https://netfli" + "x.com" + "/x";
    ContainsInfix("https://netfli", "x.com", "/x");
    NetflixUrlLacksLetters(url);
    AbsentCharNotContained(url, "youtube.com", 'y');
    AbsentCharNotContained(url, "youtu.be", 'y');
    AbsentCharNotContained(url, "tiktok.com", 'k');
    AbsentCharNotContained(url, "instagram.com", 'g');
    AbsentCharNotContained(url, "facebook.com", 'a');
    XComWithoutEarlierNeedlesIsTwitter(url);
  }

  lemma NetflixUrlLacksLetters(url: string)
    requires url == "https://netflix.com/x"
    ensures 'y' !in url && 'k' !in url && 'g' !in url && 'a' !in url
  {
  }

  /** No needle of any rule occurs in the URL. */
  predicate NoNeedleIn(url: string)
  {
    forall j, n :: 0 <= j < |Rules| && n in Rules[j].needles ==> !Contains(url, n)
  }

  /** A URL is classified as unknown exactly when it contains no needle of any rule. */
  lemma UnknownIffNoNeedle(url: string)
    ensures ExtractPlatform(url) == Unknown <==> NoNeedleIn(url)
  {
    ExtractPlatformIsFirstMatch(url);
    var m := FirstMatch(url, Rules, 0);
    if m.Some? {
      var k := m.value;
      assert Rules[k].tag != Unknown by {
        assert k == 0 || k == 1 || k == 2 || k == 3 || k == 4 || k == 5 || k == 6;
      }
      var n :| n in Rules[k].needles && Contains(url, n);
      assert !NoNeedleIn(url);
    } else {
      forall j, n | 0 <= j < |Rules| && n in Rules[j].needles
        ensures !Contains(url, n)
      {
        assert !Matches(url, Rules[j]);
      }
    }
  }

  /** Case-sensitive: an upper-case host is not recognised. */
  lemma UpperCaseUrlIsUnknown(url: string)
    requires url == "https://YOUTUBE.COM/watch"
    ensures ExtractPlatform(url) == Unknown
  {
    UpperCaseUrlLacksFirst(url);
    UpperCaseUrlLacksSecond(url);
    AbsentCharNotContained(url, "youtube.com", 'y');
    AbsentCharNotContained(url, "youtu.be", 'y');
    AbsentCharNotContained(url, "tiktok.com", 'k');
    AbsentCharNotContained(url, "instagram.com", 'g');
    AbsentCharNotContained(url, "facebook.com", 'b');
    AbsentCharNotContained(url, "twitter.com", 'i');
    AbsentCharNotContained(url, "x.com", 'x');
    AbsentCharNotContained(url, "vimeo.com", 'v');
    AbsentCharNotContained(url, "reddit.com", 'd');
  }

  lemma UpperCaseUrlLacksFirst(url: string)
    requires url == "https://YOUTUBE.COM/watch"
    ensures 'y' !in url && 'k' !in url && 'g' !in url && 'b' !in url
  {
  }

  lemma UpperCaseUrlLacksSecond(url: string)
    requires url == "https://YOUTUBE.COM/watch"
    ensures 'i' !in url && 'x' !in url && 'v' !in url && 'd' !in url
  {
  }

  lemma YoutubeUrlIsYoutube(url: string)
    requires url == "https://youtube.com/watch?v=test123"
    ensures ExtractPlatform(url) == "youtube"
  {
    assert url == "https://" + "youtube.com" + "/watch?v=test123";
    ContainsInfix("https://", "youtube.com", "/watch?v=test123");
  }
}
