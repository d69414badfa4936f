/** The icons the bookmark importer suggests for a URL: an emoji chosen from
    the hostname (`getEmojiForUrl`) and a favicon-service address
    (`getFaviconUrl`). */
module BookmarkIcons {
  import opened Wrappers
  import opened Strings
  import opened Url

  /** The known-site table, in declaration order: the first domain that
      occurs in the hostname picks the emoji. */
  const EmojiTable: seq<(string, string)> := [
    ("github.com", "🐙"),
    ("google.com", "🔍"),
    ("youtube.com", "📺"),
    ("twitter.com", "🐦"),
    ("x.com", "❌"),
    ("facebook.com", "📘"),
    ("instagram.com", "📷"),
    ("linkedin.com", "💼"),
    ("reddit.com", "🤖"),
    ("stackoverflow.com", "💻"),
    ("medium.com", "📝"),
    ("dev.to", "👨\U{200D}💻"),
    ("notion.so", "📋"),
    ("figma.com", "🎨"),
    ("dribbble.com", "🏀"),
    ("behance.net", "🎭"),
    ("amazon.com", "📦"),
    ("netflix.com", "🎬"),
    ("spotify.com", "🎵"),
    ("apple.com", "🍎"),
    ("microsoft.com", "🪟"),
    ("wikipedia.org", "📚"),
    ("bilibili.com", "📺"),
    ("zhihu.com", "🤔"),
    ("weibo.com", "📱"),
    ("baidu.com", "🔍"),
    ("taobao.com", "🛒"),
    ("jd.com", "🛍\U{FE0F}")
  ]

  const GovEmoji := "🏛\U{FE0F}"
  const EduEmoji := "🎓"
  const OrgEmoji := "🌐"
  const IoEmoji := "💾"
  const LinkEmoji := "🔗"

  /** The position of the first table entry whose domain `matches` the host,
      or `|table|` when none does. */
  function FirstMatch(matches: (string, string) -> bool, host: string, table: seq<(string, string)>): (i: nat)
    ensures i <= |table|
    ensures i < |table| ==> matches(host, table[i].0)
    ensures forall j :: 0 <= j < i ==> !matches(host, table[j].0)
  {
    if table == [] then 0
    else if matches(host, table[0].0) then 0
    else 1 + FirstMatch(matches, host, table[1..])
  }

  /** The rules for hosts no table entry matches: `.gov`, `.edu`, `.org`,
      `.io`, in that order, then the link emoji. */
  function SuffixEmoji(host: string): (r: string)
    ensures IsSuffix(".gov", host) ==> r == GovEmoji
    ensures !IsSuffix(".gov", host) && IsSuffix(".edu", host) ==> r == EduEmoji
    ensures r == LinkEmoji <==>
              !IsSuffix(".gov", host) && !IsSuffix(".edu", host) && !IsSuffix(".org", host) && !IsSuffix(".io", host)
  {
    if IsSuffix(".gov", host) then GovEmoji
    else if IsSuffix(".edu", host) then EduEmoji
    else if IsSuffix(".org", host) then OrgEmoji
    else if IsSuffix(".io", host) then IoEmoji
    else LinkEmoji
  }

  /** The table lookup followed by the suffix rules, for a host already in
      lower case, with a pluggable notion of "domain matches host". */
  function PickEmoji(matches: (string, string) -> bool, host: string, table: seq<(string, string)>): (r: string)
    ensures forall i :: 0 <= i < |table| && matches(host, table[i].0) &&
                          (forall j :: 0 <= j < i ==> !matches(host, table[j].0))
                        ==> r == table[i].1
    ensures (forall i :: 0 <= i < |table| ==> !matches(host, table[i].0)) ==> r == SuffixEmoji(host)
  {
    var i := FirstMatch(matches, host, table);
    if i < |table| then table[i].1 else SuffixEmoji(host)
  }

  /** `hostname.includes(domain)`, the matching rule the source uses. */
  predicate Includes(host: string, domain: string) {
    Contains(host, domain)
  }

  /** `getEmojiForUrl` once the URL has parsed: the lower-cased hostname is
      looked up by substring. */
  function EmojiForHost(host: string): string {
    PickEmoji(Includes, Lower(host), EmojiTable)
  }

  /** `getEmojiForUrl`: a URL that does not parse gets the link emoji. */
  function EmojiForUrl(parse: Parser, url: string): (r: string)
    ensures parse(url).None? ==> r == LinkEmoji
    ensures parse(url).Some? ==> r == EmojiForHost(parse(url).value.hostname)
  {
    match Hostname(parse, url)
    case None => LinkEmoji
    case Some(h) => EmojiForHost(h)
  }

  /** Every emoji the function returns comes from the table or the suffix rules. */
  lemma EmojiRange(host: string)
    ensures EmojiForHost(host) in TableEmojis() + [GovEmoji, EduEmoji, OrgEmoji, IoEmoji, LinkEmoji]
  {
    var i := FirstMatch(Includes, Lower(host), EmojiTable);
    if i < |EmojiTable| {
      assert EmojiTable[i].1 == TableEmojis()[i];
    }
  }

  function TableEmojis(): (es: seq<string>)
    ensures |es| == |EmojiTable|
    ensures forall i :: 0 <= i < |EmojiTable| ==> es[i] == EmojiTable[i].1
  {
    seq(|EmojiTable|, i requires 0 <= i < |EmojiTable| => EmojiTable[i].1)
  }

  /** A host that contains no table domain falls through to the suffix rules,
      even when one of its suffixes is `.org`. */
  lemma HostWithoutKnownSite(host: string)
    requires forall i :: 0 <= i < |EmojiTable| ==> !Contains(Lower(host), EmojiTable[i].0)
    ensures EmojiForHost(host) == SuffixEmoji(Lower(host))
  {
  }

  /** A host with `x.com` inside it, such as `dropbox.com`, gets the X emoji
      unless one of the four entries above `x.com` matches first. */
  lemma XComShadows(host: string)
    requires Includes(Lower(host), "x.com")
    requires forall j :: 0 <= j < 4 ==> !Includes(Lower(host), EmojiTable[j].0)
    ensures EmojiForHost(host) == "❌"
  {
    XComRow();
    PickAt(Includes, Lower(host), EmojiTable, 4);
  }

  lemma XComRow()
    ensures |EmojiTable| > 4 && EmojiTable[4] == ("x.com", "❌")
  {
  }

  /** The entry at `i` decides when it matches and none before it does. */
  lemma PickAt(matches: (string, string) -> bool, host: string, table: seq<(string, string)>, i: nat)
    requires i < |table| && matches(host, table[i].0)
    requires forall j :: 0 <= j < i ==> !matches(host, table[j].0)
    ensures PickEmoji(matches, host, table) == table[i].1
  {
  }

  /** `box.com` is such a host: it contains `x.com` and is shorter than each
      of the four entries above it. */
  lemma BoxHoldsX()
    ensures Includes("box.com", "x.com")
    ensures forall j :: 0 <= j < 4 ==> !Includes("box.com", EmojiTable[j].0)
  {
    var h := "box.com";
    assert OccursAt(h, "x.com", 2);
    ContainsShift(h, "x.com", 2);
    forall j | 0 <= j < 4
      ensures !Includes(h, EmojiTable[j].0)
    {
      LongerNotContained(h, EmojiTable[j].0);
    }
  }

  /** Any table match beats the suffix rules: a host such as `wikipedia.org`
      that contains a table domain never gets the `.org` globe. */
  lemma TableBeforeSuffix(host: string, i: nat)
    requires i < |EmojiTable| && Includes(Lower(host), EmojiTable[i].0)
    ensures EmojiForHost(host) in TableEmojis()
    ensures EmojiForHost(host) != OrgEmoji && EmojiForHost(host) != LinkEmoji
  {
    var k := FirstMatch(Includes, Lower(host), EmojiTable);
    assert k <= i;
    assert EmojiForHost(host) == TableEmojis()[k];
    SuffixEmojisNotInTable(k);
  }

  lemma SuffixEmojisNotInTable(k: nat)
    requires k < |EmojiTable|
    ensures EmojiTable[k].1 != OrgEmoji && EmojiTable[k].1 != LinkEmoji
  {
    assert EmojiTable[k].1[0] != OrgEmoji[0];
    assert EmojiTable[k].1[0] != LinkEmoji[0];
  }

  /** `netflix.com` contains `x.com`, which sits higher in the table, so the
      substring rule never returns the Netflix emoji, for any host. */
  lemma NetflixUnreachable(host: string)
    ensures EmojiForHost(host) != "🎬"
  {
    var h := Lower(host);
    var k := FirstMatch(Includes, h, EmojiTable);
    if k == 17 {
      NetflixEntryHoldsX();
      ContainsTrans(h, EmojiTable[17].0, EmojiTable[4].0);
      assert false;
    } else if k < |EmojiTable| {
      OnlyNetflixEntryIsFilm(k);
    } else {
      assert SuffixEmoji(h)[0] != '🎬';
    }
  }

  /** The Netflix entry's domain contains the `x.com` entry's domain. */
  lemma NetflixEntryHoldsX()
    ensures Includes(EmojiTable[17].0, EmojiTable[4].0)
  {
    var n, x := EmojiTable[17].0, EmojiTable[4].0;
    assert n == "netflix.com" && x == "x.com";
    assert OccursAt(n, x, 6);
    ContainsShift(n, x, 6);
  }

  lemma OnlyNetflixEntryIsFilm(k: nat)
    requires k < |EmojiTable| && k != 17
    ensures EmojiTable[k].1 != "🎬"
  {
    assert EmojiTable[k].1[0] != '🎬';
  }

  // ---------------------------------------------------------------------------
  // Matching at a label boundary

  /** The part of a host after its first dot; empty when it has none. */
  function AfterDot(s: string): (r: string)
    ensures IsSuffix(r, s)
    ensures s != [] ==> |r| < |s|
  {
    if s == [] then []
    else if s[0] == '.' then s[1..]
    else
      var r := AfterDot(s[1..]);
      assert s[|s| - |r|..] == s[1..][|s[1..]| - |r|..];
      r
  }

  /** `domain` occurs in `host` starting at the beginning of one of its labels. */
  predicate LabelMatch(host: string, domain: string)
    decreases |host|
  {
    IsPrefix(domain, host) || (host != [] && LabelMatch(AfterDot(host), domain))
  }

  /** A label match is a substring match, so the corrected rule only ever
      narrows the rule as written. */
  lemma {:induction false} LabelMatchIncludes(host: string, domain: string)
    requires LabelMatch(host, domain)
    ensures Includes(host, domain)
    decreases |host|
  {
    if IsPrefix(domain, host) {
      assert OccursAt(host, domain, 0);
      ContainsShift(host, domain, 0);
    } else {
      var rest := AfterDot(host);
      LabelMatchIncludes(rest, domain);
      assert host[|host| - |rest|..] == rest;
      ContainsInSuffix(host, |host| - |rest|, domain);
    }
  }

  /** The emoji rule with each table domain required to start a label of the
      host, so `netflix.com` no longer matches `x.com`. */
  function EmojiForHostByLabel(host: string): string {
    PickEmoji(LabelMatch, Lower(host), EmojiTable)
  }

  /** With label matching, `netflix.com` gets the Netflix emoji. */
  lemma NetflixByLabel(host: string)
    requires host == "netflix.com"
    ensures EmojiForHostByLabel(host) == "🎬"
  {
    LowerOfLower(host);
    NetflixLabels(host);
    forall j | 0 <= j < 17
      ensures !LabelMatch(host, EmojiTable[j].0)
    {
      EarlyEntriesDiffer(j);
    }
    NetflixEntry();
    assert IsPrefix(EmojiTable[17].0, host);
  }

  lemma NetflixEntry()
    ensures EmojiTable[17] == ("netflix.com", "🎬")
  {
  }

  /** The labels of `netflix.com` start at `netflix.com` and at `com`. */
  lemma NetflixLabels(host: string)
    requires host == "netflix.com"
    ensures forall d :: LabelMatch(host, d) <==> IsPrefix(d, host) || IsPrefix(d, "com") || d == []
  {
    AfterDotAt(host, 7);
    assert host[8..] == "com";
    NoDot("com");
  }

  /** No entry above Netflix starts with `ne` or with `c`. */
  lemma EarlyEntriesDiffer(j: nat)
    requires j < 17
    ensures !IsPrefix(EmojiTable[j].0, "netflix.com")
    ensures !IsPrefix(EmojiTable[j].0, "com")
    ensures EmojiTable[j].0 != []
  {
    var d := EmojiTable[j].0;
    assert |d| >= 2 && d[0] != 'c' && (d[0] != 'n' || d[1] != 'e');
  }

  /** The text after the first dot, when the first dot is at `k`. */
  lemma AfterDotAt(s: string, k: nat)
    requires k < |s| && s[k] == '.' && forall i :: 0 <= i < k ==> s[i] != '.'
    ensures AfterDot(s) == s[k + 1..]
    decreases k
  {
    if k > 0 {
      AfterDotAt(s[1..], k - 1);
      assert s[1..][k..] == s[k + 1..];
    }
  }

  /** A host without a dot has nothing after its first dot. */
  lemma NoDot(s: string)
    requires forall i :: 0 <= i < |s| ==> s[i] != '.'
    ensures AfterDot(s) == []
  {
    if s != [] {
      NoDot(s[1..]);
    }
  }

  /** A pattern longer than the text does not occur in it. */
  lemma LongerNotContained(s: string, p: string)
    requires |p| > |s|
    ensures !Contains(s, p)
  {
    ContainsAt(s, p);
  }

  // ---------------------------------------------------------------------------
  // Favicon address

  const FaviconPrefix := "https://www.google.com/s2/favicons?domain="
  const FaviconSuffix := "&sz=64"

  /** `getFaviconUrl`: the favicon-service address for the URL's host, or ""
      when the URL does not parse. */
  function FaviconUrl(parse: Parser, url: string): (r: string)
    ensures parse(url).None? <==> r == ""
  {
    match Hostname(parse, url)
    case None => ""
    case Some(h) => FaviconPrefix + h + FaviconSuffix
  }

  /** Reading the host back out of a favicon-service address. */
  function FaviconDomain(address: string): (r: Option<string>)
    ensures r.Some? ==> address == FaviconPrefix + r.value + FaviconSuffix
  {
    if |address| >= |FaviconPrefix| + |FaviconSuffix| && IsPrefix(FaviconPrefix, address) && IsSuffix(FaviconSuffix, address) then
      var d := address[|FaviconPrefix|..|address| - |FaviconSuffix|];
      assert address == address[..|FaviconPrefix|] + d + address[|address| - |FaviconSuffix|..];
      Some(d)
    else None
  }

  /** The address names exactly the host the URL parses to, and nothing when
      it does not parse. */
  lemma FaviconRoundTrip(parse: Parser, url: string)
    ensures FaviconDomain(FaviconUrl(parse, url)) == Hostname(parse, url)
  {
    if parse(url).Some? {
      var h := parse(url).value.hostname;
      var a := FaviconPrefix + h + FaviconSuffix;
      assert a[..|FaviconPrefix|] == FaviconPrefix;
      assert a[|a| - |FaviconSuffix|..] == FaviconSuffix;
      assert a[|FaviconPrefix|..|a| - |FaviconSuffix|] == h;
    }
  }
}
