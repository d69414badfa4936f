/** The site-icon fallback chain of the home page grid. The image starts at
    unavatar.io; each load error picks the next source by looking at which
    service's name occurs in the current source, and the last error hides
    the image and shows the site's emoji. The browser's error events are the
    steps of the model; `src` is the text the handler assigned. */
module IconFallback {
  import opened Wrappers
  import opened Strings
  import opened Url

  const UnavatarMark := "unavatar.io"
  const IconHorseMark := "icon.horse"
  const FaviconMark := "favicon.ico"
  const GoogleMark := "google.com"

  /** A hostname in which none of the four service names occurs. */
  predicate MarkerFree(h: string) {
    !Contains(h, UnavatarMark) && !Contains(h, IconHorseMark)
    && !Contains(h, FaviconMark) && !Contains(h, GoogleMark)
  }

  const UnavatarBase := "https://" + UnavatarMark + "/"
  const UnavatarQuery := "?fallback=false"
  const IconHorseBase := "https://" + IconHorseMark + "/icon/"
  const DirectBase := "https://"
  const DirectPath := "/" + FaviconMark
  const GoogleBase := "https://www." + GoogleMark + "/s2/favicons?domain="
  const GoogleSize := "&sz=128"
  const FaviconKitBase := "https://api.faviconkit.com/"
  const FaviconKitSize := "/64"

  function UnavatarSrc(h: string): string { UnavatarBase + h + UnavatarQuery }
  function IconHorseSrc(h: string): string { IconHorseBase + h }
  function DirectSrc(h: string): string { DirectBase + h + DirectPath }
  function GoogleSrc(h: string): string { GoogleBase + h + GoogleSize }
  function FaviconKitSrc(h: string): string { FaviconKitBase + h + FaviconKitSize }

  /** What the grid cell shows: an image with a source, or the emoji. */
  datatype Icon = Image(src: string) | Emoji

  /** The first source: unavatar.io for the site's hostname, or for
      `localhost` when the site's URL does not parse. */
  function InitialSrc(parse: Parser, url: string): (r: string)
    ensures parse(url).Some? ==> r == UnavatarSrc(parse(url).value.hostname)
    ensures parse(url).None? ==> r == UnavatarSrc("localhost")
  {
    UnavatarSrc(Hostname(parse, url).GetOr("localhost"))
  }

  /** The `onError` handler: an unparsable site URL shows the emoji at once;
      otherwise the first service name found in the current source decides
      the next source, and a source naming none of them shows the emoji. */
  function OnError(parse: Parser, url: string, src: string): Icon {
    match Hostname(parse, url)
    case None => Emoji
    case Some(h) =>
      if Contains(src, UnavatarMark) then Image(IconHorseSrc(h))
      else if Contains(src, IconHorseMark) then Image(DirectSrc(h))
      else if Contains(src, FaviconMark) then Image(GoogleSrc(h))
      else if Contains(src, GoogleMark) then Image(FaviconKitSrc(h))
      else Emoji
  }

  /** What the cell shows after `n` load errors. The emoji raises no further
      errors. */
  function AfterErrors(parse: Parser, url: string, n: nat): Icon {
    if n == 0 then Image(InitialSrc(parse, url))
    else
      match AfterErrors(parse, url, n - 1)
      case Emoji => Emoji
      case Image(src) => OnError(parse, url, src)
  }

  /** The emoji text: the site's logo, or 🌐 when it is empty. */
  function EmojiText(logo: string): (r: string)
    ensures r != ""
    ensures logo != "" ==> r == logo
  {
    if logo == "" then "🌐" else logo
  }

  /** A site whose URL does not parse shows its emoji after the first error. */
  lemma UnparsableShowsEmoji(parse: Parser, url: string)
    requires parse(url).None?
    ensures AfterErrors(parse, url, 1) == Emoji
  {
  }

  // ---------------------------------------------------------------------------
  // Which service names each source contains

  // The lemmas below take the service names and the literal parts of the
  // sources as parameters fixed by their preconditions, which keeps the
  // verifier from evaluating `Contains` on two literals by unfolding it.

  lemma UnavatarSrcMarks(h: string)
    ensures Contains(UnavatarSrc(h), UnavatarMark)
  {
    UnavatarSrcHas(h, UnavatarMark, UnavatarBase, UnavatarQuery);
  }

  lemma UnavatarSrcHas(h: string, u: string, x: string, y: string)
    requires u == UnavatarMark && x == UnavatarBase && y == UnavatarQuery
    ensures Contains(x + h + y, u)
  {
    ContainsInPart("https://", u, "/", u);
    ContainsLeading(x, h, y, u);
  }

  lemma IconHorseSrcMarks(h: string)
    requires !Contains(h, UnavatarMark)
    ensures !Contains(IconHorseSrc(h), UnavatarMark)
    ensures Contains(IconHorseSrc(h), IconHorseMark)
  {
    IconHorseSrcHas(h, UnavatarMark, IconHorseMark, IconHorseBase);
    assert IconHorseSrc(h) == IconHorseBase + h + "";
  }

  lemma IconHorseSrcHas(h: string, u: string, ih: string, x: string)
    requires u == UnavatarMark && ih == IconHorseMark && x == IconHorseBase
    requires !Contains(h, u)
    ensures !Contains(x + h + "", u)
    ensures Contains(x + h + "", ih)
  {
    IconHorseSrcLacks(h, u, x);
    IconHorseSrcHolds(h, ih, x);
  }

  lemma IconHorseSrcLacks(h: string, u: string, x: string)
    requires u == UnavatarMark && x == IconHorseBase
    requires !Contains(h, u)
    ensures !Contains(x + h + "", u)
  {
    NotContainsChar(x[..|x| - 1], u, 'v');
    NotContainsAround(x, h, "", u);
  }

  lemma IconHorseSrcHolds(h: string, ih: string, x: string)
    requires ih == IconHorseMark && x == IconHorseBase
    ensures Contains(x + h + "", ih)
  {
    ContainsInPart("https://", ih, "/icon/", ih);
    ContainsLeading(x, h, "", ih);
  }

  /** No service name holds a `/`, `=` or `&`. */
  lemma NoSeparatorInMarks(u: string, ih: string, f: string, g: string)
    requires u == UnavatarMark && ih == IconHorseMark && f == FaviconMark && g == GoogleMark
    ensures forall c :: c in "/=&" ==> c !in u && c !in ih && c !in f && c !in g
  {
  }

  lemma DirectSrcMarks(h: string)
    requires !Contains(h, UnavatarMark) && !Contains(h, IconHorseMark)
    ensures !Contains(DirectSrc(h), UnavatarMark)
    ensures !Contains(DirectSrc(h), IconHorseMark)
    ensures Contains(DirectSrc(h), FaviconMark)
  {
    DirectSrcLacks(h, UnavatarMark, DirectBase, DirectPath, 'v', 'u');
    DirectSrcLacks(h, IconHorseMark, DirectBase, DirectPath, 'c', 'h');
    DirectSrcHas(h, FaviconMark, DirectBase, DirectPath);
  }

  lemma DirectSrcLacks(h: string, p: string, x: string, y: string, cx: char, cy: char)
    requires p in {UnavatarMark, IconHorseMark} && x == DirectBase && y == DirectPath
    requires cx in p && cx !in x[..|x| - 1] && cy in p && cy !in y[1..]
    requires !Contains(h, p)
    ensures !Contains(x + h + y, p)
  {
    NoSeparatorInMarks(UnavatarMark, IconHorseMark, FaviconMark, GoogleMark);
    LacksAround(x, h, y, p, cx, cy);
  }

  lemma DirectSrcHas(h: string, f: string, x: string, y: string)
    requires f == FaviconMark && x == DirectBase && y == DirectPath
    ensures Contains(x + h + y, f)
  {
    ContainsInPart("/", f, "", f);
    assert "/" + f + "" == y;
    ContainsTrailing(x, h, y, f);
  }

  /** The Google base before its `=`, cut at the characters `/`, `/` and `?`
      that `favicon.ico` lacks. */
  lemma GoogleHeadPieces(x: string)
    requires x == GoogleBase
    ensures x[..|x| - 1] == ("https://www." + GoogleMark) + ['/'] + ("s2" + ['/'] + ("favicons" + ['?'] + "domain"))
  {
  }

  /** The Google base before its `=` holds `favicons` but not `favicon.ico`:
      the piece before the first cut has no `f`, and the others are shorter
      than that name. */
  lemma GoogleHeadNoFavicon(x: string, p: string)
    requires x == GoogleBase && p == FaviconMark
    ensures !Contains(x[..|x| - 1], p)
  {
    var u := "https://www." + GoogleMark;
    NotContainsChar(u, p, 'f');
    GoogleHeadPieces(x);
    ThreeCuts(u, "s2", "favicons", "domain", p, '/', '/', '?');
  }

  /** A pattern lacking the three cut characters and longer than the last
      three pieces occurs in the cut text only if it occurs in the first
      piece. */
  lemma ThreeCuts(a: string, b: string, c: string, d: string, p: string, x: char, y: char, z: char)
    requires !Contains(a, p) && |b| < |p| && |c| < |p| && |d| < |p|
    requires x !in p && y !in p && z !in p
    ensures !Contains(a + [x] + (b + [y] + (c + [z] + d)), p)
  {
    ShortNotContains(b, p);
    ShortNotContains(c, p);
    ShortNotContains(d, p);
    NotAcross(c, z, d, p);
    NotAcross(b, y, c + [z] + d, p);
    NotAcross(a, x, b + [y] + (c + [z] + d), p);
  }

  /** The FaviconKit base before its last `/`, cut at the characters `p` and
      `k` that `favicon.ico` lacks. */
  lemma FaviconKitHeadPieces(x: string)
    requires x == FaviconKitBase
    ensures x[..|x| - 1] == "https://a" + ['p'] + ("i.favicon" + ['k'] + "it.com")
  {
  }

  /** The FaviconKit base before its last `/` does not hold `favicon.ico`:
      the pieces between the cuts are shorter than that name. */
  lemma FaviconKitHeadNoFavicon(x: string, p: string)
    requires x == FaviconKitBase && p == FaviconMark
    ensures !Contains(x[..|x| - 1], p)
  {
    FaviconKitHeadPieces(x);
    TwoCutsShort("https://a", 'p', "i.favicon", 'k', "it.com", p);
  }

  /** A pattern missing both cut characters and longer than each of the three
      pieces does not occur in the cut text. */
  lemma TwoCutsShort(a: string, c1: char, b: string, c2: char, c: string, p: string)
    requires |a| < |p| && |b| < |p| && |c| < |p| && c1 !in p && c2 !in p
    ensures !Contains(a + [c1] + (b + [c2] + c), p)
  {
    ShortNotContains(a, p);
    ShortNotContains(b, p);
    ShortNotContains(c, p);
    NotAcross(b, c2, c, p);
    NotAcross(a, c1, b + [c2] + c, p);
  }

  lemma GoogleSrcMarks(h: string)
    requires !Contains(h, UnavatarMark) && !Contains(h, IconHorseMark) && !Contains(h, FaviconMark)
    ensures !Contains(GoogleSrc(h), UnavatarMark)
    ensures !Contains(GoogleSrc(h), IconHorseMark)
    ensures !Contains(GoogleSrc(h), FaviconMark)
    ensures Contains(GoogleSrc(h), GoogleMark)
  {
    GoogleSrcLacks(h, UnavatarMark, GoogleBase, GoogleSize, 'u', 'u');
    GoogleSrcLacks(h, IconHorseMark, GoogleBase, GoogleSize, 'r', 'i');
    GoogleSrcNoFavicon(h, FaviconMark, GoogleBase, GoogleSize);
    GoogleSrcHas(h, GoogleMark, GoogleBase, GoogleSize);
  }

  lemma GoogleSrcLacks(h: string, p: string, x: string, y: string, cx: char, cy: char)
    requires p in {UnavatarMark, IconHorseMark} && x == GoogleBase && y == GoogleSize
    requires cx in p && cx !in x[..|x| - 1] && cy in p && cy !in y[1..]
    requires !Contains(h, p)
    ensures !Contains(x + h + y, p)
  {
    NoSeparatorInMarks(UnavatarMark, IconHorseMark, FaviconMark, GoogleMark);
    assert x[|x| - 1] == '=' && y[0] == '&';
    LacksAround(x, h, y, p, cx, cy);
  }

  /** The Google source holds `favicons` but not `favicon.ico`. */
  lemma GoogleSrcNoFavicon(h: string, f: string, x: string, y: string)
    requires f == FaviconMark && x == GoogleBase && y == GoogleSize
    requires !Contains(h, f)
    ensures !Contains(x + h + y, f)
  {
    NoSeparatorInMarks(UnavatarMark, IconHorseMark, FaviconMark, GoogleMark);
    assert x[|x| - 1] == '=' && y[0] == '&';
    GoogleHeadNoFavicon(x, f);
    ShortNotContains(y[1..], f);
    NotContainsAround(x, h, y, f);
  }

  lemma GoogleSrcHas(h: string, g: string, x: string, y: string)
    requires g == GoogleMark && x == GoogleBase && y == GoogleSize
    ensures Contains(x + h + y, g)
  {
    ContainsInPart("https://www.", g, "/s2/favicons?domain=", g);
    ContainsLeading(x, h, y, g);
  }

  /** The FaviconKit source contains a service name exactly when the hostname
      does. */
  lemma FaviconKitSrcMarks(h: string)
    ensures Contains(FaviconKitSrc(h), UnavatarMark) <==> Contains(h, UnavatarMark)
    ensures Contains(FaviconKitSrc(h), IconHorseMark) <==> Contains(h, IconHorseMark)
    ensures Contains(FaviconKitSrc(h), FaviconMark) <==> Contains(h, FaviconMark)
    ensures Contains(FaviconKitSrc(h), GoogleMark) <==> Contains(h, GoogleMark)
  {
    FaviconKitKeepsUnavatar(h, UnavatarMark, FaviconKitBase, FaviconKitSize);
    FaviconKitKeepsIconHorse(h, IconHorseMark, FaviconKitBase, FaviconKitSize);
    FaviconKitKeepsFavicon(h, FaviconMark, FaviconKitBase, FaviconKitSize);
    FaviconKitKeepsGoogle(h, GoogleMark, FaviconKitBase, FaviconKitSize);
  }

  lemma FaviconKitKeepsUnavatar(h: string, p: string, x: string, y: string)
    requires p == UnavatarMark && x == FaviconKitBase && y == FaviconKitSize
    ensures Contains(x + h + y, p) <==> Contains(h, p)
  {
    NotContainsChar(x[..|x| - 1], p, 'u');
    FaviconKitKeeps(h, p, x, y);
  }

  lemma FaviconKitKeepsIconHorse(h: string, p: string, x: string, y: string)
    requires p == IconHorseMark && x == FaviconKitBase && y == FaviconKitSize
    ensures Contains(x + h + y, p) <==> Contains(h, p)
  {
    NotContainsChar(x[..|x| - 1], p, 'r');
    FaviconKitKeeps(h, p, x, y);
  }

  lemma FaviconKitKeepsFavicon(h: string, p: string, x: string, y: string)
    requires p == FaviconMark && x == FaviconKitBase && y == FaviconKitSize
    ensures Contains(x + h + y, p) <==> Contains(h, p)
  {
    FaviconKitHeadNoFavicon(x, p);
    FaviconKitKeeps(h, p, x, y);
  }

  lemma FaviconKitKeepsGoogle(h: string, p: string, x: string, y: string)
    requires p == GoogleMark && x == FaviconKitBase && y == FaviconKitSize
    ensures Contains(x + h + y, p) <==> Contains(h, p)
  {
    NotContainsChar(x[..|x| - 1], p, 'g');
    FaviconKitKeeps(h, p, x, y);
  }

  /** A name without a slash, longer than two characters and absent from the
      FaviconKit prefix, occurs in the FaviconKit source only inside the
      hostname. */
  lemma FaviconKitKeeps(h: string, p: string, x: string, y: string)
    requires x == FaviconKitBase && y == FaviconKitSize
    requires '/' !in p && |p| > 2 && !Contains(x[..|x| - 1], p)
    ensures Contains(x + h + y, p) <==> Contains(h, p)
  {
    assert x[|x| - 1] == '/' && y[0] == '/';
    FaviconKitSizeShort(y, p);
    AroundIff(x, h, y, p);
  }

  lemma FaviconKitSizeShort(y: string, p: string)
    requires y == FaviconKitSize && |p| > 2
    ensures !Contains(y[1..], p)
  {
    ShortNotContains(y[1..], p);
  }

  /** Text around `h` that cannot hold `p`, even across its edge, leaves `h`
      the only place `p` can occur. */
  lemma AroundIff(x: string, h: string, y: string, p: string)
    requires x != [] && x[|x| - 1] !in p && !Contains(x[..|x| - 1], p)
    requires y == [] || (y[0] !in p && !Contains(y[1..], p))
    ensures Contains(x + h + y, p) <==> Contains(h, p)
  {
    if Contains(h, p) {
      ContainsMiddle(x, h, y, p);
    } else {
      NotContainsAround(x, h, y, p);
    }
  }

  // ---------------------------------------------------------------------------
  // The chain as written

  /** For a hostname naming none of the first three services the chain runs
      unavatar.io, icon.horse, the site's own /favicon.ico, Google's favicon
      service and then FaviconKit. */
  lemma ChainToFaviconKit(parse: Parser, url: string)
    requires parse(url).Some?
    requires var h := parse(url).value.hostname;
      !Contains(h, UnavatarMark) && !Contains(h, IconHorseMark) && !Contains(h, FaviconMark)
    ensures var h := parse(url).value.hostname;
      && AfterErrors(parse, url, 0) == Image(UnavatarSrc(h))
      && AfterErrors(parse, url, 1) == Image(IconHorseSrc(h))
      && AfterErrors(parse, url, 2) == Image(DirectSrc(h))
      && AfterErrors(parse, url, 3) == Image(GoogleSrc(h))
      && AfterErrors(parse, url, 4) == Image(FaviconKitSrc(h))
  {
    var h := parse(url).value.hostname;
    UnavatarSrcMarks(h);
    IconHorseSrcMarks(h);
    DirectSrcMarks(h);
    GoogleSrcMarks(h);
  }

  /** For a hostname naming none of the services the chain shows the emoji
      at the fifth error, after FaviconKit. */
  lemma MarkerFreeChain(parse: Parser, url: string)
    requires parse(url).Some? && MarkerFree(parse(url).value.hostname)
    ensures AfterErrors(parse, url, 4) == Image(FaviconKitSrc(parse(url).value.hostname))
    ensures AfterErrors(parse, url, 5) == Emoji
  {
    ChainToFaviconKit(parse, url);
    FaviconKitSrcMarks(parse(url).value.hostname);
  }

  /** Every site shows its emoji after at most five errors when its hostname
      names none of the services or its URL does not parse. */
  lemma ChainEnds(parse: Parser, url: string, n: nat)
    requires parse(url).None? || MarkerFree(parse(url).value.hostname)
    requires n >= 5
    ensures AfterErrors(parse, url, n) == Emoji
  {
    if parse(url).None? {
      UnparsableShowsEmoji(parse, url);
      EmojiStays(parse, url, 1, n);
    } else {
      MarkerFreeChain(parse, url);
      EmojiStays(parse, url, 5, n);
    }
  }

  /** Once the emoji shows, it stays. */
  lemma EmojiStays(parse: Parser, url: string, n: nat, m: nat)
    requires AfterErrors(parse, url, n) == Emoji && n <= m
    ensures AfterErrors(parse, url, m) == Emoji
    decreases m - n
  {
    if n < m {
      EmojiStays(parse, url, n + 1, m);
    }
  }

  /** A hostname holding `google.com` and no other service name: from the
      fourth error on the handler assigns the FaviconKit source again and
      again, because that source contains the hostname and so `google.com`;
      the emoji never shows. */
  lemma GoogleHostNeverShowsEmoji(parse: Parser, url: string, n: nat)
    requires parse(url).Some?
    requires var h := parse(url).value.hostname;
      Contains(h, GoogleMark) && !Contains(h, UnavatarMark)
      && !Contains(h, IconHorseMark) && !Contains(h, FaviconMark)
    requires n >= 4
    ensures AfterErrors(parse, url, n) == Image(FaviconKitSrc(parse(url).value.hostname))
    ensures AfterErrors(parse, url, n) != Emoji
    decreases n
  {
    var h := parse(url).value.hostname;
    if n == 4 {
      ChainToFaviconKit(parse, url);
    } else {
      GoogleHostNeverShowsEmoji(parse, url, n - 1);
      FaviconKitSrcMarks(h);
    }
  }

  // ---------------------------------------------------------------------------
  // The chain with an explicit tier

  const TierCount := 5

  /** The source of each tier: unavatar.io, icon.horse, the site's own
      /favicon.ico, Google's favicon service, FaviconKit. */
  function TierSrc(h: string, tier: nat): string
    requires tier < TierCount
  {
    [UnavatarSrc(h), IconHorseSrc(h), DirectSrc(h), GoogleSrc(h), FaviconKitSrc(h)][tier]
  }

  /** The error handler keyed on the tier that failed rather than on the
      text of the source: the next tier, or the emoji after the last. */
  function OnErrorByTier(parse: Parser, url: string, tier: nat): Icon {
    match Hostname(parse, url)
    case None => Emoji
    case Some(h) => if tier + 1 < TierCount then Image(TierSrc(h, tier + 1)) else Emoji
  }

  /** What the cell shows after `n` load errors with the tier kept: the
      `n`-th error is the failure of tier `n - 1`. */
  function AfterErrorsByTier(parse: Parser, url: string, n: nat): Icon {
    if n == 0 then Image(InitialSrc(parse, url))
    else
      match AfterErrorsByTier(parse, url, n - 1)
      case Emoji => Emoji
      case Image(_) => OnErrorByTier(parse, url, n - 1)
  }

  /** With the tier kept, every site shows its emoji after at most five
      errors, whatever its hostname. */
  lemma {:induction false} ByTierEnds(parse: Parser, url: string, n: nat)
    requires n >= TierCount
    ensures AfterErrorsByTier(parse, url, n) == Emoji
  {
    if n > TierCount {
      ByTierEnds(parse, url, n - 1);
    }
  }

  /** With the tier kept, a parsable site tries the five sources in order. */
  lemma {:induction false} ByTierSources(parse: Parser, url: string, n: nat)
    requires parse(url).Some? && n < TierCount
    ensures AfterErrorsByTier(parse, url, n) == Image(TierSrc(parse(url).value.hostname, n))
  {
    if n > 0 {
      ByTierSources(parse, url, n - 1);
    }
  }

  /** The tiered chain and the chain as written agree on every site whose
      URL does not parse or whose hostname names none of the services. */
  lemma ByTierAgrees(parse: Parser, url: string, n: nat)
    requires parse(url).None? || MarkerFree(parse(url).value.hostname)
    ensures AfterErrorsByTier(parse, url, n) == AfterErrors(parse, url, n)
  {
    if n >= TierCount {
      ByTierEnds(parse, url, n);
      ChainEnds(parse, url, n);
    } else if parse(url).None? {
      if n > 0 {
        UnparsableShowsEmoji(parse, url);
        EmojiStays(parse, url, 1, n);
        assert AfterErrorsByTier(parse, url, 1) == Emoji;
        ByTierEmojiStays(parse, url, 1, n);
      }
    } else {
      ByTierSources(parse, url, n);
      MarkerFreeChain(parse, url);
      ChainToFaviconKit(parse, url);
    }
  }

  lemma ByTierEmojiStays(parse: Parser, url: string, n: nat, m: nat)
    requires AfterErrorsByTier(parse, url, n) == Emoji && n <= m
    ensures AfterErrorsByTier(parse, url, m) == Emoji
    decreases m - n
  {
    if n < m {
      ByTierEmojiStays(parse, url, n + 1, m);
    }
  }

  /** On a Google hostname the two chains part at the fifth error: the tiered
      one shows the emoji, the one as written assigns FaviconKit again. */
  lemma GoogleHostByTier(parse: Parser, url: string)
    requires parse(url).Some?
    requires var h := parse(url).value.hostname;
      Contains(h, GoogleMark) && !Contains(h, UnavatarMark)
      && !Contains(h, IconHorseMark) && !Contains(h, FaviconMark)
    ensures AfterErrorsByTier(parse, url, TierCount) == Emoji
    ensures AfterErrors(parse, url, TierCount) != Emoji
  {
    ByTierEnds(parse, url, TierCount);
    GoogleHostNeverShowsEmoji(parse, url, TierCount);
  }
}
