/**
 * `ImageURLFormatter`: the URLs of coin and token icons on the wallet's image
 * host, and the fixed URL of the chain's own logo. Each URL builder has a
 * parser partner that recovers its argument, which makes injectivity and the
 * disjointness of the coin and token spaces provable.
 */
module ImageURLFormatter {
  import opened Options
  import opened Text

  /** `Constants.images`. */
  const Images: string := "https://trustwalletapp.com/images"

  const CoinsPrefix: string := Images + "/coins/"
  const TokensPrefix: string := Images + "/tokens/"
  const PngSuffix: string := ".png"

  /** The chain explorer's host, where the chain's own logo is served. */
  const SocHost: string := "http://test-socscan.allsportschain.com"
  const SocLogo: string := SocHost + "/static/img/soc-logo.99617b5.png"

  predicate HasPrefix(p: string, s: string) { |p| <= |s| && s[..|p|] == p }

  predicate HasSuffix(x: string, s: string) { |x| <= |s| && s[|s| - |x|..] == x }

  /** The part of `url` between `prefix` and the `.png` suffix. */
  function Stem(prefix: string, url: string): string
    requires |prefix| + |PngSuffix| <= |url|
  {
    url[|prefix|..|url| - |PngSuffix|]
  }

  /** A URL of the form `prefix + stem + ".png"`, where `stem` is what lies between. */
  predicate Framed(prefix: string, url: string) {
    |prefix| + |PngSuffix| <= |url| && HasPrefix(prefix, url) && HasSuffix(PngSuffix, url)
  }

  lemma FramedParts(prefix: string, stem: string)
    ensures Framed(prefix, prefix + stem + PngSuffix)
    ensures Stem(prefix, prefix + stem + PngSuffix) == stem
  {
  }

  lemma FramedRebuild(prefix: string, url: string)
    requires Framed(prefix, url)
    ensures prefix + Stem(prefix, url) + PngSuffix == url
  {
  }

  /** `image(for: Coin)`: the icon of a coin, keyed by the coin's raw value in decimal. */
  function CoinImage(coinRawValue: nat): (r: string)
    ensures Framed(CoinsPrefix, r)
    ensures IsCanonicalDecimal(Stem(CoinsPrefix, r))
  {
    FramedParts(CoinsPrefix, Decimal(coinRawValue));
    Images + "/coins/" + Decimal(coinRawValue) + ".png"
  }

  /** `image(for: String)`: the icon of a token contract, keyed by the lowercased contract. */
  function TokenImage(contract: string): (r: string)
    ensures Framed(TokensPrefix, r)
    ensures Stem(TokensPrefix, r) == Lowercase(contract)
  {
    FramedParts(TokensPrefix, Lowercase(contract));
    Images + "/tokens/" + Lowercase(contract) + ".png"
  }

  /** `imageForSoc()`: the chain's logo, a fixed URL outside the image host. */
  function SocImage(): (r: string)
    ensures !HasPrefix(Images, r)
    ensures HasSuffix(PngSuffix, r)
  {
    assert SocLogo[..|SocHost|] == SocHost;
    assert SocLogo[4] != Images[4];
    SocLogo
  }

  /** Recovers the coin raw value from a coin icon URL, if `url` is one. */
  function CoinOfImage(url: string): (r: Option<nat>)
    ensures r.Some? ==> CoinImage(r.value) == url
  {
    if Framed(CoinsPrefix, url) && IsCanonicalDecimal(Stem(CoinsPrefix, url)) then
      var stem := Stem(CoinsPrefix, url);
      DecimalOfParseDecimal(stem);
      FramedRebuild(CoinsPrefix, url);
      Some(ParseDecimal(stem))
    else
      None
  }

  /** Recovers the (lowercased) contract from a token icon URL, if `url` is one. */
  function TokenOfImage(url: string): (r: Option<string>)
    ensures r.Some? ==> TokenImage(r.value) == url
  {
    if Framed(TokensPrefix, url) && NoUpper(Stem(TokensPrefix, url)) then
      var stem := Stem(TokensPrefix, url);
      LowercaseKeepsLower(stem);
      FramedRebuild(TokensPrefix, url);
      Some(stem)
    else
      None
  }

  /** The coin URL determines the coin. */
  lemma CoinImageRoundTrip(coinRawValue: nat)
    ensures CoinOfImage(CoinImage(coinRawValue)) == Some(coinRawValue)
  {
    FramedParts(CoinsPrefix, Decimal(coinRawValue));
    ParseDecimalOfDecimal(coinRawValue);
  }

  /** The token URL determines the contract up to ASCII case. */
  lemma TokenImageRoundTrip(contract: string)
    ensures TokenOfImage(TokenImage(contract)) == Some(Lowercase(contract))
  {
  }

  lemma CoinImageInjective(a: nat, b: nat)
    ensures CoinImage(a) == CoinImage(b) <==> a == b
  {
    CoinImageRoundTrip(a);
    CoinImageRoundTrip(b);
  }

  /** The token URL ignores the case of the contract. */
  lemma TokenImageCaseInsensitive(contract: string)
    ensures TokenImage(contract) == TokenImage(Lowercase(contract))
  {
  }

  /** Two contracts share an icon exactly when they are equal up to ASCII case. */
  lemma TokenImageEqualIff(a: string, b: string)
    ensures TokenImage(a) == TokenImage(b) <==> Lowercase(a) == Lowercase(b)
  {
  }

  /** No coin icon URL is a token icon URL: they part at `/coins/` versus `/tokens/`. */
  lemma CoinAndTokenImagesDisjoint(coinRawValue: nat, contract: string)
    ensures CoinImage(coinRawValue) != TokenImage(contract)
  {
  }

  /** Every coin and token URL lives under the image host and ends in `.png`. */
  lemma ImagesUnderHost(coinRawValue: nat, contract: string)
    ensures HasPrefix(Images, CoinImage(coinRawValue)) && HasSuffix(PngSuffix, CoinImage(coinRawValue))
    ensures HasPrefix(Images, TokenImage(contract)) && HasSuffix(PngSuffix, TokenImage(contract))
  {
  }

  /** The chain logo is neither a coin icon nor a token icon. */
  lemma SocImageDistinct(coinRawValue: nat, contract: string)
    ensures SocImage() != CoinImage(coinRawValue)
    ensures SocImage() != TokenImage(contract)
  {
  }
}
