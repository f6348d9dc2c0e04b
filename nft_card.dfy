/**
 * The NFT card: how one owned-token record is turned into a displayable image
 * URL (direct image fields, else the token-URI metadata document, with the
 * `ipfs://` gateway rewrite), how the contract address and token id are
 * shortened for display, and the card's two pieces of state, `imageUrl` and
 * the copy-feedback flag `copied`.
 */
module NftCard {
  import opened Wrappers
  import opened JsStrings

  const IpfsScheme: string := "ipfs://"
  const IpfsGateway: string := "https://ipfs.io/ipfs/"
  /** Both display strings keep at most this many characters before the ellipsis. */
  const ShortLength: nat := 20
  const Ellipsis: string := "..."
  const CopiedText: string := "Copied!"
  const NoAddressText: string := "No contract address"

  // ---------------------------------------------------------------------------
  // Data model

  /** `data.image`: the API's inline image references. */
  datatype ImageRefs = ImageRefs(originalUrl: Option<string>, cachedUrl: Option<string>)

  /**
   * `data.tokenUri` is either a string or an object wrapping the string in
   * `raw`. Only the string form is usable by the card: see ResolveImageUrl.
   */
  datatype TokenUri = UriText(text: string) | UriObject(raw: Option<string>)

  /** One NFT record as returned by the wallet-lookup API. */
  datatype NftRecord = NftRecord(
    contractAddress: Option<string>,  // data.contract?.address
    tokenId: string,
    name: Option<string>,
    image: Option<ImageRefs>,
    tokenUri: Option<TokenUri>)

  /**
   * The outcome of fetching the metadata document and parsing it as JSON:
   * either the fetch or the parse threw, or the body's `image` field (absent
   * when the body has none, or is `null`).
   */
  datatype MetaOutcome = MetaFailed | MetaOk(image: Option<string>)

  /** Why a resolution run publishes nothing. */
  datatype Unpublished =
    | NoImage         // no candidate at the `if (!rawUrl) return` test
    | MetadataError   // fetch or JSON parse threw; caught and logged
    | TokenUriThrew   // `tokenUri.startsWith` is not a function: uncaught rejection

  /** What one run of the resolution chain does to the card. */
  datatype Resolution = Published(url: string) | NotPublished(why: Unpublished)

  // ---------------------------------------------------------------------------
  // The IPFS gateway rewrite, written twice in the component

  /** `uri.startsWith("ipfs://") ? uri.replace("ipfs://", gateway) : uri`. */
  function RewriteIpfs(uri: string): (r: string)
    ensures StartsWith(uri, IpfsScheme) ==> r == IpfsGateway + uri[|IpfsScheme|..]
    ensures !StartsWith(uri, IpfsScheme) ==> r == uri
  {
    if StartsWith(uri, IpfsScheme) then ReplaceFirst(uri, IpfsScheme, IpfsGateway) else uri
  }

  /** The scheme prefix is swapped for the gateway prefix and the rest is kept. */
  lemma RewriteIpfsScheme(rest: string)
    ensures RewriteIpfs(IpfsScheme + rest) == IpfsGateway + rest
  {
  }

  /** A rewritten URL never again uses the `ipfs://` scheme. */
  lemma RewriteIpfsLeavesNoScheme(uri: string)
    ensures !StartsWith(RewriteIpfs(uri), IpfsScheme)
  {
    if StartsWith(uri, IpfsScheme) {
      var r := RewriteIpfs(uri);
      assert r[..|IpfsScheme|] == IpfsGateway[..|IpfsScheme|];
      assert IpfsGateway[0] != IpfsScheme[0];
    }
  }

  /** Rewriting twice is rewriting once, so both call sites firing is harmless. */
  lemma RewriteIpfsIdempotent(uri: string)
    ensures RewriteIpfs(RewriteIpfs(uri)) == RewriteIpfs(uri)
  {
    RewriteIpfsLeavesNoScheme(uri);
  }

  /** The rewrite never empties a URL and never shortens it. */
  lemma RewriteIpfsKeepsPresence(uri: string)
    ensures |RewriteIpfs(uri)| >= |uri|
    ensures RewriteIpfs(uri) != "" <==> uri != ""
  {
  }

  // ---------------------------------------------------------------------------
  // The resolution chain as a reference definition

  /** `data?.image?.originalUrl || data?.image?.cachedUrl`. */
  function DirectImage(rec: NftRecord): (r: Option<string>)
    ensures rec.image.None? ==> r == None
    ensures rec.image.Some? && Truthy(rec.image.value.originalUrl) ==> r == rec.image.value.originalUrl
    ensures rec.image.Some? && !Truthy(rec.image.value.originalUrl) ==> r == rec.image.value.cachedUrl
    ensures Truthy(r) <==> rec.image.Some? && (Truthy(rec.image.value.originalUrl) || Truthy(rec.image.value.cachedUrl))
  {
    match rec.image
    case None => None
    case Some(refs) => Or(refs.originalUrl, refs.cachedUrl)
  }

  /**
   * The argument handed to `fetch` when there is no direct image and the
   * token URI is not an object: the rewritten token-URI string, or `None` for
   * `fetch(undefined)` when the token URI is absent or empty. The
   * `data?.tokenUri?.raw` alternative of the source is only reached when
   * `data?.tokenUri` is falsy, where `.raw` is `undefined`, so it never
   * contributes.
   */
  function MetadataRequest(rec: NftRecord): (r: Option<string>)
    ensures r.Some? <==> rec.tokenUri.Some? && rec.tokenUri.value.UriText? && rec.tokenUri.value.text != ""
    ensures r.Some? && StartsWith(rec.tokenUri.value.text, IpfsScheme) ==>
      r.value == IpfsGateway + rec.tokenUri.value.text[|IpfsScheme|..]
    ensures r.Some? && !StartsWith(rec.tokenUri.value.text, IpfsScheme) ==> r.value == rec.tokenUri.value.text
  {
    match rec.tokenUri
    case Some(UriText(s)) => if s != "" then Some(RewriteIpfs(s)) else None
    case _ => None
  }

  /**
   * The candidate the chain chooses: the direct image when it is truthy, else
   * the `image` of the fetched metadata; `None` when the fetch fails and when
   * an object token URI throws before any fetch. ResolveImageUrl proves it
   * agrees with the source's `rawUrl` wherever that is truthy.
   */
  function Candidate(rec: NftRecord, fetch: Option<string> -> MetaOutcome): Option<string>
  {
    var direct := DirectImage(rec);
    if Truthy(direct) then direct
    else if rec.tokenUri.Some? && rec.tokenUri.value.UriObject? then None
    else match fetch(MetadataRequest(rec))
      case MetaFailed => None
      case MetaOk(image) => image
  }

  /**
   * Ordered fallback, short-circuiting at the first success: a direct image
   * reference, else the `image` of the fetched metadata; whatever is chosen is
   * rewritten once more before it is published. A published URL is never
   * empty and never left in the `ipfs://` scheme.
   */
  function Resolve(rec: NftRecord, fetch: Option<string> -> MetaOutcome): (r: Resolution)
    ensures r.Published? ==> r.url != "" && !StartsWith(r.url, IpfsScheme)
  {
    var direct := DirectImage(rec);
    if Truthy(direct) then
      RewriteIpfsLeavesNoScheme(direct.value);
      Published(RewriteIpfs(direct.value))
    else if rec.tokenUri.Some? && rec.tokenUri.value.UriObject? then NotPublished(TokenUriThrew)
    else match fetch(MetadataRequest(rec))
      case MetaFailed => NotPublished(MetadataError)
      case MetaOk(image) =>
        if Truthy(image) then
          RewriteIpfsLeavesNoScheme(image.value);
          Published(RewriteIpfs(image.value))
        else NotPublished(NoImage)
  }

  /** A non-empty `originalUrl` wins: `cachedUrl` is ignored and nothing is fetched. */
  lemma OriginalUrlWins(rec: NftRecord, fetch: Option<string> -> MetaOutcome, other: Option<string> -> MetaOutcome)
    requires rec.image.Some? && Truthy(rec.image.value.originalUrl)
    ensures Resolve(rec, fetch) == Published(RewriteIpfs(rec.image.value.originalUrl.value))
    ensures Resolve(rec, fetch) == Resolve(rec, other)
  {
  }

  /** With `originalUrl` absent or empty, a non-empty `cachedUrl` is used, again without fetching. */
  lemma CachedUrlFallback(rec: NftRecord, fetch: Option<string> -> MetaOutcome, other: Option<string> -> MetaOutcome)
    requires rec.image.Some? && !Truthy(rec.image.value.originalUrl) && Truthy(rec.image.value.cachedUrl)
    ensures Resolve(rec, fetch) == Published(RewriteIpfs(rec.image.value.cachedUrl.value))
    ensures Resolve(rec, fetch) == Resolve(rec, other)
  {
  }

  /**
   * Without direct image fields and with a token URI that is a string or
   * absent, the (rewritten) token URI, or `undefined`, is fetched and its
   * `image` is rewritten and published.
   */
  lemma MetadataImagePublished(rec: NftRecord, fetch: Option<string> -> MetaOutcome)
    requires !Truthy(DirectImage(rec))
    requires !(rec.tokenUri.Some? && rec.tokenUri.value.UriObject?)
    requires fetch(MetadataRequest(rec)).MetaOk? && Truthy(fetch(MetadataRequest(rec)).image)
    ensures Resolve(rec, fetch) == Published(RewriteIpfs(fetch(MetadataRequest(rec)).image.value))
  {
  }

  /**
   * Both rewrites firing for one record: metadata at `ipfs://<meta>` is
   * fetched through the gateway, and its image `ipfs://<img>` is published
   * through the gateway too.
   */
  lemma IpfsMetadataAndImage(fetch: Option<string> -> MetaOutcome, id: string, meta: string, img: string)
    requires fetch(Some(IpfsGateway + meta)) == MetaOk(Some(IpfsScheme + img))
    ensures MetadataRequest(NftRecord(None, id, None, None, Some(UriText(IpfsScheme + meta)))) == Some(IpfsGateway + meta)
    ensures Resolve(NftRecord(None, id, None, None, Some(UriText(IpfsScheme + meta))), fetch)
            == Published(IpfsGateway + img)
  {
  }

  /** The worked case: `ipfs://Qm123/meta.json` yielding the image `ipfs://Qm456/img.png`. */
  lemma IpfsMetadataExample(fetch: Option<string> -> MetaOutcome, id: string)
    requires fetch(Some("https://ipfs.io/ipfs/Qm123/meta.json")) == MetaOk(Some("ipfs://Qm456/img.png"))
    ensures Resolve(NftRecord(None, id, None, None, Some(UriText("ipfs://Qm123/meta.json"))), fetch)
            == Published("https://ipfs.io/ipfs/Qm456/img.png")
  {
    var meta, img := "Qm123/meta.json", "Qm456/img.png";
    assert IpfsScheme + meta == "ipfs://Qm123/meta.json";
    assert IpfsScheme + img == "ipfs://Qm456/img.png";
    assert IpfsGateway + meta == "https://ipfs.io/ipfs/Qm123/meta.json";
    assert IpfsGateway + img == "https://ipfs.io/ipfs/Qm456/img.png";
    IpfsMetadataAndImage(fetch, id, meta, img);
  }

  /** A failed fetch or parse, or metadata without a non-empty `image`, publishes nothing. */
  lemma MetadataFailurePublishesNothing(rec: NftRecord, fetch: Option<string> -> MetaOutcome)
    requires !Truthy(DirectImage(rec))
    requires fetch(MetadataRequest(rec)).MetaFailed? || !Truthy(fetch(MetadataRequest(rec)).image)
    ensures Resolve(rec, fetch).NotPublished?
  {
  }

  /** An object-valued token URI (with no direct image) always ends the run with nothing published. */
  lemma TokenObjectPublishesNothing(rec: NftRecord, fetch: Option<string> -> MetaOutcome)
    requires !Truthy(DirectImage(rec)) && rec.tokenUri.Some? && rec.tokenUri.value.UriObject?
    ensures Resolve(rec, fetch) == NotPublished(TokenUriThrew)
  {
  }

  /**
   * A URL is published exactly when the chain yields a non-empty candidate,
   * and it is the rewrite of that candidate.
   */
  lemma PublishedUrlIsRewrittenCandidate(rec: NftRecord, fetch: Option<string> -> MetaOutcome)
    ensures Resolve(rec, fetch).Published? <==> Truthy(Candidate(rec, fetch))
    ensures Resolve(rec, fetch).Published? ==> Resolve(rec, fetch).url == RewriteIpfs(Candidate(rec, fetch).value)
  {
  }

  /**
   * `resolveImageUrl`, step by step: `rawUrl` and `tokenUri` are locals that
   * are reassigned as the chain proceeds; `r` says what the run hands to
   * `setImageUrl`, if anything, and `rawUrl` is the local's value where the
   * run ends.
   */
  method ResolveImageUrl(rec: NftRecord, fetch: Option<string> -> MetaOutcome)
    returns (r: Resolution, rawUrl: Option<string>)
    ensures r == Resolve(rec, fetch)
    ensures Truthy(rawUrl) <==> Truthy(Candidate(rec, fetch))
    ensures Truthy(rawUrl) ==> rawUrl == Candidate(rec, fetch)
  {
    rawUrl := None;
    if rec.image.Some? {
      rawUrl := Or(rec.image.value.originalUrl, rec.image.value.cachedUrl);
    }
    var failure := NoImage;
    if !Truthy(rawUrl) {
      var tokenObject := rec.tokenUri.Some? && rec.tokenUri.value.UriObject?;
      if tokenObject {
        // An object is truthy, so `tokenUri` is that object and calling its
        // missing `startsWith` throws before the guarded fetch.
        r := NotPublished(TokenUriThrew);
        return;
      }
      // `data?.tokenUri?.raw` is only evaluated when `data?.tokenUri` is
      // falsy, where it is `undefined`: that alternative is dead.
      var tokenUri := None;
      if rec.tokenUri.Some? && Truthy(Some(rec.tokenUri.value.text)) {
        tokenUri := Some(rec.tokenUri.value.text);
      }
      if tokenUri.Some? && StartsWith(tokenUri.value, IpfsScheme) {
        tokenUri := Some(ReplaceFirst(tokenUri.value, IpfsScheme, IpfsGateway));
      }
      var meta := fetch(tokenUri);
      if meta.MetaOk? {
        rawUrl := meta.image;
      } else {
        failure := MetadataError;
      }
    }
    if !Truthy(rawUrl) {
      r := NotPublished(failure);
      return;
    }
    var finalUrl := if StartsWith(rawUrl.value, IpfsScheme)
      then ReplaceFirst(rawUrl.value, IpfsScheme, IpfsGateway)
      else rawUrl.value;
    r := Published(finalUrl);
  }

  // ---------------------------------------------------------------------------
  // Display strings

  /** The token id shown on the card: cut to 20 characters plus an ellipsis only when longer than 20. */
  function ShortTokenId(tokenId: string): (r: string)
    ensures |tokenId| <= ShortLength ==> r == tokenId
    ensures |tokenId| > ShortLength ==> |r| == ShortLength + |Ellipsis| && r == tokenId[..ShortLength] + Ellipsis
  {
    if |tokenId| > ShortLength then Slice(tokenId, ShortLength) + Ellipsis else tokenId
  }

  /**
   * The address shown on the card: the ellipsis is appended to EVERY
   * non-empty address, even one of 20 characters or fewer; an absent or empty
   * address gives `null`.
   */
  function ShortAddress(address: Option<string>): (r: Option<string>)
    ensures r.None? <==> !Truthy(address)
    ensures r.Some? ==> |r.value| == (if |address.value| <= ShortLength then |address.value| else ShortLength) + |Ellipsis|
    ensures r.Some? ==> r.value[|r.value| - |Ellipsis|..] == Ellipsis
    ensures r.Some? ==> r.value[..|r.value| - |Ellipsis|] == address.value[..|r.value| - |Ellipsis|]
  {
    if Truthy(address) then Some(Slice(address.value, ShortLength) + Ellipsis) else None
  }

  /**
   * The two truncations agree on a non-empty string exactly when it is longer
   * than 20 characters; on a shorter one the address gains an ellipsis and the
   * token id does not.
   */
  lemma ShortAddressAgreesWithTokenIdIffLong(s: string)
    requires s != ""
    ensures ShortAddress(Some(s)) == Some(ShortTokenId(s)) <==> |s| > ShortLength
  {
  }

  // ---------------------------------------------------------------------------
  // The card's state

  class Card {
    const data: NftRecord
    /** `imageUrl` state: `null` until a resolution run publishes. */
    var imageUrl: Option<string>
    /** `copied` state: the copy-feedback flag. */
    var copied: bool
    /** Every value ever passed to `setImageUrl`, oldest first. */
    ghost var published: seq<string>

    /** A published URL is non-empty and gateway-rewritten, and `imageUrl` is the last one published. */
    ghost predicate Valid()
      reads this
    {
      && (published == [] <==> imageUrl == None)
      && (published != [] ==> imageUrl == Some(published[|published| - 1]))
      && forall i :: 0 <= i < |published| ==> published[i] != "" && !StartsWith(published[i], IpfsScheme)
    }

    /** `useState(null)` and `useState(false)`. */
    constructor (data: NftRecord)
      ensures Valid()
      ensures this.data == data && imageUrl == None && !copied && published == []
    {
      this.data := data;
      imageUrl := None;
      copied := false;
      published := [];
    }

    /**
     * One resolution run: `setImageUrl` is called exactly once when the chain
     * yields a URL and not at all otherwise; `copied` is not touched.
     */
    method RunResolution(fetch: Option<string> -> MetaOutcome) returns (r: Resolution)
      requires Valid()
      modifies this`imageUrl, this`published
      ensures Valid()
      ensures r == Resolve(data, fetch)
      ensures r.Published? ==> imageUrl == Some(r.url) && published == old(published) + [r.url]
      ensures r.NotPublished? ==> imageUrl == old(imageUrl) && published == old(published)
      ensures copied == old(copied)
    {
      var rawUrl;
      r, rawUrl := ResolveImageUrl(data, fetch);
      if r.Published? {
        imageUrl := Some(r.url);
        published := published + [r.url];
      }
    }

    /**
     * `handleCopy`: the full, untruncated address is written to the clipboard;
     * `writeSucceeded` is the outcome of that write. Only success sets the flag.
     */
    method HandleCopy(writeSucceeded: bool) returns (written: Option<string>)
      requires Valid()
      modifies this`copied
      ensures Valid()
      ensures written == data.contractAddress
      ensures copied == (old(copied) || writeSucceeded)
      ensures imageUrl == old(imageUrl) && published == old(published)
    {
      written := data.contractAddress;
      if writeSucceeded {
        copied := true;
      }
    }

    /** The callback of the two-second timer that follows a successful copy. */
    method ResetCopied()
      requires Valid()
      modifies this`copied
      ensures Valid()
      ensures !copied
      ensures imageUrl == old(imageUrl) && published == old(published)
    {
      copied := false;
    }

    /** The text of the address cell: `copied ? "Copied!" : shortAddress || "No contract address"`. */
    function AddressCell(): (r: string)
      reads this
      ensures copied ==> r == CopiedText
      ensures !copied && Truthy(data.contractAddress) ==>
        r == ShortAddress(data.contractAddress).value && |r| >= |Ellipsis| && r[|r| - |Ellipsis|..] == Ellipsis
      ensures !copied && !Truthy(data.contractAddress) ==> r == NoAddressText
    {
      if copied then CopiedText
      else
        var short := ShortAddress(data.contractAddress);
        if Truthy(short) then short.value else NoAddressText
    }
  }

  /** After a successful copy the address cell reads "Copied!"; a failed copy leaves the cell as it was. */
  method CopyFeedback(card: Card, writeSucceeded: bool)
    requires card.Valid()
    modifies card
    ensures writeSucceeded ==> card.AddressCell() == CopiedText
    ensures !writeSucceeded ==> card.AddressCell() == old(card.AddressCell())
  {
    var _ := card.HandleCopy(writeSucceeded);
  }
}
