# NFT card: image resolution, display strings and copy feedback

A Dafny model of the card component of a small NFT explorer front-end
(`src/app/components/NFTCard.js`). Given one NFT record from a wallet-lookup
API, the card works out an image URL through an ordered fallback chain:

1. the record's `image.originalUrl`, else `image.cachedUrl`;
2. else the token URI's metadata document and its `image` field.

An `ipfs://` URL is rewritten to the `https://ipfs.io/ipfs/` gateway at two
points: on the metadata URI and on the final image URL. The card publishes the
result into its `imageUrl` state. It also shortens the contract address and the
token id for display, and keeps a `copied` flag that a successful clipboard
write sets.

Files:

- `wrappers.dfy` holds `Option`, which stands for JavaScript's `undefined`/`null` against a present value.
- `js_strings.dfy` holds the JavaScript string primitives the card uses:
  - `startsWith`;
  - `indexOf`, and `replace` with a string pattern, which replaces only the first occurrence;
  - `slice(0, n)`;
  - the truthiness that `||` and `!` apply to an optional string, where `""` behaves like an absent value.
- `nft_card.dfy` holds the card itself:
  - the record datatypes and the IPFS rewrite;
  - `Resolve`, a reference definition of the fallback chain;
  - `ResolveImageUrl`, the step-by-step method that reassigns `rawUrl` and `tokenUri` as the source does, proved equal to `Resolve`;
  - the two truncations;
  - the `Card` class, with fields `imageUrl` and `copied`, a ghost log of every value passed to `setImageUrl`, and the invariant `Valid()`.

Collaborators are inputs:

- The metadata `fetch` + `res.json()` is a function from the fetch argument to a `MetaOutcome`. The outcome is `MetaFailed` when either call throws, or `MetaOk(image)` otherwise. The argument `None` stands for `fetch(undefined)`, which the source performs when the token URI is absent or empty.
- The clipboard write is a boolean outcome.

Three points of the code worth knowing:

- The address keeps its ellipsis on every non-empty address, even one of 20 characters or fewer. Only the token id gets an ellipsis just when it is longer than 20.
- The nested `tokenUri.raw` alternative never contributes. `data?.tokenUri || data?.tokenUri?.raw` reaches `.raw` only when `data?.tokenUri` is falsy, and `.raw` is `undefined` there.
- An object-valued token URI throws, outside the `try`, when the card calls `startsWith` on it. That run publishes nothing, and the model reports it as `NotPublished(TokenUriThrew)`.

## Model

| member | source | states |
|---|---|---|
| `JsStrings.Or` | src/app/components/NFTCard.js:10 | `a \|\| b` yields `a` when it is a non-empty string and `b` otherwise; the result is truthy exactly when one of the two is |
| `JsStrings.IndexOfFrom` | src/app/components/NFTCard.js:16 | the offset found is an occurrence of the pattern at or after the start, with no earlier one; `None` means the pattern occurs nowhere from the start on |
| `JsStrings.IndexOf` | src/app/components/NFTCard.js:31 | `indexOf` gives the first occurrence of the pattern, and `None` exactly when there is none |
| `JsStrings.ReplaceFirst` | src/app/components/NFTCard.js:16 | `replace` with a string pattern that starts the string swaps that prefix for the replacement and keeps the rest; with no occurrence the string is unchanged |
| `JsStrings.Slice` | src/app/components/NFTCard.js:51 | `slice(0, n)` is the prefix of length `min(n, len)` |
| `NftCard.RewriteIpfs` | src/app/components/NFTCard.js:30-32 | a URL starting with `ipfs://` becomes `https://ipfs.io/ipfs/` + the rest; any other URL is unchanged |
| `NftCard.RewriteIpfsScheme` | src/app/components/NFTCard.js:15-17 | `ipfs://` + rest is rewritten to `https://ipfs.io/ipfs/` + rest |
| `NftCard.RewriteIpfsLeavesNoScheme` | src/app/components/NFTCard.js:30-32 | a rewritten URL never starts with `ipfs://` |
| `NftCard.RewriteIpfsIdempotent` | src/app/components/NFTCard.js:15-17 | rewriting twice equals rewriting once, so both rewrite sites firing on one record is consistent |
| `NftCard.RewriteIpfsKeepsPresence` | src/app/components/NFTCard.js:30-32 | the rewrite never shortens a URL, and the result is empty exactly when the input is |
| `JsStrings.StartsWith` | src/app/components/NFTCard.js:15 | `s.startsWith(p)` holds exactly when `p` occurs at offset 0, and then `s` is `p` followed by the rest |
| `JsStrings.Truthy` | src/app/components/NFTCard.js:12 | the definition of the truthiness that `!rawUrl` and `\|\|` test on an optional string: present and not `""`; it has no contract of its own |
| `NftCard.DirectImage` | src/app/components/NFTCard.js:10 | no `image` gives `undefined`; a non-empty `originalUrl` is the result, otherwise `cachedUrl` is; the result is truthy exactly when `originalUrl` or `cachedUrl` is non-empty |
| `NftCard.MetadataRequest` | src/app/components/NFTCard.js:13-17 | `fetch` receives the token URI string, gateway-rewritten when it is `ipfs://`; it receives `undefined` exactly when the token URI is absent or empty |
| `NftCard.Candidate` | src/app/components/NFTCard.js:10-26 | the definition of the chosen candidate: the truthy direct image, else the fetched metadata's `image`; it is falsy after a failed fetch and when an object token URI throws before fetching. It has no contract of its own; `ResolveImageUrl` ties it to the source's `rawUrl` |
| `NftCard.Resolve` | src/app/components/NFTCard.js:9-35 | the ordered fallback chain; whatever it publishes is non-empty and never in the `ipfs://` scheme |
| `NftCard.OriginalUrlWins` | src/app/components/NFTCard.js:10-12 | with a non-empty `originalUrl` the result is its rewrite, and the result does not depend on the fetch |
| `NftCard.CachedUrlFallback` | src/app/components/NFTCard.js:10-12 | with `originalUrl` absent or empty and `cachedUrl` non-empty, the result is the rewrite of `cachedUrl`, and the result does not depend on the fetch |
| `NftCard.MetadataImagePublished` | src/app/components/NFTCard.js:13-22 | with no direct image and a token URI that is a string or absent (fetched as `undefined`), a fetched non-empty `image` is published after the rewrite |
| `NftCard.IpfsMetadataAndImage` | src/app/components/NFTCard.js:13-34 | `ipfs://`+m is fetched as `https://ipfs.io/ipfs/`+m, and a fetched image `ipfs://`+i is published as `https://ipfs.io/ipfs/`+i |
| `NftCard.IpfsMetadataExample` | src/app/components/NFTCard.js:13-34 | `ipfs://Qm123/meta.json` whose metadata image is `ipfs://Qm456/img.png` resolves to `https://ipfs.io/ipfs/Qm456/img.png` |
| `NftCard.MetadataFailurePublishesNothing` | src/app/components/NFTCard.js:19-28 | a failed fetch or parse, or metadata with no non-empty `image`, publishes nothing |
| `NftCard.TokenObjectPublishesNothing` | src/app/components/NFTCard.js:13-15 | an object-valued token URI (with no direct image) ends the run at `startsWith` with nothing published, whatever `fetch` would return, so it never reaches `fetch` |
| `NftCard.PublishedUrlIsRewrittenCandidate` | src/app/components/NFTCard.js:28-34 | a URL is published exactly when the chosen candidate `rawUrl` is truthy, and it is the rewrite of that candidate |
| `NftCard.ResolveImageUrl` | src/app/components/NFTCard.js:9-35 | the step-by-step chain, with `rawUrl` and `tokenUri` reassigned as in the source, computes exactly the reference fallback chain `Resolve`; its final `rawUrl` is truthy exactly when `Candidate` is, and then equals it |
| `NftCard.ShortTokenId` | src/app/components/NFTCard.js:54-55 | a token id of at most 20 characters is shown unchanged; a longer one as its first 20 characters + `...`, 23 characters in all |
| `NftCard.ShortAddress` | src/app/components/NFTCard.js:50-52 | absent or empty gives `null`; every other address gives its first `min(20, len)` characters + `...`, so the result always ends with `...` |
| `NftCard.ShortAddressAgreesWithTokenIdIffLong` | src/app/components/NFTCard.js:50-55 | on a non-empty string the two truncations agree if and only if it is longer than 20 characters |
| `NftCard.Card.constructor` | src/app/components/NFTCard.js:5-6 | a new card has `imageUrl == null`, `copied == false`, nothing published, and satisfies `Valid()` |
| `NftCard.Card.RunResolution` | src/app/components/NFTCard.js:28-37 | `setImageUrl` is called exactly once with the resolved URL when there is one, and not at all otherwise; `copied` is untouched; `Valid()` is kept, so every published URL is non-empty and gateway-rewritten |
| `NftCard.Card.HandleCopy` | src/app/components/NFTCard.js:40-47 | the full address is written; success sets `copied`, failure leaves it alone; `imageUrl` is unchanged |
| `NftCard.Card.ResetCopied` | src/app/components/NFTCard.js:44 | the timer callback clears `copied` and nothing else |
| `NftCard.Card.AddressCell` | src/app/components/NFTCard.js:80 | the cell shows `Copied!` while `copied` is set, otherwise the short address (ending in `...`), or `No contract address` when the address is absent or empty |
| `NftCard.CopyFeedback` | src/app/components/NFTCard.js:40-47 | after a successful copy the cell reads `Copied!`; after a failed one it reads what it read before |

## Left out

- `src/app/page.js` is not part of this model. It holds the wallet query (a network call with alerts and logging around replacing the record list) and the JSX for the form and the grid.
- `fetch`, `res.json()` and `navigator.clipboard.writeText` are not modelled as I/O. Their outcomes are inputs to `ResolveImageUrl`, `Card.RunResolution` and `Card.HandleCopy`.
- The metadata `image` and the direct image fields are typed as strings. A non-string truthy `image`, which would make `rawUrl.startsWith` throw, is not modelled.
- The two-second `setTimeout` is not modelled. Only its callback is, as `Card.ResetCopied`.
- React scheduling is not modelled. That covers `useEffect` re-running on a new `data`, stale updates after unmount, and the asynchrony of `await`. A resolution run is one atomic call.
- JSX rendering is not modelled, apart from the address-cell text. That leaves out the image or "Loading..." placeholder, the name fallbacks, `next/image`, CSS and `console.error`.
- `NftCard.ShortTokenId`: the source throws when `tokenId` is missing. The model types the token id as an always-present string.
- String lengths count Dafny characters, not JavaScript's UTF-16 code units. That limits `ShortTokenId`, `ShortAddress` and `Slice` for text outside the Basic Multilingual Plane.
