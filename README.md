# Sandbox client: lifecycle, listing, tiers and preview tokens

A Dafny model of the hand-written decision logic of the CodeSandbox SDK's
`SandboxClient` (`src/sandbox-client.ts`): the client-side layer that turns
REST results from the sandbox control plane into higher-level operations.

- `Tiers` (tiers.dfy): the closed VM tier catalog `Pico` … `XLarge` with its
  cores, memory and disk; `fromName`, and `fromSpecs`, the first tier in
  catalog order that meets minimum specs, which is proved to be the smallest
  such tier.
- `Privacy` (privacy.dfy): the three privacy levels and their wire codes 0, 1
  and 2; the decoder is partial.
- `Responses` (responses.dfy): the error kinds the client raises, and the
  response resolver `handleResponse` as an oracle: a transport result is a
  success payload or a failure that carries the call site's context message.
- `Lifecycle` (lifecycle.dfy): start options, `start`, `open`, `create` and
  `fork` (template, privacy, path and tag defaults; `start_options`; where the
  connector gets its start data), the `requestPitcherInstance` callback with
  its cluster-affinity side call, and `createSession` with the start bundle it
  builds locally.
- `Listing` (listing.dfy): `list` as a method with a loop over pages, proved
  equal to a recursive reference definition `Run`, with its invariants (ids
  stay distinct, the accumulation only grows) and its result rules.
- `PreviewTokens` (preview_tokens.dfy): the create, list, update and revoke
  mappings and their absence rules.
- `Text` (text.dfy) and `Wrappers` (wrappers.dfy): JavaScript's `includes` and
  first-occurrence `replace`, and `Option`/`Result`.

Every REST call is replaced by its transport result, given as an input. The
server behind `list` is a function from the page query to the page. JavaScript
truthiness is kept wherever the code relies on it:
- an empty template id or path falls back to the default;
- an empty tag array stays empty, so the tags become `["sdk"]`;
- a `next_page` of 0 ends the loop;
- an empty token secret counts as missing;
- an empty timestamp becomes null.

Three behaviours of the code worth noting:
- `create` always goes on to connect. `autoConnect: false` only drops
  `start_options` from the fork request (`Lifecycle.CreateConnectsWithoutAutoConnect`).
- `list` returns the server's `next_page` when the accumulated count reached
  `limit`, and null otherwise.
- The cluster-affinity side call is awaited without a catch. Its failure fails
  the callback (`Lifecycle.RequestInstance`); it is not swallowed.

## Model

| member | source | states |
|---|---|---|
| `Tiers.AllIsOrderedCatalog` | src/sandbox-client.ts:145-169 | every tier is in `All` exactly once; along `All` cores and memory strictly increase and disk never decreases |
| `Tiers.Rank` | src/sandbox-client.ts:161-169 | each tier has a position in `All` holding that tier |
| `Tiers.FromName` | src/sandbox-client.ts:178-180 | a found tier carries the looked-up name; nothing is found only when no tier has that name |
| `Tiers.FromNameOfName` | src/sandbox-client.ts:171-180 | looking a tier up by its own name returns that tier |
| `Tiers.FirstMeeting` | src/sandbox-client.ts:193-198 | `find`: the index returned meets the specs and no earlier one does; none means no entry meets them |
| `Tiers.FromSpecs` | src/sandbox-client.ts:188-199 | the tier returned meets cpu, memory and (only if given) disk minimums and is the first in `All` to do so; none exactly when no tier meets them |
| `Tiers.FromSpecsIsSmallest` | src/sandbox-client.ts:188-199 | if any tier meets the specs, the returned tier is no larger than it in cores, memory and disk |
| `Tiers.FromSpecsSmallestExample` | src/sandbox-client.ts:188-199 | one core and 1 GiB gives Pico |
| `Tiers.FromSpecsDiskExample` | src/sandbox-client.ts:188-199 | 16 cores, 32 GiB and 40 GB of disk gives Medium |
| `Tiers.FromSpecsNoneExample` | src/sandbox-client.ts:188-199 | a thousand cores and GiB gives none |
| `Privacy.ToNumber` | src/sandbox-client.ts:825-834 | the wire table: public is 0, unlisted is 1, private is 2 |
| `Privacy.FromNumber` | src/sandbox-client.ts:836-847 | decoding succeeds exactly for 0, 1, 2 and fails with the invalid code otherwise |
| `Privacy.DecodeEncode` | src/sandbox-client.ts:825-847 | decoding an encoded privacy gives it back |
| `Privacy.EncodeDecode` | src/sandbox-client.ts:825-847 | every accepted code is the encoding of its decoded privacy |
| `Privacy.ToNumberInjective` | src/sandbox-client.ts:825-834 | distinct privacies have distinct codes |
| `Responses.Handle` | src/sandbox-client.ts:287-289 | the payload when the call succeeded, otherwise a failure carrying the call site's context message |
| `Lifecycle.StartOptionsFromOpts` | src/sandbox-client.ts:202-209 | absent options give no override; otherwise country and hibernation timeout are copied, the tier is sent by a name that looks up to the same tier, and absent fields stay absent |
| `Lifecycle.Start` | src/sandbox-client.ts:275-290 | the start request carries the overrides; the result is the start data or a failure naming the sandbox id |
| `Lifecycle.Open` | src/sandbox-client.ts:260-265 | `open` connects with a start call carrying the same request `start` sends |
| `Lifecycle.DefaultTemplate` | src/sandbox-client.ts:249-255 | "7ngcrf" exactly when the base URL includes "codesandbox.stream", else "pcz35m" |
| `Lifecycle.TemplateIdOf` | src/sandbox-client.ts:312-334 | a handle's id or a non-empty template id is used as given; otherwise the default template |
| `Lifecycle.TagsWithSdk` | src/sandbox-client.ts:314-318 | "sdk" is always in the result; absent tags give `["sdk"]`; given tags are a prefix of the result, which is unchanged exactly when it already held "sdk" and otherwise one longer; no other tag appears |
| `Lifecycle.TagsWithSdkIdempotent` | src/sandbox-client.ts:314-318 | applying the tag rule twice equals applying it once |
| `Lifecycle.TagsWithSdkCounts` | src/sandbox-client.ts:314-318 | every tag keeps its count, and "sdk" occurs once when the caller did not give it |
| `Lifecycle.TagsWithSdkExamples` | src/sandbox-client.ts:314-318 | `["x"]` becomes `["x","sdk"]`; `["sdk","x"]` is unchanged; `[]` becomes `["sdk"]` |
| `Lifecycle.CreateRequest` | src/sandbox-client.ts:311-336 | the fork request: template id, privacy code decoding to the given privacy or public, tags with "sdk", a non-empty path: the given one if non-empty, else "/SDK", title and description copied, `start_options` absent exactly when `autoConnect` is `false` |
| `Lifecycle.CreateOutcome` | src/sandbox-client.ts:338-346 | on a fork failure, the "Failed to create sandbox" error; otherwise always a connection to the new id, fed by the fork's `start_response` when present, else by a start call with the caller's options |
| `Lifecycle.CreateConnectsWithoutAutoConnect` | src/sandbox-client.ts:328-346 | with `autoConnect: false` the fork sends no start options, yet the client still connects, and its fallback start call does send the overrides |
| `Lifecycle.FallbackStartRepeatsForkOptions` | src/sandbox-client.ts:328-345 | otherwise the fallback start call sends exactly the overrides the fork request carried |
| `Lifecycle.ForkRequestOf` | src/sandbox-client.ts:365-370 | `fork(id)` targets `id` (the default template when `id` is empty) with the body `create` builds from the same options |
| `Lifecycle.ForkOutcome` | src/sandbox-client.ts:365-370 | on success it connects to the forked id, with the fork's `start_response` when present and otherwise a start call sending the fork options' overrides (never absent, so always a body); on failure "Failed to create sandbox" |
| `Lifecycle.AffinityUrl` | src/sandbox-client.ts:563-577 | the side call is made exactly when the manager header is present and non-empty, to the scheduler URL for the started id and preferred manager |
| `Lifecycle.PreferredManagerExample` | src/sandbox-client.ts:567-570 | "https://m/api/v1" yields the preferred manager "m" |
| `Lifecycle.RequestInstance` | src/sandbox-client.ts:559-595 | a failed start fails the callback; otherwise it succeeds unless the side call is made and fails, and hands over the start data's fields |
| `Lifecycle.SessionRequestOf` | src/sandbox-client.ts:624-633 | the session id is sent; permission is the given one, "write" only when absent |
| `Lifecycle.CreateSessionOutcome` | src/sandbox-client.ts:635-663 | fails with the session's context on a failed call; returns the bare credentials exactly when `autoConnect` is `false`, otherwise connects with the locally built bundle |
| `Lifecycle.SessionInstance` | src/sandbox-client.ts:649-662 | the connected session's instance has bootup RESUME, cluster "session", "1.0.0-session" versions, and the session's token, URL and workspace path as both paths |
| `Lifecycle.SessionModesAgree` | src/sandbox-client.ts:640-662 | both modes of `createSession` carry the same token, URL, workspace path and id |
| `Listing.Limit` | src/sandbox-client.ts:440 | `limit` defaults to 50 |
| `Listing.FirstPage` | src/sandbox-client.ts:442 | the start page defaults to 1 |
| `Listing.PageSize` | src/sandbox-client.ts:443 | the page size defaults to the limit |
| `Listing.InfoOf` | src/sandbox-client.ts:464-472 | a record maps with its id, tags, title, description and both timestamps kept and its privacy decoded to the code it had; it fails exactly on an invalid code |
| `Listing.DecodeAll` | src/sandbox-client.ts:464-472 | all records decode in order, or the call fails with the first invalid record's error |
| `Listing.Unseen` | src/sandbox-client.ts:474-477 | keeps exactly the page's records whose id is not already accumulated |
| `Listing.UnseenSingle` | src/sandbox-client.ts:474-477 | a single record is kept exactly when its id is not already accumulated |
| `Listing.UnseenConcat` | src/sandbox-client.ts:474-477 | filtering distributes over concatenation, so kept records keep their page order and multiplicity |
| `Listing.DistinctConcat` | src/sandbox-client.ts:478 | two runs with distinct ids, none of the second's ids among the first's, concatenate to a run with distinct ids |
| `Listing.UnseenDistinct` | src/sandbox-client.ts:474-477 | the records kept from a page with distinct ids have distinct ids |
| `Listing.UnseenFromEmpty` | src/sandbox-client.ts:474-477 | with nothing accumulated, the whole page is kept |
| `Listing.UnseenAfterOverlap` | src/sandbox-client.ts:474-477 | of a page `[y, z]` after `[x, y]`, only `z` is kept |
| `Listing.AppendUnseenDistinct` | src/sandbox-client.ts:474-478 | appending the unseen records of a page with distinct ids keeps the accumulated ids distinct |
| `Listing.DecodeKeepsDistinct` | src/sandbox-client.ts:464-472 | decoding keeps distinct ids distinct |
| `Listing.UnseenKeepsRepeatWithinPage` | src/sandbox-client.ts:474-477 | a page that repeats an id keeps both records |
| `Listing.Finish` | src/sandbox-client.ts:488-497 | `hasMore` iff the total exceeds the count; `nextPage` is null below the limit and the server's cursor at or above it; page size as configured |
| `Listing.RunExtends` | src/sandbox-client.ts:441-486 | the accumulation only grows: what was accumulated is a prefix of the result |
| `Listing.RunRecordsFromServer` | src/sandbox-client.ts:464-478 | every listed record is the decoding of a record the server returned for some page |
| `Listing.InvalidPrivacyFailsList` | src/sandbox-client.ts:470 | a record with an invalid privacy code on any page the loop fetches, whatever was accumulated before, makes the whole listing fail with that error |
| `Listing.RunContinues` | src/sandbox-client.ts:481-485 | a truthy cursor below the limit continues from the cursor's page |
| `Listing.RunStops` | src/sandbox-client.ts:480-483 | a falsy cursor or a reached limit ends the loop with the response built from the accumulation |
| `Listing.DecodePair` | src/sandbox-client.ts:464-472 | two valid records decode to their two infos |
| `Listing.CrossPageRepeatListedOnce` | src/sandbox-client.ts:447-497 | a record repeated on the next page is listed once: the result is the three decoded records in order, with no more to fetch and no next page |
| `Listing.LimitReachedKeepsWholePage` | src/sandbox-client.ts:478-494 | reaching a limit of 1 with a two-record page keeps both records, reports more, and returns the server's cursor |
| `Listing.List` | src/sandbox-client.ts:434-498 | the loop computes exactly `Run`; `hasMore` iff the total exceeds the count; `nextPage` is null below the limit; page size as configured; ids are distinct whenever every page's ids are |
| `PreviewTokens.DateOrNull` | src/sandbox-client.ts:699-705 | a missing or empty timestamp becomes null; any other is kept |
| `PreviewTokens.InfoOf` | src/sandbox-client.ts:731-736 | id and prefix copied, timestamps through the null rule |
| `PreviewTokens.Create` | src/sandbox-client.ts:679-708 | succeeds exactly when the response has a token with a non-empty secret, which it returns with the token's fields; otherwise the resolver's error or "No token returned" |
| `PreviewTokens.List` | src/sandbox-client.ts:716-737 | an absent `tokens` field gives an empty list, not an error; otherwise one mapped entry per token, in order |
| `PreviewTokens.UpdateRequestOf` | src/sandbox-client.ts:788-803 | the update request carries the sandbox, the token id and the new expiry |
| `PreviewTokens.Update` | src/sandbox-client.ts:793-821 | succeeds exactly when the response has a token (no secret needed) and returns its id, prefix and timestamps through the null rule; otherwise the resolver's error or "No token returned" |
| `PreviewTokens.RevokeRequestOf` | src/sandbox-client.ts:745-759 | revoking is an update whose expiry is the current time, never an absent expiry |
| `PreviewTokens.RevokeOutcome` | src/sandbox-client.ts:745-778 | revoke and revoke-all succeed exactly when the call does, failing with their own context message |
| `PreviewTokens.CreateAndUpdateAgree` | src/sandbox-client.ts:693-820 | whenever create succeeds on a response, update succeeds on it too with the same non-secret fields |
| `Text.ReplaceFirst` | src/sandbox-client.ts:567-573 | a string without the pattern is unchanged; otherwise only the first occurrence is replaced |

## Left out

- Listing.List: ids are proved pairwise distinct only when every page the server returns has distinct ids. The filter at src/sandbox-client.ts:474-477 compares each record with earlier pages only, so a page that repeats an id keeps both records (`Listing.UnseenKeepsRepeatWithinPage`).
- Listing.List: the source's `while (true)` loop has no bound and no guard against a repeated cursor. The model allows at most `fuel` page fetches and fails with `PageBudgetExhausted` after that, so termination against an inconsistent server is not modelled.
- HTTP transport and the generated request wrappers (`sdk.gen.ts`): each call is replaced by its result. `handleResponse` is not part of this model; it is the oracle `Responses.Handle`.
- The real-time client `initPitcherClient`, the `Sandbox`/`SandboxSession` wrappers, the focus-change hook and `DEFAULT_SUBSCRIPTIONS`: these are external. A connection is modelled as the `ConnectPlan` handed to the connector.
- The cluster-affinity `fetch` itself: its URL is modelled, and its outcome is the input `affinityOk`. The manager header and base URL come from the client configuration and are inputs.
- `Date` construction, ISO-8601 conversion and the clock: timestamps stay as their ISO text, and the current time for `revoke` is the input `now`.
- `shutdown`, `hibernate`, `updateTier` and `updateHibernationTimeout`: one-shot calls whose only logic is the context message given to the resolver. That behaviour is what `Responses.Handle` states.
- The comma-join of `tags` in the list query: the query carries the tag list itself.
- Numbers are integers. JavaScript's fractional and NaN values for specs, limits, pages and privacy codes are not modelled.
- `fromSpecs` searches `Object.values(VMTier)`: the seven tiers followed by the `All` array. Every comparison on the array's missing fields is false, so it never matches, and the model searches `All`.
- Tiers.FromName: returns none for every non-tier name. In the source, a lookup of a static member name such as "All" returns that member. The typed signature rules out such names.
- The TypeScript overload signatures that tie the return type to `autoConnect`.
