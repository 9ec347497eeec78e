# Verified models of the wrapper stack's protocol cores

These Dafny modules model the self-contained protocol cores of the repository and prove what each promises, for
every input, every run and every interleaving. `dafny verify dfyconfig.toml` checks the whole project.

| area | modules |
|---|---|
| Egress proxy wire code | `Streams`, `Decimal`, `HttpFields`, `ChunkSize`, `ChunkedBody`, `Framing`, `DnsWire`, `DnsAnswer`, `Socks5`, `Destination` |
| Search scheduling | `ProviderState`, `ProviderPool`, `Rotation`, `SearchRun` |
| Paid attempts | `PaidAdmission`, `PaidExchange` |
| Retained browser | `BrowserSession`, `ProviderSession` |
| Page reconnection | `ReconnectPage`, `ReconnectCompanion`, `ReconnectRuns` |
| Embedding child process | `Lifecycle`, `LifecycleRuns` |
| Stream continuation | `Continuation` |
| Dotenv editor | `DotenvLines`, `DotenvBlocks`, `DotenvGrammar`, `DotenvScanner`, `DotenvEditor`, `DotenvRoundTrip`, `DotenvSync` |
| Arithmetic loops | `EmbeddingNorm`, `TextBudgets` |

Code that changes state step by step is a class or a method with loops, proved equal to a specification function;
the properties are then lemmas about those functions. Lock-held sections are single steps of a state machine, and
the theorems quantify over all finite runs of any number of threads. Awaits, clocks, network answers, processes and
storage are arbitrary inputs or steps of the environment.

The results on `Destination` are case analyses of one branching decision and need no induction; they are stated
because they tie its validation and its two openers together.

Findings worth knowing, each with a lemma for the exact condition and one for a concrete case:

* A search thread that waits for a cooldown can wake later than the nearest cooldown's end, by the time between
  reading the clock and blocking (`ProviderPool.NearestWakeup`, `ProviderPool.LateWakeup`).
* The paid admission's wait can block without bound on a free gate when the cooldown ends between its two clock
  readings, or the processor was briefly unavailable; only another attempt's end wakes it
  (`PaidAdmission.UnboundedBlockOnFreeGate`, `PaidAdmission.BlockedOnFreeGate`,
  `PaidAdmission.WaitsForAnotherAttempt`, `PaidAdmission.WaiterLeftBehind`).
* An absolute-form target whose host holds a control character other than white space, such as the delete
  character, is accepted when an upstream proxy resolves names; the head written for it has a host line that the
  proxy's own parser refuses (`Framing.HeadRoundTrip`, `Framing.ControlInHostIsRefused`).
* A crashed child is dropped while its requests are unfinished (`LifecycleRuns.DroppedWhileActive`,
  `LifecycleRuns.CrashedChildIsDropped`), and a failed startup's process can outlive a shutdown
  (`LifecycleRuns.ReturnedShutdownLeaves`, `LifecycleRuns.FailedChildOutlivesShutdown`).
* The fallback's 16000 characters bound the tool output it carries; with up to three outputs the notice of the last
  one can go past it, and nothing else can (`TextBudgets.FallbackOvershoot`, `TextBudgets.FourOutputsWithinTotal`,
  `TextBudgets.OneOutputWithinTotal`, `TextBudgets.OvershootHappens`).

## Model

| member | source | states |
|---|---|---|
| `HttpFields.ParsedFieldIsCanonical` | egress/final_hop_proxy.py:1608-1626 | Whatever field line is accepted, its name is a lower-case token and its value is stripped and free of forbidden controls. |
| `HttpFields.FieldLineRoundTrip` | egress/final_hop_proxy.py:1608-1626 | A canonical field, written as `name: value` and CRLF, is the first line of any stream it begins, and parses back to itself. |
| `HttpFields.RawFieldIsOneLine` | egress/final_hop_proxy.py:1608-1626 | An accepted field line holds no newline but its last character, and is never the empty line that ends a section. |
| `HttpFields.FieldLineExact` | egress/final_hop_proxy.py:1608-1626 | A line is accepted with a field if and only if it is a token, a colon, the field’s value between blanks, and CRLF, the name being the token with its capitals made small. |
| `ChunkSize.SizeLineExact` | egress/final_hop_proxy.py:1591-1605 | The chunk-size line recognizer accepts a line with size n if and only if the line is printed from a grammar tree (size digits, extensions, quoted values, blanks) of that size. |
| `ChunkSize.SizeLineIsOneLine` | egress/final_hop_proxy.py:1591-1605 | An accepted size line is exactly the first line of every stream that begins with it. |
| `ChunkSize.HexRoundTrip` | egress/final_hop_proxy.py:1591-1605 | A size written in hexadecimal digits reads back as itself. |
| `ChunkSize.HexIgnoresZerosAndCase` | egress/final_hop_proxy.py:1591-1605 | Leading zeros and the case of the digits do not change a size. |
| `ChunkedBody.ChunkedExtentExact` | egress/final_hop_proxy.py:1693-1734 | The measured extent of a chunked body is k if and only if the first k bytes are one complete message of the recursive grammar: chunks whose data has the parsed size, a zero chunk, allowed trailers, an empty line. |
| `ChunkedBody.ChunkedMessagesArePrefixFree` | egress/final_hop_proxy.py:1693-1734 | Two complete chunked messages that begin the same stream are the same bytes: the end of a body is never ambiguous. |
| `ChunkedBody.CopyExactly` | egress/final_hop_proxy.py:1681-1688 | A counted copy succeeds exactly when enough bytes follow, then moves exactly that many; a truncated one writes only whole buffer pieces. |
| `ChunkedBody.ForwardTrailers` | egress/final_hop_proxy.py:1702-1722 | The trailer loop succeeds exactly on a complete allowed trailer section, consumes exactly it, and has always written a prefix of the client bytes. |
| `ChunkedBody.ForwardChunkData` | egress/final_hop_proxy.py:1724-1734 | One chunk’s data and its CRLF are forwarded byte for byte, or the error left a prefix written. |
| `ChunkedBody.ForwardChunk` | egress/final_hop_proxy.py:1694-1734 | One round of the loop: size line, then data or the trailer section; the written bytes are the client’s. |
| `ChunkedBody.ForwardChunked` | egress/final_hop_proxy.py:1693-1734 | The chunk loop ends on every input; on success the bytes consumed and written are exactly the extent of one complete message. |
| `ChunkedBody.ForwardRequestBody` | egress/final_hop_proxy.py:1674-1734 | For every stream the bytes written upstream are a prefix of the client’s. With a content length n it succeeds exactly when n bytes follow, and then moves exactly n; with neither framing it moves nothing; with codings it succeeds exactly when a printed message of the grammar begins the stream, and then moves exactly it. |
| `Decimal.DecimalRoundTrip` | egress/final_hop_proxy.py:1648-1660 | A length written in decimal reads back as itself. |
| `Decimal.DecimalIgnoresZeros` | egress/final_hop_proxy.py:1648-1660 | Leading zeros do not change a length. |
| `Framing.ParseRequestFraming` | egress/final_hop_proxy.py:1633-1664 | The framing loops accept a header list exactly when all listed lengths are decimal and equal, and the codings are absent, or tokens of which the last and only the last is `chunked` while no length is listed; the result is that length and the lower-case codings, and each error has its own condition. |
| `Framing.ValuesNamedAre` | egress/final_hop_proxy.py:1629-1630 | The values of a name are those of exactly its fields, in order. |
| `Framing.SplitCommaExact` | egress/final_hop_proxy.py:1638-1639 | Splitting a value at its commas leaves none in a part and loses nothing. |
| `Framing.ListPartsOfTwo` | egress/final_hop_proxy.py:1637-1655 | The listed parts of several fields are those of each, one after the other. |
| `Framing.KeptAre` | egress/final_hop_proxy.py:2042-2052 | The forwarded fields are the client’s in order, all but the six names the proxy handles itself. |
| `Framing.EmitHead` | egress/final_hop_proxy.py:2042-2066 | The accumulating loop emits exactly the kept fields in order, followed by the proxy’s own fields and the empty line. |
| `Framing.JoinedCodingsSplit` | egress/final_hop_proxy.py:1653-1655 | A joined coding list splits back, comma by comma and stripped, into the codings. |
| `Framing.EmittedFramingIsSame` | egress/final_hop_proxy.py:2040-2066 | For every accepted header list the emitted fields have the same content length and codings, exactly one host, one connection and at most the proxy’s own authorization field, behind the forwarded ones, and never both framings. |
| `Framing.ShownFieldsAreRead` | egress/final_hop_proxy.py:1800-1818 | A printed block of canonical fields, read line by line up to the empty line, gives those fields. |
| `Framing.ReadFieldsAreCanonical` | egress/final_hop_proxy.py:1608-1626 | Whatever text a head is read from, every field read is canonical. |
| `Framing.HeadRoundTrip` | egress/final_hop_proxy.py:2040-2066 | For every accepted header list the emitted head reads back field by field, in order, if and only if the host and the authorization written into it are stripped and free of control characters; its framing is that of the request in any case. |
| `Framing.ControlInHostIsRefused` | egress/final_hop_proxy.py:2055-2060 | A host with a delete character is written on a line that the proxy’s own parser refuses, in the head of any accepted request. |
| `DnsWire.EncodeRoundTrip` | egress/final_hop_proxy.py:593-605 | An encoded name decodes to the labels of the host it was made from. |
| `DnsWire.EncodedLabelCount` | egress/final_hop_proxy.py:593-605 | An encoded name has at most 127 labels in at most 255 octets, so the skip limit is never the obstacle. |
| `DnsWire.EncodeExact` | egress/final_hop_proxy.py:593-605 | A host is encoded if and only if labels of 1 to 63 octets spell it between its dots and fit 255 octets; the name is those labels, and each error has its own cause. |
| `DnsWire.SkipEncodedName` | egress/final_hop_proxy.py:593-627 | Skipping any encoder output, at any offset of any message, lands exactly at its end. |
| `DnsWire.SkipShownName` | egress/final_hop_proxy.py:608-627 | Every wire name of the grammar, ended by a zero octet or a pointer, is skipped to its end. |
| `DnsWire.SkippedIsName` | egress/final_hop_proxy.py:608-627 | Whatever is skipped successfully is a wire name of the grammar. |
| `DnsWire.SkipName` | egress/final_hop_proxy.py:608-627 | The label loop ends on every byte string, reads within it, and agrees with the recursive specification. |
| `DnsAnswer.ParseDnsAResponse` | egress/final_hop_proxy.py:630-674 | The counting loops compute the specified result for every byte string. The header octets decide first: a foreign identifier or a query is a mismatch, code 3 an unknown name, any other code a resolver failure, the truncation bit an empty truncated answer; only a plain answer is read on and can fail in its names and lengths alone. |
| `DnsAnswer.ReadRecord` | egress/final_hop_proxy.py:656-673 | One record is read within bounds and advances strictly. |
| `DnsAnswer.ShownResponseParses` | egress/final_hop_proxy.py:630-674 | Every well-formed untruncated response parses to exactly the four-octet A/IN records among its answers. |
| `DnsAnswer.ParseExact` | egress/final_hop_proxy.py:630-674 | Parsing finds a set of addresses if and only if the message begins with a well-formed plain answer with that set and identifier. |
| `Socks5.RequestRoundTrip` | egress/final_hop_proxy.py:1339-1365 | The connect request decodes to the same target and port, for names and both address families. |
| `Socks5.AuthRoundTrip` | egress/final_hop_proxy.py:1324-1337 | The username and password message decodes to the same credentials. |
| `Socks5.GreetingOffers` | egress/final_hop_proxy.py:1276-1300 | The greeting offers no authentication, and the username method exactly when there are credentials. |
| `Socks5.ClientSideReads` | egress/final_hop_proxy.py:1276-1365 | The server reads the client’s bytes as the greeting, the credentials if it chose them, and the request for that target and port, in this order. |
| `Socks5.HandshakeExtentExact` | egress/final_hop_proxy.py:1276-1396 | The handshake extent is k if and only if the first k bytes are a complete server side of the reply grammar for an offered method. |
| `Socks5.ReadReply` | egress/final_hop_proxy.py:1368-1396 | The reply is consumed completely for each bound address type, and refused replies close the writer. |
| `Socks5.Socks5Connect` | egress/final_hop_proxy.py:1276-1396 | Success holds exactly on a complete server side and encodable client messages; then the reader stands at the first tunnel byte and exactly the client’s messages were written. Unoffered methods never succeed. With credentials the start-up check admits (lines 1108-1110) every refusal and every truncated stream closes the writer; the helper raises with the writer open exactly when the server selects a longer credential. |
| `Destination.DirectDialHasAddress` | egress/final_hop_proxy.py:860-1254 | An accepted destination that is dialled directly has a nonempty address set, and dials exactly the validated addresses. |
| `Destination.EmptyExactlyWhenUpstreamResolves` | egress/final_hop_proxy.py:860-970 | Acceptance comes without addresses if and only if an upstream or Tor is set and the target is an ordinary name under no exception. |
| `Destination.BlockedOnlyByException` | egress/final_hop_proxy.py:860-970 | An accepted address of a blocked class arises only from the trusted, local embedding, host-container or LAN exception. |
| `Destination.PublicRouteIsUnblocked` | egress/final_hop_proxy.py:860-970 | On the public route no accepted address has a block reason, for every policy the start-up checks admit. |
| `Destination.OpenersAgree` | egress/final_hop_proxy.py:1161-1552 | The tunnel opener and the plain-HTTP opener make the same direct, Tor or upstream choice; direct exactly under an exception or without an upstream. |
| `Destination.UpstreamNamesStayUnresolved` | egress/final_hop_proxy.py:860-970 | With an upstream or Tor set, a name is looked up locally only under an exception for that name. |
| `Destination.LookupsAreOfTheTarget` | egress/final_hop_proxy.py:860-970 | At most two lookups happen, only of the target, and the second only after a LAN-name lookup without an upstream. |
| `Destination.VpnKeepsNamesFromSystem` | egress/final_hop_proxy.py:745-750 | In VPN mode the system resolver sees a name only under an exception for that name. |
| `Destination.OrdinaryNameDecided` | egress/final_hop_proxy.py:924-970 | An ordinary name is left to the upstream or Tor unresolved; without one it is accepted exactly when the resolver of its mode answers with addresses none of which is blocked, and then with all of them. |
| `Destination.LiteralDecided` | egress/final_hop_proxy.py:905-922 | A literal is accepted, as itself, exactly when it is not blocked or the LAN or embedding permission covers it; a shorthand exactly when the address it means is not blocked. Neither is looked up. |
| `Destination.PermittedNameDecided` | egress/final_hop_proxy.py:884-955 | A host-container, trusted or all-LAN name is accepted with exactly what the system resolver answers, under exactly the condition of its permission. |
| `Destination.OpenerFollowsRoute` | egress/final_hop_proxy.py:1161-1254 | What is not dialled directly goes through Tor if its socket is set, else through the upstream in its own protocol. |
| `Destination.PlainHttpExactly` | egress/final_hop_proxy.py:526-543 | Plain HTTP is allowed exactly by the general permission, for onion names through Tor, and for the four exceptions. |
| `Destination.PlainHttpStaysLocal` | egress/final_hop_proxy.py:526-543 | Without the general permission, plain HTTP that is allowed stays on a direct connection or goes to an onion name through Tor. |
| `ProviderState.State.Reserve` | searxng/engines/_obscura.py:464-478 | A reservation is granted exactly to a free, cooled provider and records the token; otherwise nothing changes. |
| `ProviderState.State.Release` | searxng/engines/_obscura.py:481-491 | A release frees exactly its own reservation; a stale token changes nothing. |
| `ProviderState.State.EnterLease` | searxng/engines/_obscura.py:494-530 | A lease is entered exactly with the reservation’s token, or without one on a free, cooled provider. |
| `ProviderState.State.ExitLease` | searxng/engines/_obscura.py:526-530 | Leaving only clears the lease. |
| `ProviderState.State.TryRecordStart` | searxng/engines/_obscura.py:533-546 | A start is recorded exactly when the cooldown is over; otherwise the remaining seconds are returned. |
| `ProviderPool.ActionHolds` | searxng/engines/_obscura.py:408-546 | Every lock-held section of every thread keeps the pool invariant: one owner, honest positions, agreeing histories. |
| `ProviderPool.RunsKeepInv` | searxng/engines/_obscura.py:408-546 | The invariant holds along every interleaving of any number of threads. |
| `ProviderPool.SingleOwner` | searxng/engines/_obscura.py:464-530 | Over every run a leased provider has no reservation and no second lease. |
| `ProviderPool.ReleaseFreesOnlyItsOwn` | searxng/engines/_obscura.py:481-491 | A release frees a provider if and only if its token is still unspent, and then only that provider’s reservation. |
| `ProviderPool.TryingReserves` | searxng/engines/_obscura.py:464-478 | A thread that tries reserves exactly a free and cooled provider, under a new token; any other try changes nothing. |
| `ProviderPool.EnteringLeases` | searxng/engines/_obscura.py:494-530 | An engine without a token is admitted exactly to a free and cooled provider. |
| `ProviderPool.RecordingStarts` | searxng/engines/_obscura.py:533-546 | A start is recorded exactly when the cooldown is over. |
| `ProviderPool.WakingResumes` | searxng/engines/_obscura.py:440-451 | A due timeout and any bump take a waiting thread back to its scan. |
| `ProviderPool.TokenEntersOnce` | searxng/engines/_obscura.py:494-530 | A token enters a lease if and only if it was unspent, and is spent from then on. |
| `ProviderPool.UnspentTokenHasKeeper` | searxng/patches/sitecustomize.py:124-171 | Every unspent token is the duty of some thread that always has an enabled next section. |
| `ProviderPool.TokensProgress` | searxng/patches/sitecustomize.py:124-171 | Each section of that thread uses the token up or brings it strictly closer to it; no other thread sets it back. |
| `ProviderPool.TokensAreUsedUp` | searxng/patches/sitecustomize.py:124-171 | In every run a token is used up once its keepers have taken as many sections as its rank, at most four, whatever other threads do in between. |
| `ProviderPool.StartsApart` | searxng/engines/_obscura.py:533-546 | Over every run the i-th and j-th start of a provider are at least 3 (j − i) seconds apart, second pages in one lease included. |
| `ProviderPool.FreeingOwesBump` | searxng/engines/_obscura.py:481-530 | Any section that frees a provider leaves its thread owing the generation bump. |
| `ProviderPool.NoLostWakeup` | searxng/engines/_obscura.py:408-451 | A thread blocked without a timeout waits only while all its providers are owned, or a due bump will wake it. |
| `ProviderPool.NearestWakeup` | searxng/engines/_obscura.py:426-451 | Unless a bump that wakes it is due, that is the nearest cooldown end among its unowned providers plus that time: no unowned provider is ready earlier than that, and the one the delay came from, while unowned, exactly then. So the thread is due by every unowned provider’s readiness if and only if that time is zero. |
| `ProviderPool.LateWakeup` | searxng/engines/_obscura.py:426-451 | A run from the initial state in which the provider is ready while its waiter is still blocked. |
| `Rotation.Cursor.Reserve` | searxng/patches/sitecustomize.py:177-203 | The cyclic scan reserves the first free provider from the cursor and moves the cursor behind it, or finds none free and leaves the cursor. |
| `Rotation.NoStarvation` | searxng/patches/sitecustomize.py:177-203 | A provider that is free at every pick is picked before the list has been gone around once, whatever is busy in between. |
| `Rotation.FullRoundIsPermutation` | searxng/patches/sitecustomize.py:177-203 | Over a fixed list of n always-reservable providers n consecutive picks pick each exactly once. |
| `Rotation.KeepInOrder` | searxng/patches/sitecustomize.py:245-258 | The providers of a tier stand in the order of the candidates. |
| `SearchRun.SelectRef` | searxng/patches/sitecustomize.py:245-279 | One scan forms the tier the rule allows, in candidate order, and chooses exactly when one of it is free or the paid wait yields a token: the first free one around the list from the cursor, which moves behind it; it waits for exactly that tier, and finds none exactly when all are suspended. |
| `SearchRun.SearchStandard` | searxng/patches/sitecustomize.py:454-495 | The search loop dispatches by the tier rule of each scan, stops at the first main result, and otherwise ends with the pool tried, no provider left, or every scan spent: none is passed over while a provider it may choose is free. |
| `SearchRun.DispatchedAtMostOnce` | searxng/patches/sitecustomize.py:454-495 | No provider is dispatched twice, so there are at most as many rounds as the pool has providers. |
| `SearchRun.LastResortWaitsForRegular` | searxng/patches/sitecustomize.py:245-279 | A last-resort provider is dispatched only when every eligible regular one was suspended at that scan or already tried. |
| `SearchRun.PaidIsLast` | searxng/patches/sitecustomize.py:245-279 | The paid provider is dispatched only when every other eligible provider was suspended at that scan or already tried. |
| `PaidAdmission.Gate.Reserve` | searxng/engines/_x402_admission.py:15-21 | A token is granted exactly when the processor is available, nobody owns the gate, and the cooldown is over. |
| `PaidAdmission.Gate.WaitPass` | searxng/engines/_x402_admission.py:24-38 | One pass of the wait loop stops, reserves or blocks, each under exactly its condition, and blocks for the stated time. |
| `PaidAdmission.Gate.Own` | searxng/engines/_x402_admission.py:49-56 | Ownership starts exactly with the held token. |
| `PaidAdmission.Gate.Release` | searxng/engines/_x402_admission.py:41-46 | A release clears only a matching token. |
| `PaidAdmission.Gate.Leave` | searxng/engines/_x402_admission.py:57-62 | Leaving clears ownership. |
| `PaidAdmission.Gate.RecordStart` | searxng/engines/_x402_admission.py:65-70 | A start is recorded whenever some attempt is active, without regard to the clock. |
| `PaidAdmission.UnboundedBlockOnFreeGate` | searxng/engines/_x402_admission.py:24-38 | A pass blocks without bound on a gate nobody owns if and only if it has no deadline and the cooldown ended between its two clock readings, or the processor became unavailable after the loop’s check. |
| `PaidAdmission.CooldownEndMissed` | searxng/engines/_x402_admission.py:24-38 | A concrete pass that misses the end of the cooldown and blocks without bound on a reservable gate. |
| `PaidAdmission.AttemptsApart` | searxng/engines/_x402_admission.py:15-70 | Over every interleaving recorded starts keep the three-second interval although recording never checks it. |
| `PaidAdmission.OneAttempt` | searxng/engines/_x402_admission.py:15-70 | At most one attempt owns the gate at any time. |
| `PaidAdmission.OwnedByAttempt` | searxng/engines/x402exa.py:54-104 | The gate is taken if and only if some attempt owns it: no path of an attempt leaves it taken. |
| `PaidAdmission.BlockedOnFreeGate` | searxng/engines/_x402_admission.py:15-62 | Over every run, while a thread is blocked without bound, the gate is free if and only if it is still the gate that thread’s own pass saw, free, without a deadline, and past the cooldown by the later reading though refused by the earlier one or for want of the processor. |
| `PaidAdmission.WokenWhenFreed` | searxng/engines/_x402_admission.py:24-62 | In every run a thread blocked without bound stays blocked exactly as long as no section gives the gate back. |
| `PaidAdmission.WaitsForAnotherAttempt` | searxng/engines/_x402_admission.py:24-62 | In every run a thread blocked without bound on a free gate stays blocked until another attempt has been given a token and the gate was given back; neither time nor the processor wakes it. |
| `PaidAdmission.WaiterLeftBehind` | searxng/engines/_x402_admission.py:24-62 | A run after which a waiter is blocked on a gate it could reserve, and stays so in every continuation without another attempt. |
| `PaidExchange.ClassifyStatus` | searxng/engines/_x402_payment.py:118-126 | Rate limits suspend for what the answer asks, between a minute and an hour, refusals for an hour, anything else not at all; the reason follows, everything else of the outcome stays. |
| `PaidExchange.Client.Rejected` | searxng/engines/_x402_payment.py:74-82 | Rejected terms are forgotten; only decodable replacements are kept. |
| `PaidExchange.SentAtMostOnce` | searxng/engines/_x402_payment.py:129-198 | Whatever happens around an attempt it sends at most one start, one unsigned and one signed POST, each POST behind the start, and a warm attempt never discovers. |
| `PaidExchange.EarnedMeans` | searxng/engines/_x402_payment.py:151-198 | A document an attempt returns is a free answer to discovery, or one whose receipt and status both report success. |
| `PaidExchange.Discover` | searxng/engines/_x402_payment.py:147-165 | Cold discovery records the start before its single unsigned POST, and caches only terms it received with a 402. |
| `PaidExchange.Pay` | searxng/engines/_x402_payment.py:166-198 | The single signed POST marks the attempt submitted; the payment state, the cached terms, the reason and the suspension follow from the answer as stated for each status and receipt. |
| `PaidExchange.Exchange` | searxng/engines/_x402_payment.py:129-198 | Whatever is late or fails, the attempt sends a start, an unsigned and a signed POST each exactly under its condition and in this order, and returns a document exactly when a free or a paid answer succeeded in time, that answer’s; `submitted` holds exactly with a signed POST, and the suspension is that of the last answer. |
| `PaidExchange.Process` | searxng/engines/x402exa.py:54-104 | Every path of an attempt gives back the token and the lease, moves the last start only with a recorded start, and ends a failed search in a suspension: the one of the last answer, else five minutes after a payment, else one. |
| `BrowserSession.Session.Close` | browser/obscura_client/private_onyx_obscura/client.py:897-927 | Closing clears everything the owner retains, even when the browser does not confirm or the await fails. |
| `BrowserSession.Session.Park` | browser/obscura_client/private_onyx_obscura/client.py:929-966 | Parking ends on a blank document, or the generation is closed. |
| `BrowserSession.Session.Prepare` | browser/obscura_client/private_onyx_obscura/client.py:2347-2432 | Connecting, creating and reusing a target never touches the document, and its failures are never of a kind that keeps the generation. |
| `BrowserSession.Session.RemovePreload` | browser/obscura_client/private_onyx_obscura/client.py:1977-2014 | The preload is gone only after all three acknowledgements. |
| `BrowserSession.Session.Classify` | browser/obscura_client/private_onyx_obscura/client.py:2525-2656 | A challenge becomes a pending continuation only for a proof-of-work specification, with a fresh token and no failure; any other challenge of a result page is reported as itself, content and terminal statuses as plain results, and a blocking homepage as the failure it is. |
| `BrowserSession.Session.Transact` | browser/obscura_client/private_onyx_obscura/client.py:2432-2680 | The body of a search ends pending, inert, or in a failure that says whether the document must be parked. |
| `BrowserSession.Session.Submit` | browser/obscura_client/private_onyx_obscura/client.py:2295-2739 | After every search, cancelled or not, the generation is closed, inert without a preload, or pending on exactly the returned token. The answer names challenge c exactly when all steps succeeded and the result page is challenged with c, is plain exactly when it is content or a terminal status, and a failure says which step or page caused it. |
| `BrowserSession.Session.Continue` | browser/obscura_client/private_onyx_obscura/client.py:2840-3026 | A resumed transaction succeeds only into an inert generation. |
| `BrowserSession.Session.Resume` | browser/obscura_client/private_onyx_obscura/client.py:2773-3035 | A token is redeemed at most once, only with a valid solution; the resumed search succeeds exactly when all its awaits do, and every other outcome closes the generation. |
| `BrowserSession.Session.Abort` | browser/obscura_client/private_onyx_obscura/client.py:3038-3058 | Aborting closes the generation and reports a token that was not the pending one. |
| `ProviderSession.Browser.BeginExpiry` | searxng/engines/_obscura.py:248-258 | The timer callback hands its generation to an expiry task. |
| `ProviderSession.Browser.Expire` | searxng/engines/_obscura.py:230-246 | The expiry lets go of the session before it awaits the close. |
| `ProviderSession.Browser.BeginQuery` | searxng/engines/_obscura.py:260-276 | A query that finds its deadline reached lets go of the session synchronously. |
| `ProviderSession.Browser.OpenQuery` | searxng/engines/_obscura.py:277-289 | A query that began at or after the idle deadline never reuses the old connection. |
| `ProviderSession.Browser.EndQuery` | searxng/engines/_obscura.py:304-319 | A pending session gets no deadline, a live one a new one, a closed one is dropped. |
| `ProviderSession.Browser.EndResume` | searxng/engines/_obscura.py:326-352 | Only a pending session comes back active and is armed again. |
| `ProviderSession.Browser.CancelArrival` | searxng/engines/_obscura.py:277-282 | A query cancelled while it waits for a running expiry leaves that expiry, and the session it will let go of, as they are. |
| `ProviderSession.Browser.EndAbort` | searxng/engines/_obscura.py:358-371 | An abort drops the session. |
| `ProviderSession.QueryAfterIdle` | searxng/engines/_obscura.py:230-320 | Between two queries, with any expiry work in between: at or after the deadline the session is new, before it (if no timer ran) the same. |
| `ReconnectCompanion.Companion.LoadRecord` | onyx/nginx/webui-reconnect.js:77-97 | A read returns the stored record exactly while it is valid and drops it otherwise, so every later read at the same clock finds the same. |
| `ReconnectCompanion.Companion.SaveRecord` | onyx/nginx/webui-reconnect.js:99-108 | Only a valid record is stored, and only when storage accepts it. |
| `ReconnectCompanion.Companion.CancelRecoveryWork` | onyx/nginx/webui-reconnect.js:110-119 | Afterwards no timer is armed and no request of the token is in flight; a request of another token, the record and the page’s commitments stay. |
| `ReconnectCompanion.Companion.ClearMatching` | onyx/nginx/webui-reconnect.js:121-135 | The record of that token is removed with its work, except while the page reloads for it. |
| `ReconnectCompanion.Companion.MarkForRecovery` | onyx/nginx/webui-reconnect.js:227-243 | A mark leaves a page committed to this token’s reload as it is; otherwise no poll or request of the token is left, the record is marked at this clock, a failed replay is out of the live phase, and recovery is armed. |
| `ReconnectCompanion.Companion.ScheduleTheStatus` | onyx/nginx/webui-reconnect.js:444-460 | A poll is armed if and only if none is armed or in flight, the page is eligible and its current record can be saved; then after the backoff delay of its attempt, which it counts. |
| `ReconnectCompanion.Companion.FinishResumeCleanly` | onyx/nginx/webui-reconnect.js:245-262 | A clean end gives up resume ownership, keeps everything about the recovery and its mark, and leaves recovery armed on a marked record or a status check armed on an eligible unmarked one. |
| `ReconnectCompanion.Companion.InstrumentSend` | onyx/nginx/webui-reconnect.js:322-341 | A send leaves no work of any token, no reload and no resume ownership; afterwards its fresh record is stored, or, if aborted, no record of it. |
| `ReconnectCompanion.Companion.RecoverNow` | onyx/nginx/webui-reconnect.js:592-623 | A valid eligible record that can be saved gets its check armed, for the purpose of its phase, if and only if one is due and none is under way; the timer is rearmed if and only if the interval of a marked record still runs, for exactly its rest. |
| `ReconnectCompanion.Companion.PollTimerFires` | onyx/nginx/webui-reconnect.js:456-468 | A fired poll becomes the status request exactly when none is in flight and it is for the current record of an eligible page. |
| `ReconnectCompanion.Companion.StatusArrived` | onyx/nginx/webui-reconnect.js:487-507 | A stale answer changes nothing but the finished request; a missing session removes the record of an uncommitted page; an unsettled answer polls again; the page reloads, for the token asked about, if and only if a settled answer calls for it by the purpose of the check. |
| `ReconnectCompanion.Companion.DecideStatus` | onyx/nginx/webui-reconnect.js:509-542 | The page reloads if and only if the answer is settled and its purpose calls for it; a pending reservation, a waiting replay that runs and a run not yet resumable poll again, for the same record. |
| `ReconnectCompanion.Companion.ConcludeStatus` | onyx/nginx/webui-reconnect.js:543-590 | A recovery reloads for any settled answer it can note, the other purposes exactly once the run is over (a live owner’s never), an ended resume marks or removes its record; a reload commits the page, removes a finished record and stamps a running one. |
| `ReconnectCompanion.Companion.ReloadForRecovery` | onyx/nginx/webui-reconnect.js:631-640 | A reload that works commits the page to the token with none of its work left; one that fails leaves the page uncommitted. The record is untouched either way. |
| `ReconnectCompanion.Companion.BecomesHidden` | onyx/nginx/webui-reconnect.js:669-694 | A suspension stops the token’s work, keeps the record’s phase and recovery time, and marks it at this clock, unless the page is reloading for it. |
| `ReconnectCompanion.Companion.PageIsShown` | onyx/nginx/webui-reconnect.js:695-702 | A page shown again is no longer committed to a reload, keeps its record, and has recovery armed whenever the record is hidden or in a phase. |
| `ReconnectCompanion.Companion.GoesOnline` | onyx/nginx/webui-reconnect.js:703-723 | Regained connectivity keeps everything about the recovery, marks only a record without a phase, touches no poll, and leaves recovery armed unless a live resume owns the completion. |
| `ReconnectCompanion.Companion.GoesOffline` | onyx/nginx/webui-reconnect.js:724-732 | Lost connectivity stops the token’s work and keeps the record’s phase, mark and recovery time, unless the page is reloading for it. |
| `ReconnectCompanion.Companion.ScheduleTheRecovery` | onyx/nginx/webui-reconnect.js:625-629 | Recovery is armed exactly for a valid record on an uncommitted page without an armed timer. |
| `ReconnectCompanion.Companion.TerminalRequest` | onyx/nginx/webui-reconnect.js:371-388 | A terminal request removes exactly the record of its own session. |
| `ReconnectCompanion.Companion.RouteChanges` | onyx/nginx/webui-reconnect.js:642-667 | Returning to the chat arms recovery; leaving it only forgets a pending reservation. |
| `ReconnectCompanion.Companion.BecomesVisible` | onyx/nginx/webui-reconnect.js:669-683 | A shown tab keeps its record and has recovery armed on an uncommitted page. |
| `ReconnectCompanion.Companion.DocumentStarts` | onyx/nginx/webui-reconnect.js:734-737 | A new document keeps the record alone, with recovery armed exactly for a marked one or one in a phase. |
| `ReconnectPage.CommittedIsSilent` | onyx/nginx/webui-reconnect.js:121-135 | A page committed to a reload keeps its record for the next document: no callback of the outgoing one changes it or starts work for it. |
| `ReconnectCompanion.Companion.SendStreamEnds` | onyx/nginx/webui-reconnect.js:278-287 | The end of a send stream keeps exactly a suspended tab’s record, with recovery armed; any other is cleared with its work. |
| `ReconnectCompanion.Companion.StreamBroke` | onyx/nginx/webui-reconnect.js:289-296 | A broken stream gives up resume ownership, marks its record at this clock with recovery armed, and sends a failed replay into completion waiting. |
| `ReconnectCompanion.Companion.ResumeResponded` | onyx/nginx/webui-reconnect.js:398-414 | A refused resume marks its record and leaves it out of the live phase; an accepted one keeps the record, owns completion, and leaves no other work for the token. |
| `ReconnectCompanion.Companion.Handle` | onyx/nginx/webui-reconnect.js:227-735 | One event handled in place reaches the run’s next page, keeps the history’s invariant, and reports a reload exactly when the history records one. |
| `ReconnectCompanion.Companion.Serve` | onyx/nginx/webui-reconnect.js:227-735 | A whole run of events handled in place ends as the run does and asks for exactly the run’s reloads, so the theorems about runs hold of the running page. |
| `ReconnectRuns.PageStays` | onyx/nginx/webui-reconnect.js:227-732 | Every callback keeps the page safe: a poll that could reload for recovery finds a due record, and no work runs for a token the page reloads for. |
| `ReconnectRuns.RecordStays` | onyx/nginx/webui-reconnect.js:227-732 | A record survives an event only as the same token’s, in waiting for good once waiting, or as a new send’s. |
| `ReconnectRuns.ReloadMeans` | onyx/nginx/webui-reconnect.js:525-590 | A reload in a waiting phase had no current run; a reload without a run removed the record; one with a run used up a mark. |
| `ReconnectRuns.MarksHaveCauses` | onyx/nginx/webui-reconnect.js:227-243 | Only suspensions, failures and connectivity regained before any recovery mark a record. |
| `ReconnectRuns.StepKeepsInv` | onyx/nginx/webui-reconnect.js:227-732 | Every event keeps the history invariant. |
| `ReconnectRuns.ReloadsCannotLoop` | onyx/nginx/webui-reconnect.js:444-640 | Over every run: no reload in `single-wait` or `multi` while a run is reported; a token reloads again only after a recovery reload that found a run; recovery reloads of a token are at least 1500 ms apart; they never outnumber its marks. |
| `ReconnectRuns.FailedReplayReloadsOnceMore` | onyx/nginx/webui-reconnect.js:227-243 | Once a token is in `single-wait` it stays there until its record is removed, and the page reloads for it at most once more. |
| `ReconnectRuns.MarkedRecordRecovers` | onyx/nginx/webui-reconnect.js:456-640 | From any page with a marked eligible record, its timer armed and the interval over, the timer, the poll and a usable answer reload the page exactly once, for that token. |
| `ReconnectRuns.SuspendedTabRecovers` | onyx/nginx/webui-reconnect.js:456-694 | A tab hidden and shown again recovers whatever its page did before: its record is marked, the timer armed, and the page reloaded exactly once for it. |
| `ReconnectRuns.ReloadIsTimely` | onyx/nginx/webui-reconnect.js:77-97 | No reload is for a record older than four hours or dated more than a minute ahead, nor on an ineligible page. |
| `Lifecycle.Proxy.TryBegin` | embedserv/idle_embedding_proxy.py:91-106 | The head of a request is admitted exactly to a live child that is not being stopped, refused after a shutdown request or on a closed proxy, blocked during a startup or stop, and made the starter otherwise; only an admission counts, and an exited child is dropped. |
| `Lifecycle.Proxy.FinishStart` | embedserv/idle_embedding_proxy.py:128-135 | The end of a startup keeps the exclusions: on an open proxy the next request is admitted to the new child after a success, and starts another child after a failure. |
| `Lifecycle.Proxy.EndRequest` | embedserv/idle_embedding_proxy.py:142-148 | Ending a request never takes the count below zero. |
| `Lifecycle.Proxy.TryReap` | embedserv/idle_embedding_proxy.py:160-172 | The reaper marks stopping exactly on an idle, quiet child. |
| `Lifecycle.Proxy.FinishReap` | embedserv/idle_embedding_proxy.py:175-181 | The end of a stop leaves nothing installed or active, keeps the exclusions, and lets the next request on an open proxy start a child. |
| `Lifecycle.Proxy.TryFinishShutdown` | embedserv/idle_embedding_proxy.py:183-192 | Shutdown takes the child out exactly when nothing is active, starting or stopping. |
| `LifecycleRuns.ActionKeepsInv` | embedserv/idle_embedding_proxy.py:91-198 | Every lock section and every process event keeps the invariant. |
| `LifecycleRuns.Exclusions` | embedserv/idle_embedding_proxy.py:91-181 | Over every run stopping excludes active requests and startups, starting excludes an installed child, a reaper and a second starter. |
| `LifecycleRuns.StoppedOnlyWhenDrained` | embedserv/idle_embedding_proxy.py:150-192 | Only a process whose startup failed is ever terminated while an admitted request is unfinished. |
| `LifecycleRuns.EndNeverUnderflows` | embedserv/idle_embedding_proxy.py:142-148 | The active count is the number of threads being served, so matched requests never underflow. |
| `LifecycleRuns.ShutdownIsFinal` | embedserv/idle_embedding_proxy.py:183-192 | Once a shutdown got past its wait nothing is active or installed, for good, and every later request is refused. |
| `LifecycleRuns.NoLostWakeup` | embedserv/idle_embedding_proxy.py:103-105 | A blocked request waits only while a startup or stop is under way whose end wakes it. |
| `LifecycleRuns.DroppedWhileActive` | embedserv/idle_embedding_proxy.py:96-97 | While requests are unfinished the installed child is dropped if and only if a request finds it exited on an open proxy. |
| `LifecycleRuns.CrashedChildIsDropped` | embedserv/idle_embedding_proxy.py:96-97 | A run in which a second startup begins while the crashed child’s request is unfinished. |
| `LifecycleRuns.SurvivorsOfShutdown` | embedserv/idle_embedding_proxy.py:128-138 | After a shutdown a live process is one whose termination failed, or one that a failed startup or the shutdown has yet to terminate. |
| `LifecycleRuns.ReturnedShutdownLeaves` | embedserv/idle_embedding_proxy.py:128-138 | Once every shutdown past its wait has returned, some process is alive if and only if one whose termination failed, or one a failed startup has yet to terminate, is alive. |
| `LifecycleRuns.NothingOutlivesShutdown` | embedserv/idle_embedding_proxy.py:128-192 | Over a run without a failed startup or a failed termination nothing outlives a returned shutdown. |
| `LifecycleRuns.FailedChildOutlivesShutdown` | embedserv/idle_embedding_proxy.py:128-138 | A run in which shutdown has returned while a failed startup’s process is still alive. |
| `LifecycleRuns.IdleChildIsReaped` | embedserv/idle_embedding_proxy.py:150-181 | A quiet child idle for long enough is stopped by two sections of the reaper, which leave nobody blocked. |
| `LifecycleRuns.LiveChildServes` | embedserv/idle_embedding_proxy.py:91-148 | A request to an open proxy with a live child is served at once and counted until its end. |
| `LifecycleRuns.FailedChildIsStopped` | embedserv/idle_embedding_proxy.py:128-138 | The thread of a failed startup terminates its process in its next section. |
| `Continuation.Relay` | onyx/patches/onyx_wrapper_patches/api/inference_continuation.py:230-269 | One attempt passes on exactly the packets that carry content, reasoning, tool calls, usage or a finish, in order and unchanged, but for reasoning withheld after answer text in a continuation; all answer text is kept. |
| `Continuation.Stream` | onyx/patches/onyx_wrapper_patches/api/inference_continuation.py:217-336 | The output is, attempt by attempt, exactly what each attempt’s relay sends and the one notice its end calls for; each continuation request is the original prompt with all parts received so far and one instruction; every ending has its exact condition. |
| `Continuation.RequestsAtMostProgress` | onyx/patches/onyx_wrapper_patches/api/inference_continuation.py:226-308 | Upstream requests number at most two more than the progress-making packets of the continuations. |
| `DotenvLines.SplitOfJoin` | tools/components/configuration.py:96-96 | Joined lines split back into the same lines when none runs into its neighbour. |
| `DotenvLines.SplitIsProper` | tools/components/configuration.py:96-96 | The lines of any text stay apart from their neighbours. |
| `DotenvLines.OneLineMeans` | tools/components/configuration.py:96-96 | A line holds a line end only as its last character or as the carriage return of a final pair. |
| `DotenvBlocks.BlocksOfParts` | tools/components/configuration.py:61-91 | Parser composition: what a closed part of the lines parses to does not depend on what follows it. |
| `DotenvBlocks.BlocksKeepLines` | tools/components/configuration.py:61-91 | The blocks hold every line in order, and each block reads as itself. |
| `DotenvGrammar.HeadExact` | tools/components/configuration.py:68-71 | A line reads as a key and a value if and only if an assignment of the grammar prints it: blanks, an optional export word with blanks, a key, blanks around an equals sign, the value. |
| `DotenvGrammar.OpeningExact` | tools/components/configuration.py:68-76 | A line opens an unquoted or a quoted assignment of a key exactly as the grammar says: the key does not begin with a number sign, and the value is quoted when it begins with either quote. |
| `DotenvGrammar.FirstQuoteExact` | tools/components/configuration.py:81-90 | The closing quote found is the first one that no backslash escapes. |
| `DotenvGrammar.SolidExact` | tools/components/configuration.py:61-91 | A block reads as itself if and only if it is a line that opens nothing or the lines of one assignment, whose closing quote is in the last of them. |
| `DotenvGrammar.BlocksExact` | tools/components/configuration.py:61-91 | The lines fall into exactly those blocks of the grammar, or into none. |
| `DotenvScanner.EnvironmentAssignments` | tools/components/configuration.py:61-91 | The scanning loop, with its quote and escape state across lines, finds exactly the places of the assignments of the grammar, in order, or reports an unterminated quote exactly when the lines do not fall into blocks. |
| `DotenvEditor.EntryReadsBack` | tools/components/configuration.py:68-74 | A written entry reads back as its key’s assignment if and only if the key is a possible key. |
| `DotenvEditor.WrittenReadsBack` | tools/components/configuration.py:94-117 | The edited text reads back as the edited blocks followed by the missing entries. |
| `DotenvRoundTrip.SettingsReadBack` | tools/components/configuration.py:94-117 | After an edit each setting is assigned exactly once, with its value as written. |
| `DotenvRoundTrip.OtherTextIsKept` | tools/components/configuration.py:94-117 | All other text, multiline values and comments included, keeps its characters and order; it gains one newline, at its end, exactly when an entry is appended behind a last line that lacks one and is not itself replaced. |
| `DotenvRoundTrip.SettingsStayInPlace` | tools/components/configuration.py:111-117 | An edited assignment keeps its place among the blocks and becomes one line; the settings that were missing are the last blocks, in the order given. |
| `DotenvRoundTrip.WritingIsIdempotent` | tools/components/configuration.py:94-117 | Applying the same settings again writes the same text. |
| `DotenvSync.ReplaceAll` | tools/components/configuration.py:111-112 | Replacing slices from the last to the first equals editing the blocks: no replacement moves one still to come. |
| `DotenvSync.SelectedEnvironment` | tools/components/configuration.py:94-117 | The program’s plan, slice replacement and additions compute the specified text; the edit is refused exactly for an unterminated quote, or for the first setting with an unsafe value or a repeated assignment in the blocks of the grammar. |
| `DotenvSync.SyncExisting` | tools/components/configuration.py:134-136 | The file is rewritten exactly when the edit changes its text, and afterwards assigns each tag exactly once. |
| `DotenvSync.SyncTwice` | tools/components/configuration.py:134-136 | A second synchronization with the same tags writes nothing. |
| `EmbeddingNorm.ScaleAndSum` | onyx/local_embedding_shim.py:390-401 | The running scale is the largest magnitude, scale squared times the sum is the sum of squares, and the sum lies between one and the number of nonzeros. |
| `EmbeddingNorm.Normalize` | onyx/local_embedding_shim.py:376-409 | Given the nonnegative root of the scaled sum, only the zero vector is refused; every other becomes a unit vector that is a positive multiple of it. |
| `EmbeddingNorm.Pigeonhole` | onyx/local_embedding_shim.py:442-481 | As many distinct indices below n as n cover every index. |
| `EmbeddingNorm.ArrangeByIndex` | onyx/local_embedding_shim.py:434-481 | A batch is accepted exactly when its items are well formed, distinct in index and equal in dimension; then the total lookup returns each vector at its index. |
| `TextBudgets.TruncatedLength` | onyx/patches/onyx_wrapper_patches/common/text.py:7-26 | Truncation returns exactly min(length, max(0, limit)) characters. |
| `TextBudgets.SecondCheckIsDead` | onyx/patches/onyx_wrapper_patches/common/text.py:22-25 | The second overflow check never fires. |
| `TextBudgets.ReportedOmission` | onyx/patches/onyx_wrapper_patches/common/text.py:16-26 | On the notice path the reported omission exceeds the true one by exactly the difference in digit count. |
| `TextBudgets.ShortLimitKeepsPrefix` | onyx/patches/onyx_wrapper_patches/common/text.py:16-20 | A limit too short for a notice takes the first characters alone. |
| `TextBudgets.LimitsHold` | onyx/patches/onyx_wrapper_patches/api/retrieval_limits.py:112-128 | Every result keeps under its limit and their sum under the total. |
| `TextBudgets.SharesAreExact` | onyx/patches/onyx_wrapper_patches/api/retrieval_limits.py:112-128 | Every result is exactly as long as its own limit and what the results before it left of the total allow. |
| `TextBudgets.EnoughChangesNothing` | onyx/patches/onyx_wrapper_patches/api/retrieval_limits.py:112-128 | A budget that suffices changes no result. |
| `TextBudgets.LimitResults` | onyx/patches/onyx_wrapper_patches/api/retrieval_limits.py:112-128 | The loop edits the entries in place exactly as specified. |
| `TextBudgets.SanitizedKeeps` | onyx/patches/onyx_wrapper_patches/api/coding_final_answer.py:25-40 | Sanitizing keeps that many characters and passes its limit exactly when it adds a notice. |
| `TextBudgets.RecentAreLast` | onyx/patches/onyx_wrapper_patches/api/coding_final_answer.py:253-255 | The outputs kept are the last six, or all of them. |
| `TextBudgets.Fallback` | onyx/patches/onyx_wrapper_patches/api/coding_final_answer.py:253-267 | The loop builds the chunk of every recent output, number, call and fenced text, each cut at its equal share of what the chunks before it left of 16000 characters, or at 1000. |
| `TextBudgets.KeptWithinBudget` | onyx/patches/onyx_wrapper_patches/api/coding_final_answer.py:253-267 | From any slot on, the chunks carry at most what is left of the budget, or 1000 characters per remaining slot if that is more. |
| `TextBudgets.FallbackKeepsTotal` | onyx/patches/onyx_wrapper_patches/api/coding_final_answer.py:253-267 | Over any outputs and labels the fallback carries at most 16000 characters of tool output. |
| `TextBudgets.SanitizedTotalIs` | onyx/patches/onyx_wrapper_patches/api/coding_final_answer.py:253-267 | Over any outputs and cuts the sanitized text is the kept output plus the notices, character for character. |
| `TextBudgets.NoticesBoundOvershoot` | onyx/patches/onyx_wrapper_patches/api/coding_final_answer.py:253-267 | For outputs of any length, nothing goes past the total while no recent output is cut, and never more than the notices do. |
| `TextBudgets.FallbackOvershoot` | onyx/patches/onyx_wrapper_patches/api/coding_final_answer.py:253-267 | Notices included, the up to six sanitized outputs go past 16000 characters if and only if at least 1000 characters are left for the last one, it is longer, and its notice is longer than all labels and fences before it; then they exceed it by exactly that difference, never by more than one notice. Lengths have at most 43 digits. |
| `TextBudgets.FourOutputsWithinTotal` | onyx/patches/onyx_wrapper_patches/api/coding_final_answer.py:253-267 | With four outputs or more, whatever their labels, the sanitized outputs stay within 16000 characters, notices included. Lengths have at most 24 digits. |
| `TextBudgets.OneOutputWithinTotal` | onyx/patches/onyx_wrapper_patches/api/coding_final_answer.py:253-267 | A history with one output stays within 16000 characters, notice included, if and only if the output does. |
| `TextBudgets.OvershootHappens` | onyx/patches/onyx_wrapper_patches/api/coding_final_answer.py:253-267 | For one, two and three outputs a concrete list whose sanitized text exceeds 16000 characters. |

## Left out

- UTF-8 decoding and Unicode case mapping: wire text is octets below 256, and only ASCII letters are folded.
- CPython's limit of 4300 digits when converting a decimal string; lengths are unbounded integers.
- What asyncio's reader keeps after an overlong line: the reader's position then is not specified beyond its bounds.
- IDNA, URL parsing and the IP classification tables: they are functions and predicates with stated assumptions (`Destination.ClassesOk`).
- Socks5.Socks5Connect: a reader or writer that fails otherwise than by the end of the stream (a connection reset, another OS error) raises through the helper with the writer open; streams here only end.
- TextBudgets.FallbackOvershoot: lengths of more than 43 digits, which no string in memory has, are covered by `TextBudgets.NoticesBoundOvershoot` alone.
- TCP, TLS, client admission and the byte pump of established tunnels, and the order in which validated addresses are tried.
- ProviderPool.UnspentTokenHasKeeper: says that a next section is enabled and brings the token closer; that threads are eventually scheduled is not modelled.
- Which wall-clock time a lock acquisition takes: the clock may move between any two sections, never inside one.
- SearchRun.SearchStandard: a scan's observations are a script; a script that runs out is a search still waiting.
- PaidExchange.World: payment selection, signing, receipts and JSON are outcomes of the environment; result parsing is one optional value.
- PaidExchange.Process: starts from the token the scheduler passed or the wait loop returned; the loop itself is `PaidAdmission.Gate.WaitPass` per pass, and the passes of any number of waiters are steps of the runs of `PaidAdmission`.
- BrowserSession.Session.Continue: the pass document and a resubmitted result are one classified document, since either one's failure closes the generation.
- BrowserSession.Session.Resume: a token text that is not ASCII and a nonce beyond the integer-to-string limit make the program raise before any close, leaving the generation as it was; a token is a number here, and a solution is valid or not. The branch for a pending continuation without a connection is unreachable under the session invariant.
- BrowserSession.Session.Abort: a token text that is not ASCII makes the program raise before the close, leaving the generation as it was; a token is a number here.
- Browser protocol traffic, document classification and injected scripts: each is an outcome (content, challenge, failure, cancellation).
- ProviderSession.Browser.EndResume: takes from `BrowserSession.Session.Resume` that only a pending session comes back active.
- ProviderSession.Browser.BeginExpiry: the timer may fire at any moment while armed, earlier than the event loop would run it.
- ReconnectRuns.ReloadsCannotLoop: assumes a clock that does not run backwards, fresh tokens, and session storage whose reads and removals work; saves may fail at any time.
- Documents kept frozen in the back-forward cache while another document of the same tab runs; a page shown again is modelled within one document.
- Notices, history wrapping and URL matching of the page script; a session is already recognized.
- Lifecycle health probes, ports and process groups: a startup ends well or badly, a termination works or leaves an orphan.
- Provider errors of the inference stream: an interruption is retryable or not.
- Continuation.Stream: message objects and packet identifiers; a packet is its content, reasoning, tool, usage and finish parts.
- Dotenv templates and file modes of a first preparation: only the update of existing content is modelled.
- EmbeddingNorm.Normalize: exact reals, so overflow to infinity of the root, which the program also refuses, does not occur.
- JSON encoding of the limited search payload, and the header of the fallback answer.
- Startup patch installation, component audits, wallet and VPN scripts, image fetch and static file serving: one-branch guards around I/O.
