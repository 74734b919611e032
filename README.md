# go-barentswatch-ais, modelled in Dafny

This project models the core of `go-barentswatch-ais`, a Go client for the
BarentsWatch AIS (Automatic Identification System) live vessel-tracking API, and
proves properties of that model. The core covers five parts:

- **The streaming decode engine.** A `StreamResponse` pumps the HTTP body of a
  streaming request and turns it into messages. It supports two framings:
  - newline-delimited JSON (`Simple`);
  - a server-sent-events subset (`SSE`), whose frames must look like
    `data:<whitespace>{...}`.

  Each pump checks the caller's context before every read. It records exactly one
  termination reason: the end-of-stream sentinel, a read error, a decoding error or
  the context's error. Through its deferred calls it closes the output channel and
  then the body, once each.
- **Two tagged unions.**
  - `AisMultiple` dispatches on its `type` field.
  - `CombinedMultiple` has no tag field, so it is classified by which keys are
    present: a top-level `properties` key means a GeoJSON Feature, and an `eta`
    key means the full variant.
- **The ship-type description table** (AIS ship and cargo types 0..99).
- **The country-code name table.**
- **The API URL record and the client's configuration options.**

Files, one module each:

| file | module | what it holds |
|---|---|---|
| `wrappers.dfy` | `Wrappers` | `Option` and `Result` |
| `json.dfy` | `Json` | bytes, an abstract JSON value, decoding errors and `Decoder<T>` |
| `errors.dfy` | `Errors` | the package's sentinel errors, the error wrap chain, `errors.Is` and `IsEOF` |
| `sse.dfy` | `Sse` | the frame pattern `^data:\s+(\{.*\})\s*$`, a declarative match predicate for it, and `unmarshalSSEData` |
| `session.dfy` | `Session` | a pure specification of a pump session (`Run`) and the properties of sessions |
| `stream.dfy` | `Stream` | `StreamResponse` as a class whose two pump methods are proved against `Session.Run` |
| `unions.dfy` | `Unions` | `AisMultiple` and `CombinedMultiple`, their `UnmarshalJSON` and their accessors |
| `fixtures.dfy` | `Fixtures` | the end-to-end behaviour the package's tests expect of `PostCombined` streams |
| `shiptype.dfy` | `ShipTypes` | the ship-type constants and `Description` |
| `countrycode.dfy` | `CountryCodes` | the country-code constants and `ToCountryName` |
| `uri.dfy` | `Uris` | `URLs`, the default record and the URL methods |
| `config.dfy` | `Configs` | the client configuration record and its two options |

The model has these external parts:

- **Input as parameters.** The body reaches the model as its sequence of frames
  plus the scanner's final read error, if any. The context is an oracle: it tells
  the pump whether it is done at each iteration, and with which cause.
- **JSON as parameters.** JSON parsing, and the filling of a record struct from a
  message, are function parameters (`Unions.Codec`).
- **The output channel as a sequence.** The channel becomes the sequence of
  delivered messages.
- **Closing as a log.** Closing is recorded as the ordered log `closed` of the
  handles that were closed.

## Model

| member | source | states |
|---|---|---|
| Errors.IsEOF | ais/response.go:27-30 | a nil error is not EOF; an error is EOF exactly when its wrap chain ends in the `eof` sentinel (see also Errors.WrappingPreservesEOF and Errors.OtherErrorsAreNotEOF) |
| Errors.Root | ais/response.go:24-30 | the end of an error's wrap chain is not a wrapper, and an unwrapped error is its own root |
| Errors.Is | ais/response.go:27-30 | for a sentinel target, `errors.Is` holds exactly when the target is the root of the error's wrap chain |
| Errors.WrappingPreservesEOF | ais/response.go:24-30 | wrapping an error never changes whether `IsEOF` holds for it, and any wrapper of the `eof` sentinel is EOF |
| Errors.OtherErrorsAreNotEOF | ais/response.go:24-30 | an error whose root is not the `eof` sentinel (read errors, decoding errors, context errors, the other sentinels) is not EOF |
| Sse.DataCapture | ais/response.go:181-185 | a captured group only comes from a frame that starts with `data:`, and it is a `{`…`}` group without newlines; Sse.CaptureIsMatch and Sse.MatchIsCapture state the whole pattern in both directions |
| Sse.CaptureIsMatch | ais/response.go:168-190 | whenever the classifier captures a group, the frame is `data:`, one or more whitespace bytes, a `{`…`}` group without newlines, then only whitespace |
| Sse.MatchIsCapture | ais/response.go:168-190 | every reading of a frame against that pattern gives the group the classifier returns, so the match is unique (the last `}` closes the group) and is always found |
| Sse.NoSpaceIsNoMatch | ais/response.go:168-190 | `data:{...}` with no whitespace after the colon is not matched |
| Sse.UnmarshalSSEData | ais/response.go:168-193 | an empty frame gives `empty`, exactly; a non-empty frame the pattern rejects gives `noMatch`, exactly; a match gives the decoding of its captured group, and a decode failure of the group is reported as that failure |
| Session.StepOf | ais/response.go:89-96 | plain framing never skips a line; event-stream framing skips exactly the empty and non-matching frames (ais/response.go:134-145); a frame that stops the session stops it with a decoding error |
| Session.EndReason | ais/response.go:80-87 | when the scanner stops, the reason is its error if it has one, else the sentinel; the reason is EOF exactly when the scanner reported no error |
| Session.Run | ais/response.go:61-149 | a session delivers at most one message per frame and calls Scan at most once more than there are frames |
| Session.RunUntil | ais/response.go:74-101 | iterations that neither see cancellation nor stop deliver the messages of their frames in order, one Scan call each, and then the session continues from where they left off |
| Session.EndOfInput | ais/response.go:80-87 | with no cancellation and no failing frame, all messages are delivered in frame order, every frame is scanned plus one final Scan, and the reason is the read error or else the sentinel |
| Session.FirstFailure | ais/response.go:89-96 | the first failing frame ends the session with its error: only earlier frames' messages are delivered, nothing after it is read, and the reason is not EOF |
| Session.CancelledAt | ais/response.go:75-78 | cancellation seen at iteration c ends the session with the context's error after exactly c Scan calls, having delivered only the messages of the c frames already scanned |
| Session.EofExactlyWhenClean | ais/response.go:74-101 | a session ends with EOF if and only if it is never cancelled, no frame fails and the scanner reports no error |
| Session.ReasonIsOneOf | ais/response.go:117-148 | the recorded reason is the context's error, the scanner's end reason, or the error of some frame that stops the session |
| Session.Collect | ais/response.go:89-96 | the messages a stretch of frames yields: at most one per frame; their order and content are stated by Session.CollectAppend, Session.PlainDeliversEveryFrame and Session.SkippedFrameDeliversNothing |
| Session.CollectAppend | ais/response.go:89-96 | the messages of two stretches of frames, read one after the other, are the messages of the first followed by those of the second |
| Session.PlainDeliversEveryFrame | ais/response.go:89-96 | under plain framing, when every line decodes, there is exactly one message per line, in line order, each the line's decoding |
| Session.PlainFailureAfterGoodLines | ais/response.go:89-96 | under plain framing, a decode failure after K good lines delivers exactly those K messages and ends with that failure, never EOF |
| Session.SkippedFrameDeliversNothing | ais/response.go:134-140 | under event-stream framing, a skipped frame contributes no message wherever it stands |
| Session.RunDependsOnRest | ais/response.go:117-148 | without cancellation, what a session does from some point on depends only on the frames still to come |
| Session.SkippedFrameIsInvisible | ais/response.go:134-140 | under event-stream framing and without cancellation, inserting a skipped frame anywhere leaves the messages and the termination reason unchanged; it costs one extra Scan call whenever no earlier frame stops the session |
| Stream.StreamResponse.constructor | ais/response.go:49-55 | a new response has its stream type, body and context, and has not started: no reason, nothing delivered, nothing read, nothing closed |
| Stream.StreamResponse.UnmarshalDefault | ais/response.go:61-102 | the plain pump's messages, reason and Scan count are those of the session specification `Run`; the reason is always set; the channel and then the body are closed, once each (ais/response.go:70-72) |
| Stream.StreamResponse.UnmarshalSSE | ais/response.go:104-149 | the event-stream pump's messages, reason and Scan count are those of `Run`; the reason is always set; the channel and then the body are closed, once each (ais/response.go:113-115) |
| Stream.StreamResponse.UnmarshalStream | ais/response.go:157-166 | `Simple` runs the plain pump and `SSE` the event-stream pump, both without error; any other stream type, `None` included, returns the "unknown stream type" error and leaves the response untouched |
| Unions.TypeField | ais/response.go:204-214 | reading the `type` probe fails exactly when the message is not an object or null, or when its `type` field is neither a string nor null; a string `type` field is read as that string, and a missing or null field, or a null document, reads as the empty tag |
| Unions.AisTagRecordedFirst | ais/response.go:204-224 | the tag is stored before dispatch whenever it can be read; a known tag whose fill succeeds gives no error and exactly that variant set to the message decoded over its old contents; an unknown tag gives "unknown type" and fills nothing; a fill failure keeps the stored tag and reports the failure; an unreadable message leaves the receiver as it was |
| Unions.UnmarshalAis | ais/response.go:204-224 | a decode without error names one of the three known variants, and a changed tag is the one read from the `type` field; the full case analysis is stated by Unions.AisTagRecordedFirst and the lemmas below |
| Unions.AisMissingTagIsUnknown | ais/response.go:205-222 | an object without a `type` key reads as the empty tag, which is an "unknown type" error |
| Unions.AisOnlyNamedVariantChanges | ais/response.go:214-221 | only the variant that the tag names is ever written; the other two keep their values |
| Unions.AisSuccessHasKnownTag | ais/response.go:204-224 | a message that decodes without error carries a string `type` field naming one of the three variants, and that variant's fill succeeded |
| Unions.AisAccessorsAfterDecode | ais/response.go:231-247 | decoded into a fresh value, the tagged variant's accessor returns the filled struct and the other two accessors return zero values |
| Unions.AisDecoder | ais/response.go:90-91 | decoding a stream frame into a fresh AisMultiple succeeds only with a tag naming one of the three variants (also ais/response.go:186-187); Unions.AisAccessorsAfterDecode states the accessors of the result |
| Unions.Classify | ais/response.go:341-357 | an accepted document is classified as GeoJSON exactly when it has a top-level `properties` key; the full table is stated by Unions.ClassifyTable |
| Unions.KeysOf | ais/response.go:336-345 | the key probe succeeds exactly on objects and null; it finds the object's keys, and null has none |
| Unions.ClassifyTable | ais/response.go:335-376 | `properties` holding `eta` gives FullGeojson; `properties` without it gives SimpleGeojson; no `properties` and a top-level `eta` gives FullJson; otherwise SimpleJson. A value at either level that is neither an object nor null is an error. Each case holds in both directions |
| Unions.ClassifyIgnoresValues | ais/response.go:335-376 | two documents with the same keys, and the same keys under `properties`, are both accepted or both rejected, and if accepted they get the same kind: classification never looks at values |
| Unions.UnmarshalCombined | ais/response.go:335-376 | a decode without error has a readable, classifiable message and records the tag of the kind the probes found; the full case analysis is stated by Unions.CombinedDispatch |
| Unions.CombinedDispatch | ais/response.go:335-376 | a classified message stores its kind's tag and fills exactly that variant by decoding the whole message over its old contents; the other three variants keep their values; an unreadable or unclassifiable message leaves the receiver as it was |
| Unions.CombinedAccessorsAfterDecode | ais/response.go:383-405 | decoded into a fresh value, the tag names the kind the probes found, that kind's accessor returns the filled struct, and the other three accessors return zero values |
| Unions.CombinedDecoder | ais/response.go:90-91 | decoding a stream frame into a fresh CombinedMultiple succeeds only on a readable, classifiable document, and the result's tag is the kind the key probes found (also ais/response.go:186-187) |
| Fixtures.FixtureOfOneKind | ais/ais_test.go:44-184 | a body whose every line is a message of one kind is delivered entirely, line by line, each message tagged with that kind and carrying its struct, and the stream ends with EOF |
| Fixtures.BrokenFixture | ais/ais_test.go:186-213 | a body with a line that does not decode ends with a non-EOF error, whatever the other lines and the scanner do |
| ShipTypes.ConstantsAreConsecutive | shiptype/shiptype.go:5-106 | the hundred constants, listed in declaration order, are exactly the codes 0 to 99: the i-th one declared has the value i |
| ShipTypes.Description | shiptype/shiptype.go:108-317 | no `ensures` of its own: ShipTypes.OutOfBoundsExactly states that the out-of-bounds text is given exactly to codes outside 0..99, and the lemmas below state the shared reserved texts and the verbatim quirks |
| ShipTypes.NotAvailableIsDefault | shiptype/shiptype.go:112-113 | code 0 reads "Not available (default)" |
| ShipTypes.ReservedRangeSharesText | shiptype/shiptype.go:114-151 | every code from 1 to 19 reads "Reserved for future use" (the fallthrough chain) |
| ShipTypes.OutOfBoundsExactly | shiptype/shiptype.go:111-313 | the description is the out-of-bounds error if and only if the code is below 0 or above 99 |
| ShipTypes.ReservedSubCodesShareText | shiptype/shiptype.go:162-169 | codes 25-28, 45-48, 65-68, 75-78, 85-88 and 95-98 read their category's "…, Reserved for future use" text (also shiptype/shiptype.go:202-209) |
| ShipTypes.WingInGroundLastCodeIsReserved | shiptype/shiptype.go:170-171 | code 29 is the WIG reserved text, not a "no additional information" text as in the other categories |
| ShipTypes.TankerCategoryBText | shiptype/shiptype.go:276-277 | code 82 reads "jTanker, Hazardous category B" verbatim |
| ShipTypes.PilotVesselText | shiptype/shiptype.go:212-213 | code 50 reads "Pilot AISOutput" verbatim |
| ShipTypes.SpareLocalVesselText | shiptype/shiptype.go:224-227 | codes 56 and 57 both read "Spare - Local AISOutput" |
| ShipTypes.OtherTypeLastText | shiptype/shiptype.go:310-311 | code 99 reads "Other Type, no additional information", with a lower-case "no" |
| CountryCodes.CaseName | countrycode/countrycode.go:240-698 | the switch's cases, as a partial map from two-character codes to names; stated by CountryCodes.ToCountryName, CountryCodes.DeclaredCodeHasName, CountryCodes.NamesAsWritten and CountryCodes.UnitedKingdomHasTwoCodes |
| CountryCodes.ToCountryName | countrycode/countrycode.go:237-702 | the name is "Unknown" exactly when the code has no case, and always for a code that is not two characters long |
| CountryCodes.DeclaredCodeHasName | countrycode/countrycode.go:5-234 | every declared country-code constant has a case, so its name is not "Unknown" |
| CountryCodes.UnitedKingdomHasTwoCodes | countrycode/countrycode.go:667-678 | "UK" and "GB" are different codes with the same name, "United Kingdom", so the mapping is not injective |
| CountryCodes.NamesAsWritten | countrycode/countrycode.go:265-670 | "NO" reads "Norway", "US" reads "United States of America", "IO" reads "AscensionIs" and "SA" reads "SaudiArabia" |
| CountryCodes.UnlistedCodesAreUnknown | countrycode/countrycode.go:699-700 | codes without a case are "Unknown": lower-case "no", "XX", the empty code, a three-letter code |
| Uris.DefaultURLs | ais/uri.go:3-19 | the default record's token URL is `https://id.barentswatch.no/connect/token` and its AIS URL is `https://live.ais.barentswatch.no/v1/ais` |
| Uris.URLs.OAuthToken | ais/uri.go:75-77 | the OAuth base followed by the token endpoint, not the API base; stated by Uris.UrlsSplitIntoBaseAndEndpoint and Uris.UrlsReadOnlyTheirFields |
| Uris.URLs.AIS | ais/uri.go:80-82 | the API base followed by the AIS endpoint; stated by Uris.UrlsSplitIntoBaseAndEndpoint and Uris.UrlsReadOnlyTheirFields |
| Uris.URLs.SSEAIS | ais/uri.go:85-87 | the API base followed by the SSE AIS endpoint; stated by Uris.UrlsSplitIntoBaseAndEndpoint and Uris.UrlsReadOnlyTheirFields |
| Uris.URLs.Combined | ais/uri.go:90-92 | the API base followed by the combined endpoint; stated by Uris.UrlsSplitIntoBaseAndEndpoint and Uris.UrlsReadOnlyTheirFields |
| Uris.URLs.SSECombined | ais/uri.go:95-97 | the API base followed by the SSE combined endpoint; stated by Uris.UrlsSplitIntoBaseAndEndpoint and Uris.UrlsReadOnlyTheirFields |
| Uris.URLs.LatestCombined | ais/uri.go:100-102 | the API base followed by the latest-combined endpoint; stated by Uris.UrlsSplitIntoBaseAndEndpoint and Uris.UrlsReadOnlyTheirFields |
| Uris.URLs.LatestAIS | ais/uri.go:105-107 | the API base followed by the latest-AIS endpoint; stated by Uris.UrlsSplitIntoBaseAndEndpoint and Uris.UrlsReadOnlyTheirFields |
| Uris.URLs.OpenAISArea | ais/uri.go:110-112 | the API base followed by the open-AIS-area endpoint; stated by Uris.UrlsSplitIntoBaseAndEndpoint and Uris.UrlsReadOnlyTheirFields |
| Uris.UrlsSplitIntoBaseAndEndpoint | ais/uri.go:74-112 | every URL starts with its base, the token URL with the OAuth base and the others with the API base, and continues with its own endpoint |
| Uris.UrlsReadOnlyTheirFields | ais/uri.go:74-112 | each URL method reads only its base and its endpoint: two records that agree on those give the same URL |
| Uris.UrlDeterminesEndpoint | ais/uri.go:79-82 | under a fixed API base, the AIS URL determines the AIS endpoint |
| Uris.OneSlashAtJoin | ais/uri.go:74-112 | when the base has no trailing `/` and the endpoint starts with one, the URL has exactly one `/` at the join |
| Uris.DefaultsJoinWithOneSlash | ais/uri.go:3-14 | in the default record every base lacks a trailing `/` and every endpoint starts with `/` |
| Configs.Applied | ais/config.go:12-22 | `SetResourceURLs` replaces the URLs and `SetOAuthScopes` the scopes; each keeps every other field |
| Configs.ApplyIsIdempotent | ais/config.go:12-22 | applying an option twice has the effect of applying it once |
| Configs.OptionsCommute | ais/config.go:12-22 | the two options write different fields, so their order does not matter |
| Configs.LaterOptionWins | ais/config.go:12-22 | of two options of the same kind, the later one wins |
| Configs.Config.Apply | ais/config.go:12-22 | running an option's closure on the config record changes it exactly as `Applied` says |

## Left out

- Goroutines and channels. Each pump runs as a sequential loop inside its method, and the channel is the sequence of delivered messages. Two consequences follow:
  - A consumer that stops reading, which blocks the sender, and cancellation arriving while a send is blocked are not modelled.
  - The unsynchronised read of the reason through `Error()` is not modelled.
- The context is an oracle consulted once per iteration. Its cause (`Canceled` or `DeadlineExceeded`) is a parameter.
- `bufio.Scanner` internals (line splitting, the 64 KiB token limit, CR stripping). The body is given as its frames plus an optional final read error.
- `encoding/json`. Parsing, and the decoding of a message over a record struct's current contents, are uninterpreted parameters. The JSON value is abstract; objects are maps, so duplicate keys do not arise.
- `encoding/json` matches struct field names case-insensitively. The `type` probe (ais/response.go:205-207) would also read a `Type` or `TYPE` key, but the model looks up `type` exactly.
- Unions.UnmarshalAis, Unions.UnmarshalCombined: when filling a variant fails part-way, Go leaves that struct partly written. The model leaves it unchanged and reports the error. The pump discards a value that failed to decode, so delivered messages are unaffected.
- The `UnmarshalJSON` methods have pointer receivers. They are modelled as functions from the old receiver value to the new value and the error. The variant a tag names is decoded starting from its old contents, as `json.Unmarshal` into an existing struct does, so fields the message omits keep their values.
- The `regexp` package. The pattern `^data:\s+(\{.*\})\s*$` is hand-written over bytes. `\s` is the RE2 class (space, tab, newline, form feed, carriage return), and `.` excludes only newline. Behaviour on invalid UTF-8 is not modelled.
- The record structs' floating-point and time fields, and their `reflect`-based `IsZero` methods. Record payloads are opaque maps, and the zero value is the empty map.
- `Response.Unmarshal`, request construction in ais/ais.go, the OAuth client in ais/client.go, and the query formatting in ais/option/option.go. These are HTTP and library wrappers. ais/ais.go is not part of this model, so neither is its `PostSSEAisContext` sending to the non-SSE URL with `Simple` framing.
- The constant-only files: ais/schemas.go, responsetype/responsetype.go, modelformat/modelformat.go and modeltype/modeltype.go. Only the variant tag names are taken from responsetype.
- Stream.StreamResponse.UnmarshalStream: the model covers one call on a fresh response, as every caller makes. A second call would read a body that is already closed; that case is not modelled.
- The `scan == nil` checks (ais/response.go:64-66, 107-109). `bufio.NewScanner` never returns nil, so these checks are dead code.
- Stream types and ship types are unbounded integers. Go's `int` width does not matter for the constants or for the ranges the switch checks.
- ShipTypes.Description: its contract is stated by the lemmas about it (see its row under "## Model"), not by an `ensures` of its own.
  - The lemmas cover the out-of-bounds partition, the reserved ranges and the verbatim quirks.
  - The remaining per-code texts are not restated one by one.
- CountryCodes.ToCountryName: the switch on the two-letter code is modelled as a match on its first and then its second character. The cases are the same, in source order within each letter.
  - Go rejects duplicate cases at compile time, and Dafny matches the first case. So the pairwise distinctness of the cases is not restated.
- Only the first country-code constant is typed `CountryCode`; the rest are untyped string constants. The model types them all as `CountryCode`, which is a string.
- `OAuthScopes` is a slice, and an option stores the caller's slice itself. Sharing through that slice is not modelled: scopes are values.
- Options are closures in Go. In the model they are a datatype of the two option kinds, applied by `Configs.Config.Apply`.
- JSON `null` in the key probes. `encoding/json` decodes `null` into a map without error. So `"properties": null` classifies as SimpleGeojson, and a top-level `null` document as SimpleJson (ais/response.go:336-358). The model does the same.
