# sdpoker's ST 2110 rule engine, in Dafny

This project models `checkST2110.js`, the rule engine of sdpoker. It checks
an SDP description (RFC 4566) against the SMPTE ST 2110 family:

- ST 2110-10 (clocks, grouping, media lines);
- ST 2110-20 (uncompressed video format parameters);
- ST 2110-21 (traffic shaping);
- ST 2110-30 (PCM audio);
- ST 2110-22 (compressed video).

The source is a set of `test_*` functions. Each returns a list of errors,
and each reads the description either as a whole text, as its lines, or as
the pieces between media markers. `section_*` functions concatenate the tests
of one standard's section. `allSections` runs the sections of one profile,
then optionally a check that the description is not a copy of a standard's
example.

The model keeps each error as a `Finding`:

- the rule that reported it;
- a `Kind` that stands for the message's meaning;
- the 1-based line it cites, if any;
- the stream it cites, if any.

Every rule is a pure function of the text, its lines and the options
(`Params`). The loops of the source are recursive functions carrying the
loop's variables. Each is related, by an all-inputs lemma, to a description
read off the lines alone: "the current stream's payload type", "has this
stream already shown an `a=rtpmap`", "is there a media line before this
one". The per-rule `...Iff` lemmas then say, both ways, when a finding is
reported.

The modules follow the source:

| module | file | covers |
|---|---|---|
| `Text`, `Regex` | text.dfy, regex.dfy | string primitives, character classes, a greedy token matcher for the regular expressions |
| `Patterns` | patterns.dfy | each regular expression of the rule file as a function returning its capture groups |
| `SdpLines`, `Tracking` | lines.dfy, tracking.dfy | `splitLines`, the stream split, and the state the line loops keep |
| `Numbers` | numbers.dfy | `greatestCommonDivisor` and the reading of numeric parameter values |
| `Findings` | findings.dfy | rules, kinds, findings, options, and the facts about selecting and counting findings |
| `Fmtp`, `FmtpWrite` | fmtp.dfy, fmtp_write.dfy | the `a=fmtp` grammar and tokenizer, and lines written from parameters |
| `Extract` | extract.dfy | `extractMTParams` |
| `Clock` | clock.dfy | ST 2110-10 sections 7.4, 8.1, 8.2 |
| `SourceGroups`, `DestinationGroups` | sources.dfy, groups.dfy | ST 2110-10 section 8.3 |
| `MediaRules` | media.dfy | media line rules, video presence, video-only and audio-only |
| `StreamScans` | scans.dfy | `checkStreamsRtpMap`, `test_20_71_4`, `test_30_62_1`, `test_30_62_3`, `test_30_62_4` |
| `RecordRules` | params.dfy | the format parameter rules of ST 2110-20, -21 and -22 |
| `CompressedRules` | compressed.dfy | the bandwidth and frame rate rules of ST 2110-22 |
| `CopyCheck` | copy.dfy | `no_copy`, `no_copy_20`, `no_copy_22` and the two example descriptions |
| `Sections` | sections.dfy | `section_*` and `allSections` |

Where the code and its comments or messages disagree, the model follows the
code:

- `test_10_82_1` looks for `a=ts-refclk` in the whole text.
- `test_10_81_2` is skipped only when `should` is off and `verbose` is on.
- `test_30_62_4`'s end-of-text error cites `lines.lengths`, which is undefined, so it cites no line.
- `test_22_53_1` reads `typesPermitted`, not `typesPermitted22`.
- `section_22_63` is defined but no profile runs it.

## Model

| member | source | states |
|---|---|---|
| SdpLines.Runs | checkST2110.js:16 | every piece is a non-empty run without line endings, and there is a piece exactly when the text holds a character that is not a line ending |
| SdpLines.SplitLines | checkST2110.js:16 | `splitLines` yields at least one line, each non-empty and free of line endings |
| SdpLines.RunsKeepText | checkST2110.js:16 | the lines hold exactly the text's characters other than line endings, in order |
| SdpLines.SplitJoinLines | checkST2110.js:16 | splitting lines joined by line feeds gives the same lines back |
| SdpLines.SplitStreamsRejoin | checkST2110.js:108 | `sdp.split(/[\r\n]m=/)` loses nothing: putting the separators back restores the text, and no piece holds a separator |
| SdpLines.SplitFromRejoin | checkST2110.js:108 | the split loop from any point: one more piece than separators, and rejoining them gives back the rest of the text |
| SdpLines.SplitFromSeparatorFree | checkST2110.js:108 | no piece of the split could have been split further |
| Tracking.LastMedia | checkST2110.js:509 | the last media line before a line, and no media line between it and that line; none at all when the result is empty |
| Tracking.PayloadOf | checkST2110.js:513-514 | the payload type a loop keeps is non-negative exactly when the media pattern of its kind matches the line |
| Tracking.CursorStep | checkST2110.js:509-517 | the payload type and stream counter a loop carries past line `x` are the ones read off the lines before `x + 1` |
| Tracking.SeenStep | checkST2110.js:509-524 | a stream's "already seen" flag is cleared by a media line and otherwise set by a marked line and kept |
| Tracking.AfterMediaStep | checkST2110.js:184-191 | the media-level flag of the reference clock rules is set by the first media line and stays set |
| Tracking.MediaCountMono | checkST2110.js:509-512 | the stream counter never goes down |
| Patterns.MediaRoundTrip | checkST2110.js:29 | a written `m=video` or `m=audio` line is matched, and its port, protocol and payload type are read back |
| Patterns.RtpmapRoundTrip | checkST2110.js:30 | a written rtpmap line gives back its payload type, encoding and clock rate, whatever `/` the encoding holds |
| Patterns.SoundRoundTrip | checkST2110.js:41 | a written audio rtpmap line gives back its payload type, encoding and sampling rate |
| Patterns.SsrcGroupRoundTrip | checkST2110.js:26 | an `a=ssrc-group:DUP` line naming two sources is read back |
| Patterns.GroupRoundTrip | checkST2110.js:27 | an `a=group:DUP` line naming two media identifiers is read back |
| Patterns.IntegerIff | checkST2110.js:36 | the integer pattern accepts exactly decimal numbers without a leading zero |
| Patterns.FrameRateWhole | checkST2110.js:37 | a whole frame rate is read back with no denominator |
| Patterns.FrameRateRational | checkST2110.js:37 | a rational frame rate is read back as its numerator and denominator |
| Patterns.ParRoundTrip | checkST2110.js:39 | a written pixel aspect ratio is read back |
| Patterns.PacketTimeAccepts | checkST2110.js:42-43 | a packet time of whole and fractional milliseconds is accepted |
| Patterns.PacketTimeRefusesTrailer | checkST2110.js:42-43 | a packet time followed by more text is refused |
| Patterns.BandwidthRoundTrip | checkST2110.js:31 | a written bandwidth line is accepted and gives back its type |
| Patterns.FrameRateAttributeAccepts | checkST2110.js:38 | a frame rate attribute of digits around a point is accepted |
| Patterns.FrameRateAttributeRefusesEmpty | checkST2110.js:38 | a frame rate attribute with nothing after its name is refused |
| Patterns.MacFound | checkST2110.js:24 | a MAC address anywhere in the text is found |
| Patterns.PtpClockDomain | checkST2110.js:23 | a PTP clock identity followed by a domain number is read back with the domain |
| Patterns.PtpClockOnly | checkST2110.js:23 | a PTP clock identity alone is read back with no domain |
| Patterns.ChannelPrefixFree | checkST2110.js:46-47 | no channel symbol is a prefix of another, so the alternation's choice is the only one |
| Patterns.SmpteOrderAccepts | checkST2110.js:46-47 | a channel order written in the SMPTE 2110 convention is accepted |
| Patterns.MediaclkTypes | checkST2110.js:20 | one media clock name per match of the pattern, each starting with `a=mediaclk` |
| Numbers.GcdPositive | checkST2110.js:728 | the helper's result for a positive argument is positive |
| Numbers.GcdDivides | checkST2110.js:728 | `greatestCommonDivisor` returns a common divisor that every common divisor divides |
| Numbers.GcdOneIff | checkST2110.js:758 | two positive numbers share no divisor but 1 exactly when the helper returns 1 |
| Numbers.DecimalRoundTrip | checkST2110.js:1293 | every written decimal with at least one digit is read back |
| Numbers.FractionPart | checkST2110.js:1325 | fraction digits add a part in [0, 1), and nothing exactly when they are all zero |
| Numbers.DecimalTests | checkST2110.js:1298-1330 | the negative, whole and below-one tests on a parsed value say what they say about the number it denotes |
| Findings.FromRuleAppend | checkST2110.js:17 | selecting findings by rule distributes over the concatenation `concat` performs |
| Findings.FromOtherRule | checkST2110.js:1660 | findings of another rule contribute nothing to a rule's selection |
| Findings.CountCitingCites | checkST2110.js:116 | some finding cites a stream exactly when the count for that stream is not zero |
| Findings.Retag | checkST2110.js:1382-1391 | re-tagging keeps every finding's kind and line and changes only the rule |
| Findings.ConcatMapAppend | checkST2110.js:17 | mapping over two lists in turn is mapping over their concatenation |
| Findings.FlattenHas | checkST2110.js:508 | of a line loop's findings, one citing line `y + 1` is there exactly when line `y` contributed it |
| Findings.FlattenLines | checkST2110.js:508 | every finding of a line loop cites a line |
| Fmtp.ElementAt | checkST2110.js:32 | a parameter is read exactly where a name character starts, and it ends after its start |
| Fmtp.FmtpOf | checkST2110.js:34 | a line is accepted exactly when the whole `a=fmtp` grammar matches from some position to the end |
| Fmtp.ParamsText | checkST2110.js:647 | there is a parameter text exactly when the line holds an `a=fmtp:<pt>` separator somewhere |
| Fmtp.FmtpHasParams | checkST2110.js:34-35 | a line the pattern accepts has a parameter text to tokenize |
| Fmtp.ParamsFromWellFormed | checkST2110.js:35 | every parameter the tokenizer produces has a non-empty name and a value without spaces or `;` |
| Fmtp.ParamMap | checkST2110.js:666-669 | the record maps exactly the names of the tokens |
| Fmtp.ParamMapLast | checkST2110.js:666-669 | a repeated name keeps the value of its last occurrence |
| FmtpWrite.ParamsRoundTrip | checkST2110.js:35 | well-formed parameters, written out, tokenize back into themselves |
| FmtpWrite.ElementsRoundTrip | checkST2110.js:32-34 | well-formed parameters, written out, are accepted by the parameter grammar |
| FmtpWrite.FmtpRoundTrip | checkST2110.js:34-35 | an `a=fmtp` line written from a payload type and parameters is accepted, gives back its payload type, and its parameter text tokenizes into the parameters |
| FmtpWrite.JoinParamsRead | checkST2110.js:35 | the parameter text alone tokenizes into the parameters it was written from |
| Extract.ExtractFromEntries | checkST2110.js:627-675 | the extractor loop yields exactly the line-by-line contributions, given a state that agrees with the lines |
| Extract.ExtractMTParamsEntries | checkST2110.js:620-677 | `extractMTParams` is the line-by-line contributions from the first line |
| Extract.MalformedIff | checkST2110.js:642-646 | a line is reported as malformed exactly when it is an examined `a=fmtp` line the pattern refuses, and the error list is in line order with no line twice, so each refused line is reported once |
| Extract.RecordsIff | checkST2110.js:642-674 | records come in line order, and there is one for a line exactly when it is an examined `a=fmtp` line the pattern accepts |
| Extract.WrittenEntry | checkST2110.js:647-673 | an examined line written from parameters yields one record with no error, carrying those parameters, its line and its stream |
| Clock.OffsetFindings | checkST2110.js:113-118 | one finding per non-zero offset and none for a zero one, each citing the stream |
| Clock.ZeroOffsetStream | checkST2110.js:110-119 | a stream's offsets are checked only when it names a PTP clock after its first character |
| Clock.ZeroOffsetChunks | checkST2110.js:109-120 | each stream contributes as many findings as it has non-zero direct offsets when it uses PTP, and none otherwise |
| Clock.ZeroOffsetTest | checkST2110.js:106-125 | every finding of `test_10_74_1` is its own |
| Clock.ZeroOffsetIff | checkST2110.js:106-125 | a stream is cited exactly when it names a PTP clock and one of its direct offsets is not zero |
| Clock.ZeroOffsetCount | checkST2110.js:106-125 | a stream is cited once per non-zero direct offset when it uses PTP, and never otherwise |
| Clock.MediaclkTest | checkST2110.js:128-141 | every finding is tagged `test_10_81_1` as a missing media clock citing no line, and there are at most as many as streams; which streams is `MediaclkIff`, and each is cited once (`MediaclkCount`) |
| Clock.MediaclkFrom | checkST2110.js:131-135 | at most as many findings as streams left, each a missing media clock citing no line |
| Clock.MediaclkIff | checkST2110.js:128-141 | stream `n` (1-based) is cited exactly when it has no `a=mediaclk` line |
| Clock.MediaclkCount | checkST2110.js:131-135 | a stream without an `a=mediaclk` line is cited exactly once, any other stream never |
| Clock.NotDirect | checkST2110.js:149-156 | every media clock type that is not `direct` is reported with its text, and only those |
| Clock.NotDirectCount | checkST2110.js:150-155 | each type that is not `direct` is reported exactly as many times as it occurs among the matches |
| Clock.DirectTest | checkST2110.js:144-163 | skipped only with `should` off and `verbose` on; otherwise reports every media clock type that is not `direct`, once per occurrence in the text, and every reported type is one the text names and is not `direct` |
| Clock.RefclkTest | checkST2110.js:166-178 | tagged `test_10_82_1`, missing reference clocks citing no line: none when `a=ts-refclk` occurs anywhere in the text, one per stream otherwise (`RefclkAllOrNothing`) |
| Clock.RefclkFrom | checkST2110.js:169-173 | every finding is a missing reference clock citing no line |
| Clock.RefclkAllOrNothing | checkST2110.js:166-178 | with no `a=ts-refclk` anywhere in the text, every stream is cited once; otherwise none is |
| Clock.ScanFromLines | checkST2110.js:184-191 | the loop's media-level flag is "some media line came before" |
| Clock.MediaLevelAt | checkST2110.js:186-198 | a line is cited exactly when a media line precedes it and the check fails on it, with the check's kind |
| Clock.MediaLevelIff | checkST2110.js:185-199 | the loop cites exactly the lines after the first media line that fail the check |
| Clock.MediaLevelTestIff | checkST2110.js:181-276 | the three media-level reference clock rules cite exactly the failing lines after the first media line |
| Clock.PtpDomainChecked | checkST2110.js:233-238 | a PTP clock with a domain number is accepted exactly when the domain is at most 127 |
| Clock.PtpDomainRequired | checkST2110.js:239-242 | a PTP clock identity without a domain number is refused |
| Clock.PtpTraceableAccepted | checkST2110.js:225-243 | the `IEEE1588-2008:traceable` form is accepted |
| Clock.PtpBareTraceable | checkST2110.js:219-224 | `traceable` without the PTP version is reported as the deprecated form |
| Clock.PtpDetailsOf | checkST2110.js:225-242 | how an `IEEE1588-2008` reference is judged: no match, traceable, no domain, or a domain above 127 |
| Clock.MacAccepted | checkST2110.js:263-267 | a local MAC clock that names a MAC address is accepted |
| Clock.MediaLevelRule | checkST2110.js:181-276 | every finding of a media-level rule is tagged with that rule |
| SourceGroups.DuplicationTest | checkST2110.js:277-290 | with `duplicate` set, one finding exactly when the text shows no duplication group; nothing otherwise |
| SourceGroups.SourceGroupSatisfies | checkST2110.js:25 | a media line followed later by `a=ssrc-group:DUP` satisfies the rule |
| SourceGroups.SessionGroupSatisfies | checkST2110.js:25 | an `a=group:DUP` followed later by a media line satisfies the rule |
| SourceGroups.SsrcEntry | checkST2110.js:306-312 | a line adds an identifier exactly when it is an `a=ssrc:` line with a numeric identifier |
| SourceGroups.SsrcListIn | checkST2110.js:301-313 | an identifier is in a stream's list exactly when some line of that stream declares it |
| SourceGroups.CollectFromLists | checkST2110.js:301-313 | the first loop builds one list per stream and reports exactly the `a=ssrc:` lines without a numeric identifier |
| SourceGroups.GroupCheckAt | checkST2110.js:316-333 | what a line adds in the second loop cites that line under `test_10_83_2` |
| SourceGroups.UnknownAt | checkST2110.js:320-332 | a group line cites each named identifier its stream's list lacks |
| SourceGroups.SourceGroupTest | checkST2110.js:293-341 | the rule reports nothing when the text has no `a=ssrc-group` |
| SourceGroups.UnknownSsrcIff | checkST2110.js:293-341 | an identifier is cited on a group line of stream `k` exactly when that line names it and no `a=ssrc:` line of stream `k`, before or after, declares it |
| DestinationGroups.MidsFrom | checkST2110.js:353-369 | the first loop reports only a repeated identifier or a stream's second identifier, each under `test_10_83_3` and citing a line from `x + 1` on |
| DestinationGroups.MidsDistinct | checkST2110.js:353-369 | the first loop never records an identifier twice |
| DestinationGroups.MidsNamed | checkST2110.js:353-369 | every recorded identifier was named by an `a=mid:` line |
| DestinationGroups.MidsAccounted | checkST2110.js:353-369 | every `a=mid:` line's identifier is recorded, unless that line is cited for naming a second identifier of its stream |
| DestinationGroups.GroupLineCheck | checkST2110.js:378-391 | the checks of one session-level `a=group` line cite that line |
| DestinationGroups.SessionFromChunks | checkST2110.js:370-391 | the second loop's findings are the line-by-line ones |
| DestinationGroups.DestinationGroupTest | checkST2110.js:343-399 | the rule reports nothing when the text has no `a=group` |
| DestinationGroups.UnknownMidIff | checkST2110.js:343-399 | an identifier is cited on a line exactly when it is a session-level `a=group:DUP` line naming it and no `a=mid:` line recorded it in `mids`; a session-level `a=mid:` before the first `m=` is recorded, a stream's second `a=mid:` is not |
| DestinationGroups.NoSessionGroupIff | checkST2110.js:370-377 | the first media line is cited exactly when no accepted session-level `a=group` line came before it |
| DestinationGroups.DestinationGroupRule | checkST2110.js:343-399 | every finding of the rule is tagged `test_10_83_3` |
| MediaRules.FieldChecks | checkST2110.js:437-450 | a matched media line is reported for a port above 65535, for SRTP, and for a payload type outside 96-127, each exactly then |
| MediaRules.MediaLineChecks | checkST2110.js:428-451 | nothing for a line that is not a media line of its kind, a pattern error for a refused one, otherwise the field checks |
| MediaRules.WrittenMediaLinePasses | checkST2110.js:428-451 | a media line written with a valid port, plain RTP and a dynamic payload type passes every check |
| MediaRules.MediaScanHas | checkST2110.js:428-451 | a finding citing a line is reported exactly when that line's checks report it |
| MediaRules.VideoTest | checkST2110.js:422-461 | the no-video error is reported exactly when no line describes video |
| MediaRules.Video22Test | checkST2110.js:1382-1391 | `test_22_71_1` returns `test_10_62_1`'s findings, one for one, under its own name |
| MediaRules.VideoPortIff | checkST2110.js:437-441 | a bad port is reported on a line exactly when it is a matched video line with a port above 65535 |
| MediaRules.VideoPayloadIff | checkST2110.js:446-450 | a payload type is reported exactly when it lies outside 96-127 |
| MediaRules.AudioPatternIff | checkST2110.js:1089-1096 | an audio media line is refused exactly when the audio pattern does not match it |
| MediaRules.VideoOnlyTest | checkST2110.js:402-419 | empty without `videoOnly`; otherwise only `test_20_71_1` not-video findings, each citing a stream and no line; which streams, each once, is `VideoOnlyIff` |
| MediaRules.AudioOnlyTest | checkST2110.js:1220-1238 | empty without `audioOnly`; otherwise only `test_30_62_5` not-audio findings, each citing a stream and no line; which streams, each once, is `AudioOnlyIff` |
| MediaRules.OnlyIff | checkST2110.js:406-410 | stream `n` is cited exactly when its text does not start with the kind |
| MediaRules.OnlyCount | checkST2110.js:406-410 | such a stream is cited exactly once, any other stream never |
| MediaRules.VideoOnlyIff | checkST2110.js:402-419 | with `videoOnly`, stream `n` is cited exactly when it is not video, and then exactly once |
| MediaRules.AudioOnlyIff | checkST2110.js:1220-1238 | with `audioOnly`, stream `n` is cited exactly when it is not audio, and then exactly once |
| MediaRules.VideoRule | checkST2110.js:422-499 | every finding of a media rule is tagged with that rule |
| StreamScans.MissingCheck | checkST2110.js:510-512 | the presence error is reported exactly when the scan checks presence, the stream has a payload type, and the flag is not set |
| StreamScans.RtpmapChecks | checkST2110.js:519-541 | duplicate, pattern, payload type, encoding and clock rate errors, each reported exactly when its condition holds, and skipped encodings exempt from the last two |
| StreamScans.FmtpChecks | checkST2110.js:593-607 | duplicate, pattern and payload type errors of a video `a=fmtp` line, each exactly when its condition holds |
| StreamScans.SoundValueChecks | checkST2110.js:1046-1072 | duplicate, payload type, sampling rate, L16 at 96 kHz and L24 at 44.1 kHz, each reported exactly when its condition holds |
| StreamScans.SoundChecks | checkST2110.js:1040-1072 | a refused audio rtpmap line is reported alone; an accepted one gets the value checks |
| StreamScans.PtimeChecks | checkST2110.js:1137-1154 | ptime pattern and duplicate errors in a stream with a payload type; `a=maxptime` checked everywhere |
| StreamScans.ChannelChecks | checkST2110.js:1184-1207 | an `a=fmtp` line without a channel order is reported only when channel order is required; one with an order gets the order checks |
| StreamScans.OrderChecks | checkST2110.js:1193-1206 | duplicate, payload type, convention (with `should`) and grammar errors, each exactly when its condition holds |
| StreamScans.LineChecksNoPayload | checkST2110.js:519 | outside a stream with a payload type the flag is never read |
| StreamScans.ScanFromChunks | checkST2110.js:508-546 | the loop computes the line-by-line contributions, then the check after the last line |
| StreamScans.ScanHas | checkST2110.js:508-546 | a finding citing a line comes from that line or from the check after the last line |
| StreamScans.MissingAtMediaIff | checkST2110.js:509-512 | a media line reports the stream it closes exactly when that stream matched and lacks the attribute |
| StreamScans.MissingAtEnd | checkST2110.js:544-546 | after the last line, the last stream is reported exactly when it lacks the attribute, citing the number of lines (no line for the channel order rule) |
| StreamScans.ScanLineHas | checkST2110.js:519-541 | any other finding citing a line is what that line's checks report, in the state the lines define |
| StreamScans.DuplicateRtpmapIff | checkST2110.js:520-524 | a second `a=rtpmap` in a stream with a payload type is reported at that line, and only then |
| StreamScans.WrongEncodingIff | checkST2110.js:533-537 | the first `a=rtpmap` of a stream is reported for the wrong encoding exactly when it names neither a skipped encoding nor the expected one |
| StreamScans.WrongClockRateIff | checkST2110.js:533-540 | the same for the clock rate |
| StreamScans.FmtpPayloadIff | checkST2110.js:604-606 | the first `a=fmtp` of a video stream is reported exactly when it names another payload type |
| StreamScans.BadSampleRateIff | checkST2110.js:1053-1055 | an accepted audio rtpmap line is reported exactly when its rate is not 44.1, 48 or 96 kHz |
| StreamScans.L16At96kIff | checkST2110.js:1056-1063 | 16-bit audio at 96 kHz is reported, and nothing else under that kind |
| StreamScans.MaxptimeIff | checkST2110.js:1150-1154 | an `a=maxptime` line is checked in every stream, matched or not |
| StreamScans.DuplicatePtimeIff | checkST2110.js:1143-1146 | a second accepted `a=ptime` in a stream with a payload type is reported |
| StreamScans.FmtpWithoutOrderIff | checkST2110.js:1186-1191 | an `a=fmtp` line without a channel order is reported exactly when channel order is required |
| StreamScans.ChannelOrderPatternIff | checkST2110.js:1204-1206 | a channel order starting `SMPTE2110` that breaks the convention's grammar is reported |
| StreamScans.ScanTestRule | checkST2110.js:502-1217 | every finding of a scan is tagged with its rule |
| RecordRules.MissingChecks | checkST2110.js:685-693 | at most as many findings as listed names, each citing the record and naming a listed parameter the record lacks; how often each name is reported is `MissingCount` |
| RecordRules.DimensionCheck | checkST2110.js:707-718 | a non-integer dimension is reported exactly when the integer pattern refuses it; a range error only for an integer |
| RecordRules.DimensionChecks | checkST2110.js:706-719 | both dimensions are checked, and only when both are present |
| RecordRules.RationalChecks | checkST2110.js:747-760 | only the integer-as-rational, slow and not-reduced findings |
| RecordRules.FrameRateChecks | checkST2110.js:734-761 | a pattern error exactly when the frame rate pattern refuses the value; a whole rate needs nothing more |
| RecordRules.ParChecks | checkST2110.js:891-901 | at most one finding; a pattern error exactly when the ratio pattern refuses the value |
| RecordRules.RangeChecks | checkST2110.js:849-860 | BT.2100 colorimetry admits two ranges, any other three; silent exactly when the range is admitted |
| RecordRules.OneOfChecks | checkST2110.js:773-787 | a present value outside the permitted list is reported, exactly then |
| RecordRules.SegmentedChecks | checkST2110.js:827-835 | `segmented` with a value, and `segmented` without `interlace`, each reported exactly then |
| RecordRules.RangeAdviceChecks | checkST2110.js:983-987 | BT.2100 colorimetry without `RANGE` is reported, exactly then |
| RecordRules.TroffChecks | checkST2110.js:1292-1300 | not a number, or negative, each reported exactly then |
| RecordRules.CmaxChecks | checkST2110.js:1319-1330 | not a number, not whole, below one, each reported exactly then |
| RecordRules.ForRecords | checkST2110.js:685 | the loop over the records reports under the rule and cites a stream |
| RecordRules.ForRecordsAppend | checkST2110.js:685 | the loop over the records distributes over their concatenation |
| RecordRules.MalformedFindings | checkST2110.js:684 | the extractor's errors, passed on one for one, cite their line and no stream |
| RecordRules.ForEntries | checkST2110.js:685-696 | the loop over the records is the line-by-line concatenation of what each line's record gives |
| RecordRules.RecordTestHas | checkST2110.js:684-697 | a finding about a stream citing a line is reported exactly when that line is an accepted `a=fmtp` line whose record the checks report it of |
| RecordRules.MalformedIffRule | checkST2110.js:684 | every record rule passes on the malformed-line error for exactly the examined `a=fmtp` lines the pattern refuses, and reports each such error at most once |
| RecordRules.MissingIff | checkST2110.js:687-692 | a required name is reported exactly when it is listed and the record lacks it |
| RecordRules.MissingCount | checkST2110.js:687-692 | a name the record lacks is reported as many times as it is listed, a name it has never |
| RecordRules.MissingOnce | checkST2110.js:687-692 | with each name listed once, a missing name is reported exactly once and a present one never |
| RecordRules.RequiredListsDistinct | checkST2110.js:679 | both lists of required names name each parameter once |
| RecordRules.MissingAdd | checkST2110.js:687-692 | adding a required parameter to a record removes its report and no other |
| RecordRules.DimensionMeaning | checkST2110.js:710 | a dimension is out of range exactly when it is an integer above 32767; the lower bound never fires |
| RecordRules.DimensionsAccepted | checkST2110.js:706-719 | a record with both dimensions passes exactly when both are integers from 1 to 32767 |
| RecordRules.FrameRateWholeAccepted | checkST2110.js:744-746 | a whole frame rate passes |
| RecordRules.FrameRateMeaning | checkST2110.js:752-760 | on a written `n/d`, the findings mean "a whole rate", "below one frame a second" and "not in smallest terms" |
| RecordRules.FrameRateNtsc | checkST2110.js:747-760 | 60000/1001 passes |
| RecordRules.FrameRateWholeFraction | checkST2110.js:752-754 | 5/1 is reported as a whole rate written as a fraction |
| RecordRules.FrameRateNotReduced | checkST2110.js:752-760 | 30/15 is reported as whole and as not in smallest terms |
| RecordRules.ParMeaning | checkST2110.js:897-900 | on a written `w:h`, only a ratio not in smallest terms is reported |
| RecordRules.TroffMeaning | checkST2110.js:1293-1300 | the TROFF findings on a number say whether it is negative |
| RecordRules.CmaxMeaning | checkST2110.js:1320-1330 | the CMAX findings on a number say whether it is whole and whether it is below 1 |
| RecordRules.RuleCites | checkST2110.js:1241-1411 | a finding about a stream is reported exactly when the rule runs, the line is an accepted examined `a=fmtp` line, and the checks report it of that line's record |
| RecordRules.RequiredAtLine | checkST2110.js:683-698 | a name of `mustHaves20` is reported missing at a line exactly when that line yields a record that lacks it |
| RecordRules.RuleTestRule | checkST2110.js:683-1411 | every finding of a record rule is tagged with that rule |
| CompressedRules.LineChecks | checkST2110.js:1420-1432 | a line is reported as malformed exactly when it is examined and its pattern refuses it; unexamined lines add nothing |
| CompressedRules.ScanMeaning | checkST2110.js:1419-1433 | the loop's findings are the line-by-line ones, and its flag ends set exactly when some line set it |
| CompressedRules.BandwidthPatternIff | checkST2110.js:1420-1425 | a `b=` line is reported as malformed exactly when the bandwidth pattern refuses it |
| CompressedRules.BandwidthTypeIff | checkST2110.js:1427-1428 | a `b=` line is reported for its type exactly when it matches with a type other than `AS` |
| CompressedRules.MissingBandwidthIff | checkST2110.js:1431-1436 | the bandwidth is reported missing exactly when no `b=` line matches the pattern |
| CompressedRules.BandwidthTest | checkST2110.js:1414-1442 | every finding is tagged `test_22_73_1`; what it reports is `BandwidthPatternIff`, `BandwidthTypeIff` and `MissingBandwidthIff` |
| CompressedRules.BandwidthWritten | checkST2110.js:1414-1442 | a written `b=AS:<digits>` line satisfies the rule |
| CompressedRules.FrameRateTest | checkST2110.js:1446-1490 | every finding is tagged `test_22_74_1`; what it reports is `SingleVideoIff`, `FrameRateAttributeIff` and `FrameRateWays` |
| CompressedRules.FrameRateWays | checkST2110.js:1454-1483 | missing when neither way gives the frame rate, doubled when both do, silent exactly when one way alone does |
| CompressedRules.SingleVideoIff | checkST2110.js:1453-1460 | the text is reported exactly when the extractor finds other than one record |
| CompressedRules.FrameRateAttributeIff | checkST2110.js:1462-1470 | an `a=framerate` line is reported exactly when the attribute pattern refuses it |
| CopyCheck.MatchFromIff | checkST2110.js:1609-1614 | the loop ends with `matching` set exactly when every compared pair of lines matches |
| CopyCheck.NoCopy | checkST2110.js:1604-1618 | one finding citing nothing exactly when every compared pair of lines matches, none otherwise |
| CopyCheck.NoCopyTest20 | checkST2110.js:1622-1624 | `no_copy_20` reports at most the one copy finding |
| CopyCheck.NoCopyTest22 | checkST2110.js:1627-1629 | `no_copy_22` reports at most the one copy finding |
| CopyCheck.Example20Lines | checkST2110.js:51-73 | the ST 2110-20 example's text splits into its lines |
| CopyCheck.Example20Plain | checkST2110.js:51-73 | every line of the ST 2110-20 example is made of single-spaced words, without a trailing space |
| CopyCheck.PlainText | checkST2110.js:1610 | collapsing white space leaves such a line as it is |
| CopyCheck.CopyFlagged20 | checkST2110.js:1604-1624 | any description made of the first `k` lines of the ST 2110-20 example, the whole example included, is reported as a copy |
| CopyCheck.SpecExample20Flagged | checkST2110.js:1622-1624 | the ST 2110-20 example itself is reported as a copy |
| Sections.CheckOfRule | checkST2110.js:683-1411 | the record rule behind a test reports under that test's name |
| Sections.ScanOfRule | checkST2110.js:502-1217 | the scan behind a test reports under that test's name |
| Sections.RunTest | checkST2110.js:106-1492 | every finding of a test is tagged with that test |
| Sections.TestsInSection | checkST2110.js:1494-1600 | every section lists its tests once each, and only tests its name places in it |
| Sections.TestsOfSection | checkST2110.js:1494-1600 | a section lists a test exactly when the test's name places it there |
| Sections.RunAllAppend | checkST2110.js:1660 | running two lists of tests runs their concatenation |
| Sections.SectionsInOrder | checkST2110.js:1660 | running sections in turn runs all their tests in section order and `tests` order |
| Sections.RunAllFromRule | checkST2110.js:1494-1600 | of distinct tests run in turn, test `t` contributes its own findings whole, and only if listed |
| Sections.SectionFromRule | checkST2110.js:1494-1600 | a section reports, under `t`, exactly test `t`'s findings when it lists `t`, and nothing otherwise |
| Sections.SectionsFromRule | checkST2110.js:1660 | distinct sections in turn report, under `t`, exactly test `t`'s findings when its section is among them |
| Sections.ProfileDistinct | checkST2110.js:1638-1651 | neither profile lists a section twice |
| Sections.ProfileSections | checkST2110.js:1637-1651 | a profile runs every section but those only the other profile runs |
| Sections.CopyRuleUnlisted | checkST2110.js:1642-1655 | the copy checks belong to no section |
| Sections.CopyTest | checkST2110.js:1642-1655 | the copy check the profile appends reports under its own rule |
| Sections.Tester | checkST2110.js:1660 | every test sees the same description and options, and tags its findings |
| Sections.ReportFromRule | checkST2110.js:1632-1661 | rule by rule, the report holds each profile test's findings whole, the copy check's when it ran, and nothing else |
| Sections.ReportRules | checkST2110.js:1632-1661 | every finding comes from a test of the profile or from the copy check the options ask for |
| Sections.ReportIsolated | checkST2110.js:1632-1661 | one profile's report holds nothing of a rule only the other profile runs |
| Sections.AllSectionsInOrder | checkST2110.js:1632-1661 | `allSections` is the profile's tests, section by section and test by test, then the copy check with `noCopy` |
| Sections.AllSectionsFromRule | checkST2110.js:1632-1661 | rule by rule, `allSections` reports each profile test's findings whole, the copy check's exactly when `noCopy` is set, and nothing of any other rule |
| Sections.AllSectionsIsolated | checkST2110.js:1637-1655 | with `smpte2110_22`, nothing from ST 2110-20, -30, -21, 10_62_1 or `no_copy_20`; without it, nothing from ST 2110-22 or `no_copy_22` |

## Left out

- Console output: every `console.log` notice (test passed, test skipped) is left out. This includes the unconditional "TODO" notice of `test_22_74_1` (checkST2110.js:1484-1487). It changes nothing that a rule returns.
- Messages: each `Error` message becomes a `Kind` with the data that varies, plus the cited line and stream. The wording, and wording slips such as "negatibe" and "strean", are not kept.
- sdpoker.js (file reading, the command line, the network fetch of a description) is not part of this model. The options arrive as a `Params` value of booleans.
- `section_22_63` (checkST2110.js:1577-1580) is defined but appears in neither profile list of `allSections`, so nothing runs it.
- `typesPermitted22` (checkST2110.js:1343) is never read by the source, so it is not modelled.
- The duplicate-parameter check of `extractMTParams` (checkST2110.js:654-665) never runs. `test_20_72_1` passes `checkDups` (684), but inside the loop `params` names the parameter text (647), whose `checkDups` is undefined.
- Record keys: the source folds parameters into a plain object that also carries `_line`, `_payloadType` and `_streamNumber`. A parameter with one of those names, or `__proto__`, would collide; the model keeps parameters in a map of their own.
- Doubles: the model reads numbers as exact integers and exact decimals, not as IEEE doubles. Values beyond 2^53, rounding, and `Infinity` are not modelled.
- Numbers.DecimalOf: reads a value only as a plain decimal of digits, an optional sign and an optional point. JavaScript's `+` also accepts exponents, `0x`/`0o`/`0b` literals, `Infinity` and surrounding white space.
- RecordRules.TroffChecks: a value such as `0x10` is reported as not a number, although JavaScript reads it as 16 and reports nothing.
- RecordRules.CmaxChecks: `1e1` is reported as not a number, although JavaScript reads it as 10. `1.00000000000000000001` is reported as not whole, although the double it becomes is 1.
- CompressedRules.LineChecks: the bandwidth value is read as an exact integer, so the model's integer test never fires. JavaScript's `+` turns a value of more than about 309 digits into `Infinity`, for which the test at checkST2110.js:1429 does fire.
- CompressedRules.BandwidthTest: the same `Infinity` case is not reported.
- RecordRules.RationalChecks: compares exact integers. For doubles above 2^53 the source can differ: `exactframerate=9007199254740993/2` is reported as an integer rate by JavaScript and not by the model.
- RecordRules.ParChecks: the same exact reading of `w:h` above 2^53.
- SourceGroups.SsrcEntry: reads source identifiers as exact integers; the source compares doubles, which merge identifiers above 2^53.
- RecordRules.FrameRateChecks: the numerator's `isNaN` test (checkST2110.js:741) is not modelled, as the pattern admits digits only and `+` of a digit run is never `NaN`.
- SdpLines.SplitLines: requires a text with at least one character that is not a line ending. The source's `splitLines` returns `null` for any other text, and every caller then throws.
- Sections.RunTest: requires the same. A description without a line makes each line-based test throw, and an exception is not modelled.
- Sections.AllSections: requires the same, and with `noCopy` also that the trimmed text has a line, since `no_copy` throws otherwise.
- CopyCheck.NoCopy: requires both texts to have a line, for the same reason.
- Line numbers past the end: `test_30_62_4`'s end-of-text error reads `lines.lengths`, which is `undefined`; the model cites no line (`None`).
- Exceptions in general: any path where the source throws is a precondition, not a result.
- CopyCheck.NoCopyTest22: the ST 2110-22 example is stated as text, and only that it has a line is proved. A lemma that it, too, is reported as a copy is not given.
- Sections.RunTest: that a test's findings do not depend on the `noCopy` option is not stated as a lemma.
