# Autoplant `ap kara` command: a Dafny model

This project models the command handler in `commands/ap-kara.js` of the
Autoplant WhatsApp automation bot. The handler reads a free-text dispatch
message (vehicle number, SO number, phone number, weight, destination,
product). It reads the `ap kara` reply that quotes it (driver name and
licence, and optionally corrections). It builds one dispatch record,
uppercases it and checks the six required fields. It then either answers
with the missing fields or queues the record for the data-entry service.
The queue is drained one request at a time. The store of message contexts
lets the service's later replies quote the command.

Modules, one per concern of the source:

- `Options`, `Text` (text.dfy): JavaScript's string primitives as the
  handler uses them.
  - `trim` and `\s` use JavaScript's white-space and line-terminator set.
  - Also covered: `split('\n')`, `join('\n')`, `indexOf`, `includes`,
    `replace` with a string pattern, ASCII case mapping, and `${n}`.
- `Patterns` (patterns.dfy): every regular expression of `dataPatterns`,
  and the handler's other regular expressions.
  - Each is an explicit scanner with JavaScript semantics: `\b` between `\w`
    and non-`\w`, greedy repetition, the leftmost match, and `g` matching
    that resumes after each match.
  - Soundness and completeness lemmas tie the vehicle scanner to the
    textual shape of the pattern.
- `Catalog` (catalog.dfy): `PRODUCT_MAPPINGS` as data. It has a small
  backtracking matcher for the patterns and the first-match-wins search.
- `Records` (records.dfy): the dispatch record, one optional string per
  property, with JavaScript truthiness.
- `Extraction` (extraction.dfy): `extractDataFromMessage`,
  `extractDataByLines` and the merge in the handler.
  - Each is a specification function plus a method with the source's loops.
  - Lemmas show first-wins behaviour and which fields each strategy can
    fill.
- `Product` (product.dfy): `extractProductInfo`, which finds the product
  line and then the first catalog mapping that matches it.
- `Driver` (driver.dfy): `extractDriverInfo`.
- `Validation` (validation.dfy): `convertDataToUppercase`,
  `validateRequiredFields`, `formatFieldName` and the missing-fields reply.
- `Dispatch` (dispatch.dfy): the queue.
  - It is a class with the fields of `requestQueue`, `isProcessing` and
    `queueStatus`.
  - Methods: `addToQueue`, `processQueue`, `getQueueStatus` and the
    clear-queue route.
- `Contexts` (contexts.dfy): `messageContexts`.
  - It is a class holding a map.
  - Methods: the writes, the 24-hour sweep and the clear-context route.
- `Command` (command.dfy): `handleApKaraCommand` after the group checks.

How the command is specified:

- The pure part of the handler becomes `Command.Decide`, a decision. It is
  stated over a `Readings` value: what the extractors report about the
  message.
- `Command.ReadCommand` runs the extractors, as the handler does. It is
  proved to return `Decide` applied to `ReadingsOf`, the real readings.
- The lemmas about `Decide` therefore hold for any readings. In particular
  they hold for the real ones.
- `Driver.DriverInfoOf(text)` is `DriverInfoOfLines(NonEmptyTrimmedLines(text))`.
  Lemmas about the driver line are stated over those lines.

Behaviour modelled as the code has it:

- The licence is the leftmost `\b\d{4}\b` of the driver line. The name and
  the text after it are cut at `indexOf` of those four digits: their first
  occurrence, which can lie inside an earlier, longer number.
  `Driver.EarlierOccurrenceExample` exhibits one such line.
- In `extractDataByLines`, the second weight block tests `!result.weight`
  after the first block has already filled the weight of any line that has
  one. That block therefore never fires, and the per-line strategy never
  yields a destination. `Extraction.LineStepEffect` and
  `Extraction.ByLinesFoldFirstWins` prove this.
- `undefined` reads as `null`. Every reader in the handler treats the two
  alike (`!x`, `|| null`, `!== null && !== undefined`).
- `sendToPython` catches the errors of the service call itself (lines
  677-735): it answers the chat with its own error reply and returns
  normally. Such a request therefore counts as processed, sets the
  completion time and is followed by the pacing delay (line 71), exactly
  like a successful one; the model's `Returned` outcome covers both. Only
  a call that throws past that handler (its own error reply failing to
  send, say) is the `Threw` outcome. It skips the counters and the delay,
  and with the socket up and a chat id it gets the `Processing Failed`
  reply of lines 78-81. Timing itself is not modelled.
- That `Processing Failed` reply is awaited with no `try` of its own. When
  its send throws, the exception leaves the loop: line 86 never runs, the
  flag stays set and the remaining requests stay queued, so every later
  `processQueue` returns at line 43 until the clear-queue route (line 903).
  `Dispatch.RequestQueue.ProcessQueueAsWritten` models this (its
  `delivered` parameter says which replies can be sent) and
  `Dispatch.StalledDrainExample` exhibits it; see "## Findings". The rest
  of the model uses `Dispatch.RequestQueue.ProcessQueue`, the drain as
  intended, which does not stop.
- The handler awaits the `Processing - Queue #` reply (lines 1131-1133)
  before it starts the drain (line 1138). When that send throws, the
  handler's `catch` (lines 1145-1150) takes over, no drain starts, and the
  request waits in the queue for the next drain. `Command.Respond` and
  `Command.HandleApKaraCommand` take this as their `announced`
  parameter.

## Model

| member | source | states |
|---|---|---|
| Text.TrimStart | commands/ap-kara.js:304 | the result is a suffix of the input; everything dropped is white space; the result does not start with white space |
| Text.TrimEnd | commands/ap-kara.js:304 | the result is a prefix of the input; everything dropped is white space; the result does not end with white space |
| Text.Trim | commands/ap-kara.js:304 | the result is empty exactly when the input is all white space; otherwise it starts and ends with a non-space character; it is never longer than the input |
| Text.TrimSurrounded | commands/ap-kara.js:304 | the trimmed text stands in the input with only white space before and after it |
| Text.TrimOf | commands/ap-kara.js:304 | conversely, white space, a text with no white space at either end, then white space, trims to that text |
| Text.SplitLines | commands/ap-kara.js:300 | `split('\n')` yields at least one piece, and no piece contains a newline |
| Text.JoinSplitLines | commands/ap-kara.js:1098-1101 | joining the pieces of `split('\n')` with newlines gives back the text |
| Text.TrimmedLines | commands/ap-kara.js:417 | the trimmed, filtered lines are all non-empty and no more than the lines |
| Text.TrimmedLinesAppend | commands/ap-kara.js:417 | trimming and filtering two lists of lines in turn is trimming and filtering their concatenation |
| Text.TrimmedLinesOne | commands/ap-kara.js:417 | one line is dropped when blank and otherwise kept trimmed |
| Text.NonEmptyTrimmedLines | commands/ap-kara.js:491 | the reply's trimmed, filtered lines are all non-empty |
| Text.SplitLinesAppend | commands/ap-kara.js:491 | splitting two texts joined by a newline gives the pieces of the first, then those of the second |
| Text.SplitLinesOne | commands/ap-kara.js:491 | a text without a newline splits into itself |
| Text.NonEmptyTrimmedLinesAppend | commands/ap-kara.js:491 | the lines of two texts joined by a newline are those of the first, then those of the second |
| Text.NonEmptyTrimmedLinesOne | commands/ap-kara.js:491 | a text without a newline gives its trimmed self, or no line when it is blank |
| Text.IndexOfFrom | commands/ap-kara.js:517 | the result is an occurrence at or after the start with no earlier one, or there is none |
| Text.IndexOf | commands/ap-kara.js:517 | `indexOf` is found exactly when the pattern occurs, and it is the first occurrence |
| Text.RemoveFirst | commands/ap-kara.js:404 | `replace` with a string removes exactly the first occurrence and leaves the text alone when there is none |
| Text.ToUpper | commands/ap-kara.js:161 | the length is kept, no ASCII lowercase letter remains, and every character has the lowercase form of the input's character at that place |
| Text.ToLower | commands/ap-kara.js:1036 | the length is kept, no ASCII uppercase letter remains, and every character has the uppercase form of the input's character at that place |
| Text.NatToString | commands/ap-kara.js:1133 | the queue position is written as a non-empty string of digits |
| Text.NatToStringValue | commands/ap-kara.js:1133 | reading the digits back gives the number, so different positions read differently |
| Patterns.RunEnd | commands/ap-kara.js:197 | a greedy run of one character kind ends at the first character not of that kind |
| Patterns.RunEndIs | commands/ap-kara.js:197 | any span of one kind followed by a character not of that kind is the greedy run |
| Patterns.VehicleEndAt | commands/ap-kara.js:197 | a vehicle match at a position is at least six characters and lies between word boundaries |
| Patterns.VehicleEndAtSound | commands/ap-kara.js:197 | the scanner's match has the shape of two letters, 1-2 digits, 1-2 letters and 3-4 digits |
| Patterns.VehicleEndAtComplete | commands/ap-kara.js:197 | every bounded span of that shape is the match the scanner finds there |
| Patterns.VehicleFrom | commands/ap-kara.js:197 | the match found is the leftmost one, and none is found exactly when no position matches |
| Patterns.VehicleText | commands/ap-kara.js:367-370 | `match(vehicleNumber)[0]` is the text the scanner matches at the leftmost position where it matches, at least six characters; none exactly when no position matches |
| Patterns.NoTokenInsideToken | commands/ap-kara.js:373 | no `\b\d{n}\b` token starts strictly inside a ten-digit token |
| Patterns.TenDigitPositionsFrom | commands/ap-kara.js:373 | the positions listed are ten-digit tokens from the start, increasing and ten apart at least, and every such token is listed |
| Patterns.TenDigitTokensFrom | commands/ap-kara.js:373 | the `g` matches from a position are, one for one, the ten digits at each listed token position |
| Patterns.TenDigitTokens | commands/ap-kara.js:373 | `match(/\b\d{10}\b/g)` lists the text of every ten-digit token, in order, each of ten digits |
| Patterns.FirstWithLead | commands/ap-kara.js:375-386 | the number picked for a bucket is the first in the list with that bucket's first digit; none is picked exactly when no number has it |
| Patterns.SkipInsideToken | commands/ap-kara.js:200-203 | a phone or SO search that starts inside a ten-digit token resumes after it |
| Patterns.FirstTokenIsLeadNumber | commands/ap-kara.js:200-203 | the `soNumber` and `phoneNumber` patterns find the first ten-digit token of their class |
| Patterns.FourDigitFrom | commands/ap-kara.js:212 | the match is the leftmost `\b\d{4}\b`, and none is found only when there is no such token |
| Patterns.NumberMtAt | commands/ap-kara.js:206 | the captured number starts and ends with a digit and holds digits and a point; spaces follow, then `M`/`T` case-insensitively at a word boundary |
| Patterns.WeightFrom | commands/ap-kara.js:206 | the weight match is the leftmost position with a boundary and a number-MT tail, or there is none |
| Patterns.WeightText | commands/ap-kara.js:389-392 | the captured weight is the number at the leftmost weight match, starting and ending with a digit; none exactly when no position matches |
| Patterns.DestinationEndFrom | commands/ap-kara.js:209 | the lazy group ends at the first space followed by a number-MT tail, and crosses no line terminator; none is found only when a line terminator comes before every such tail |
| Patterns.DestinationBeforeWeight | commands/ap-kara.js:398 | the captured destination is the line's text up to the first number-MT tail, with no line terminator; none exactly when a line terminator precedes every tail |
| Catalog.WordMatch | commands/ap-kara.js:216-278 | a literal word followed by a pattern matches exactly when the next characters equal the word case-insensitively and the pattern matches after them |
| Catalog.FirstProductIsFirstMatch | commands/ap-kara.js:339-346 | the product named is that of a matching mapping with no matching mapping before it; none is named only when no mapping matches |
| Records.Set | commands/ap-kara.js:1091 | assigning a property changes that property and no other |
| Records.OrElse | commands/ap-kara.js:1070-1074 | the merge takes the first value when it is non-empty, otherwise the second when it is non-empty, otherwise null |
| Extraction.SortTokensFirstWins | commands/ap-kara.js:375-386 | each bucket keeps an existing value or takes the first number of its class; later numbers never overwrite |
| Extraction.SortTenDigitTokens | commands/ap-kara.js:372-386 | the loop over the ten-digit numbers leaves the phone and SO buckets as the first-wins rule says |
| Extraction.DestinationOf | commands/ap-kara.js:395-410 | the destination is that of the first line with a weight and a destination match; none exactly when no line has both |
| Extraction.WholeMessage | commands/ap-kara.js:353-413 | null exactly for empty text; otherwise vehicle, weight, phone and SO are the leftmost pattern matches, the destination comes from the first line that yields one, and the driver fields are null |
| Extraction.ExtractDataFromMessage | commands/ap-kara.js:353-413 | the imperative extraction returns the whole-message record |
| Extraction.FirstSome | commands/ap-kara.js:434-439 | the value found is the first candidate present; none exactly when every candidate is absent |
| Extraction.LineStepEffect | commands/ap-kara.js:430-484 | one line sets the vehicle and weight only if unset and sorts the phone and SO first-wins; the destination and driver fields never change |
| Extraction.KeepOrAppend | commands/ap-kara.js:444-455 | filling a bucket first-wins from two lists in turn gives the first number of its class over both |
| Extraction.ByLinesFoldFirstWins | commands/ap-kara.js:430-484 | after any lines, each field is its value on the first line that has one; the destination and driver fields stay null |
| Extraction.ByLines | commands/ap-kara.js:416-487 | the per-line record: first-line-wins vehicle and weight, first phone and SO over all lines, no destination or driver |
| Extraction.ApplyLine | commands/ap-kara.js:431-483 | the four blocks of the loop body act on a line as one step of the per-line fold |
| Extraction.ExtractDataByLines | commands/ap-kara.js:416-487 | the imperative per-line extraction returns the per-line record |
| Extraction.FoldLines | commands/ap-kara.js:430-484 | the loop over the trimmed lines builds the fold of all of them |
| Extraction.MergeExtractions | commands/ap-kara.js:1069-1078 | each transaction field is the non-empty whole-message value, else the non-empty per-line value, else null; driver fields are null and the product is kept |
| Product.FirstMarkedNone | commands/ap-kara.js:303-331 | from any line on, no line is selected exactly when none is marked |
| Product.FirstMarkedSome | commands/ap-kara.js:303-331 | the selected line is a marked line with no marked line before it |
| Product.NoProductLine | commands/ap-kara.js:303-336 | there is no product line exactly when no trimmed line is non-empty, unclaimed and has a digit |
| Product.ProductLineIsFirstCandidate | commands/ap-kara.js:303-331 | the product line is the first trimmed line that is non-empty, holds no found vehicle, SO or phone number (and no number-MT when a weight was found), and has a digit |
| Product.ProductInfoMeaning | commands/ap-kara.js:281-350 | a product is named only for a non-empty text with a product line, and it is that of the first mapping matching the line, no earlier mapping matching; none is named exactly when no mapping matches |
| Product.FindProductLine | commands/ap-kara.js:299-331 | the loop over the lines returns the product line |
| Product.MatchCatalog | commands/ap-kara.js:339-349 | the nested loop over the mappings and their patterns returns the first matching mapping's name |
| Product.ExtractProductInfo | commands/ap-kara.js:281-350 | the imperative product extraction returns the product the specification names |
| Product.CatalogExample | commands/ap-kara.js:220 | `C-9-24-24` is named the 9:24:24 product by the first pattern of the first mapping |
| Driver.NameBefore | commands/ap-kara.js:517-526 | a name found is non-empty with no white space at either end; none is found only for a blank text or one whose trim ends in `-` |
| Driver.NameBeforeIs | commands/ap-kara.js:517-526 | white space, a name, then white space, or white space around one `-`, gives that name; a name ending in `-` needs the dash after it |
| Driver.NameBeforeNone | commands/ap-kara.js:517-526 | no name is found exactly when the text is blank or a lone `-` between white space |
| Driver.NameBeforeSome | commands/ap-kara.js:517-526 | every name found stands in the text in that shape |
| Driver.LicenseMatch | commands/ap-kara.js:512-514 | the licence is four digits at the leftmost `\b\d{4}\b` of the line, and `indexOf` finds it there or earlier; none exactly when no such token exists |
| Driver.DriverInfoOfLines | commands/ap-kara.js:490-545 | with fewer than two lines or no licence the result is empty; otherwise the licence is the driver line's match and the rest is read around it; the extra fields never hold a driver or product |
| Driver.WithLicense | commands/ap-kara.js:513-542 | the licence is reported, the name is the one in front of its first occurrence, and the extra fields are those of the text after it, or none when that text is blank |
| Driver.DriverName | commands/ap-kara.js:517-526 | the driver's name is missing exactly when the text before the licence is blank or a lone dash, and otherwise stands in that text as `NameShape` says |
| Driver.NameIsTextBeforeLicense | commands/ap-kara.js:517-529 | when the digits first occur at the match, the name is the text before the match and the extra fields come from the text after it |
| Driver.EarlierOccurrenceExample | commands/ap-kara.js:517 | on `A1234 KUMAR 1234` the licence matched is at 12 but `indexOf` cuts the name at 1 |
| Driver.RamKumarExample | commands/ap-kara.js:490-545 | the reply `ap kara` / `RAM KUMAR - 4521 some extra text` gives the name `RAM KUMAR`, the licence `4521`, and the fields of `some extra text` |
| Driver.ReadAroundLicense | commands/ap-kara.js:513-542 | the imperative name and extra-text extraction matches the specification |
| Driver.ExtractDriverInfo | commands/ap-kara.js:490-545 | the imperative driver extraction matches the specification |
| Validation.AllFieldsListed | commands/ap-kara.js:1002-1011 | the loops over the record's keys visit every field |
| Validation.UppercasedGet | commands/ap-kara.js:157-165 | each field of the uppercased record is its value uppercased when non-empty, otherwise unchanged |
| Validation.ConvertDataToUppercase | commands/ap-kara.js:157-165 | the loop over the keys uppercases every non-empty string and leaves null and empty values |
| Validation.UppercaseShape | commands/ap-kara.js:157-165 | uppercasing keeps null, empty and lengths, and is idempotent |
| Validation.ValidateRequiredFields | commands/ap-kara.js:168-179 | the loop returns the missing required fields in order |
| Validation.MissingAmongExact | commands/ap-kara.js:172-176 | a field is reported exactly when it is listed and missing |
| Validation.MissingAmongOrdered | commands/ap-kara.js:169-176 | the report keeps the order of the required-field list |
| Validation.MissingFieldsMeaning | commands/ap-kara.js:168-179 | reported exactly when missing, each once and in the declared order; nothing is reported only when all six are present |
| Validation.PresentWhenNoneMissing | commands/ap-kara.js:1112-1114 | when nothing is reported, every required field is present and not blank |
| Validation.UppercasePreservesMissing | commands/ap-kara.js:1111-1112 | uppercasing does not change which fields are missing |
| Validation.UpperKeepsBlank | commands/ap-kara.js:161-173 | uppercasing keeps a white-space-only value white-space-only |
| Validation.FormatFieldName | commands/ap-kara.js:182-192 | a field without a label is shown by its property name |
| Validation.FormatFieldNameInjective | commands/ap-kara.js:183-190 | different fields get different labels |
| Validation.MissingReply | commands/ap-kara.js:1115-1117 | the missing-fields reply starts with the `Details Missing` header; the text after it, split at `, `, is exactly the missing fields' labels in order; it contains every missing field's label |
| Validation.MissingReplyExact | commands/ap-kara.js:1115-1117 | a field is named in the missing-fields reply exactly when it is missing |
| Validation.UnjoinJoin | commands/ap-kara.js:1117 | items without commas, joined with `, `, split back into exactly those items |
| Validation.LabelShape | commands/ap-kara.js:183-191 | every label is non-empty and has no comma |
| Validation.JoinListed | commands/ap-kara.js:1117 | every label occurs in the labels joined with `, ` |
| Dispatch.FailureText | commands/ap-kara.js:80 | a failure reply starts with `Processing Failed` and `Request #` |
| Dispatch.FailureTextNamesRequest | commands/ap-kara.js:80 | after `Request #` come the decimal digits of the request number, then the error text, or `Unknown error` when the error has no message |
| Dispatch.ReturnedPlusThrew | commands/ap-kara.js:56-83 | every taken request is counted once, as returned or as failed |
| Dispatch.OneNoticePerFailure | commands/ap-kara.js:74-82 | with the socket up, there is one failure reply per failed request, each to that request's chat |
| Dispatch.NoticeNamesItsRequest | commands/ap-kara.js:78-81 | a failure reply numbered `p` is about the request taken under that number, which failed, and quotes its message |
| Dispatch.NoSocketNoNotice | commands/ap-kara.js:78 | without the socket no failure reply is sent |
| Dispatch.LastReturnedAtIsReturned | commands/ap-kara.js:63-64 | the completion time is that of the last returned request, every later one having thrown, and is unchanged if none returned |
| Dispatch.RequestQueue.constructor | commands/ap-kara.js:31-39 | the queue starts empty and idle with zero counters and no completion time |
| Dispatch.RequestQueue.AddToQueue | commands/ap-kara.js:91-117 | the request goes to the tail and its 0-based index is returned; nothing else changes |
| Dispatch.RequestQueue.ProcessQueue | commands/ap-kara.js:42-88 | the drain as intended: a running or empty queue is untouched; otherwise every request is sent in order and numbered, one whose call returned is counted and sets the completion time, one that threw gets a reply, and the drain ends with the queue empty and the flag clear |
| Dispatch.RequestQueue.Drain | commands/ap-kara.js:50-84 | the loop as intended empties the queue in arrival order and updates the counters and replies as above |
| Dispatch.RequestQueue.TakeNext | commands/ap-kara.js:50-84 | one turn of the loop: the head request is taken and numbered, counted with its time when it returned, and given a failure reply when it threw with the socket up and a chat id |
| Dispatch.AbortMeaning | commands/ap-kara.js:74-86 | the drain as written stops right after the first request whose failure reply cannot be sent, and takes every request when there is none |
| Dispatch.RequestQueue.ProcessQueueAsWritten | commands/ap-kara.js:42-88 | the drain as written: it takes the requests up to the first whose failure reply throws; the rest stay queued, and the flag stays set exactly when a reply threw; counters and replies are as for the taken requests |
| Dispatch.RequestQueue.DrainAsWritten | commands/ap-kara.js:50-84 | the loop as written takes the requests up to the first whose failure reply throws and updates the counters and replies for them |
| Dispatch.StalledDrainExample | commands/ap-kara.js:43-86 | after a failure reply that cannot be sent, one of two requests stays queued with the flag set, and a later `processQueue` takes nothing |
| Dispatch.RequestQueue.GetQueueStatus | commands/ap-kara.js:120-130 | the status reports the counters, length and flag, and the head's chat and time exactly when the queue is non-empty; in a valid queue no more are processed than taken |
| Dispatch.RequestQueue.ClearQueue | commands/ap-kara.js:900-904 | all waiting requests are dropped and counted and the flag is cleared; the counters stay |
| Dispatch.FifoExample | commands/ap-kara.js:50-51 | two requests added to an idle queue are sent earlier one first |
| Contexts.Swept | commands/ap-kara.js:137-142 | a sweep keeps only existing entries, unchanged |
| Contexts.SweptKeepsRecent | commands/ap-kara.js:134-138 | an entry survives exactly when it is at most 24 hours old |
| Contexts.SweptIdempotent | commands/ap-kara.js:861-866 | a second sweep at the same time removes nothing |
| Contexts.SweptMonotone | commands/ap-kara.js:134-138 | a later sweep keeps no more entries than an earlier one |
| Contexts.ContextStore.constructor | commands/ap-kara.js:28 | the store starts empty |
| Contexts.ContextStore.Remember | commands/ap-kara.js:978-982 | the chat's entry is replaced with the key and time; others stay |
| Contexts.ContextStore.QuotedKey | commands/ap-kara.js:771-778 | a reply quotes the chat's stored key exactly when the chat has an entry |
| Contexts.ContextStore.Sweep | commands/ap-kara.js:133-147 | deleting while iterating leaves the swept store and counts the removed entries |
| Contexts.ContextStore.ClearContext | commands/ap-kara.js:923-933 | a given chat's entry is removed; no chat id clears every entry |
| Command.Overlay | commands/ap-kara.js:1088-1094 | each non-null value of the extra record overwrites; null values leave the base |
| Command.ReplyText | commands/ap-kara.js:1114-1134 | a rejection reply starts with `Details Missing` and, split at `, `, lists exactly the missing fields' labels in order; an acceptance is `Processing - Queue #` followed by the decimal digits of the queue index |
| Command.DecideEarlyReplies | commands/ap-kara.js:994-1062 | the three early replies happen exactly for no text, an `ap kara` quoting nothing, and an `ap kara` quoting a message without text |
| Command.CheckedMeaning | commands/ap-kara.js:1110-1127 | a record is rejected exactly when a field is missing, listing exactly those in order; an accepted record is uppercased with all six present |
| Command.ProductOnlyIsIncomplete | commands/ap-kara.js:1002-1033 | a record holding only a product lacks all six required fields |
| Command.PlainMessageIsIncomplete | commands/ap-kara.js:1036-1127 | a message that is not `ap kara` is never queued; all six fields are reported |
| Command.AssembleMeaning | commands/ap-kara.js:1064-1107 | driver fields come from the reply when found, else null; each transaction field prefers the reply's value, then the whole message, then the lines; the reply's product wins |
| Command.UpperDigits | commands/ap-kara.js:161 | uppercasing leaves a string of digits unchanged |
| Command.AcceptedIsAssembled | commands/ap-kara.js:1036-1127 | a queued request comes only from an `ap kara` reply to a message with text, and is the checked assembled record |
| Command.AcceptedDriverFields | commands/ap-kara.js:1111-1127 | an accepted record has a driver name and licence, uppercased |
| Command.AssembleDriver | commands/ap-kara.js:1083-1086 | the record's driver fields are the reply's when a driver was found, else null |
| Command.AcceptedHasDriver | commands/ap-kara.js:1081-1127 | a queued request is an `ap kara` reply with a found driver, carrying that name and licence uppercased |
| Command.AcceptedLicenseIsFromDriverLine | commands/ap-kara.js:505-514 | a queued request's licence is the four digits matched on the reply's second non-empty line |
| Command.ApplyDriver | commands/ap-kara.js:1083-1095 | the `forEach` over `additional_data` gives the driver overlay |
| Command.ReadCommand | commands/ap-kara.js:986-1127 | the handler's reading of a message gives the decision for the extractors' real readings |
| Command.QuotedProductOf | commands/ap-kara.js:1016-1033 | the quoted message's product, if it names one |
| Command.ReadApKara | commands/ap-kara.js:1064-1107 | the merge, driver block and reply product build the assembled record of the real readings |
| Command.ReplyProductOf | commands/ap-kara.js:1097-1107 | the product of the reply lines after the driver line |
| Command.CheckRecord | commands/ap-kara.js:1110-1127 | uppercasing then validating gives the checked decision |
| Command.RememberAllMeaning | commands/ap-kara.js:594-599 | after a drain every dispatched chat has a fresh context holding its last request's message; no other entry changes |
| Command.Respond | commands/ap-kara.js:1114-1140 | a rejection only replies; an acceptance replies with the queue index and queues the record; an idle queue whose `Queue #` reply was sent is drained, updating counters and completion time, storing each dispatched chat's context; a running queue, or one whose `Queue #` reply failed, keeps the new request waiting with its flag and counters |
| Command.HandleApKaraCommand | commands/ap-kara.js:950-1152 | the chat's context is stored first, then the decision is replied to and, when accepted, queued and drained as in `Respond` |

## Findings

| source | as written | input that shows it | evidently intended | confidence | as-written member | corrected member |
|---|---|---|---|---|---|---|
| commands/ap-kara.js:74-86 | the `Processing Failed` reply is awaited inside `catch` with no `try` of its own, so when that send throws the exception leaves the `while` loop and `isProcessing = false` (line 86) never runs | two queued requests, the first throws past `sendToPython` and its failure reply cannot be sent: the second stays queued, the flag stays set, and every later `processQueue` returns at line 43 until the queue is cleared | a reply that cannot be sent does not affect the queue: the drain goes on to the next request and always ends idle | not executed | Dispatch.RequestQueue.ProcessQueueAsWritten, Dispatch.StalledDrainExample | Dispatch.RequestQueue.ProcessQueue |

## Left out

- index.js is not part of this model: the socket set-up and message routing.
- The group checks (lines 956-975) are left out. They call the transport for group metadata. The model starts after them.
- The outer `try`/`catch` of the handler (lines 1145-1151) is left out, apart from its effect on the queue (the `announced` parameter). Its reply to an exception thrown by the transport is not modelled.
- The call to the data-entry service in `sendToPython` (lines 579-736) is left out. This includes the HTTP request, the success and error replies, and the screenshot files (lines 548-576). It is modelled as a supplied outcome per request: returned at some time (after a success or an error it answered itself), or threw past its handler. Only its context write (lines 594-599) is kept.
- The quantity comparison in the success reply (lines 618-630) is left out, because it uses floating point.
- The Express routes' request parsing and JSON responses are left out. Only the store and queue operations of the clear-queue, clear-context, send-message, send-status and queue-status routes are modelled.
- The status text `switch` of send-status (lines 820-841) is left out. It only builds a transport message.
- Clocks and randomness are parameters: `Date.now()`, `new Date().toISOString()`, `Math.random()` (lines 93, 97, 598, 981). The timers `setInterval` and `setTimeout` (lines 71, 150) are left out. Each drain uses one `now`.
- Asynchrony is left out. `processQueue` is started without `await` (line 1138), and in the program a new message can arrive while an earlier drain waits on the service. The model runs each drain to completion inside the handler. A queue whose `isProcessing` flag is set stands for that in-flight drain: `HandleApKaraCommand` on such a queue only appends the request and leaves the flag and the counters alone. The interleaving itself, where the running drain then takes the new request, is not modelled.
- Contexts.ContextStore.Sweep: one method models both `cleanupOldContexts` and the sweep after send-status. The context's `originalMessage` object is not stored, because no modelled code reads it.
- Text.ToUpper: only ASCII letters are mapped. JavaScript's full Unicode case mapping (for example `ß` to `SS`, which changes the length) is not modelled.
- Text.ToLower: only ASCII letters are mapped.
- `globalSock` is modelled as a boolean `socketReady`. Delivery of a message is modelled only where a failed send changes state: the drain's failure reply (`delivered`) and the `Queue #` reply (`announced`). Every other send is taken to return.
- Dispatch.RequestQueue.ProcessQueue: models the drain as intended, which keeps going when a failure reply cannot be sent. As written, the source stops the drain there with the flag set and the rest queued; that is `Dispatch.RequestQueue.ProcessQueueAsWritten` (see "## Findings").
- Log output (`console.log` and `console.error`) is left out.
