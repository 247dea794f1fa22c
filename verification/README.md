# kuna: a verified model of its byte formats, protocols and bookkeeping

This project models the parts of the kuna repository whose correctness is subtle and whose code is small
enough to be followed line by line, and proves what they promise. Loops, objects and buffers are written
as methods and classes, each proved against a specification function; the properties are then proved
about the specification.

- `Crc32`, `Zip`: the ZIP writer of the web front end and its CRC-32, with an independent reader
  (PKWARE APPNOTE sections 4.3.7, 4.3.12 and 4.3.16; RFC 1952 section 8).
- `WorkerClient`, `Worker`, `WorkerProtocol`: the browser's worker facade, the worker, and every
  interleaving of the two with the callers.
- `NeedValues`, `NeedText`, `NeedRecord`, `NeedRoundTrip`, `NeedParsed`: the hand-written front-matter
  dialect of the need records, and exactly which records survive being written and read.
- `NeedBacklog`, `NeedMerge`, `NeedFiling`, `NeedAcceptance`, `NeedStray`, `NeedExamples`: the backlog as files that
  every operation loads and writes again, filing a need once and twice, closing and reopening needs, and inputs that fail.
- `Inventory`, `InventoryStore`: claims, leases, slots and reaping over one locked file.
- `Captain`: three guarded state machines driven by processes with stale copies.
- `Probe`, `ProbePath`: JSON paths, clauses over repeated runs, aggregates over samples.
- `Pairing`, `PairingCode`, `Layout`, `Trex`: the evaluation code for recovered variables and structs.
- `Comments`, `Patch`, `Mine`: a comment stripper, a patch rewriter and a stratified picker.
- `NeedPrinting`, `NeedReading`, `NeedFileReading`, `NeedUpsert`, `NeedEdits`, `WorkerLife`, `InventoryMeaning`,
  `CaptainMeaning`, `ProbeMeaning`, `ProbePathMeaning`, `PairingMeaning`, `PatchMeaning`, `MineMeaning`: what the specification
  functions of these modules mean, in literal texts, numbers and relations of their own: laws that a changed branch
  or constant of a specification breaks, whatever is proved about it elsewhere.

`dafny verify dfyconfig.toml` checks everything.

## Findings

Some promises and expectations do not hold for all inputs. The code is modelled as it is; for each of these
there is a concrete example and an exact condition.

- needs.py promises that every record it writes is read back byte for byte. A bare list item with an odd
  quote swallows the next comma (`NeedValues.OpenQuoteExample`), a string with an exotic line break is cut
  there, and a body that holds a heading line or a carriage return is split or changed.
  `NeedRoundTrip.RecordRoundTrip` gives the exact condition. A hand-edited list such as `["a\"b", c]`
  is legal input and does not survive the first rewrite.
- Filing the same need twice is not always filing it once. A new need is stored as it came, so a second
  identical filing removes repeated list items and turns null counters into 0, and a null first_seen_round
  makes it raise. And the first filing is read back from its file: challenges a"b and c come back as one item,
  and the second filing makes three of them (`NeedExamples.OpenListFiledTwice`); a line `## Zed` in a body comes
  back as a section, which the second filing adds (`NeedExamples.HeadingFiledTwice`). `NeedFiling.FilingTwice`
  gives the exact condition: for a record that survives its file, the need was stored before, or its lists repeat
  nothing and its counters are numbers; where lists may not split, each of them must besides be read back or
  replaced. The latter supposes that no list item holds both a quote and a comma: `NeedExamples.ListSettlesUnsplit`
  is a list that does not split and that the second filing repairs. `NeedFiling.Settling` covers those too, field
  by field.
- A need that a suite closes is not always loaded as closed: closing_pr is printed after status, so a line
  separator in it can overwrite the status (`NeedExamples.StatusOverwritten`). `NeedStray.ClosedIsLoaded` says
  exactly what is loaded, for every closing_pr. And a file that is not named after its need is not moved at all
  (`NeedAcceptance.MisnamedUnmoved`). The status theorems hold for all histories of suites without such line
  breaks, on files named after their needs.
- evaluate says that samples on both sides of a bound make a verdict flaky. With two bounds all samples can lie outside,
  on different sides, and the clause passes (`Probe.TwoSidedExample`); `Probe.PassMeansEverySample` says exactly
  for which clauses it can not.
- A struct field of unknown size in a gap has its gap padded twice (`Layout.OverlapExample`); `Layout.PadsDisjoint`
  gives the exact condition.
- recover() saves without the lock and can undo a transition that the log still shows
  (`Captain.StaleRecover`); `Captain.StepKeepsPath` says exactly when a save does.
- The comment check never sees a block comment inserted between two lexemes, also where it holds two tokens
  apart, as in `a/**/b` and `ab` (`Comments.GluedExample`). `Comments.GluedTokens` says exactly where that is: the
  text before and the text after, each comment counted as a blank, meet in characters that are no white space.

## Model

| member | source | states |
|---|---|---|
| `Crc32.BuildTable` | integrations/web/zip.js:11-19 | the table array holds, at every index, the eight reflected shifts of that index |
| `Crc32.ComputeEntry` | integrations/web/zip.js:13-17 | one table entry, by the inner loop |
| `Crc32.Compute` | integrations/web/zip.js:21-25 | the table-driven loop returns the specified CRC of any byte sequence |
| `Crc32.CheckValue` | integrations/web/zip.js:10-25 | the CRC of the nine digits 123456789 is 0xcbf43926, the check value of this CRC |
| `Crc32.Lookup` | integrations/web/zip.js:23 | one lookup with masking and shift is one byte update of the register |
| `Crc32.UpdateIsEightShifts` | integrations/web/zip.js:15-23 | looking a byte up is the same as eight one-bit steps of the register |
| `Crc32.RunIsSerial` | integrations/web/zip.js:21-25 | the byte loop equals the bit-serial register fed the message bits, least significant bit first |
| `Crc32.SerialIsRemainder` | integrations/web/zip.js:15 | the bit-serial register holds the remainder of long division over GF(2) at every point |
| `Crc32.CrcIsPolynomialRemainder` | integrations/web/zip.js:10-25 | for every message the CRC is the complemented remainder of polynomial long division by the generator of RFC 1952 section 8, register preset to ones |
| `Crc32.UnshiftInverts` | integrations/web/zip.js:15 | k one-bit steps can be undone |
| `Crc32.UpdateIsBijective` | integrations/web/zip.js:23 | for a fixed byte the register update is a bijection, with its inverse given |
| `Crc32.RunInjective` | integrations/web/zip.js:23 | different registers stay different through any byte sequence |
| `Crc32.RunAbsorbsWord` | integrations/web/zip.js:23 | up to four bytes act on the register like one exclusive-or with the word they spell |
| `Crc32.BurstsAreDetected` | integrations/web/zip.js:21-25 | two messages of equal length that differ, and differ only within four consecutive bytes, never have the same CRC |
| `Zip.Put` | integrations/web/zip.js:52-61 | a DataView store writes exactly its two or four little-endian bytes, wrapped, and nothing else |
| `Zip.FetchStore` | integrations/web/zip.js:52 | a stored field is read back as its value modulo the field range |
| `Zip.Copy` | integrations/web/zip.js:63 | a name is copied to its place and nothing else changes |
| `Zip.LocalHeaderBytes` | integrations/web/zip.js:50-63 | the local file header record with its name |
| `Zip.CentralHeaderBytes` | integrations/web/zip.js:71-86 | the central directory record, the untouched bytes being zero |
| `Zip.EndRecordBytes` | integrations/web/zip.js:92-98 | the end-of-central-directory record |
| `Zip.FixedBytes` | integrations/web/zip.js:50-98 | every byte that does not depend on the entries, in numbers: each local header begins with 50 4b 03 04 14 00 00 08 00 00 00 00 21 5c, each directory record with 50 4b 01 02 14 00 14 00 00 08 00 00 00 00 21 5c and has zeros from byte 30 to 41, the end record begins with 50 4b 05 06 and four zeros |
| `Zip.MakeRecords` | integrations/web/zip.js:38-41 | one record per entry, with its name, bytes and CRC and the offset 0 |
| `Zip.Concatenate` | integrations/web/zip.js:101-104 | the chunks are copied one after the other without gaps |
| `Zip.MakeZip` | integrations/web/zip.js:36-105 | the two-pass writer with its running offset returns exactly the specified archive bytes |
| `Zip.RoundTripWithinLimits` | integrations/web/zip.js:36-105 | within the 16- and 32-bit limits, which are sums over names and payloads, the reader that starts from the end record recovers names and bytes in order, checking sizes, CRCs and that no gap is left |
| `Zip.RoundTripNeedsLimits` | integrations/web/zip.js:52-98 | outside the limits it does not |
| `Zip.ZipRoundTrip` | integrations/web/zip.js:36-105 | the archive reads back as the entries if and only if entry count, name lengths, sizes, local part and directory are within the limits |
| `Zip.ReadZipBounds` | integrations/web/zip.js:92-98 | whatever can be read has fewer than 65536 entries, names below 64 KiB and payloads below 4 GiB |
| `WorkerClient.KunaWorkerClient.Request` | integrations/web/kuna-worker-client.js:97-110 | refused when closed or failed, else a fresh id, pending, posted or rejected when posting throws |
| `WorkerClient.KunaWorkerClient.RejectPending` | integrations/web/kuna-worker-client.js:112-115 | every pending request is rejected and none stays pending |
| `WorkerClient.KunaWorkerClient.SpawnWorker` | integrations/web/kuna-worker-client.js:40-80 | next generation, no worker session, no failure, an init request |
| `WorkerClient.KunaWorkerClient.OnMessage` | integrations/web/kuna-worker-client.js:52-62 | a reply settles its pending request once, and only for the current generation |
| `WorkerClient.KunaWorkerClient.FailWorker` | integrations/web/kuna-worker-client.js:90-95 | the first failure of the current worker rejects everything pending |
| `WorkerClient.KunaWorkerClient.OnError` | integrations/web/kuna-worker-client.js:63-69 | an error event of the current generation fails the worker |
| `WorkerClient.KunaWorkerClient.OnMessageError` | integrations/web/kuna-worker-client.js:70-77 | an unreadable message fails the current worker |
| `WorkerClient.KunaWorkerClient.Cancel` | integrations/web/kuna-worker-client.js:197-204 | two generations on: everything pending rejected, a new worker spawned |
| `WorkerClient.KunaWorkerClient.Clear` | integrations/web/kuna-worker-client.js:206-209 | forgets the session, then cancels |
| `WorkerClient.KunaWorkerClient.Close` | integrations/web/kuna-worker-client.js:211-218 | closed for good, everything pending rejected, no session |
| `WorkerClient.KunaWorkerClient.StartLoad` | integrations/web/kuna-worker-client.js:147-155 | a fresh session object that no other session equals |
| `WorkerClient.KunaWorkerClient.AfterReady` | integrations/web/kuna-worker-client.js:127-138 | after the first await: generation and session checks, then setBinary or nothing |
| `WorkerClient.KunaWorkerClient.AfterDetails` | integrations/web/kuna-worker-client.js:139-144 | after setBinary: generation and identity checks before the session is marked as the worker's |
| `WorkerClient.KunaWorkerClient.AfterSession` | integrations/web/kuna-worker-client.js:155-192 | each call then posts its own request: decompile its target, project its name, load and list the inventory |
| `WorkerClient.KunaWorkerClient.AfterResult` | integrations/web/kuna-worker-client.js:157-194 | the last checks of each call: the session for load, the generation alone for the others |
| `Worker.KunaWorker.Dispatch` | integrations/web/kuna-worker.js:25-69 | what each message does to the module variables and which reply it leads to |
| `Worker.KunaWorker.Finish` | integrations/web/kuna-worker.js:71-84 | an awaited request replies later, with what it read when it began |
| `WorkerProtocol.StepKeepsInv` | integrations/web/kuna-worker-client.js:40-218 | every call, reply, error, cancel, load and resumption keeps the protocol invariant |
| `WorkerProtocol.RunKeepsInv` | integrations/web/kuna-worker-client.js:40-218 | so does every interleaving |
| `WorkerProtocol.LoadResolvesWithItsBinary` | integrations/web/kuna-worker-client.js:147-165 | whenever a load resolves, its inventory was computed by the current worker on exactly the bytes, file name and mode of that load (binary and auto when none are given), and the session is still the one it made |
| `WorkerProtocol.QueriesResolveConsistently` | integrations/web/kuna-worker-client.js:173-195 | list, decompile and project resolve with an output of the current worker on the parameters of one session, for exactly what the call asked |
| `WorkerProtocol.CallsPostWhatTheyAsk` | integrations/web/kuna-worker-client.js:155-192 | over every run, a call that waits for its answer waits for a request for its own target, its own name, or the list |
| `WorkerProtocol.CallsResolveWithWhatTheyAsked` | integrations/web/kuna-worker-client.js:155-195 | over every run, a call that has resolved has the output computed for exactly what it asked |
| `WorkerProtocol.StaleCallsFail` | integrations/web/kuna-worker-client.js:127-144 | a call of an earlier generation fails at its next await and touches nothing |
| `WorkerProtocol.FormatIsCurrent` | integrations/web/kuna-worker-client.js:167-171 | format() resolves with the format of the newest session's bytes, or with none yet |
| `WorkerProtocol.ErrorIsStartupFailure` | integrations/web/kuna-worker-client.js:63-95 | over every run, the first error of a worker is a failure to start exactly when that worker has answered no request well, and everything pending is rejected with it |
| `WorkerProtocol.EveryRequestAccountedFor` | integrations/web/kuna-worker-client.js:97-115 | in every run each id handed out is either pending or settled, never both; closed or failed implies nothing pending; what is pending went to the current worker |
| `WorkerProtocol.SettledAtMostOnce` | integrations/web/kuna-worker-client.js:52-62 | ids are never reused and a settled request never changes or comes back |
| `WorkerProtocol.SupersededWorkerIsIgnored` | integrations/web/kuna-worker-client.js:52-77 | a message or error of a replaced worker changes nothing |
| `WorkerProtocol.OnlyInitAfterCancel` | integrations/web/kuna-worker-client.js:197-204 | right after a cancel only the new init request is pending |
| `WorkerLife.FirstFailureStays` | integrations/web/kuna-worker-client.js:90-100 | the first failure is the one reported until another worker is spawned, and nothing is posted meanwhile |
| `WorkerLife.ClosedForGood` | integrations/web/kuna-worker-client.js:97-218 | over every run a closed client stays closed, posts nothing and has nothing pending |
| `WorkerLife.SessionForgotten` | integrations/web/kuna-worker-client.js:206-218 | close() and clear() forget the session and reject everything pending as cancelled |
| `WorkerLife.LoadStarts` | integrations/web/kuna-worker-client.js:147-155 | a load is the newest session, and no worker has it yet |
| `WorkerLife.BinarySentWhenNeeded` | integrations/web/kuna-worker-client.js:127-138 | in any state, a setBinary is posted only by a current call while the worker is not known to have the newest session, and it carries that session |
| `WorkerLife.SessionReused` | integrations/web/kuna-worker-client.js:127-133 | a call that finds the worker holding the newest session posts none |
| `WorkerLife.RefusesUntilReady` | integrations/web/kuna-worker.js:25-69 | a worker refuses everything but init until its init has finished, and queries until it has a binary |
| `WorkerLife.BinaryIsTaken` | integrations/web/kuna-worker.js:31-49 | setBinary replaces all that later queries read, also when the format can not be named |
| `WorkerLife.QueryIsComputed` | integrations/web/kuna-worker.js:50-84 | a query answers, whenever it ends, for what the worker held when it began |
| `NeedValues.UnescapeLoop` | scripts/repipe/needs.py:136-148 | the index loop computes the recursive specification of unescaping |
| `NeedValues.EscapeIsCharwise` | scripts/repipe/needs.py:233-234 | the five successive replacements act on each character by itself |
| `NeedValues.UnescapeInvertsEscape` | scripts/repipe/needs.py:136-148 | unescaping inverts the escape chain on every string |
| `NeedReading.EscapesRead` | scripts/repipe/needs.py:136-148 | each escape by itself: n, t and r after a backslash, any other character after one, a backslash at the end |
| `NeedValues.IntRoundTrip` | scripts/repipe/needs.py:222-223 | a printed integer is read back |
| `NeedValues.ScalarRoundTrip` | scripts/repipe/needs.py:151-236 | every printed scalar, quoted or bare, in a list or not, is parsed back to itself |
| `NeedReading.ScalarRead` | scripts/repipe/needs.py:151-167 | what any text is read as, whatever white space is around it: nothing, null and ~ as null, the two truth values, whole numbers, decimals, quoted text, and everything else as itself |
| `NeedReading.FloatTextIs` | scripts/repipe/needs.py:129 | the texts that are decimals: sign, digits with an optional point, exponent |
| `NeedReading.IntegerRead` | scripts/repipe/needs.py:162-163 | signs and leading zeros of a whole number |
| `NeedPrinting.ScalarTexts` | scripts/repipe/needs.py:215-236 | the text of every scalar; a string stands bare exactly when it is not empty, has no white space at its ends, is no keyword or number, does not start with a mark, and holds no #, newline, return or tab, nor in a list a comma or bracket |
| `NeedPrinting.QuotedText` | scripts/repipe/needs.py:228-236 | the text between the quotes, escape by escape |
| `NeedValues.SplitFlowLoop` | scripts/repipe/needs.py:170-189 | the scanner with its quote and escape flags computes the parts of a flow list |
| `NeedValues.ListReadsBack` | scripts/repipe/needs.py:192-242 | a list whose items close their quotes is read back item by item |
| `NeedReading.ListCut` | scripts/repipe/needs.py:170-189 | any text between brackets is cut at the commas outside quotes and nowhere else |
| `NeedReading.ClosedOrOpen` | scripts/repipe/needs.py:170-189 | the parts joined by commas are the text again, and only the last can leave a quote open |
| `NeedReading.ValueRead` | scripts/repipe/needs.py:192-196 | text in brackets is the list of its parts that are not blank, any other a scalar |
| `NeedValues.OpenItemMisread` | scripts/repipe/needs.py:176-186 | an item that leaves a quote open swallows the comma after it |
| `NeedValues.ValueRoundTrip` | scripts/repipe/needs.py:192-242 | a printed value is parsed back if and only if every list item but the last closes its quotes |
| `NeedValues.OpenQuoteExample` | scripts/repipe/needs.py:199-212 | the smallest failure: a list of a"b and c comes back as one item |
| `NeedRecord.RenderLoop` | scripts/repipe/needs.py:382-402 | the printer builds exactly the specified lines |
| `NeedPrinting.FileText` | scripts/repipe/needs.py:382-402 | the file as text: the fields between two lines of dashes, then each section under an empty line and its heading, with an empty line before the body |
| `NeedPrinting.KnownNames` | scripts/repipe/needs.py:60-78 | the known fields and sections, in their order |
| `NeedPrinting.NamesInOrder` | scripts/repipe/needs.py:385-394 | known names come first, in that order, the others after them as the record has them |
| `NeedRecord.ReadFieldsLoop` | scripts/repipe/needs.py:360-367 | the field loop with its skipped lines, later keys overwriting earlier ones in place |
| `NeedRecord.ReadSectionsLoop` | scripts/repipe/needs.py:369-374 | each heading takes the text up to the next one, trimmed |
| `NeedRecord.ParseLoop` | scripts/repipe/needs.py:351-379 | the whole parser: fence, fields, sections, the file name as a fallback id, or the missing-fence error |
| `NeedFileReading.FileRead` | scripts/repipe/needs.py:351-379 | a file that starts with a line of three dashes has as front matter the text up to the first newline with three dashes after it, and its sections come from the text behind those, a newline not counted |
| `NeedFileReading.NoFence` | scripts/repipe/needs.py:356-358 | every other file is refused, and no other |
| `NeedFileReading.FieldLineIs` | scripts/repipe/needs.py:127 | a line sets a field exactly when it is a name, a colon, and then nothing, or blanks and a value |
| `NeedFileReading.LineIsRead` | scripts/repipe/needs.py:360-367 | such a line gives its field the value, typed, over any earlier one, and leaves the others; any other line leaves all |
| `NeedFileReading.SkippedAre` | scripts/repipe/needs.py:362-363 | the lines passed over are the blank ones and those whose first visible character is # |
| `NeedFileReading.LineCut` | scripts/repipe/needs.py:361 | a line is cut at every line break, the unusual ones among them |
| `NeedFileReading.FieldTypes` | scripts/repipe/needs.py:245-265 | the type each field is given: lists, whole numbers, a float, or what was read |
| `NeedFileReading.SectionRead` | scripts/repipe/needs.py:369-374 | text before the first heading belongs to no section; a heading takes the text up to the next, and a later section of its name replaces it |
| `NeedFileReading.HeadingRead` | scripts/repipe/needs.py:130 | a heading is two hashes, blanks, and a name without the blanks after it |
| `NeedFileReading.HeadingsAre` | scripts/repipe/needs.py:130 | no other line is a heading, but two hashes and at least two blanks, whose name is the last one |
| `NeedFileReading.NormIs` | scripts/repipe/needs.py:374 | a body loses the newlines in front and the white space at its end, and nothing else |
| `NeedFileReading.ReturnsRead` | scripts/repipe/needs.py:354-355 | a return, with or without a newline after it, is read as one newline |
| `NeedFileReading.NamedAfterFile` | scripts/repipe/needs.py:376-378 | a record without a need_id, or with an empty, null, false or zero one, takes the name of its file |
| `NeedText.NormBetweenBlankLines` | scripts/repipe/needs.py:374-400 | a trimmed body is unchanged by trimming it again, with or without the blank lines printed around it |
| `NeedText.PlainNorm` | scripts/repipe/needs.py:370-374 | trimming a body never makes one of its lines a heading |
| `NeedRoundTrip.ReadBackExact` | scripts/repipe/needs.py:245-367 | a printed field line gives back the field exactly when its list splits |
| `NeedRoundTrip.ParsedRecords` | scripts/repipe/needs.py:351-379 | whatever file is parsed, no field but the id holds an unescaped line break, no body a carriage return or a heading line |
| `NeedRoundTrip.RenderedParses` | scripts/repipe/needs.py:351-402 | the printed text of a legible record is cut into the printer's own lines and sections |
| `NeedRoundTrip.RecordRoundTrip` | scripts/repipe/needs.py:351-402 | a well-formed record is parsed back (in canonical order, bodies trimmed) if and only if no string holds a line break other than newline and carriage return, every list splits, and no trimmed body holds a carriage return or a heading line |
| `NeedRoundTrip.CanonicalPrintsTheSame` | scripts/repipe/needs.py:382-402 | reordering and trimming first does not change the printed text |
| `NeedRoundTrip.RewriteIsStable` | scripts/repipe/needs.py:382-402 | a surviving record written, parsed and written again is the same file |
| `NeedParsed.ParsedShape` | scripts/repipe/needs.py:351-379 | whatever file is parsed: distinct keys that match the field pattern, typed values, distinct section names that the printer's headings give back |
| `NeedBacklog.UnionLoop` | scripts/repipe/needs.py:478-486 | the loop with its seen set keeps the first of each group of equal items |
| `NeedBacklog.UnionTwice` | scripts/repipe/needs.py:478-486 | a union repeated changes nothing |
| `NeedBacklog.UnionOfSelf` | scripts/repipe/needs.py:478-486 | a list united with itself is unchanged exactly when it repeats nothing |
| `NeedBacklog.FillUpLoop` | scripts/repipe/needs.py:500-502 | every default that is missing is added, in order |
| `NeedBacklog.MergeFieldsLoop` | scripts/repipe/needs.py:505-515 | the merge loop over the filed fields in their order, or the exception |
| `NeedBacklog.MergeSectionsLoop` | scripts/repipe/needs.py:516-519 | a section with text replaces, an empty one only leaves its name |
| `NeedBacklog.Merged` | scripts/repipe/needs.py:505-515 | the ordered merge is the merge of each field against the stored record, and raises exactly when one of them does |
| `NeedUpsert.CounterMerged` | scripts/repipe/needs.py:508-510 | instances and attempts are at least the stored and the filed number and equal to one of them |
| `NeedUpsert.FirstSeenMerged` | scripts/repipe/needs.py:511-513 | first_seen_round is at most both and equal to one of them, or the filed number where null was stored |
| `NeedUpsert.PlainMerged` | scripts/repipe/needs.py:514-515 | any other field is the filed value, or stays where null or nothing was filed |
| `NeedUpsert.ListMerged` | scripts/repipe/needs.py:478-507 | a list holds, in order, the first of each kind of the stored and then the filed items, and nothing else |
| `NeedUpsert.MergeRaises` | scripts/repipe/needs.py:508-513 | a filing raises exactly when a counter or first_seen_round that it gives, or the stored one, is no number |
| `NeedUpsert.CounterReloaded` | scripts/repipe/needs.py:489-520 | on the next load a stored need has the larger instances and attempts |
| `NeedUpsert.FirstSeenReloaded` | scripts/repipe/needs.py:489-520 | and the smaller first_seen_round |
| `NeedUpsert.PlainReloaded` | scripts/repipe/needs.py:489-520 | and in every other field the filed value, or the stored one where null or nothing was filed |
| `NeedUpsert.ListReloaded` | scripts/repipe/needs.py:489-520 | and in a list that splits the first of each kind |
| `NeedUpsert.NewNeedIs` | scripts/repipe/needs.py:86-105 | a new need is what was filed, with each default in its literal value |
| `NeedBacklog.MergeSectionsAre` | scripts/repipe/needs.py:516-519 | a section that was filed with text is that text; otherwise it stays, or is empty if it is new |
| `NeedEdits.ValidIs` | scripts/repipe/needs.py:405-424 | what may be written: a slug as need_id, the listed words in five fields, and no list in the other three that are checked |
| `NeedEdits.FiledUnder` | scripts/repipe/needs.py:427-430 | a need is filed under its need_id as Python shows it |
| `NeedBacklog.Backlog.UpsertNeed` | scripts/repipe/needs.py:489-520 | the files after a filing: loaded, merged, validated, printed and written under the need's id, or unchanged when it raises |
| `NeedBacklog.FilingIsLocal` | scripts/repipe/needs.py:489-520 | a filing touches no other file |
| `NeedMerge.MergeFieldTwice` | scripts/repipe/needs.py:506-515 | merging the same value into a field again changes nothing, for every kind of field |
| `NeedMerge.SameValueText` | scripts/repipe/needs.py:215-242 | two values that are printed alike are the same |
| `NeedMerge.KeptIsRead` | scripts/repipe/needs.py:382-402 | the file of a legible record is loaded as the read-back fields in printing order and the trimmed sections |
| `NeedFiling.Settling` | scripts/repipe/needs.py:489-520 | filing again leaves the files as they are exactly when every stored field, read back and merged with what is filed, prints as before |
| `NeedFiling.OpenUnsettled` | scripts/repipe/needs.py:176-186 | a list that is misread, not replaced, and without an item holding quote and comma, prints differently after the second filing |
| `NeedFiling.FilingTwice` | scripts/repipe/needs.py:489-520 | when the record written survives its file, filing twice equals filing once if and only if the need was stored already, or its lists repeat nothing and its counters are numbers; when only its lists may not split, and none of their items holds a quote and a comma, if and only if besides every list is read back or replaced |
| `NeedFiling.KeptLegibly` | scripts/repipe/needs.py:489-520 | a record without exotic line breaks or heading lines was filed without them: a merge drops no string |
| `NeedExamples.OpenListFiledTwice` | scripts/repipe/needs.py:498-520 | any new need with challenges a"b and c changes when filed again, although it is merged with itself |
| `NeedExamples.ListSettlesUnsplit` | scripts/repipe/needs.py:176-186 | a list that does not split and that a second union makes whole again |
| `NeedExamples.HeadingFiledTwice` | scripts/repipe/needs.py:369-374 | any new need whose only section holds the line ## Zed changes when filed again |
| `NeedAcceptance.ApplyRowTo` | scripts/repipe/needs.py:541-573 | one result row: closed, regressed, unchanged or skipped, or the exception |
| `NeedAcceptance.ApplyAcceptance` | scripts/repipe/needs.py:523-574 | the whole suite and the lists it reports, stopping where a load or a write raises |
| `NeedAcceptance.EditedIsRead` | scripts/repipe/needs.py:556-571 | the file written for a closing or a regression is loaded again under its name with the new status, and no other file changes |
| `NeedEdits.RowDoes` | scripts/repipe/needs.py:541-571 | closed exactly when the row passed and the need was neither closed nor rejected, regressed exactly when it failed and the need was closed, and never by an indeterminate row |
| `NeedEdits.EditsAre` | scripts/repipe/needs.py:556-564 | a closing sets status, round and pull request, a regression the status alone |
| `NeedEdits.LogIs` | scripts/repipe/needs.py:324-326 | the line is added under what the decision log says |
| `NeedEdits.LinesAre` | scripts/repipe/needs.py:562-569 | the two lines that are logged |
| `NeedEdits.ReportIs` | scripts/repipe/needs.py:534-574 | each row that is carried out puts its id into the list of its effect, in row order, and a row that raises ends the report |
| `NeedAcceptance.MisnamedUnmoved` | scripts/repipe/needs.py:541-573 | a row for a file that is not named after its need leaves that file as it is |
| `NeedAcceptance.RowStatus` | scripts/repipe/needs.py:541-573 | a row moves the status its own need is next loaded with, and no other; an indeterminate row changes nothing at all |
| `NeedAcceptance.StatusHistory` | scripts/repipe/needs.py:523-574 | after any sequence of suites the status a need is loaded with is a closed form of the first status and the determinate results; rejected never changes |
| `NeedAcceptance.ClosedIffLastPassed` | scripts/repipe/needs.py:523-574 | for a need that starts neither closed, regressed nor rejected: closed iff the last determinate result passed, regressed iff it failed after an earlier pass |
| `NeedStray.StrayFront` | scripts/repipe/needs.py:351-402 | the file of a closed record, whatever its closing_pr holds, is parsed to the status that the closed status and the pieces of that one line make |
| `NeedStray.ClosedIsLoaded` | scripts/repipe/needs.py:556-562 | after a closing by any closing_pr the need is loaded with the status that the line of closing_pr makes of closed: closed exactly when the line sets none, or closed again |
| `NeedStray.CleanIsClosed` | scripts/repipe/needs.py:232-236 | a closing_pr without exotic line breaks sets none |
| `NeedExamples.StatusOverwritten` | scripts/repipe/needs.py:360-367 | a closing_pr of x, a line separator and status: open makes the closed need open |
| `Inventory.LeaseStep` | scripts/pipeline/state.py:366-392 | a step leaves a lease with its holder unless it releases it or the lease is dead |
| `Inventory.LeaseIsLastGrant` | scripts/pipeline/state.py:374-383 | a held lease carries the clock, TTL and pid of its last granted acquisition |
| `Inventory.LeaseHandoff` | scripts/pipeline/state.py:366-400 | over every run a lease passes from one worker to another only after a release, an expired TTL since the first one's last acquisition, or the death of its vouched-for pid |
| `Inventory.ClaimStep` | scripts/pipeline/state.py:154-318 | a claim is lost in a step if and only if the step releases it, completes or parks it, or reaps its holder, who is then marked failed |
| `Inventory.ClaimHandoff` | scripts/pipeline/state.py:154-318 | over every run a claim passes on only after such a step |
| `Inventory.TakenStep` | scripts/pipeline/state.py:413-421 | what a selector must skip becomes free again only when a bare claim is released or reaped |
| `Inventory.SlotStep` | scripts/pipeline/state.py:326-354 | occupancy rises only up to the cap in force, and only lowering the cap below it takes a pool over it |
| `Inventory.SlotsBounded` | scripts/pipeline/state.py:326-354 | over every run occupancy stays within its start value and the highest cap so far |
| `Inventory.ReapTwice` | scripts/pipeline/state.py:276-318 | reaping again at the same moment changes nothing |
| `InventoryMeaning.ClaimAnswers` | scripts/pipeline/state.py:154-166 | claim() answers yes exactly when the opportunity is not done and nobody else holds it |
| `InventoryMeaning.DoneIsFinal` | scripts/pipeline/state.py:154-188 | over every run, what is done is never claimed again |
| `InventoryMeaning.DoneIs` | scripts/pipeline/state.py:176-188 | who, what and when is recorded, the claim dropped and the worker marked |
| `InventoryMeaning.ProposalJourney` | scripts/pipeline/state.py:193-249 | over every run, an opportunity marked as a proposal is skipped until approved, and then claimed with the branch it was marked with by whoever asks while no other worker holds it, whatever happens in between to anything else |
| `InventoryMeaning.RegisterIs` | scripts/pipeline/state.py:104-123 | a worker starts over, its pid vouched for if one is given |
| `InventoryMeaning.UpdateIs` | scripts/pipeline/state.py:126-142 | what is given is set, the heartbeat recorded, the rest kept |
| `InventoryMeaning.ReapedWorkers` | scripts/pipeline/state.py:276-305 | reap() fails exactly the running workers silent beyond the limit whose vouched-for pid is gone, those without one only beyond the longer limit |
| `InventoryMeaning.ReapedLeases` | scripts/pipeline/state.py:306-316 | it drops exactly the expired leases and those whose vouched-for pid is gone, and frees such slots |
| `InventoryMeaning.HeartbeatProtects` | scripts/pipeline/state.py:126-305 | a worker is not failed by a reap within the limit of its heartbeat |
| `InventoryMeaning.SlotAnswers` | scripts/pipeline/state.py:333-354 | yes exactly when the slot is held already or the pool is below its cap |
| `InventoryMeaning.LeaseAnswers` | scripts/pipeline/state.py:366-400 | no exactly while another holds a lease that has not expired and whose pid, if vouched for, is alive |
| `InventoryStore.State.DoRegister` | scripts/pipeline/state.py:104-123 | a running worker whose pid is vouched for only if one was given |
| `InventoryStore.State.DoUpdate` | scripts/pipeline/state.py:126-142 | a heartbeat, also for an unknown worker |
| `InventoryStore.State.DoRemove` | scripts/pipeline/state.py:145-149 | the worker is forgotten |
| `InventoryStore.State.DoClaim` | scripts/pipeline/state.py:154-166 | claimed unless done or held by another |
| `InventoryStore.State.DoRelease` | scripts/pipeline/state.py:169-173 | the claim is dropped |
| `InventoryStore.State.DoMarkDone` | scripts/pipeline/state.py:176-188 | done, claim dropped, worker marked |
| `InventoryStore.State.DoMarkProposal` | scripts/pipeline/state.py:193-213 | parked, claim dropped, worker marked |
| `InventoryStore.State.DoApprove` | scripts/pipeline/state.py:216-229 | moved from proposals to approved |
| `InventoryStore.State.DoClaimApproved` | scripts/pipeline/state.py:232-249 | the branch, unless unapproved or held by another |
| `InventoryStore.State.DoSlotCap` | scripts/pipeline/state.py:326-330 | the cap alone is set |
| `InventoryStore.State.DoSlotAcquire` | scripts/pipeline/state.py:333-345 | taken, already held, or full |
| `InventoryStore.State.DoSlotRelease` | scripts/pipeline/state.py:348-354 | the slot is freed |
| `InventoryStore.State.DoLeaseAcquire` | scripts/pipeline/state.py:366-383 | granted unless held by another and not dead |
| `InventoryStore.State.DoLeaseRelease` | scripts/pipeline/state.py:386-392 | released by its holder or by anyone unnamed |
| `InventoryStore.State.ReapTheWorkers` | scripts/pipeline/state.py:288-305 | exactly the stale workers without a live vouched pid fail, and their claims go |
| `InventoryStore.State.ReapTheSlots` | scripts/pipeline/state.py:306-312 | exactly the slots whose vouched pid is gone are freed |
| `InventoryStore.State.ReapTheLeases` | scripts/pipeline/state.py:313-316 | exactly the dead leases go |
| `InventoryStore.State.DoReap` | scripts/pipeline/state.py:276-318 | the whole reap and what it reports |
| `InventoryStore.ShouldFail` | scripts/pipeline/state.py:289-297 | the order of checks before a worker is failed |
| `Captain.Round.LoadRound` | scripts/repipe/captain.py:86-92 | the stored document or a fresh one |
| `Captain.Round.Transition` | scripts/repipe/captain.py:135-156 | checked against the stored state, not the caller's copy; logged and saved, or refused |
| `Captain.Round.OperatorResume` | scripts/repipe/captain.py:389-451 | back to RUNNING from the expected state when every guard passes |
| `Captain.Round.Recover` | scripts/repipe/captain.py:373-386 | the states stay, a note is added |
| `Captain.StepKeepsPath` | scripts/repipe/captain.py:135-451 | a step keeps every machine's log a path ending in the stored state if and only if it is not a recover that saves a stale copy |
| `Captain.RunKeepsPath` | scripts/repipe/captain.py:135-451 | so does every interleaving without such a save |
| `Captain.StaleRecover` | scripts/repipe/captain.py:373-386 | the unlocked save can lose a transition: a run of three steps |
| `Captain.HistoryFollows` | scripts/repipe/captain.py:36-69 | the logged history starts in the first state, follows the table, and ends in the stored state |
| `Captain.MergeIsVerified` | scripts/repipe/captain.py:57-67 | after B_MERGE only B_VERIFY and B_ROLLBACK occur until B_DONE, which comes straight from B_VERIFY, or the final HALTED |
| `Captain.TriageIsGated` | scripts/repipe/captain.py:44-55 | T_TRIAGE is always preceded by plan, workspace, fan-out, drain, gate, dedup and refute of the same pass |
| `Captain.OnlyTheOperatorRestarts` | scripts/repipe/captain.py:389-451 | HALTED and STOPPED are left only by an operator record for RUNNING |
| `CaptainMeaning.TablesAre` | scripts/repipe/captain.py:36-67 | every legal move of each machine, and no other |
| `CaptainMeaning.TransitionIs` | scripts/repipe/captain.py:135-156 | a legal transition moves its machine in the stored document and writes one record, whatever copy the caller holds; an illegal one changes nothing |
| `CaptainMeaning.RestartIs` | scripts/repipe/captain.py:389-451 | the operator's restart: RUNNING, one note and one record, from the expected state alone |
| `CaptainMeaning.RecoveryIs` | scripts/repipe/captain.py:373-386 | recover() stores the copy it took, with one more note and without a record |
| `CaptainMeaning.StateIsLastRecord` | scripts/repipe/captain.py:135-451 | over every run without a stale save the state of a machine is the target of its last record |
| `Probe.ResolveLoop` | scripts/repipe/probe.py:893-919 | the nested loops compute the branches of a path |
| `Probe.ResolvedAre` | scripts/repipe/probe.py:893-919 | a path never resolves to nothing, and the present values are exactly those the document has along it |
| `ProbeMeaning.ResolveIndex` | scripts/repipe/probe.py:907-911 | an index takes the item at that place from the front, or from the end when negative, and is missing outside |
| `ProbeMeaning.ResolveKey` | scripts/repipe/probe.py:905-906 | a key takes the value under it |
| `ProbeMeaning.ResolveAny` | scripts/repipe/probe.py:912-915 | [*] takes the items or values in order, and one missing branch of an empty container |
| `ProbeMeaning.ResolveOther` | scripts/repipe/probe.py:903-917 | every other pairing of a step with a value is missing |
| `ProbeMeaning.ResolveComposes` | scripts/repipe/probe.py:899-919 | a longer path goes on from each branch of the shorter one, in order |
| `Probe.LookupIs` | scripts/repipe/probe.py:905-906 | a key looks up the first entry of its name |
| `Probe.StepIsChild` | scripts/repipe/probe.py:903-917 | a step reaches exactly the children of that kind, by a relation that does not use it |
| `Probe.JsonOkLoop` | scripts/repipe/probe.py:1067-1084 | positive operators ask for some branch, negative ones for all |
| `Probe.Opposites` | scripts/repipe/probe.py:1067-1084 | exactly one of exists and absent, exactly one of eq and ne, never both contains and not_contains |
| `Probe.ExistsMeansPresent` | scripts/repipe/probe.py:1072-1079 | exists holds exactly when the document has a value along the path |
| `ProbeMeaning.EqualityMeans` | scripts/repipe/probe.py:922-928 | eq and ne against the branches, and exists and absent |
| `ProbeMeaning.OrderMeans` | scripts/repipe/probe.py:929-936 | the four comparisons |
| `ProbeMeaning.LengthMeans` | scripts/repipe/probe.py:937-942 | the three comparisons of lengths |
| `ProbeMeaning.ContentMeans` | scripts/repipe/probe.py:943-949 | contains, not_contains and matches |
| `Probe.StatLoop` | scripts/repipe/probe.py:1118-1182 | the aggregate verdict and the outcome of each sample |
| `Probe.StatBetween` | scripts/repipe/probe.py:1093-1102 | median, mean, least and greatest lie between the extremes of the samples |
| `ProbeMeaning.MedianIsMiddle` | scripts/repipe/probe.py:1093-1097 | the median is the middle of the samples in ascending order, or halfway between the two middle ones |
| `ProbeMeaning.OtherStats` | scripts/repipe/probe.py:1098-1102 | mean, least and greatest |
| `ProbeMeaning.SamplesAre` | scripts/repipe/probe.py:1089-1090 | the samples are the measured numbers of the runs, in order |
| `Probe.SatIsInterval` | scripts/repipe/probe.py:1126-1145 | the values that satisfy a clause form an open interval, also with a negative baseline |
| `Probe.OneSidedPass` | scripts/repipe/probe.py:1118-1182 | with a bound on one side only, a passing median or mean has every sample on the right side |
| `Probe.TwoSidedExample` | scripts/repipe/probe.py:1126-1130 | with two bounds, two samples on the bounds pass without either satisfying the clause |
| `Probe.PassMeansEverySample` | scripts/repipe/probe.py:1118-1182 | passing implies that every sample satisfies the clause, for all samples, if and only if the clause is not bounded on both sides with room in between |
| `Probe.SingleBound` | scripts/repipe/probe.py:1126-1130 | a clause with lt or gt alone is of that kind |
| `Probe.ClauseOnAllLoop` | scripts/repipe/probe.py:1225-1231 | a clause against every run |
| `ProbeMeaning.RunPassesMeans` | scripts/repipe/probe.py:1032-1086 | a run passes exactly when exit code, size, patterns, JSON-ness and every JSON clause are as asked |
| `Probe.Evaluate` | scripts/repipe/probe.py:1194-1276 | passed iff there was a run, none broke, every clause held on every run and no aggregate was crossed; flaky iff two runs or two samples disagree; never both |
| `ProbeMeaning.VerdictMeans` | scripts/repipe/probe.py:1194-1276 | passed: a run, none timed out or failed, each passed, and both aggregates measured, usable, within their bounds and not crossed; flaky: two runs disagree or a bound is crossed |
| `ProbeMeaning.CrossingIs` | scripts/repipe/probe.py:1148-1182 | with min and max no sample makes a verdict flaky; with median and mean exactly two that disagree do |
| `Probe.PassedTimes` | scripts/repipe/probe.py:1233-1261 | a passing probe with a one-sided median or mean has every measured wall time on the right side |
| `ProbePath.ParsePathLoop` | scripts/repipe/probe.py:854-890 | the scanner computes the steps of a path or raises |
| `ProbePath.PathRoundTrip` | scripts/repipe/probe.py:854-890 | steps written as a path are parsed back if and only if there is one, no key is empty or holds a dot or an opening bracket, and the last key does not end in a blank |
| `ProbePathMeaning.PathIsRead` | scripts/repipe/probe.py:854-890 | the blanks around a path, an initial $ and then an initial dot do not count, and a path without steps is refused |
| `ProbePathMeaning.KeyIsRead` | scripts/repipe/probe.py:882-887 | a key goes up to the next dot or bracket |
| `ProbePathMeaning.BracketsAreRead` | scripts/repipe/probe.py:866-878 | brackets hold a star or an index, or the path is refused |
| `ProbePathMeaning.OpenBracketIsRefused` | scripts/repipe/probe.py:867-869 | so it is when a bracket is not closed |
| `PairingCode.BuildIndexes` | scripts/decbench/structscore.py:674-681 | the three indexes list each key's variables in order, the first one for arguments |
| `PairingCode.ClaimLoop` | scripts/decbench/structscore.py:692-699 | the first free candidate that matches, else the first free one |
| `PairingCode.ArgPass` | scripts/decbench/structscore.py:701-708 | pass one, by argument position |
| `PairingCode.OffsetPass` | scripts/decbench/structscore.py:709-717 | pass two, by calibrated offset |
| `PairingCode.NamePass` | scripts/decbench/structscore.py:718-723 | pass three, by name |
| `PairingCode.PairVariables` | scripts/decbench/structscore.py:639-724 | returns the specified pairing, with the metric's choice of shift |
| `PairingCode.Recorder.Decide` | scripts/decbench/typesweep.py:255-258 | one decision: used, decided, verdict and record agree |
| `PairingCode.Recorder.ArgPass` | scripts/decbench/typesweep.py:248-258 | pass one of the recorder |
| `PairingCode.Recorder.OffsetPass` | scripts/decbench/typesweep.py:259-271 | pass two of the recorder |
| `PairingCode.Recorder.NamePass` | scripts/decbench/typesweep.py:272-282 | pass three of the recorder |
| `PairingCode.Recorder.Finish` | scripts/decbench/typesweep.py:283-288 | misses recorded, verdicts counted |
| `PairingCode.MatchStructured` | scripts/decbench/typesweep.py:184-291 | the same pairing as pair_variables for every input; tp and fp count its verdicts; tp + fp + fn is the number of ground-truth variables; one record for each |
| `PairingCode.CountsAddUp` | scripts/decbench/typesweep.py:286-288 | every ground-truth variable is counted once |
| `Pairing.Claim` | scripts/decbench/structscore.py:692-699 | a claim takes a candidate that does not match only when no free candidate matches, and nothing only when none is free |
| `Pairing.PairingGuarantees` | scripts/decbench/structscore.py:639-724 | the pairing is one to one and comes from the candidates; a non-matching pair outside the argument pass had every matching candidate taken; a variable unpaired, or paired later, has its earlier candidates taken |
| `PairingMeaning.ShiftIs` | scripts/decbench/structscore.py:666-670 | the binary-wide shift is used whenever it aligns something, the function's own only when that does and the other does not |
| `PairingMeaning.CandidatesAre` | scripts/decbench/structscore.py:674-723 | the candidates of each pass: by position, by shifted offset, by name |
| `PairingMeaning.OffsetCandidatesInOrder` | scripts/decbench/structscore.py:709-717 | of several offsets those of the first come first |
| `PairingMeaning.ClaimIsFirst` | scripts/decbench/structscore.py:692-699 | the first free candidate that fits, or else the first free one |
| `PairingMeaning.TurnsInOrder` | scripts/decbench/structscore.py:701-724 | each pair was a first choice at its turn, in the order of the passes and then of the ground truth; who is not paired went without in every pass |
| `Layout.PadLoop` | scripts/decbench/structscore.py:448-459 | the cursor loop writes the specified padding |
| `Layout.Expand` | scripts/decbench/structscore.py:429-433 | an anonymous struct's real fields, shifted and prefixed |
| `Layout.CollectFields` | scripts/decbench/structscore.py:415-446 | the flattened fields in declaration order |
| `Layout.StructLayout` | scripts/decbench/structscore.py:403-460 | the recursive layout with its depth limit |
| `Layout.SortSorts` | scripts/decbench/structscore.py:447 | the fields are sorted by offset and size and none is lost |
| `Layout.OrderedIs` | scripts/decbench/structscore.py:447 | by offset, and at one offset by size, an unknown one counting as 0 |
| `Layout.SortIsStable` | scripts/decbench/structscore.py:447 | fields of equal key keep their order |
| `Layout.PaddingIsTheGaps` | scripts/decbench/structscore.py:448-460 | a byte is padding if and only if it lies before the struct size or some field's end and in no field |
| `Layout.PadsDisjoint` | scripts/decbench/structscore.py:448-460 | pads do not overlap if and only if no field of unknown size opens a gap before the end; never when all sizes are known and positive |
| `Layout.OverlapExample` | scripts/decbench/structscore.py:455-456 | a struct with a member of unknown size in a gap: its layout pads that gap twice |
| `Layout.LeavesKeepTheirOffsets` | scripts/decbench/structscore.py:424-434 | every leaf field occurs once, at the sum of the offsets on its path and under its prefixed name |
| `Layout.HexSpells` | scripts/decbench/structscore.py:437-440 | the digits in the name of an unnamed field spell its offset |
| `Trex.PredicatesLoop` | scripts/decbench/structscore.py:205-248 | the six predicates, false from the first failure on, and the unjudged sign |
| `Trex.ScoreLoop` | scripts/decbench/structscore.py:251-256 | the backward loop computes the nested score |
| `Trex.PredicatesAreBlock` | scripts/decbench/structscore.py:205-256 | the predicates are trues then falses and the score is the number of trues |
| `Trex.PerfectScore` | scripts/decbench/structscore.py:205-256 | a prediction that is its ground truth scores six with the sign known, five with the other sign or none |
| `Trex.ScoreMeans` | scripts/decbench/structscore.py:205-256 | which score each first difference gives |
| `Trex.SignUnjudged` | scripts/decbench/structscore.py:205-248 | the sign is reported as not judged exactly when it is unknown and nothing else differs |
| `Trex.WalkSteps` | scripts/decbench/structscore.py:797-803 | a variable is counted as reaching the steps up to its score and passing those before it |
| `Trex.AccountIsExact` | scripts/decbench/structscore.py:804-809 | six per variable less the points lost is the summed score, which is the weighted histogram; the failures at a step are the variables of that score |
| `Trex.MeasureTrex` | scripts/decbench/structscore.py:747-823 | the counters of the nested loops over functions and variables, with that account |
| `Comments.SkipBlock` | tools/comment_diff_check.py:37-48 | the depth loop finds the end of a nested comment |
| `Comments.SkipString` | tools/comment_diff_check.py:64-73 | the loop finds the end of a string literal, escapes included |
| `Comments.OneLexeme` | tools/comment_diff_check.py:28-87 | one turn of the scan: how far it goes and whether the text is kept |
| `Comments.StripLoop` | tools/comment_diff_check.py:24-88 | the while loop computes the specified result and ends |
| `Comments.LineCommentSkipped` | tools/comment_diff_check.py:31-35 | a line comment in front goes up to its newline, which stays, or to the end |
| `Comments.LineCommentInsertion` | tools/comment_diff_check.py:24-88 | a line comment inserted between two lexemes before the end of a line, or at the end of the file, leaves the result unchanged |
| `Comments.CodeAfterLineComment` | tools/comment_diff_check.py:31-35 | the line after a line comment is code: where it holds no slash, quote or white space it is the whole result, so two such files agree exactly when their lines do |
| `Comments.UnclosedComment` | tools/comment_diff_check.py:36-49 | a block comment that is not closed goes to the end |
| `Comments.PlainKept` | tools/comment_diff_check.py:85-87 | text without slashes and quotes is kept as it is |
| `Comments.NewlineKept` | tools/comment_diff_check.py:85-87 | so is a newline |
| `Comments.FoldingIs` | tools/comment_diff_check.py:88 | folding leaves everything but white space as it was, and of white space single blanks only |
| `Comments.LexemeLocal` | tools/comment_diff_check.py:28-87 | a lexeme that ends within a text does not depend on what follows the text |
| `Comments.SameResultFrom` | tools/comment_diff_check.py:24-88 | two texts with a common prefix that ends between lexemes in both give the same result iff their rests do |
| `Comments.NestedComment` | tools/comment_diff_check.py:36-49 | block comments nest |
| `Comments.CommentSkipped` | tools/comment_diff_check.py:36-49 | a balanced block comment in front changes nothing |
| `Comments.CommentInsertion` | tools/comment_diff_check.py:24-88 | a balanced nested block comment inserted between two lexemes, in the original and the edited text, leaves the result unchanged |
| `Comments.LexemeCopied` | tools/comment_diff_check.py:50-87 | a literal, or any other kept lexeme, is copied whole |
| `Comments.StringIsWhole` | tools/comment_diff_check.py:62-75 | a string or byte string literal, each quote in it after an odd run of backslashes, is one kept lexeme, whatever comment marks it contains; and no other text between quotes is, unless it ends the file |
| `Comments.RawStringIsWhole` | tools/comment_diff_check.py:50-61 | a raw string with any number of hashes is one kept lexeme exactly when no quote in it is followed by as many hashes |
| `Comments.CharIsWhole` | tools/comment_diff_check.py:76-84 | a plain char literal is one kept lexeme exactly when the character is neither a tick nor a backslash |
| `Comments.EscapedCharIsWhole` | tools/comment_diff_check.py:76-84 | so is an escaped one, exactly when no newline is escaped and no tick stands before the last |
| `Comments.BlankSeen` | tools/comment_diff_check.py:88 | a blank between two texts is seen after folding and trimming exactly when they meet in characters that are no white space |
| `Comments.GluedTokens` | tools/comment_diff_check.py:24-88 | inserting a block comment between two lexemes never changes the result; with each comment counted as a blank it does exactly when the texts around it meet in characters that are no white space |
| `Comments.GluedExample` | tools/comment_diff_check.py:36-49 | a/**/b and ab have the same result, though a blank for the comment would tell them apart |
| `Patch.MapPathShape` | tools/sync_upstream.py:78-95 | a vendored path lands under tests/datatests/ or, whole, under specs/ |
| `Patch.MapPathInjective` | tools/sync_upstream.py:78-95 | no two upstream paths land at the same place |
| `PatchMeaning.DatatestVendored` | tools/sync_upstream.py:78-85 | the datatests go to tests/datatests/ |
| `PatchMeaning.LanguageVendored` | tools/sync_upstream.py:86-94 | the language files of every processor module go, whole, under specs/ |
| `PatchMeaning.OnlyThoseVendored` | tools/sync_upstream.py:78-95 | nothing else is vendored |
| `Patch.SectionsLoop` | tools/sync_upstream.py:127-135 | the split at header lines |
| `Patch.SectionsAre` | tools/sync_upstream.py:127-135 | the sections are the patch again, and only their first lines are headers |
| `Patch.BodyLoop` | tools/sync_upstream.py:158-184 | the in-header loop: renamed, verbatim from the first hunk on, or refused |
| `Patch.SectionLoop` | tools/sync_upstream.py:139-157 | one section: refused, skipped or kept |
| `Patch.RewriteLoop` | tools/sync_upstream.py:116-185 | the whole rewriter |
| `Patch.HeaderReads` | tools/sync_upstream.py:103-152 | a header of one path is read as that path iff " b/" does not occur in it; otherwise as two different paths, which is refused |
| `Patch.KeptSection` | tools/sync_upstream.py:157-184 | a kept section has as many lines, its header renamed, hunks untouched, and before them only the two lines that name the path renamed |
| `PatchMeaning.RenamedLines` | tools/sync_upstream.py:158-184 | the two lines that name the old path name the new one, and every other stays |
| `PatchMeaning.KeptLines` | tools/sync_upstream.py:157-184 | a kept section line by line |
| `PatchMeaning.SectionOutcome` | tools/sync_upstream.py:139-184 | skipped when not vendored, refused exactly when a marker stands before the first hunk, else kept |
| `PatchMeaning.OddHeaderRefused` | tools/sync_upstream.py:139-150 | a section whose first line is no git header is refused |
| `Patch.RewriteKeepsSections` | tools/sync_upstream.py:116-185 | refused iff some section is; otherwise the output, cut again, is exactly the vendored sections in order, each the same section in its new place, and kept and skipped paths are all paths |
| `Mine.RepresentativeIs` | scripts/decbench/mine.py:237-241 | an unoptimised case when there is one, of the largest margin among the eligible, and of those the one with the last id |
| `Mine.PoolInOrder` | scripts/decbench/mine.py:287-351 | each tier goes through its groups in its order |
| `MineMeaning.TierGroups` | scripts/decbench/mine.py:287-346 | which groups each tier goes through, by margin |
| `MineMeaning.TierOrder` | scripts/decbench/mine.py:287-351 | in which order: kuna-specific or multi-level groups first, then by margin, levels and id |
| `MineMeaning.BeforeIs` | scripts/decbench/mine.py:289-290 | the order of ids: the first differing character, or the shorter one |
| `MineMeaning.ProjectsInOrder` | scripts/decbench/mine.py:319-323 | the projects of tier S by the length of their queues and then by name, each queue in the tier's order |
| `Mine.Picker.Take` | scripts/decbench/mine.py:274-284 | taken unless picked, over the project cap, or degenerate outside tier A on a structural metric |
| `MineMeaning.FirstFreeIsTaken` | scripts/decbench/mine.py:274-356 | while a tier has a place, the first group of its pool that nothing holds back is taken, and the tier goes on behind it |
| `MineMeaning.TurnTakesFirstFree` | scripts/decbench/mine.py:330-334 | a project's turn takes its first such group and passes over those before it for good |
| `Mine.Picker.CountTier` | scripts/decbench/mine.py:293 | the number of picks of a tier |
| `Mine.Picker.PickSpread` | scripts/decbench/mine.py:286-312 | tiers L and M: the greedy picks of the pool in its order, up to the cap, two per project |
| `Mine.Picker.OneTurn` | scripts/decbench/mine.py:330-334 | a project's turn ends at its first taken group, as the specified turn does |
| `Mine.Picker.OneRound` | scripts/decbench/mine.py:327-334 | each round is the specified round and passes at least one group |
| `Mine.Picker.PickRoundRobin` | scripts/decbench/mine.py:324-334 | the round robin ends, with the specified picks |
| `Mine.Picker.PickInOrder` | scripts/decbench/mine.py:336-356 | tier A and the top-up: the greedy picks of the pool in its order |
| `Mine.SelectAll` | scripts/decbench/mine.py:286-356 | exactly the specified picks of all tiers one after the other; every tier goes on until it is full or nothing is left to pick |
| `Mine.SelectQueue` | scripts/decbench/mine.py:244-376 | the specified picks, up to the wanted number: distinct groups, at most four per project, tiers within 8, 10, 7 and 3, at most want; if fewer, every group left out is held back by its project or a degenerate source |

## Left out

- The Rust decompiler, subprocesses, git and gh calls, WASI, fetch, the file system below atomic replacement: not part of this model.
- Zip.MakeZip: names and string payloads are given as bytes; TextEncoder is not modelled.
- WorkerClient.KunaWorkerClient.SpawnWorker: a worker factory that throws, the URLs, and the wording of errors are not modelled.
- WorkerClient.KunaWorkerClient.AfterResult: list, decompile and project check only the generation again, as in the code, so nothing is claimed about which session they end in beyond one consistent session.
- Worker.KunaWorker.Dispatch: the language parameter, which setBinary does not copy, the test for a safe integer id, unknown methods and the name of a project archive are not modelled.
- NeedValues.ScalarRoundTrip: floats are known by their repr and finite; `\d` is read as an ASCII digit; int() of a float too large to convert, which raises, is an uninterpreted conversion.
- NeedRecord.ParseLoop: decoding with replacement characters is not modelled; the two regular expressions over the text are written as conditions on its lines.
- NeedRoundTrip.RecordRoundTrip: keys match the field pattern and section names are such as a heading yields; other names do not come back as themselves.
- NeedBacklog.Backlog.UpsertNeed: the directory of rejected needs is not told apart from the other, and the pattern and range checks of validate() on credibility, probe_id and acceptance_id are one uninterpreted predicate, which sees no list.
- NeedFiling.FilingTwice: of a written record in which a string holds an exotic line break, or a trimmed body a heading line or a carriage return, it says nothing, since what the stray lines happen to say decides; floats are finite, since infinite ones are printed as words.
- NeedAcceptance.StatusHistory: over whole histories closing_pr holds no exotic line break and each file is named after its need; NeedStray.ClosedIsLoaded and NeedAcceptance.MisnamedUnmoved say what one row does otherwise.
- InventoryStore.State.DoRegister: the start time of a worker, which only the status display reads, is not modelled.
- InventoryStore.State.DoUpdate: the note of a worker is not modelled.
- InventoryStore.State.ReapTheWorkers: the note written on a failed worker is not modelled.
- InventoryStore.State.DoReap: notes and the order of the reported lists are not modelled; a corrupt inventory file, which the code reads as empty, is not either.
- Captain.Round.OperatorResume: the control files and checks before and under the lock are one condition; spend, slate and time stamps are left out, and one round is modelled.
- Captain.Round.Recover: models recover() as running alone; StepKeepsPath says exactly when that matters.
- Probe.Evaluate: the probe is taken as normalised; canonical_expect, validation, regex timeouts, the texts shown in a verdict and the choice of a baseline are not modelled; floating-point rounding of means is not modelled (reals).
- ProbePath.ParsePathLoop: int() on a bracketed token is an uninterpreted function that reads back decimal text.
- PairingCode.PairVariables: type normalisation, uncommitted sizes and the calibration are inputs; a ground-truth list given as null counts as empty.
- Layout.StructLayout: DWARF attribute access and type resolution are inputs of each member.
- Trex.MeasureTrex: type spellings arrive parsed, variables arrive paired, and rounded means are left out.
- Patch.RewriteLoop: lines are cut at newlines only, and the wording of errors is left out.
- Mine.SelectQueue: the grouping of cases and the fields copied into the queue are left out; want is not negative.
- Ranking, opportunities, clustering, dashboards, reports, table and Markdown output, sweeps and configuration: they would add easy members only.
