# FLVMeta: what the metadata injector and its libraries promise

FLVMeta reads a Flash Video (FLV) file, gathers what a player wants to know about it, and writes the file again with an
`onMetaData` tag that says so. That tag holds an index of keyframe offsets and the sizes of the file, so it has to know
the layout of an output that does not exist yet and that its own size moves. This project is a model of that program in
Dafny 4.11 with proofs of what it promises. `dafny verify dfyconfig.toml` checks all of it.

The model follows the program's own parts:

* **The injector.** `Flv` is the tag format, `FlvStream` the stream over it and `FlvUses` what its reads leave behind;
  `FlvClock` corrects timestamps; `FlvInfo` is the first pass and the tags it meets, `FlvMetadata` the new tree and its
  layout, `FlvUpdate` the second pass, `FlvUpdater` both of them in one operation. `FlvLayout`, `FlvTheorems`,
  `FlvRescan`, `FlvFixpoint`, `FlvUpdater` and `FlvPlayer` prove what comes out: the index and the totals are those of the
  output, content is kept, and updating again changes nothing. `FlvExamples` has files on which they are not.
* **The AMF0 codec.** `Amf` holds reader and writer as functions, `AmfIo` the ones that run over a moving cursor and a growing
  output, `AmfList` the doubly linked list, and `AmfLaws` the round trip and the sizes (sections 2.2 to 2.5, 2.7, 2.8 and
  2.10 to 2.13 of the Action Message Format AMF 0 specification).
* **The bundled YAML library.** `YamlText`, `YamlQuoted` and `YamlQuotedIo`: double-quoted scalars, written and scanned.
  `YamlQueue`: the growing queue, stack and string. `YamlTokens` and `YamlScanner`: tokens, simple keys, indentation;
  `YamlAssertion`: two texts on which an assertion of the scanner fails. `YamlMachine` and `YamlParser`: tokens to events;
  `YamlGrammar`, `YamlSentences`, `YamlBalance` and `YamlRefused`: exactly which sentences of the documented grammar are
  read. `YamlEvents`, `YamlEmitter` and `YamlPipe`: events and the emitter with its lookahead.
* **Three small cores.** `Bits` and `Sps`: the H.264 bit reader and the picture size from a sequence parameter set.
  `Getopt`: the permutation of the argument vector. `Json` and `JsonDump`: the JSON dump with its one comma bit.

Where the program changes things in place, the model does: streams, cursors, outputs, scanners, parsers, emitters, queues
and lists are classes, and each method is proved against a function of the old state. The theorems are lemmas about those
functions. A file is a sequence of bytes with a position; an output is the sequence of bytes written so far; a stored number
is its 64-bit pattern, made by an arbitrary function from exact real numbers.

Some documented properties turned out to be false of the code. Each has a lemma that shows it and, where one could be
found, the exact condition under which the code does what it should:

* Index positions of keyframes in front of an `onMetaData` tag that is not the first one are wrong
  (`FlvTheorems.EarlyKeyframeIsMisplaced`, and on a file `FlvExamples.KeyframeIsMisplaced`).
* So are those of keyframes that are later than the last tag, if an `onLastSecond` tag is inserted behind them
  (`FlvTheorems.IndexError`, and on a file `FlvExamples.LateKeyframeIsMisplaced`).
* An `onLastSecond` tag is counted even if there is no tag to put it in front of (`FlvTheorems.FileSizeIsExact`, and on a
  file `FlvExamples.LoneMetadataIsMiscounted`).
* Reading the metadata of a script body no longer than its name loses the tag behind it (`FlvUses.ShortBodyIsLost`, and on a
  file `FlvStream.MetadataLosesATag`); when a walk over the tags is lost is said by `FlvStream.Stream.Walk`.
* An update in place reports an error when the file is a multiple of 4096 bytes long (`FlvUpdater.CopyBack`).
* The count of an associative array is wrong for many numbers of members, of which 128 is the least (`AmfLaws.EcmaCountExact`).
* Invalid bytes of a YAML string come back as other characters (`YamlQuoted.QuotedScalarReadsBack`), and control
  characters of a JSON string as other control characters (`Json.StringsUnchanged`).
* The YAML scanner asserts that a required simple key is always allowed, and calls the contrary impossible. The assertion
  fails on ` a: "b\n"c` and ` a: [b\n]c`, with a line break for `\n` (`YamlAssertion.AssertionIsReached` and
  `YamlAssertion.FlowAssertionIsReached`): the last character is in column 1, at the indentation, on a line that began
  inside a quoted scalar or a flow collection. `YamlScanner.Scanner.SaveSimpleKey` says that it fails on no other lines.
* Some sentences of the grammar that the YAML parser documents are refused, such as `[?]`, `[? , a]`, `[? : v]` and `: a`;
  `YamlRefused.SentenceIsRead` says which.
* Inserting at the ends of an AMF list leaves a link unset (`AmfList.List.InsertBefore`, `AmfList.List.InsertAfter`).
* The picture size of cropped interlaced, 4:2:2 or 4:4:4 video is not the standard's (`Sps.SizeIsStandard`).

## Model

| member | source | states |
|---|---|---|
| FlvUpdater.Update | src/update.c:257-314 | The whole update of any file, as two passes over it: it succeeds exactly for FLV files whose tags, as the first pass meets them, are all accepted, and whose tags, as the second pass meets them, are there as far as the copy buffer takes their bodies; what it then writes is given byte for byte; if script bodies leave the reader in step that is `Output`, which the theorems below are about |
| FlvUpdater.WritesOutput | src/update.c:100-246 | If every tag is left in step the two passes meet the same tags, the copy buffer cuts no body, and the bytes written are those of the planned tags |
| FlvPlayer.PlayerSeeks | src/info.c:672-720 | What a player finds: the first tag of the output is read as onMetaData; the first member named `filesize`, unless the user has added one, is the length of the file it stands in, the first named `datasize` 11 bytes and the body of every script tag of that file, and the first named `keyframes` an index: every entry is the time and the byte offset of a keyframe of that file, and every keyframe is listed by its time |
| FlvTheorems.IndexIsExact | src/info.c:680-699 | The seek index is exact: with the old onMetaData absent or first and corrected times that never fall, each position that is stored before a byte is written is the offset, in the output, of the copy of its keyframe |
| FlvTheorems.IndexError | src/info.c:680-699 | Without those limits: every index entry belongs to a copied keyframe with its time, and its position is off by exactly the shift of a replaced tag that comes later and of an onLastSecond tag that is counted on the wrong side |
| FlvTheorems.EarlyKeyframeIsMisplaced | src/info.c:688-699 | A false case, exactly: when an onMetaData tag that is not the last is replaced, with or without an onLastSecond tag, the position of a keyframe is right if and only if the tag stands in front of it or the new tag is as big as the old one |
| FlvTheorems.PositionIsRight | src/info.c:688-699 | The same wherever the replaced tag stands, the last place included: a position is right if and only if the growth of the metadata behind it and the shift for an onLastSecond tag that is not in front of it are none or cancel |
| FlvExamples.KeyframeIsMisplaced | src/info.c:688-699 | The false case happens: for a file of a keyframe, an old onMetaData tag with nothing in it and an audio tag, which every such update accepts, the position stored for the keyframe is wrong whatever the options |
| FlvExamples.LateKeyframeIsMisplaced | src/info.c:688-699 | Nor are they right when corrected times fall: in a file of an audio tag at 1, a keyframe at 20001 and an audio tag at 10001 milliseconds, the position stored for the keyframe counts an onLastSecond tag that is written behind it |
| FlvTheorems.FileSizeIsExact | src/info.c:711-718 | The stored file size is the number of bytes of the output if and only if an onLastSecond tag that is counted finds a tag to stand in front of; otherwise it is 38 too big |
| FlvTheorems.DataSizeIsExact | src/info.c:702-710 | The stored data size is the sum over the script tags of the output of 11 bytes and the body, under the same condition; otherwise it is 34 too big |
| FlvTheorems.LastTagIsLate | src/update.c:174-199 | The condition of the two rows above holds whenever the last input tag is not the replaced one |
| FlvExamples.LoneMetadataIsMiscounted | src/info.c:702-718 | And it can fail: a file whose only tag is onMetaData is updated, and whenever an onLastSecond tag is to be inserted, the stored file size is 38 and the stored data size 34 too big |
| FlvTheorems.ContentIsKept | src/update.c:105-246 | Every input tag but the replaced one is in the output, in order, with type, stream and body unchanged and the corrected time; the output has besides them exactly one onMetaData tag, in front or in the place of the old one, and at most one onLastSecond tag, in front of the first tag of the last second |
| FlvTheorems.ReplacedIffFound | src/info.c:371-396 | The tag the second pass replaces is the one the first pass has taken for onMetaData, and no other |
| FlvTheorems.Placement | src/update.c:57-246 | After any number of input tags the output is as long as the input up to there, plus what the new metadata and the inserted tag have moved by then |
| FlvUpdater.StoredLayoutIsTrue | src/info.c:672-720 | File size, data size and index, together, are true of the file that is read back: its tags are those that were written, and every index entry points at a keyframe among them |
| FlvUpdater.UpdateIsFixpoint | src/update.c:257-314 | The output can be updated again, and its update at any later time is what the first update would have written at that time; at the same time no byte changes, and no second onLastSecond appears |
| FlvUpdater.RescanFindsStored | src/check.c:1336-1407 | Reading the output again gathers exactly the times and positions that are stored in it and predicts the same totals, which is the comparison the checker makes |
| FlvUpdater.SecondScan | src/info.c:189-541 | What the first pass gathers from the output mirrors, in every field, what it gathered from the input: same media, shifted offsets, one more script tag |
| FlvFixpoint.Follows | src/info.c:240-541 | The simulation behind it: after the output of any number of input tags the second scan mirrors the first one, and has accepted every tag so far |
| FlvFixpoint.SameStep | src/info.c:271-513 | One tag of that simulation: scanning a copy keeps the mirror, and a copy of an accepted tag is accepted |
| FlvPlayer.PlainRepeats | src/update.c:257-314 | The limits of these theorems are met by every file of framed media tags, with times that never fall, that is small enough for its index to fit a tag: no such file is left out |
| FlvPlayer.MetadataIsSmall | src/info.c:543-671 | Besides the user's members, the creator and 18 bytes for each keyframe the new onMetaData body has at most 1200 bytes, so that it fits a 24-bit length unless there are some hundred thousand keyframes |
| FlvUpdater.CanonicalKeepsStep | src/flv.c:257-329 | Script bodies that hold a written name and value keep the reader in step with the tags |
| FlvInfo.MetIffInStep | src/flv.c:257-329 | The first pass, which reads script bodies, meets the tags that the second pass meets if and only if behind every tag of the file the reads of the first leave the reader where the next one is found, or rightly none |
| FlvUpdater.CopyBack | src/update.c:315-349 | Copying the temporary file back in blocks of 4096 bytes copies every byte, but reports an error exactly if the last block is full |
| FlvInfo.GetFlvInfo | src/info.c:189-541 | The first pass, over the stream, gathers exactly the fold of its per-tag effects over the tags it meets, each of them where reading the one before has led, in step or not; it is done if and only if every tag is accepted in turn |
| FlvInfo.MetaTag | src/info.c:331-408 | A script tag is onMetaData if none was found before and its name, as far as it goes, is that of onMetaData; otherwise it is counted; names that are prefixes match too |
| FlvInfo.VideoTag | src/info.c:410-478 | A video tag sets codec, frame size, frame count and sizes, and the keyframe index takes it unless the last keyframe had the same time |
| FlvLayout.IndexIsKeyTags | src/info.c:446-461 | The index lists, in file order, offsets and times of keyframe tags and of nothing else |
| FlvLayout.EveryKeyframeIsIndexed | src/info.c:446-461 | No keyframe is left out of the index, unless an earlier indexed one has the same time and not all keyframes are wanted |
| FlvLayout.CountedSizes | src/info.c:395-513 | The sizes counted by tag type add up to the length of the file up to its last tag |
| FlvLayout.FoundMetadata | src/info.c:371-396 | At most one tag is noted for replacement; it is a script tag named onMetaData, noted with its offset and full size |
| FlvMetadata.ComputeMetadata | src/info.c:543-720 | The layout that is stored is computed from the size of a tree that does not hold it yet, and is the final one all the same |
| FlvMetadata.BodySizeIsFinal | src/info.c:672-679 | The body size is the same whatever positions, totals and date are stored in the tree |
| FlvMetadata.ShiftPositions | src/info.c:680-699 | The loop over the index shifts every position by the change in the tag size and by 38 in the last second |
| FlvUpdate.WriteFlv | src/update.c:39-254 | The second pass, with whatever the first has gathered, writes exactly the header and what is planned for each tag, and is done if and only if every copied tag is there as far as the copy buffer takes it |
| FlvUpdate.WriteOne | src/update.c:105-246 | One turn of its loop: an onMetaData tag in place of the old one, or the tag itself, its body cut to the copy buffer, behind an onLastSecond tag if it is the first late one |
| FlvUpdate.WriteHeader | src/flv.c:450-463 | A tag header is written in the byte order that reading it undoes |
| FlvUpdate.BiggestBody | src/update.c:203-210 | The copy buffer, sized by the first pass, is never too small for a body that pass has met |
| FlvLayout.WrittenIsRead | src/update.c:57-246 | Framing: reading a written file finds exactly the tags that were written, contiguous, each followed by 4 bytes that hold 11 plus its body length |
| FlvRescan.WrittenIsSeen | src/info.c:240-330 | A written file whose times never fall is seen with exactly those times |
| FlvRescan.ScriptReadsBack | src/flv.c:257-329 | A script body that starts with a written name and value reads as those wherever it stands |
| FlvRescan.MetadataHolds | src/info.c:543-671 | The new onMetaData body reads back as the tree that was stored |
| FlvClock.UnwrapsIffFollowed | src/info.c:281-310 | Timestamp correction of one tag type whose true clock never falls gives back the true clock from its low 24 bits if and only if every step is one the correction can follow |
| FlvClock.SlowClockUnwraps | src/info.c:281-310 | It does so for every clock that advances by less than 2^20 milliseconds a tag |
| FlvClock.TrueTimesAreGiven | src/info.c:271-310 | The same for each type among all tags of a file, whatever the other types do |
| FlvClock.UnchangedIffNoDrop | src/info.c:281-310 | Times are left alone if and only if none falls by more than 0xF00000 milliseconds below the one before |
| FlvClock.RisingIsCorrect | src/update.c:115-144 | Times that never fall among all tags are left alone, so that correcting twice is correcting once |
| FlvClock.TypesAreIndependent | src/update.c:115-144 | The three clocks kept side by side are those of the three types kept alone; both passes use them |
| FlvStream.Stream.Walk | src/flv.c:93-351 | The tag walk, whatever mix of audio, video, metadata, body and previous-size reads is made of every tag: the headers found are those of the chain from byte 13 on if and only if no tag of the chain is left out of step by its reads |
| FlvUses.OtherReadsKeepStep | src/flv.c:93-351 | Reads that are not of metadata, in any number and order and of whatever is left of the body, leave every tag in step |
| FlvUses.MetadataStep | src/flv.c:257-329 | Reading the metadata of a body that stops no pass keeps the stream in step if and only if what the sizes count fits where the reader stands |
| FlvUses.ShortBodyIsLost | src/flv.c:281-295 | A false case, exactly: after a script body no longer than its name the next header is looked for four bytes into the body, whatever its length, so that the tag behind is lost unless the file ends there |
| FlvStream.MetadataLosesATag | src/flv.c:281-295 | It happens: in a file of 40 bytes, with a null for a script body, the second tag is lost |
| FlvStream.Stream.ReadTag | src/flv.c:122-168 | A tag is found if and only if 11 more bytes are there, at the next offset of the chain, and decoded from those bytes |
| FlvStream.Stream.ReadHeader | src/flv.c:68-91 | A file is FLV if and only if it has 9 bytes and starts with the signature; the first tag is then at 13 |
| FlvStream.Stream.ReadPrevTagSize | src/flv.c:93-119 | The previous tag size is read from the 4 bytes in front of the next tag, from wherever in the tag the stream stands |
| FlvStream.Stream.ReadVideoTag | src/flv.c:214-255 | The video header byte and, for extended codecs, the four-character code are read if the body and the file hold them; an empty tag is told from the end of the file |
| FlvStream.Stream.ReadBody | src/flv.c:331-351 | At most the rest of the body is read, and never more than the file holds |
| FlvStream.Stream.ReadMetadata | src/flv.c:257-329 | Reading a script body, from wherever in it the stream stands, gives name and value as the codec reads them and moves the stream as the size of each is counted; an empty tag is told from the end of the file |
| FlvStream.Stream.Reset | src/flv.c:361-370 | After a reset the stream sees the same tags again |
| Flv.HeaderInverse | src/flv.c:122-168 | Decoding a tag header undoes encoding it, timestamp extension included |
| AmfLaws.RoundTripIffNamed | src/amf.c:466-501 | A tree that fits its 16- and 32-bit counts reads back, from its written bytes anywhere in an input and followed by anything, as the same tree with the cursor behind it, if and only if no member of an associative array has an empty name |
| AmfLaws.RoundTrip | src/amf.c:304-501 | The round trip of any such tree, by recursion over its parts |
| AmfLaws.NamelessIsLost | src/amf.c:355-412 | The other half: a tree with an empty name in an associative array never reads back |
| AmfLaws.ReaderCanProduceNameless | src/amf.c:355-412 | The reader itself can produce such a tree from bytes, so writing does not invert reading on all inputs |
| AmfLaws.SizeBound | src/amf.c:466-501 | On any file at all reading never moves back, and a tree that is read has a written size of no more than the bytes passed, an end marker missing at the end of the file counting as one |
| AmfLaws.SizeIgnoresNumbers | src/amf.c:880-884 | Setting numbers anywhere in a tree changes no size |
| AmfLaws.EcmaCountExact | src/amf.c:620 | The count field of an associative array, swapped first and halved afterwards, is right if and only if bits 7, 15 and 23 of the count are clear |
| AmfIo.Source.ReadData | src/amf.c:466-501 | The reader as it runs, over a moving cursor, terminates on all bytes and gives what the reading function gives |
| AmfIo.Source.ReadMembers | src/amf.c:304-412 | The loop over members ends at an end marker or an unknown type, in an associative array also at an empty name, and fails at any other error; the count field is ignored |
| AmfIo.Source.ReadElements | src/amf.c:414-451 | The loop over a 32-bit count of elements ends at the first error |
| AmfIo.Sink.Write | src/amf.c:566-709 | The writer puts out exactly the encoding, and reports its size, if everything fits |
| AmfIo.BufferWrite | src/amf.c:191-230 | Writing to a buffer reports the size of the tree if and only if the buffer is large enough, and then holds the encoding |
| AmfIo.Size | src/amf.c:504-563 | The size predicted by its own recursion is the number of bytes the writer puts out |
| AmfList.List.Push | src/amf.c:35-54 | Appending to the linked list appends to the sequence it stands for |
| AmfList.List.Delete | src/amf.c:100-120 | Unlinking node i removes element i and keeps all links of the others |
| AmfList.List.Pop | src/amf.c:134-136 | Popping takes the last element, or nothing from an empty list |
| AmfList.List.GetAt | src/amf.c:122-132 | Following n links leads to element n, or to nothing behind the end |
| AmfList.List.InsertBefore | src/amf.c:56-76 | Inserting before a node leaves a sound list if and only if it is not the first one |
| AmfList.List.InsertAfter | src/amf.c:78-98 | Inserting after a node leaves a sound list if and only if it is not the last one |
| YamlQuoted.QuotedScalarReadsBack | src/libyaml/emitter.c:2077-2245 | Double-quoted scalars round-trip for every byte string, width, line break style and Unicode flag: the scanner finds the value and the end of the scalar; the value is the same if and only if it is well-formed UTF-8 without surrogates, a surrogate is refused, and a byte outside any character comes back as the character of that number |
| YamlQuoted.UnchangedIffWellFormed | src/libyaml/scanner.c:3092-3257 | The repaired value is the value itself if and only if that is well-formed |
| YamlQuoted.WordReadsBack | src/libyaml/scanner.c:2992-3359 | The induction behind it: from any character on, at any column, in a fold or not |
| YamlQuoted.UnescapeOf | src/libyaml/scanner.c:3092-3257 | The scanner undoes the escape sequence of every code point but the surrogates, which it refuses |
| YamlText.Utf8OfCode | src/libyaml/scanner.c:3225-3257 | Encoding the decoded code point of a well-formed character gives its bytes back |
| YamlQuotedIo.Writer.WriteDoubleQuoted | src/libyaml/emitter.c:2077-2245 | The writer as it runs, with its columns and indentation, puts out exactly the rendered text in quotes |
| YamlQuotedIo.Writer.EmitDoubleQuoted | src/libyaml/emitter.c:1025-1041 | Emitting a scalar in any context gives text from which the scanner reads the repaired value, and restores the indentation |
| YamlQuotedIo.Writer.Decode | src/libyaml/emitter.c:1495-1529 | The loop over the bytes of a character yields its code point |
| YamlQuotedIo.Reader.ScanFlowScalar | src/libyaml/scanner.c:2992-3359 | The scanner as it runs, with its three strings and the leading-blanks flag, gives what the scanning function gives |
| YamlQueue.Queue.Enqueue | src/libyaml/yaml_private.h:446-453 | The pointer queue appends to the sequence it stands for, growing or compacting its memory as needed |
| YamlQueue.Queue.Extend | src/libyaml/api.c:136-163 | Growth by doubling or by moving down keeps the contents and makes room |
| YamlQueue.Queue.Insert | src/libyaml/yaml_private.h:458-468 | Moving the tail of the block up by one inserts at the index |
| YamlQueue.Queue.Dequeue | src/libyaml/yaml_private.h:455-456 | Dequeuing takes the first element |
| YamlQueue.Stack.Push | src/libyaml/api.c:118-129 | The stack grows by doubling and keeps what it holds |
| YamlQueue.Text.Extend | src/libyaml/api.c:74-88 | A growing string keeps its contents and a cleared rest |
| YamlQueue.Text.Join | src/libyaml/api.c:95-111 | Joining appends the other string and leaves that one as it was |
| YamlQueue.Text.Clear | src/libyaml/yaml_private.h:139-141 | A cleared string is empty and its memory zero |
| YamlQueue.Text.FirstIsZero | src/libyaml/scanner.c:3310 | The test of the first byte tells an empty string from one whose bytes are not zero |
| YamlScanner.Scanner.InsertKey | src/libyaml/scanner.c:1695-1728 | Simple-key safety: the retroactive KEY, and the block mapping start in front of it if the key is indented further, go in front of the token that begins where the key was saved, a token that has not been handed out |
| YamlScanner.Scanner.FetchValue | src/libyaml/scanner.c:1695-1770 | A value indicator turns a possible simple key into a KEY at its place, with the indentation of the mapping that opens, or rolls the indentation, and is accepted if and only if there is such a key, a flow collection or a place for one; one character is passed |
| YamlScanner.Scanner.FetchMoreTokens | src/libyaml/scanner.c:813-866 | When a token may be handed out no possible key names it, so nothing will be inserted in front of it |
| YamlScanner.Scanner.StaleSimpleKeys | src/libyaml/scanner.c:1069-1102 | Exactly the keys on earlier lines or more than 1024 characters back are given up, and it fails if and only if one of those is required |
| YamlScanner.Scanner.SaveSimpleKey | src/libyaml/scanner.c:1110-1147 | The key that is saved names the token that comes next, and saving fails if and only if the key given up is required; a false case: the assertion marked as impossible fails at a token in the column of its block collection where no key is allowed, at any token only on a line that began inside a quoted scalar or a flow collection, and there at every token in that column unless a stray comma stands before it |
| YamlAssertion.AssertionIsReached | src/libyaml/scanner.c:1122-1127 | It happens: the scanner, from its start, token by token over a mapping whose quoted value spans two lines and is followed by a character in column 1, gets to the failing assertion |
| YamlAssertion.FlowAssertionIsReached | src/libyaml/scanner.c:1122-1127 | The same when the value is a flow sequence that is closed in column 0 of the next line |
| YamlAssertion.TextsAreLexed | src/libyaml/scanner.c:2992-3359 | The lexers these two ask for exist: one that scans quoted scalars as the library does and finds the plain scalars of the two texts moves as tokens must |
| YamlScanner.Scanner.RemoveSimpleKey | src/libyaml/scanner.c:1154-1174 | Only the innermost key is given up, and it fails if and only if that one is required |
| YamlScanner.Scanner.RollIndent | src/libyaml/scanner.c:1222-1260 | A block collection begins if and only if the column is behind the indentation |
| YamlScanner.Scanner.UnrollIndent | src/libyaml/scanner.c:1270-1296 | One block end for every level behind the column, and only those levels go |
| YamlScanner.Scanner.FetchStreamStart | src/libyaml/scanner.c:1303-1334 | The stream start is the first token, no collection is open, and a simple key is allowed behind it |
| YamlScanner.Scanner.FetchStreamEnd | src/libyaml/scanner.c:1341-1372 | The end of the text ends its line and all block collections outside flow ones, and is the last token |
| YamlScanner.Scanner.FetchDirective | src/libyaml/scanner.c:1379-1408 | A directive ends all block collections and the possible key |
| YamlScanner.Scanner.FetchDocumentIndicator | src/libyaml/scanner.c:1415-1453 | A document marker ends all block collections and the possible key |
| YamlScanner.Scanner.FetchFlowCollectionStart | src/libyaml/scanner.c:1460-1496 | A flow collection may itself be a key; a level without a key lies on top of it |
| YamlScanner.Scanner.FetchFlowCollectionEnd | src/libyaml/scanner.c:1503-1539 | The end of a flow collection gives up the key inside it and uncovers the one outside |
| YamlScanner.Scanner.FetchFlowEntry | src/libyaml/scanner.c:1546-1574 | A comma gives up the key and allows another |
| YamlScanner.Scanner.FetchBlockEntry | src/libyaml/scanner.c:1581-1635 | A block entry outside flow collections needs a place where a key is allowed, and opens a sequence if it is indented further |
| YamlScanner.Scanner.FetchKey | src/libyaml/scanner.c:1642-1688 | A key indicator likewise opens a mapping |
| YamlScanner.Scanner.FetchKeyable | src/libyaml/scanner.c:1777-1924 | Aliases, anchors, tags and scalars are saved as possible keys, and no other key is allowed behind them unless a plain scalar ends on a later line; they fail if and only if saving the key fails or the text is refused; a double-quoted scalar is taken if and only if the scanning function of those scalars reads one, and up to where it ends |
| YamlScanner.Scanner.FetchBlockScalar | src/libyaml/scanner.c:1838-1862 | A block scalar gives up the key and allows another |
| YamlScanner.Scanner.ScanToNextToken | src/libyaml/scanner.c:1931-1994 | Nothing but blanks, line breaks and comments is passed, all of it; the mark behind it counts its lines, columns and characters, and keys are allowed if they were or a new line outside flow collections has begun |
| YamlScanner.Scanner.Scan | src/libyaml/scanner.c:755-788 | Each call hands out one token until the end of the stream, and none after it |
| YamlScanner.Scanner.ScanAll | src/libyaml/scanner.c:755-866 | A whole token stream begins and ends as it should, closes no block collection before it is opened, and closes all of them unless a flow collection is left open; it always ends |
| YamlTokens.KeyTaken | src/libyaml/scanner.c:1695-1728 | In every state the possible keys have strictly rising token numbers between the tokens handed out and those in the queue; taking the innermost one and inserting in front of it keeps that, and the nesting of block collections |
| YamlMachine.StepIsRight | src/libyaml/parser.c:226-304 | Every step of the parser, in every reachable state and on any token, puts out an event that fits where the stream is, keeps the heights of the state and mark stacks in agreement, so that neither is popped when empty, and makes progress |
| YamlMachine.ParseIsRight | src/libyaml/parser.c:226-1203 | On any tokens the events are the beginning of a balanced stream, and a balanced stream if there is no error |
| YamlRefused.SentenceIsRead | src/libyaml/parser.c:1-40 | The parser against its documented grammar, exactly: of a sentence, block and flow, it puts out the events that the sentence means if and only if every VALUE of a block mapping has its KEY, and every flow-sequence pair without a key has no value and loses nothing but a VALUE or the last comma behind it; every other sentence is refused |
| YamlSentences.SentencesParse | src/libyaml/parser.c:306-1203 | The half that reads: by running the parser over the sentence, with exactly its events |
| YamlRefused.NodeBreaks | src/libyaml/parser.c:529-717 | The half that refuses: a node with anything in it that is not read leads to an error, or to the loss of the end of a flow sequence, wherever it stands |
| YamlBalance.SuccessBalances | src/libyaml/parser.c:1013-1034 | Why that loss is never made good, on any tokens: a run that ends well uses up every end of a flow sequence for one that has begun |
| YamlSentences.NodeRuns | src/libyaml/parser.c:529-717 | The induction behind it: any node, in front of anything that can follow one, is read completely and returns to the state below |
| YamlSentences.KeylessPairLosesToken | src/libyaml/parser.c:1013-1034 | Where a pair of a flow sequence has no key, the token behind it is skipped, whichever it is |
| YamlSentences.KeylessValueIsRefused | src/libyaml/parser.c:1007-1034 | An instance, for every value: a document of one pair without a key but with a value is an error, after exactly these events |
| YamlRefused.KeylessEntryIsRefused | src/libyaml/parser.c:835-886 | Another: a stream that begins with a block mapping whose first entry is a VALUE, as `: a` is scanned, is an error after exactly these events, whatever follows |
| YamlRefused.KeylessEntryIsDocumented | src/libyaml/parser.c:26-29 | The tokens of that text are a sentence of the documented grammar |
| YamlParser.Parser.ParseAll | src/libyaml/parser.c:226-304 | The parser as it runs gives the events and the verdict of the function, for which the theorems above hold |
| YamlParser.Parser.ParseNode | src/libyaml/parser.c:529-717 | One node: the stack, the tokens left and the event are those of the function, and so is failure |
| YamlParser.Parser.ParseDocumentStart | src/libyaml/parser.c:342-431 | The start of a document, implicit or not, or the end of the stream |
| YamlParser.Parser.ParseFlowSequenceEntry | src/libyaml/parser.c:951-1004 | An entry of a flow sequence: separators, pairs and the end |
| YamlParser.Parser.ParseBlockMappingKey | src/libyaml/parser.c:835-886 | A key of a block mapping, or its end |
| YamlEvents.RightIsPrefix | src/libyaml/emitter.c:430-494 | A run of events has not gone wrong if and only if it can be completed to a balanced stream |
| YamlEvents.ClosingCloses | src/libyaml/emitter.c:430-494 | The completion that closes everything open is one |
| YamlEmitter.Emitter.EmitAll | src/libyaml/emitter.c:287-303 | The emitter accepts every balanced stream whose texts pass their checks, and ends with empty state and indentation stacks, indentation -1 and flow level 0; without an error at most three events are unwritten. Its lookahead is exact: every collection is entered in flow or block style, and every key is written as a simple key or not, as is chosen with the whole stream visible |
| YamlEmitter.Emitter.Emit | src/libyaml/emitter.c:287-363 | Events are written in the order in which they come, at most three wait between calls, and an error comes exactly at an event that is refused or does not fit |
| YamlEmitter.Emitter.EmitHead | src/libyaml/emitter.c:430-494 | The first event of the queue is written if and only if it fits where the stream is |
| YamlEmitter.Emitter.NeedMoreEvents | src/libyaml/emitter.c:315-363 | The first event must wait if and only if it opens something, fewer than one, two or three others (after a document, sequence or mapping start) have come, and what it opens is not yet closed in the queue |
| YamlEmitter.NothingWaits | src/libyaml/emitter.c:315-363 | At the end of a balanced stream no event is left waiting |
| YamlEmitter.Emitter.StyleNext | src/libyaml/emitter.c:1048-1180 | One step of that: the style of the first waiting event, chosen from the state and the queue, is the one it has in the whole stream |
| YamlEmitter.StylesExtend | src/libyaml/emitter.c:1096-1180 | A style that is chosen is not changed by any later event |
| YamlPipe.ParseAndEmit | src/libyaml/emitter.c:287-303 | The two automata agree: whatever tokens are parsed without error, the emitter writes exactly those events, and ends with empty stacks |
| Bits.UeReads | src/bitstream.c:52-73 | Unsigned exponential Golomb codes (section 9.1 of ITU-T H.264) decode to their code number wherever they stand, up to 2^31 - 2 |
| Bits.SeReads | src/bitstream.c:75-83 | Signed codes (section 9.1.1) likewise |
| Bits.BinaryReads | src/bitstream.c:32-50 | Reading n bits gives the number that has them as its binary digits |
| Bits.BitBuffer.GetBit | src/bitstream.c:14-30 | The byte and bit cursor is a flat bit index: one bit is read and passed, or the end is told |
| Bits.BitBuffer.GetBits | src/bitstream.c:32-50 | The loop over chunks of bytes reads the same bits, and moves on even if it comes up short |
| Bits.BitBuffer.ExpGolombUe | src/bitstream.c:52-73 | The decoder as it runs, 8-bit zero count included |
| Bits.BitBuffer.SkipBits | src/bitstream.c:9-12 | Skipping moves the flat index |
| Sps.SetReads | src/avc.c:74-191 | Every sequence parameter set written by the syntax of section 7.3.2.1.1 for the profiles the code tells apart, with scaling lists, any picture order count and cropping, is decoded to the size computed from its fields |
| Sps.SizeIsStandard | src/avc.c:174-190 | For those profiles that size is the one of section 7.4.2.1.1 if and only if the video is subsampled horizontally or not cropped at the sides, and is progressive 4:2:0 or not cropped at top and bottom |
| Sps.ListsRead | src/avc.c:55-69 | Scaling lists, which end early at a zero scale, are passed exactly |
| Sps.Parse | src/avc.c:74-191 | The parser as it runs gives the decoded size for any bytes |
| Getopt.Scanner.Run | src/compat/getopt.c:467-553 | After a whole scan the arguments are the options with their arguments, then the others, and the index is that of the first of those |
| Getopt.PartitionKeepsAll | src/compat/getopt.c:487-544 | No argument is lost or added by that |
| Getopt.PartitionIsStable | src/compat/getopt.c:487-544 | Both groups keep their original order |
| Getopt.Scanner.Exchange | src/compat/getopt.c:253-330 | Swapping the shorter block again and again rotates the two adjacent blocks in place, and ends |
| Getopt.Scanner.NextElement | src/compat/getopt.c:487-548 | Moving on keeps the passed, the skipped and the coming arguments a partition of the original ones; a double dash ends the options |
| Json.ValueReads | src/dump_json.c:30-93 | A JSON reader (RFC 8259) finds in the dump of any tree, at any depth, the structure of the tree, with every string as its bytes are reread |
| Json.StringsUnchanged | src/json.c:36-60 | A string comes back as it was if and only if it holds no control character without an escape letter; those are printed in decimal but read in hexadecimal |
| Json.LiteralReads | src/json.c:36-60 | Every printed string is a well-formed literal of section 7 of RFC 8259 and ends where it should |
| JsonDump.Emitter.Dump | src/dump_json.c:30-93 | One comma bit is enough: whatever came before, the emitter prints exactly the text of the recursive printer, with commas exactly between siblings |
| JsonDump.Emitter.ObjectKey | src/json.c:78-90 | A key takes the pending comma and leaves none in front of its value |
| JsonDump.DumpAll | src/dump_json.c:30-93 | A whole dump is read as the meaning of the tree, up to its last byte |

## Left out

- FlvUpdater.UpdateIsFixpoint: needs the limits that the code needs: the old onMetaData absent or first, corrected times that never fall, another tag besides it, a body below 2^24 bytes, script tags that hold a written name and value, and user members with names that read back.
- FlvMetadata.ComputeMetadata: does not keep the metadata of the input, which an option asks for.
- FlvInfo.VideoTag: looks for the frame size through a parameter; the bit formulas of H.263, Screen and VP6 frames, and the way to the parameter set inside an AVC body, are not modelled.
- Sps.SetReads: knows of the profiles that have chroma formats and scaling lists only 100, 110, 122 and 144, as the code does; the standard gives those fields to 244, 44, 83, 86, 118 and 128 as well. It has scaling matrices of eight lists (4:4:4 video has twelve, of which the reader takes eight) and no emulation prevention bytes, which the reader does not know.
- Sps.SizeIsStandard: is about the same four profiles.
- Bits.UeReads: stops at code numbers of 2^31 - 2; beyond them the 32-bit shifts of the reader depend on the machine and are taken modulo 32.
- YamlScanner.Scanner.FetchKeyable: takes the end of a token whose text is scanned elsewhere (plain, single-quoted and block scalars, anchors, tags, directives) from a lexer that may be any for which `YamlScanner.Fits` holds: it moves forward, and where a token spans lines it stops, and allows a key, as the scanning functions do; only double-quoted scalars are modelled in full, and a lexer that scans them as `YamlQuoted.ScanWord` does is tied to it.
- YamlScanner.Scanner.FetchDirective: takes the end of the directive from that lexer.
- YamlScanner.Scanner.FetchBlockScalar: takes the end of the scalar from that lexer.
- YamlScanner.Scanner.Scan: has the token queue as a sequence; that the pointer queue is one is proved apart, in `YamlQueue`.
- YamlScanner.Scanner.SaveSimpleKey: goes on from a failing assertion as from an error.
- YamlAssertion.AssertionIsReached: takes the plain scalar of the text from the lexer, as does `YamlAssertion.FlowAssertionIsReached`.
- YamlParser.Parser.ParseAll: takes from the text of a token only whether a check on it fails (an unknown tag handle, a repeated or unsupported directive), and has marks without positions; two states that nothing enters are left out.
- YamlRefused.SentenceIsRead: is about the sentences of the grammar; which other token streams the parser happens to accept is not said, only that their events are balanced (`YamlMachine.ParseIsRight`).
- YamlEmitter.Emitter.EmitAll: takes from the text of an event only whether it is refused, its style and whether it can be a simple key; of the text that is written only double-quoted scalars are modelled, in `YamlQuotedIo`.
- YamlPipe.ParseAndEmit: takes it that no text of a parsed event is refused.
- Getopt.Scanner.Run: takes from the option tables only whether an option element needs the argument behind it; the orders RETURN_IN_ORDER and REQUIRE_ORDER, abbreviations and error messages are not modelled.
- JsonDump.DumpAll: has the texts of numbers and dates as parameters.
- Json.ValueReads: has the texts of numbers and dates as parameters, of which it needs that number texts are made of number characters.
- AmfIo.Source.ReadData: has trees as values; that the list they are built on is one is proved apart, in `AmfList`.
- AMF object lookup, replacement and deletion by name, and cloning: they match prefixes, test value nodes and lose null values, so that nothing clean holds of them.
- Error handling other than stopping at the first error: with the modes that skip or repair tags the program itself counts wrongly.
- Keeping the metadata of the input, and verbose output, option tables, dates and time zones.
- The consistency check of `src/check.c`, the XML, YAML and raw dumps with the event interface they use (`flv_parse`), and codec names.
- UTF-16 and the buffering of YAML input and output: the text is a sequence of bytes that ends in a NUL.
- Rounding: times and sizes are exact before they are stored.
- Memory failures and the freeing of memory.
