# Programmierwettbewerb: the protocol core in Dafny

Programmierwettbewerb is a bot programming contest. A Go game server
simulates blobs, food and toxins on a field. A Go middleware sits between
the server and each bot process:
- each tick it writes the visible game state to the bot as one text line
  `([own blobs],[other blobs],[foods],[toxins])`;
- it reads back the bot's reply, an action and a target.

Bots written in C use the header-only library `BotCpp/BotCpp/pwb.h`. It
parses that line by recursive descent and formats the reply.

This project models the following, and proves what each one promises:
- **The `pwb.h` parser as the C code runs it.** A parse context is
  threaded through every parser and mutated in place. It holds:
  - the read position;
  - a sticky success flag;
  - a ten-slot frame stack;
  - the current and the maximum nesting depth.

  List parsers fill fixed arrays of 2000 elements. The context is cloned
  once to probe for an empty list.
- **The middleware's encoder and its reply parser.**
- **The operator commands that pick which bots to start.** These are the
  distribution server and the server's distribution package.
- **The point quadtree of the server.**
- **Smaller helpers of the server:**
  - logging;
  - id allocation;
  - clamping and grayscale conversion;
  - blob splitting;
  - the nickname registry.

Files and modules:
- `wrappers.dfy` (`Wrappers`): `Option`.
- `pwb_data.dfy` (`PwbData`): the value types of `pwb.h`, the frame
  slots, parser names and error messages.
- `pwb_grammar.dfy` (`PwbGrammar`): the language the parsers accept, as
  a reference grammar over the input text.
  - The C library's `sscanf` `%i`/`%f` conversions (ISO/IEC 9899:2011,
    section 7.21.6.2) are function parameters.
  - They carry only the guarantee that a successful conversion consumes
    at least one character.
- `pwb_spec.dfy` (`PwbSpec`): the parse context as a value, and every C
  parser as a function on it. There are two kinds of lemma:
  - frame-discipline lemmas, that push and pop are balanced;
  - agreement lemmas, that each parser accepts exactly what the grammar
    accepts.
- `pwb_parser.dfy` (`PwbParser`): the `ParseContext` class with its
  frame `array`, the primitives and the record parsers as methods. Each
  method is proved against its `PwbSpec` function.
- `pwb_lists.dfy` (`PwbLists`): the fixed-capacity element arrays and the
  two list parsers with their loops.
- `pwb_game.dfy` (`PwbGame`): `parseAll` and `pwb_parseAll` writing the
  four arrays of `VisibleGameState`.
- `pwb_properties.dfy` (`PwbProperties`): properties that relate several
  parsers. These cover the error slot, the report, the success flag and
  empty lists.
- `pwb_command.dfy` (`PwbCommand`): `pwb_toString`, and the round trip of
  a reply through the middleware's reply parser.
- `go_shared.dfy` (`GoShared`): the shared Go types and constants, `Max`,
  `Min`, and the gating and padding rules of `log`.
- `middleware.dfy` (`Middleware`): `firstN`/`abbreviate`, the encoder,
  and the reply parser.
- `wire_format.dfy` (`WireFormat`): the line the encoder writes, read by
  `parseAll`. It covers the whole line, the four lists, and each element.
- `distribution.dfy` (`Distribution`): the command selection of
  `parseCommand`/`parseRunCommand`, the expansion of `all`, the host
  assignment of `startBots`, and the command classification.
- `quadtree.dfy` (`QuadTreeData`): the quadtree of `data.go`.
- `server.dfy` (`GameServer`): the id allocators and the id seeding of
  `initialize`, and these helpers of `server.go`:
  - `rgbToGrayscale`, `limitPosition`, `isInViewWindow`;
  - `calcBlobbMassLoss`, `splitAllBlobsOfBot`;
  - `IdsContainer.insert`.
- `organisation.dfy` (`Organisation`): the nickname merge and the player
  lookup.

How the model maps the source:
- **Numbers.** C `float` and Go `float32` are reals. Go `uint32` ids and
  colour channels wrap explicitly.
- **Library calls.** The C string input is a `string` without NUL
  characters. C's `sprintf "%.2f"` and Go's `strconv`/`fmt` conversions
  are function parameters.
- **Behaviour the model reproduces as written:**
  - `mkError` writes its message one slot above the failing parser's
    frame.
  - After the first error, `popLevel` no longer lowers the maximum depth.
  - The end-of-list comma probe clears the context's success flag, but
    `pwb_parseAll` still reports success.
  - `mkContext` copies only the first ten pointer words of the frames.
  - `firstN` drops the last character.
  - `foodToString` writes the literal mass `10`.
  - `calcBlobbMassLoss` can never reach its clamp.
  - `isInViewWindow` ignores the radius.

## Model

| member | source | states |
|---|---|---|
| PwbData.MkVec2 | BotCpp/BotCpp/pwb.h:155-160 | `mkVec2` stores its two coordinates unchanged |
| PwbData.Ordinal | BotCpp/BotCpp/pwb.h:184-189 | the action enum's values are 0, 1, 2 (`BatNone`, `BatThrow`, `BatSplit`) |
| PwbData.MkBotCommand | BotCpp/BotCpp/pwb.h:380-385 | `pwb_mkBotCommand` copies the action and the target unchanged |
| PwbGrammar.Skip | BotCpp/BotCpp/pwb.h:486-496 | skipping blanks from `i` stays within `i .. |t|` and is maximal: it stops at the end or at a character that is neither space nor tab |
| PwbGrammar.SkipOverBlanks | BotCpp/BotCpp/pwb.h:486-496 | every character skipped is a space or a tab |
| PwbGrammar.Lit | BotCpp/BotCpp/pwb.h:452-462 | a literal character, after blanks, ends strictly after its start and within the text |
| PwbGrammar.IntAt | BotCpp/BotCpp/pwb.h:475-484 | a `%i` read after blanks consumes at least one character and stays within the text |
| PwbGrammar.FloatAt | BotCpp/BotCpp/pwb.h:464-473 | a `%f` read after blanks consumes at least one character and stays within the text |
| PwbGrammar.Layout | BotCpp/BotCpp/pwb.h:498-554 | every record's field table starts with `(` and ends with `)`; its nesting level and frame height are those of the C parsers |
| PwbGrammar.FieldAt | BotCpp/BotCpp/pwb.h:498-554 | a field that parses ends after its start, fits its kind, and a list holds at most 2000 elements |
| PwbGrammar.FieldsAt | BotCpp/BotCpp/pwb.h:498-554 | a field sequence that parses yields exactly one fitting value per remaining field |
| PwbGrammar.RecordAt | BotCpp/BotCpp/pwb.h:498-554 | a record that parses yields one fitting value per field of its table |
| PwbGrammar.BlobAt | BotCpp/BotCpp/pwb.h:514-538 | a blob that parses ends after its start and within the text |
| PwbGrammar.FoodAt | BotCpp/BotCpp/pwb.h:540-554 | a food or toxin that parses ends after its start and within the text |
| PwbGrammar.BlobItemsAt | BotCpp/BotCpp/pwb.h:575-591 | the elements of a non-empty blob list: at least one, never more than the capacity left |
| PwbGrammar.BlobsAfterAt | BotCpp/BotCpp/pwb.h:588-597 | after an element: a comma and more elements, or `]`, within the capacity left |
| PwbGrammar.BlobsListAt | BotCpp/BotCpp/pwb.h:556-598 | a blob list holds at most 2000 blobs and ends within the text |
| PwbGrammar.BlobsBodyAt | BotCpp/BotCpp/pwb.h:567-597 | a blob list after its bracket holds at most 2000 blobs |
| PwbGrammar.FoodItemsAt | BotCpp/BotCpp/pwb.h:617-633 | the elements of a non-empty food list: at least one, never more than the capacity left |
| PwbGrammar.FoodsAfterAt | BotCpp/BotCpp/pwb.h:630-639 | after an element: a comma and more elements, or `]`, within the capacity left |
| PwbGrammar.FoodsListAt | BotCpp/BotCpp/pwb.h:600-640 | a food or toxin list holds at most 2000 elements and ends within the text |
| PwbGrammar.FoodsBodyAt | BotCpp/BotCpp/pwb.h:607-639 | a food list after its bracket holds at most 2000 elements |
| PwbSpec.MkContext | BotCpp/BotCpp/pwb.h:400-408 | `pwb_mkContext`: a well-formed context at position 0, successful, depth 0, all ten frames unset |
| PwbSpec.Clone | BotCpp/BotCpp/pwb.h:410-419 | `mkContext` copies the scalars and the first ten pointer words: frames 0-2 whole, frame 3's name only, frames 4-9 not at all |
| PwbSpec.ParseChar | BotCpp/BotCpp/pwb.h:452-462 | succeeds iff the current character is `c`, then advances by exactly 1; on failure the position is unchanged; frames stay balanced |
| PwbSpec.ParseWhiteSpaces | BotCpp/BotCpp/pwb.h:486-496 | never fails, advances past exactly the maximal space/tab run, keeps the success flag |
| PwbSpec.ParseInt | BotCpp/BotCpp/pwb.h:475-484 | agrees with `%i` reading; the flag falls on failure; a failure leaves the position unchanged |
| PwbSpec.ParseFloat | BotCpp/BotCpp/pwb.h:464-473 | agrees with `%f` reading; the flag falls on failure; a failure leaves the position unchanged |
| PwbSpec.ParseField | BotCpp/BotCpp/pwb.h:498-554 | whitespace then a field parser: frames balanced, value fits the kind, the flag falls exactly on failure or on a non-empty list |
| PwbSpec.ParseScalar | BotCpp/BotCpp/pwb.h:452-484 | a scalar field keeps the flag iff it succeeds |
| PwbSpec.ParseNested | BotCpp/BotCpp/pwb.h:498-640 | a nested field clears the flag on failure or when it read a non-empty list |
| PwbSpec.ParseFields | BotCpp/BotCpp/pwb.h:498-554 | a successful field sequence yields one value per remaining field; frames balanced |
| PwbSpec.ParseRecord | BotCpp/BotCpp/pwb.h:498-554 | a record parser pushes and pops its frame, and yields one value per field on success |
| PwbSpec.ParseVec2 | BotCpp/BotCpp/pwb.h:498-512 | `parseVec2` is balanced and keeps the flag iff it succeeds |
| PwbSpec.ParseBlob | BotCpp/BotCpp/pwb.h:514-538 | `parseBlob` is balanced and keeps the flag iff it succeeds |
| PwbSpec.ParseFoodOrToxin | BotCpp/BotCpp/pwb.h:540-554 | `parseFoodOrToxin` is balanced and keeps the flag iff it succeeds |
| PwbSpec.CloseList | BotCpp/BotCpp/pwb.h:591-597 | the end of a list succeeds iff `]` is next, then advances by one |
| PwbSpec.BlobsLoop | BotCpp/BotCpp/pwb.h:575-591 | the element loop always leaves the flag false (the comma probe), within capacity |
| PwbSpec.BlobsAfter | BotCpp/BotCpp/pwb.h:588-597 | the probe after an element always leaves the flag false |
| PwbSpec.ParseBlobsList | BotCpp/BotCpp/pwb.h:556-598 | the flag survives a blob list iff the list parsed and was empty; at most 2000 blobs |
| PwbSpec.BlobsBody | BotCpp/BotCpp/pwb.h:567-597 | after the bracket: flag kept iff the list is empty and closed |
| PwbSpec.FoodsLoop | BotCpp/BotCpp/pwb.h:617-633 | the element loop always leaves the flag false, within capacity |
| PwbSpec.FoodsAfter | BotCpp/BotCpp/pwb.h:630-639 | the probe after an element always leaves the flag false |
| PwbSpec.ParseFoodsOrToxinsList | BotCpp/BotCpp/pwb.h:600-640 | the flag survives a food list iff it parsed and was empty; at most 2000 elements |
| PwbSpec.FoodsBody | BotCpp/BotCpp/pwb.h:607-639 | after the bracket: flag kept iff the list is empty and closed |
| PwbSpec.FieldAgrees | BotCpp/BotCpp/pwb.h:486-554 | the C field parser accepts exactly what the grammar's field accepts, with the same end and value |
| PwbSpec.NestedAgrees | BotCpp/BotCpp/pwb.h:498-640 | the nested parsers agree with the grammar |
| PwbSpec.FieldsAgree | BotCpp/BotCpp/pwb.h:498-554 | the field sequence agrees with the grammar |
| PwbSpec.RecordAgrees | BotCpp/BotCpp/pwb.h:498-554 | every record parser agrees with the grammar |
| PwbSpec.Vec2Agrees | BotCpp/BotCpp/pwb.h:498-512 | `parseVec2` agrees with the grammar |
| PwbSpec.BlobAgrees | BotCpp/BotCpp/pwb.h:514-538 | `parseBlob` agrees with the grammar |
| PwbSpec.FoodAgrees | BotCpp/BotCpp/pwb.h:540-554 | `parseFoodOrToxin` agrees with the grammar |
| PwbSpec.BlobsLoopAgrees | BotCpp/BotCpp/pwb.h:575-591 | the blob loop stores exactly the grammar's elements, in source order |
| PwbSpec.BlobsAfterAgrees | BotCpp/BotCpp/pwb.h:588-597 | the comma-or-bracket step agrees with the grammar |
| PwbSpec.BlobsListAgrees | BotCpp/BotCpp/pwb.h:556-598 | `parseBlobsList` accepts exactly the grammar's blob lists, with the same elements |
| PwbSpec.BlobsBodyAgrees | BotCpp/BotCpp/pwb.h:567-597 | the probe-then-loop body agrees with the grammar |
| PwbSpec.FoodsLoopAgrees | BotCpp/BotCpp/pwb.h:617-633 | the food loop stores exactly the grammar's elements, in source order |
| PwbSpec.FoodsAfterAgrees | BotCpp/BotCpp/pwb.h:630-639 | the comma-or-bracket step agrees with the grammar |
| PwbSpec.FoodsListAgrees | BotCpp/BotCpp/pwb.h:600-640 | `parseFoodsOrToxinsList` accepts exactly the grammar's lists, with the same elements |
| PwbSpec.FoodsBodyAgrees | BotCpp/BotCpp/pwb.h:607-639 | the tight-probe body agrees with the grammar |
| PwbSpec.ParseAll | BotCpp/BotCpp/pwb.h:652-674 | `parseAll` is balanced; the context flag survives iff the parse succeeded with all four lists empty |
| PwbSpec.CompleteFields | BotCpp/BotCpp/pwb.h:652-674 | the arrays written hold the parsed lists; the values are all quiet iff every list is empty |
| PwbSpec.ParseAllAgrees | BotCpp/BotCpp/pwb.h:652-674 | `parseAll` succeeds iff the line is in the grammar, then ends where the grammar ends and writes its four lists |
| PwbSpec.PwbParseAll | BotCpp/BotCpp/pwb.h:676-678 | `pwb_parseAll` returns true iff the line is in the grammar, whatever the context flag |
| PwbSpec.ErrorReport | BotCpp/BotCpp/pwb.h:365-378 | `pwb_printErrors` prints nothing after success, else one block per slot `0 .. maxDepth-1`, reading past the ten frames when `maxDepth` exceeds 10 |
| PwbParser.ParseContext.constructor | BotCpp/BotCpp/pwb.h:400-408 | the new context is `PwbSpec.MkContext` |
| PwbParser.ParseContext.Clone | BotCpp/BotCpp/pwb.h:410-419 | the copy is the partial clone of `PwbSpec.Clone` |
| PwbParser.ParseContext.Assign | BotCpp/BotCpp/pwb.h:569-573 | committing the clone makes the context equal to it |
| PwbParser.ParseContext.PushLevel | BotCpp/BotCpp/pwb.h:387-391 | the frame at the current depth is named and the depth and maximum rise |
| PwbParser.ParseContext.PopLevel | BotCpp/BotCpp/pwb.h:393-398 | the depth falls; the maximum falls only while the flag is set |
| PwbParser.ParseContext.MkError | BotCpp/BotCpp/pwb.h:421-435 | the message goes into slot `depth` (one above the failing frame) and the flag falls |
| PwbParser.ParseContext.MkResult | BotCpp/BotCpp/pwb.h:437-450 | the position advances and the result is successful |
| PwbParser.ParseContext.PrintErrors | BotCpp/BotCpp/pwb.h:365-378 | the header (the input) appears iff the flag is down; the blocks are `PwbSpec.ErrorReport` |
| PwbParser.ParseChar | BotCpp/BotCpp/pwb.h:452-462 | the method's new context and result are those of `PwbSpec.ParseChar` |
| PwbParser.ParseWhiteSpaces | BotCpp/BotCpp/pwb.h:486-496 | the loop's new context and result are those of `PwbSpec.ParseWhiteSpaces` |
| PwbParser.ParseInt | BotCpp/BotCpp/pwb.h:475-484 | as `PwbSpec.ParseInt`, value included |
| PwbParser.ParseFloat | BotCpp/BotCpp/pwb.h:464-473 | as `PwbSpec.ParseFloat`, value included |
| PwbParser.SpacedChar | BotCpp/BotCpp/pwb.h:498-554 | whitespace then `parseChar`, as `PwbSpec.ParseField` |
| PwbParser.SpacedInt | BotCpp/BotCpp/pwb.h:514-538 | whitespace then `parseInt`, as `PwbSpec.ParseField` |
| PwbParser.SpacedFloat | BotCpp/BotCpp/pwb.h:498-554 | whitespace then `parseFloat`, as `PwbSpec.ParseField` |
| PwbParser.SpacedField | BotCpp/BotCpp/pwb.h:498-554 | any field of a record, as `PwbSpec.ParseField` |
| PwbParser.RecordLine | BotCpp/BotCpp/pwb.h:498-554 | one line of a record parser: on failure the context is the specified error state |
| PwbParser.RecordStep | BotCpp/BotCpp/pwb.h:498-554 | one record line keeps the values read so far in step with the specified result of the whole record; a failing line is that result |
| PwbParser.RecordLines | BotCpp/BotCpp/pwb.h:498-554 | the field lines of a record in sequence agree with `PwbSpec.ParseFields` |
| PwbParser.ParseRecord | BotCpp/BotCpp/pwb.h:498-554 | a record parser method as `PwbSpec.ParseRecord` |
| PwbParser.ParseVec2 | BotCpp/BotCpp/pwb.h:498-512 | `parseVec2` as `PwbSpec.ParseVec2`, vector included |
| PwbParser.ParseBlob | BotCpp/BotCpp/pwb.h:514-538 | `parseBlob` as `PwbSpec.ParseBlob`, blob included |
| PwbParser.ParseFoodOrToxin | BotCpp/BotCpp/pwb.h:540-554 | `parseFoodOrToxin` as `PwbSpec.ParseFoodOrToxin` |
| PwbLists.ElementArray.constructor | BotCpp/BotCpp/pwb.h:204-212 | a fresh 2000-element array with no elements |
| PwbLists.ElementArray.Push | BotCpp/BotCpp/pwb.h:583-584 | `data[numData++] = x`: one element appended, the slots above untouched |
| PwbLists.BlobsItem | BotCpp/BotCpp/pwb.h:577-582 | `parseWhiteSpaces` and `parseBlob`: a blob that fits the array and leaves the rest of the list, or the result the whole list then has (the blob error, or the capacity failure) |
| PwbLists.BlobsComma | BotCpp/BotCpp/pwb.h:586-590 | the comma probe: the rest of the list after it is the one `PwbSpec.BlobsLoop` reads, and `somethingFollows` is true only when input was consumed |
| PwbLists.BlobsStore | BotCpp/BotCpp/pwb.h:583-590 | `data[numData++] = blob`: exactly one element appended, then the comma probe |
| PwbLists.BlobsStep | BotCpp/BotCpp/pwb.h:576-590 | one pass of the blob loop: either stores one more blob and the stored elements plus the rest still make up the whole list, or fails with the whole list's result |
| PwbLists.CloseBracket | BotCpp/BotCpp/pwb.h:593-597 | the closing bracket: the result `PwbSpec.CloseList` gives, `mkError` without it |
| PwbLists.FoodsItem | BotCpp/BotCpp/pwb.h:619-624 | `parseWhiteSpaces` and `parseFoodOrToxin`: an element that fits the array and leaves the rest of the list, or the result the whole list then has |
| PwbLists.FoodsComma | BotCpp/BotCpp/pwb.h:628-632 | the comma probe: the rest of the list after it is the one `PwbSpec.FoodsLoop` reads, and `somethingFollows` is true only when input was consumed |
| PwbLists.FoodsStore | BotCpp/BotCpp/pwb.h:625-632 | `data[numData++] = foodOrToxin`: exactly one element appended, then the comma probe |
| PwbLists.FoodsStep | BotCpp/BotCpp/pwb.h:618-632 | one pass of the food loop: either stores one more element and the stored elements plus the rest still make up the whole list, or fails with the whole list's result |
| PwbLists.BlobsLines | BotCpp/BotCpp/pwb.h:575-591 | the blob loop stores exactly `PwbSpec.BlobsLoop`'s elements from index 0 |
| PwbLists.FoodsLines | BotCpp/BotCpp/pwb.h:617-633 | the food loop stores exactly `PwbSpec.FoodsLoop`'s elements from index 0 |
| PwbLists.BlobsBody | BotCpp/BotCpp/pwb.h:567-597 | probe, then loop, as `PwbSpec.BlobsBody` |
| PwbLists.ParseBlobsList | BotCpp/BotCpp/pwb.h:556-598 | `parseBlobsList` resets the array and fills it as `PwbSpec.ParseBlobsList` |
| PwbLists.FoodsBody | BotCpp/BotCpp/pwb.h:607-639 | tight probe, then loop, as `PwbSpec.FoodsBody` |
| PwbLists.ParseFoodsOrToxinsList | BotCpp/BotCpp/pwb.h:600-640 | `parseFoodsOrToxinsList` resets and fills as `PwbSpec.ParseFoodsOrToxinsList` |
| PwbGame.VisibleGameState.constructor | BotCpp/BotCpp/pwb.h:213-219 | four fresh, empty arrays |
| PwbGame.BlobsField | BotCpp/BotCpp/pwb.h:652-674 | a blob-list field of `parseAll` fills its array with the field's value |
| PwbGame.FoodsField | BotCpp/BotCpp/pwb.h:652-674 | a food-list field of `parseAll` fills its array with the field's value |
| PwbGame.BlobsAt | BotCpp/BotCpp/pwb.h:652-674 | field 1 or 3 fills its own array and leaves the other three unchanged |
| PwbGame.FoodsAt | BotCpp/BotCpp/pwb.h:652-674 | field 5 or 7 fills its own array and leaves the other three unchanged |
| PwbGame.AllField | BotCpp/BotCpp/pwb.h:652-674 | each field of the game-state record touches only its own array |
| PwbGame.AllLine | BotCpp/BotCpp/pwb.h:652-674 | one line of `parseAll` agrees with the specified field sequence |
| PwbGame.AllLines | BotCpp/BotCpp/pwb.h:652-674 | the lines of `parseAll` fill the arrays with what the spec wrote, leaving unread arrays as they were |
| PwbGame.ParseAll | BotCpp/BotCpp/pwb.h:652-674 | `parseAll` as `PwbSpec.ParseAll`, arrays included |
| PwbGame.PwbParseAll | BotCpp/BotCpp/pwb.h:676-678 | returns true iff the line is in the grammar, and then the four arrays hold the grammar's lists |
| PwbProperties.CharErrorSlot | BotCpp/BotCpp/pwb.h:421-435 | a failing `parseChar` stores its message in the slot above its own frame and raises the report length to depth+1 |
| PwbProperties.MissingOpeningBracketReport | BotCpp/BotCpp/pwb.h:365-378 | a line without `(` reports two blocks: `parseAll` without a message, then `parseChar` with its parent's message |
| PwbProperties.SuccessFlagAfterLists | BotCpp/BotCpp/pwb.h:588-590 | after a successful parse with a non-empty list the context flag is false and the error report is non-empty, although `pwb_parseAll` returned true |
| PwbProperties.SkipOneBlank | BotCpp/BotCpp/pwb.h:486-496 | whitespace skipping over `"[ ]"` steps over exactly the blank |
| PwbProperties.RecordOpens | BotCpp/BotCpp/pwb.h:498-554 | a record starts with `(` after blanks |
| PwbProperties.BlankEmptyBlobs | BotCpp/BotCpp/pwb.h:567-573 | `"[ ]"` is an empty blob list, three characters long |
| PwbProperties.BlankEmptyFoods | BotCpp/BotCpp/pwb.h:607-614 | `"[ ]"` is not a food or toxin list |
| PwbProperties.TightEmptyLists | BotCpp/BotCpp/pwb.h:567-614 | `"[]"` is an empty list for both list parsers |
| PwbCommand.CleanPlain | Go/src/Programmierwettbewerb-Middleware/middleware.go:489-515 | the cleaning leaves text without upper case or deleted characters unchanged |
| PwbCommand.CleanLabel | BotCpp/BotCpp/pwb.h:645-649 | each label `None`/`Split`/`Throw` cleans to the word the middleware matches |
| PwbCommand.CleanPunctuation | BotCpp/BotCpp/pwb.h:642-650 | the punctuation of `pwb_toString` cleans to commas only |
| PwbCommand.Cleaned | BotCpp/BotCpp/pwb.h:642-650 | `pwb_toString` output cleans to `word,x,y` |
| PwbCommand.ReplyRoundTrip | Go/src/Programmierwettbewerb-Middleware/middleware.go:489-515 | the middleware reads back the action of every reply a C bot writes; the target is ok iff both numbers parse, and then it is what they parse to |
| PwbCommand.ActionNumbers | Go/src/Programmierwettbewerb-Server/shared/shared.go:27-32 | the C and Go action enums agree: 0, 1, 2 |
| GoShared.Max | Go/src/Programmierwettbewerb-Server/shared/shared.go:230-235 | the larger argument, one of the two |
| GoShared.Min | Go/src/Programmierwettbewerb-Server/shared/shared.go:237-242 | the smaller argument, one of the two |
| GoShared.PadLineNumber | Go/src/Programmierwettbewerb-Server/shared/shared.go:186-189 | the loop pads with spaces on the left to length max(5, n), the digits at the end |
| GoShared.Log | Go/src/Programmierwettbewerb-Server/shared/shared.go:169-194 | a line is written iff not muted and every gated bit of the type is enabled |
| GoShared.MuteSilences | Go/src/Programmierwettbewerb-Server/shared/shared.go:169-172 | muted logging writes nothing |
| GoShared.GatingBits | Go/src/Programmierwettbewerb-Server/shared/shared.go:131-136 | `LtVerbose` and `LtDebug` are distinct bits; `LtAlways` is gated only by mute; the combination needs both flags |
| GoShared.PaddedShape | Go/src/Programmierwettbewerb-Server/shared/shared.go:186-189 | the padded string has length max(5, n), ends with the line string, and longer strings are unchanged |
| Middleware.FirstNShape | Go/src/Programmierwettbewerb-Middleware/middleware.go:78-84 | `firstN` fails on an empty string or a negative n, else returns the prefix of length min(n, len-1), so it always drops the last character; `abbreviate` adds `...` |
| Middleware.BlobTexts | Go/src/Programmierwettbewerb-Middleware/middleware.go:371-384 | one text `(botId,teamId,index,(x,y),mass)` per blob, in order |
| Middleware.FoodTexts | Go/src/Programmierwettbewerb-Middleware/middleware.go:386-400 | one text `((x,y),10)` per food, whatever its mass |
| Middleware.ToxinTexts | Go/src/Programmierwettbewerb-Middleware/middleware.go:402-415 | one text `((x,y),mass)` per toxin |
| Middleware.ListToString | Go/src/Programmierwettbewerb-Middleware/middleware.go:371-384 | the loop writes `[`, the items separated by single commas, `]` |
| Middleware.BlobsToString | Go/src/Programmierwettbewerb-Middleware/middleware.go:371-384 | `blobsToString` is the bracketed comma list of the blob texts; `[]` for none |
| Middleware.FoodToString | Go/src/Programmierwettbewerb-Middleware/middleware.go:386-400 | `foodToString` is the bracketed comma list of the food texts |
| Middleware.ToxinToString | Go/src/Programmierwettbewerb-Middleware/middleware.go:402-415 | `toxinToString` is the bracketed comma list of the toxin texts |
| Middleware.ContainsAt | Go/src/Programmierwettbewerb-Middleware/middleware.go:429-439 | the unanchored match finds `w` iff it occurs at some position |
| Middleware.MatchCommandCases | Go/src/Programmierwettbewerb-Middleware/middleware.go:429-439 | the action is `Split` iff the text is exactly `split`, `Throw` iff exactly `throw`; a recognised action always matches |
| Middleware.MatchTarget | Go/src/Programmierwettbewerb-Middleware/middleware.go:441-452 | ok iff both fields parse as floats, then the target is the parsed pair, else the null vector |
| Middleware.MatchSliceCases | Go/src/Programmierwettbewerb-Middleware/middleware.go:459-487 | 2 fields give `None`, 3 take the action from field 0, other counts fail; ok iff the last two parse |
| Middleware.ToLower | Go/src/Programmierwettbewerb-Middleware/middleware.go:489-515 | lowercases letter by letter, keeping the length |
| Middleware.Strip | Go/src/Programmierwettbewerb-Middleware/middleware.go:489-515 | no deleted character is left; the text never grows |
| Middleware.Split | Go/src/Programmierwettbewerb-Middleware/middleware.go:489-515 | at least one field, none containing the separator |
| Middleware.JoinSplit | Go/src/Programmierwettbewerb-Middleware/middleware.go:489-515 | joining the comma fields gives back the text |
| Middleware.SplitJoin | Go/src/Programmierwettbewerb-Middleware/middleware.go:371-415 | splitting a comma join of comma-free items gives back the items |
| Middleware.SplitFree | Go/src/Programmierwettbewerb-Middleware/middleware.go:489-515 | text without the separator is one field |
| Middleware.SplitField | Go/src/Programmierwettbewerb-Middleware/middleware.go:489-515 | a separator-free field before a separator splits off as the first field |
| Middleware.CleanAppend | Go/src/Programmierwettbewerb-Middleware/middleware.go:489-515 | cleaning distributes over concatenation |
| WireFormat.Vec2Parses | BotCpp/BotCpp/pwb.h:498-512 | a text `(x,y)` whose numbers `%f` reads as `cx` and `cy` is a vector field read as `(cx,cy)`, ending right after it |
| WireFormat.PositionParses | Go/src/Programmierwettbewerb-Middleware/middleware.go:366-369 | `fToS` coordinates in parentheses are read as the position the read-back gives |
| WireFormat.BlobTextParses | BotCpp/BotCpp/pwb.h:514-538 | a text `(a,b,c,(x,y),m)` is a blob read as the six numbers its pieces read as, ending right after it |
| WireFormat.BlobParses | Go/src/Programmierwettbewerb-Middleware/middleware.go:378-379 | the middleware's text of one blob is read by `parseBlob`'s grammar as the blob the bot receives, ending right after it |
| WireFormat.FoodTextParses | BotCpp/BotCpp/pwb.h:540-554 | a text `((x,y),m)` is a food or toxin read as its position and mass, ending right after it |
| WireFormat.FoodParses | Go/src/Programmierwettbewerb-Middleware/middleware.go:392-393 | the middleware's text of a food is read as a food of mass 10 at the read-back position |
| WireFormat.ToxinParses | Go/src/Programmierwettbewerb-Middleware/middleware.go:408 | the middleware's text of a toxin is read as its read-back position and mass |
| WireFormat.JoinedItems | Go/src/Programmierwettbewerb-Middleware/middleware.go:371-384 | in a comma join closed by `]`, each text stands right after the comma that ends the one before |
| WireFormat.BlobItemsParse | BotCpp/BotCpp/pwb.h:575-597 | element texts standing one after another, each read as its blob, are read by the element loop as exactly those blobs in order, ending after `]`, within the capacity left |
| WireFormat.FoodItemsParse | BotCpp/BotCpp/pwb.h:617-639 | the same for food and toxin elements |
| WireFormat.BlobsListParses | BotCpp/BotCpp/pwb.h:556-598 | `[`, element texts joined by commas, `]` is a blob list of exactly the elements' blobs, ending right after `]`; none or up to 2000 elements |
| WireFormat.FoodsListParses | BotCpp/BotCpp/pwb.h:600-640 | the same for a food or toxin list |
| WireFormat.BlobTextsReadAs | Go/src/Programmierwettbewerb-Middleware/middleware.go:371-384 | each blob text the middleware writes is read, wherever it stands, as the corresponding blob the bot receives |
| WireFormat.FoodTextsReadAs | Go/src/Programmierwettbewerb-Middleware/middleware.go:386-400 | each food text is read, wherever it stands, as the corresponding food the bot receives |
| WireFormat.ToxinTextsReadAs | Go/src/Programmierwettbewerb-Middleware/middleware.go:402-415 | each toxin text is read, wherever it stands, as the corresponding toxin the bot receives |
| WireFormat.BlobsFieldParses | Go/src/Programmierwettbewerb-Middleware/middleware.go:371-384 | the output of `blobsToString` is a blob-list field holding the received blobs, ending right after it |
| WireFormat.FoodsFieldParses | Go/src/Programmierwettbewerb-Middleware/middleware.go:386-400 | the output of `foodToString` is a list field holding the received foods |
| WireFormat.ToxinsFieldParses | Go/src/Programmierwettbewerb-Middleware/middleware.go:402-415 | the output of `toxinToString` is a list field holding the received toxins |
| WireFormat.LineParses | BotCpp/BotCpp/pwb.h:652-674 | a line `(B,O,F,X)` of four such lists is read by `parseAll`'s grammar to its end, as the snapshot of the four lists |
| WireFormat.EncodedLineParses | Go/src/Programmierwettbewerb-Middleware/middleware.go:418-427 | for lists of at most 2000 elements, and numbers that read back, the whole line `jsonToString` writes is in `parseAll`'s grammar, read to its last character, and yields the middleware's four lists element by element |
| WireFormat.FreshParseAll | BotCpp/BotCpp/pwb.h:676-678 | a whole line of the grammar makes `pwb_parseAll` on a fresh context return true, read to the end, and write the grammar's four lists |
| WireFormat.BotReadsEncodedLine | BotCpp/BotCpp/pwb.h:652-678 | `pwb_parseAll` on a fresh context returns true on the line `jsonToString` writes, reads it to the end, and fills the four arrays with the lists the bot receives |
| Distribution.TrimLeftDrops | Go/src/Programmierwettbewerb-Server/distribution/distribution.go:137-161 | `TrimLeft` keeps a suffix and drops only cut-set characters |
| Distribution.TrimRightDrops | Go/src/Programmierwettbewerb-Server/distribution/distribution.go:137-161 | `TrimRight` keeps a prefix and drops only cut-set characters |
| Distribution.Trim | Go/src/Programmierwettbewerb-Server/distribution/distribution.go:137-161 | the trimmed text is no longer and does not end in a cut-set character |
| Distribution.TrimUntouched | Go/src/Programmierwettbewerb-Server/distribution/distribution.go:137-161 | text that neither starts nor ends in the cut set is unchanged |
| Distribution.Fields | Go/src/Programmierwettbewerb-Distribution/distributionServer.go:98-105 | every field is non-empty and free of `,`, `[`, `]` and space |
| Distribution.FieldsJoin | Go/src/Programmierwettbewerb-Distribution/distributionServer.go:98-105 | splitting a comma join of words gives back the words |
| Distribution.IsValidSvn | Go/src/Programmierwettbewerb-Distribution/distributionServer.go:70-77 | true iff the name is in the list |
| Distribution.Repeat | Go/src/Programmierwettbewerb-Distribution/distributionServer.go:109-119 | `n` copies of the name, none when `n` is negative |
| Distribution.ValidNames | Go/src/Programmierwettbewerb-Distribution/distributionServer.go:109-119 | only configured names are kept |
| Distribution.ParseCommand | Go/src/Programmierwettbewerb-Distribution/distributionServer.go:79-123 | the nested loops of `parseCommand` compute the selection |
| Distribution.RepeatValid | Go/src/Programmierwettbewerb-Distribution/distributionServer.go:109-119 | the loop over `svnList` keeps exactly the configured trimmed names, each `botCount` times in a row |
| Distribution.AppendCopies | Go/src/Programmierwettbewerb-Distribution/distributionServer.go:114-116 | the inner loop appends exactly `botCount` copies |
| Distribution.RepeatedBlocks | Go/src/Programmierwettbewerb-Distribution/distributionServer.go:109-119 | the output is the valid names in order, each repeated `botCount` times consecutively |
| Distribution.BlocksNone | Go/src/Programmierwettbewerb-Distribution/distributionServer.go:109-119 | `botCount <= 0` gives nothing |
| Distribution.RepeatedValid | Go/src/Programmierwettbewerb-Distribution/distributionServer.go:109-119 | the output holds only configured names |
| Distribution.ValidNamesKeep | Go/src/Programmierwettbewerb-Distribution/distributionServer.go:109-119 | a list of configured names is kept whole |
| Distribution.ValidFields | Go/src/Programmierwettbewerb-Distribution/distributionServer.go:98-119 | filtering the fields is filtering by membership |
| Distribution.Members | Go/src/Programmierwettbewerb-Distribution/distributionServer.go:109-119 | the filtered list is no longer than the list |
| Distribution.SelectionShape | Go/src/Programmierwettbewerb-Server/distribution/distribution.go:124-165 | empty command gives nothing; `botCount` is 1 unless field 1 parses; only configured names; each valid selected name `botCount` times in order |
| Distribution.SelectAll | Go/src/Programmierwettbewerb-Distribution/distributionServer.go:92-94 | `all` selects every configured name in order |
| Distribution.SelectOne | Go/src/Programmierwettbewerb-Distribution/distributionServer.go:95-97 | a configured name selects itself only |
| Distribution.SelectList | Go/src/Programmierwettbewerb-Distribution/distributionServer.go:98-105 | any other word is trimmed of brackets, split into fields, and filtered by membership |
| Distribution.SelectedBracketList | Go/src/Programmierwettbewerb-Distribution/distributionServer.go:98-105 | example: `[a,b]` selects `a` and `b` |
| Distribution.SelectListExample | Go/src/Programmierwettbewerb-Distribution/distributionServer.go:79-123 | example: `[a,b] 2` gives `a, a, b, b` |
| Distribution.ExpandBots | Go/src/Programmierwettbewerb-Server/distribution/distribution.go:254-262 | the loop replaces each `all` by the configured names |
| Distribution.ExpandAllAppend | Go/src/Programmierwettbewerb-Server/distribution/distribution.go:254-262 | the expansion works entry by entry |
| Distribution.ExpandAllKeeps | Go/src/Programmierwettbewerb-Server/distribution/distribution.go:254-262 | entries other than `all` are kept verbatim and in order |
| Distribution.ExpandAllOnly | Go/src/Programmierwettbewerb-Server/distribution/distribution.go:254-262 | example: `all` alone becomes the configured names |
| Distribution.StartBots | Go/src/Programmierwettbewerb-Server/distribution/distribution.go:167-205 | more bots than hosts: 0 and nothing dispatched; else bot i goes to host i and the count is the number of bots |
| Distribution.RemoteStartBots | Go/src/Programmierwettbewerb-Server/distribution/distribution.go:252-268 | expansion, then `startBots` on the configured hosts |
| Distribution.Classify | Go/src/Programmierwettbewerb-Server/distribution/distribution.go:302-316 | `exit` leaves, `kill` kills, `go` executes exactly `Selection` of the remaining words, anything else is help |
| Distribution.WordsGoAll | Go/src/Programmierwettbewerb-Server/distribution/distribution.go:302 | example: ` Go all\n` is read as the words `go`, `all` |
| Distribution.ClassifyGo | Go/src/Programmierwettbewerb-Server/distribution/distribution.go:292-329 | example: ` Go all\n` starts every configured bot |
| QuadTreeData.FloatEqualsSymmetric | Go/src/Programmierwettbewerb-Server/data/data.go:11-13 | `floatEquals` is reflexive and symmetric |
| QuadTreeData.NewInner | Go/src/Programmierwettbewerb-Server/data/data.go:153-161 | a new inner node over the same quad |
| QuadTreeData.ChildrenTile | Go/src/Programmierwettbewerb-Server/data/data.go:220-259 | the four child quads have half the size, tile the parent, and a point lies in exactly the child the midpoint test routes it to |
| QuadTreeData.BagValues | Go/src/Programmierwettbewerb-Server/data/data.go:171-188 | the stored values, counted with multiplicity, number `CountElements` |
| QuadTreeData.CountValues | Go/src/Programmierwettbewerb-Server/data/data.go:171-188 | `CountElements` is the number of stored values |
| QuadTreeData.InfoCounts | Go/src/Programmierwettbewerb-Server/data/data.go:56-63 | `CountElements` equals leaf plus equal nodes of `GetInfo`; empty plus leaf nodes is one more than three per inner node |
| QuadTreeData.InsertAdds | Go/src/Programmierwettbewerb-Server/data/data.go:243-280 | insertion keeps the quad and the tree's shape, and adds exactly the new value |
| QuadTreeData.InsertKeepsWf | Go/src/Programmierwettbewerb-Server/data/data.go:243-280 | a completed insertion keeps the node's quad and its well-formedness (an inner node's children sit on its four sub-quads, an equal node's chain on its own quad) |
| QuadTreeData.InsertAddsValue | Go/src/Programmierwettbewerb-Server/data/data.go:243-280 | a completed insertion stores exactly one more value, the new one, and loses none |
| QuadTreeData.SplitLeafAdds | Go/src/Programmierwettbewerb-Server/data/data.go:271-275 | splitting a leaf into a fresh inner node stores exactly the old entry's value and the new one |
| QuadTreeData.InsertCounts | Go/src/Programmierwettbewerb-Server/data/data.go:243-280 | insertion raises the count by exactly 1 |
| QuadTreeData.InsertFuel | Go/src/Programmierwettbewerb-Server/data/data.go:243-280 | a completed insertion does not depend on the fuel given beyond what it needed |
| QuadTreeData.InsertShape | Go/src/Programmierwettbewerb-Server/data/data.go:243-280 | empty becomes a leaf; an equal node, or a leaf within `EPSILON`, gets an equal node in front; an inner node replaces exactly the routed child |
| QuadTreeData.LeafSplits | Go/src/Programmierwettbewerb-Server/data/data.go:270-276 | a leaf hit by a different point becomes an inner node over the same quad holding both values |
| QuadTreeData.LeafSplitsOnce | Go/src/Programmierwettbewerb-Server/data/data.go:270-276 | example: in the unit quad, a leaf at `(0.25,0.25)` hit by `(0.75,0.75)` completes with fuel 1, as an inner node with the two leaves in their children and two empty children |
| QuadTreeData.LeafSplitNeedsFuel | Go/src/Programmierwettbewerb-Server/data/data.go:270-276 | example: the same split with fuel 0 gives `None`, although the source returns there |
| QuadTreeData.OutsideDiverges | Go/src/Programmierwettbewerb-Server/data/data.go:243-276 | two distinct points outside the quad on the same side never finish inserting |
| QuadTreeData.OverlapMeaning | Go/src/Programmierwettbewerb-Server/data/data.go:283-291 | overlap is symmetric and, for non-negative sizes, means the closed squares share a point |
| QuadTreeData.FoundStored | Go/src/Programmierwettbewerb-Server/data/data.go:328-352 | a range query returns only stored values, and nothing from a quad the query misses |
| QuadTreeData.FoundAll | Go/src/Programmierwettbewerb-Server/data/data.go:328-352 | a query covering the whole quad returns every value |
| QuadTreeData.ValueBuffer.Append | Go/src/Programmierwettbewerb-Server/data/data.go:19-21 | one value appended |
| QuadTreeData.FindValuesInQuad | Go/src/Programmierwettbewerb-Server/data/data.go:328-352 | the buffer grows by exactly the query's values |
| QuadTreeData.QuadTree.constructor | Go/src/Programmierwettbewerb-Server/data/data.go:80-82 | a tree with an empty root over the quad |
| QuadTreeData.QuadTree.Insert | Go/src/Programmierwettbewerb-Server/data/data.go:84-86 | a completed insertion replaces the root, keeps its quad and adds one element |
| QuadTreeData.QuadTree.CountElements | Go/src/Programmierwettbewerb-Server/data/data.go:88-90 | the number of stored values |
| QuadTreeData.QuadTree.Info | Go/src/Programmierwettbewerb-Server/data/data.go:92-94 | the node counts add up as in `InfoCounts` |
| QuadTreeData.QuadTree.FindValues | Go/src/Programmierwettbewerb-Server/data/data.go:96-98 | the buffer grows by the values found in the quad |
| GameServer.Succ | Go/src/Programmierwettbewerb-Server/server.go:199-233 | `uint32` increment, wrapping to 0 |
| GameServer.Application.Initialize | Go/src/Programmierwettbewerb-Server/server.go:158-197 | settings and field size as set; counters 0/1/1/0; foods `0..399`, toxins `0..199`, all below their counters `401`/`201` |
| GameServer.Application.CreateGuiId | Go/src/Programmierwettbewerb-Server/server.go:199-203 | returns the counter, increments it, changes nothing else |
| GameServer.Application.CreateServerCommandId | Go/src/Programmierwettbewerb-Server/server.go:205-209 | returns the counter, increments it, changes nothing else |
| GameServer.Application.CreateBotId | Go/src/Programmierwettbewerb-Server/server.go:211-215 | returns the counter, increments it, changes nothing else |
| GameServer.Application.CreateBlobId | Go/src/Programmierwettbewerb-Server/server.go:217-221 | returns the counter, increments it, changes nothing else |
| GameServer.Application.CreateFoodId | Go/src/Programmierwettbewerb-Server/server.go:223-227 | returns the counter, increments it, changes nothing else |
| GameServer.Application.CreateToxinId | Go/src/Programmierwettbewerb-Server/server.go:229-233 | returns the counter, increments it, changes nothing else |
| GameServer.AllocatedIncreasing | Go/src/Programmierwettbewerb-Server/server.go:199-233 | until the counter wraps, successive ids are consecutive, so increasing and distinct |
| GameServer.AllocatedWraps | Go/src/Programmierwettbewerb-Server/server.go:217-221 | after the largest id comes 0 |
| GameServer.RgbToGrayscale | Go/src/Programmierwettbewerb-Server/server.go:1591-1594 | the grey value fits in a byte |
| GameServer.GrayscaleRange | Go/src/Programmierwettbewerb-Server/server.go:1591-1594 | 16-bit channels never overflow, lose nothing in the byte conversion, and equal channels `c` give `c >> 8` |
| GameServer.LimitPosition | Go/src/Programmierwettbewerb-Server/server.go:557-562 | each coordinate clamped, lower bound first |
| GameServer.ClampRange | Go/src/Programmierwettbewerb-Server/server.go:557-562 | clamped into `[0, size]`; in-range coordinates unchanged; idempotent |
| GameServer.ViewWindowOpen | Go/src/Programmierwettbewerb-Server/server.go:85-90 | the radius is ignored; edges are outside; only windows of positive size contain anything |
| GameServer.MassLossBranches | Go/src/Programmierwettbewerb-Server/server.go:382-390 | masses at or below `botMinMass` are unchanged; heavier ones lose a share proportional to the mass and never grow for `dt >= 0`; the clamp to `botMaxMass` is unreachable |
| GameServer.Splits | Go/src/Programmierwettbewerb-Server/server.go:454 | the blobs that split are keys of the map with at least `blobSplitMass` |
| GameServer.SplitLoopState | Go/src/Programmierwettbewerb-Server/server.go:452-466 | after each prefix of the iteration the visited heavy blobs are halved and the new blobs sit under consecutive ids |
| GameServer.SplitAllEffect | Go/src/Programmierwettbewerb-Server/server.go:450-472 | heavy blobs are halved with reunion time +1, light ones untouched, each split adds one blob of the other half under a fresh id, so each pair's mass is the old mass |
| GameServer.SplitAllBlobsOfBot | Go/src/Programmierwettbewerb-Server/server.go:450-472 | the method's blobs and counter are `SplitAll` of the old ones in the given iteration order; the settings, field size, food and toxin ids and the other counters are unchanged |
| GameServer.IdsContainer.Insert | Go/src/Programmierwettbewerb-Server/server.go:323-325 | exactly one pair appended at the end, earlier ones unchanged |
| Organisation.MergeNicknames | Go/src/Programmierwettbewerb-Server/organisation/organisation.go:112-124 | the nested loops compute the merged list |
| Organisation.MergedContains | Go/src/Programmierwettbewerb-Server/organisation/organisation.go:112-124 | old nicknames keep their positions; every line is present; only lines are added |
| Organisation.MergedDistinct | Go/src/Programmierwettbewerb-Server/organisation/organisation.go:113-123 | nothing is added twice, including lines appended earlier in the same pass |
| Organisation.MergedAppends | Go/src/Programmierwettbewerb-Server/organisation/organisation.go:112-124 | the result is the old list followed by the new lines in file order, each at its first occurrence |
| Organisation.MergedMembers | Go/src/Programmierwettbewerb-Server/organisation/organisation.go:112-124 | a name is in the result iff it was a nickname or a line |
| Organisation.UpdateRepository | Go/src/Programmierwettbewerb-Server/organisation/organisation.go:110-127 | the repository's entry, zero if missing, gets the merged nicknames; other entries are kept |
| Organisation.Registry.CheckPotentialPlayer | Go/src/Programmierwettbewerb-Server/organisation/organisation.go:169-187 | refreshes only after more than a minute; true iff some repository lists the name exactly |

## Left out

- I/O: `pwb_getline`, the bot's `main`, and the `fprintf` output of `pwb_printErrors` are not modelled. `PrintErrors` returns the header and the blocks instead of writing them; the header goes to `stderr` in the source whatever stream is given.
- Numeric conversion: `sscanf` `%i`/`%f`, `sprintf "%.2f"`, `strconv.ParseFloat`, `FormatFloat`, `Atoi` and `fmt.Sprint` are foreign library calls. They are function parameters with only a length or shape contract.
- Floating point: `float` and `float32` are reals, so rounding is not modelled. This affects `EPSILON` equality, the mass loss, halving masses and the tile boundaries of the quadtree.
- PwbSpec.ParseBlobsList, PwbSpec.ParseFoodsOrToxinsList, PwbLists.ElementArray.Push: the model adds a failure when a list would exceed 2000 elements, and `Push` requires a free slot. The C code writes past the array instead, which is undefined behaviour.
- The input line contains no NUL character before its end, so C's end of string is the end of the sequence.
- Vector arithmetic, the game physics, randomness, and the bot heuristics are not modelled.
- Concurrency and networking are not modelled: websockets, goroutines, channels, mutex-guarded maps, and the ssh sessions of `startBots`/`killBots`.
- `executeCmd`, configuration and file reading are not modelled, nor the rest of `interactiveRemoteInterface`. `StartBots` returns the dispatched commands instead of executing them.
- Middleware.FirstNShape: Go's `len` and `str[0:n]` count bytes, while the model counts characters. "Drops the last character" is what Go does for ASCII names only; on a multi-byte name Go drops the last byte and can cut inside a rune.
- WireFormat.EncodedLineParses, WireFormat.BotReadsEncodedLine: the number texts are opaque. `ReadsBack` is a hypothesis, not proved of any C library: `%i` and `%f` read back each number `fmt.Sprint` or `fToS` writes, when a comma or `)` follows. It also covers `uint32` ids above `INT_MAX`, where C's `%i` overflows. The float rounding of the read-back is the parameter `rb`.
- Middleware.ToLower: only ASCII letters are lowercased, while Go's `strings.ToLower` is Unicode-aware.
- Distribution.Trim: modelled over characters; Go's `strings.Trim` works on UTF-8 runes.
- Distribution.Fields: same restriction as `Trim`, over characters rather than UTF-8 runes.
- The `Println` in `parseCommand` and the `Logf` calls in the Go code are not modelled.
- QuadTreeData.InsertNode: the quadtree is modelled on values. The in-place overwrite of a child becomes a new node, which loses nothing because no node of the tree is shared.
- QuadTreeData.QuadTree.Insert: carries a fuel bound on the number of leaf splits. When the fuel runs out it reports failure and leaves the tree unchanged. That happens when the fuel was too small for an insertion the source completes (any leaf split at fuel 0), and also where the source would recurse forever, as `OutsideDiverges` shows. The model does not prove that an insertion of a point inside the quad completes for some fuel.
- `quadContainsPoint`, `innerNodeContainsPoint`, `Print`, `PrintQuadTreeInfo` and `TEST` are not modelled: they are unused or output only.
- GameServer.LimitPosition: takes the field size as a parameter instead of reading the global `app`, and returns the new position instead of writing through a pointer.
- GameServer.SplitAllBlobsOfBot: the loop that copies the new blobs into the bot's map is written as map union. The iteration order of the first loop is a parameter.
- GameServer.Application.Initialize: food and toxin contents are not modelled (random masses and positions); only their ids are.
- Organisation.Registry.CheckPotentialPlayer: the refresh (`UpdateAllSVN`) is a parameter. It is the decoded stats file, or `None` when the file cannot be read. Also:
  - the `svn` pulls and the per-repository `updateJsonFile` writes are not modelled;
  - the clock is a parameter, in minutes.
- Organisation.UpdateRepository: the write into the decoded map assumes the map exists; a stats file without `svnReposMap` decodes to a nil map, and the source would panic there.
