# A model of GoBlobStore

GoBlobStore is a blob proxy for many tenants. This project models its parts
with the most state and branching, and proves what they promise.

| part | files | what is proved |
|---|---|---|
| query parser | `Peg`, `QueryRun`, `Parser`, `QueryGrammar`, `Utf8`, `Utf8Laws`, `NodeStack`, `BuildAst` | the packrat interpreter ends on every text, restores its position, and recognizes the same with and without its memo table; which byte strings are UTF-8 |
| query meaning | `Tokens`, `Pure`, `Values`, `Windows`, `Terms`, `Pairs`, `Bare`, `Flat`, `FlatRuns`, `QueryParse`, `GroupParse`, `Nested`, `NotName`, `Unfielded`, `QueryPrint`, `RoundTrip`, `Decimal`, `Numerals`, `Texts`, `ValueText` | which node every query denotes, with groups at any depth, which texts are rejected, what number texts mean, and exactly when printing and parsing give a query back |
| Mongo translation | `Json`, `Mongo`, `MongoLaws`, `QuoteLaws` | exactly when the emitted text reads back as a tree, and that the tree selects the documents the query selects up to the printing of floats |
| cache | `Blobs`, `Lru`, `CacheModel`, `CacheLaws`, `FastCache`, `CacheRuns`, `CacheUse` | the cache refines a plain map up to eviction; over every run the entry used least recently is evicted; when a store does not end |
| storages | `SimpleFile`, `MainModel`, `MainStorage`, `MainInv`, `MainRuns`, `MainLaws`, `MainCalls`, `Isolation`, `TaskLaws` | what each call answers and changes; all copies hold the bytes first stored over all interleavings; deleted blobs stay deleted; tenants stay apart |
| retentions | `Retentions`, `RetentionList`, `RetentionLaws` | what is asked for deletion and when; the bounded list never loses the entries due first, and expired blobs are drained exactly when it may hold two |
| migration | `Migration`, `MigrationLaws` | backup and restore in any task order, idempotence, round trip |
| smaller algorithms | `ReaderComp`, `Volume`, `VolumeLaws`, `OpsCoor`, `OpsLaws` | stream comparison with short reads, per-mille volume selection, interleaved operations |

A class stands for each object that the Go code updates in place. Its methods
are proved against functions on plain states, and the theorems are about those
functions and about whole runs of them. Background goroutines are pending tasks:
each runs as one step, at any later time and in any order. What the
environment decides is a parameter: clock values, generated ids, the outcome of
a read-back or of a delete in the backup, the false positives of a bloom filter
(`noise`), the order in which files are walked.

The cache that `MainStorages` shares between tenants is the plain map that
`CacheRuns.RunRefines` shows `FastCache` to be; its evictions are a step of
their own.

## Where the code does less than expected

Each of these is a lemma for all inputs of the failing family.

- A store into the full cache does not end when the new entry is older than all
  others (or as old and first by id) and its id does not pass the bloom filter
  yet: `CacheLaws.StoreEnds`.
- Updating a cached description under another blob's id breaks the accounting
  or the contents unless the two entries fit: `CacheRuns.UpdateOtherExact`.
- A cache task that runs after the primary has lost the blob, or after a
  delete, caches no bytes and makes later reads succeed with none:
  `MainRuns.StepExact`, `TaskLaws.LateFill`.
- A description update on an id that is cached for another tenant hands over
  that tenant's bytes: `MainRuns.StepExact`, `Isolation.StepApart`.
- A late backup brings a deleted empty blob back: `TaskLaws.LateBackup`.
- `HasBlob` reports ids that only another tenant has cached:
  `MainLaws.CheckForeign`.
- Reading a missing blob is an error only if a backup is configured:
  `MainLaws.RetrieveExact`.
- A retention list of size one can stay empty for ever, and one of size zero
  always does, so that expired blobs are never deleted:
  `RetentionLaws.OneNeverDrains`, `RetentionLaws.ZeroNeverDrains`; draining
  holds exactly for sizes from two on: `RetentionLaws.DrainsExact`.
- A field name that starts with NOT is read as a negation, and the name NOT
  itself makes the text unreadable, also inside a node:
  `RoundTrips.ConditionReads`, `RoundTrips.NodeUnread`; together with strings
  that are not UTF-8 these are all failures of the round trip of plain
  conditions and nodes: `RoundTrips.RoundTripExact`,
  `RoundTrips.NodeRoundTripExact`.
- The empty string and the string of one quote are printed as one quote, so that
  the Mongo filter of a query with such a value at any depth is no JSON:
  `QuoteLaws.CondReadable`, `QuoteLaws.NodeReadable`.
- A value without a field, which is documented to search the default field,
  leaves only its place and its negation in the query, so that queries that
  differ in such values are the same: `QueryParse.BareForgotten`; a date and
  time without a field is an error: `Unfielded.DateTimeUnbuilt`, and so is a
  window: `Unfielded.WindowUnbuilt`.
- The negation in front of a parenthesis is lost: `GroupParse.GroupQueryParses`.
  A condition that is printed as negated therefore comes back as a node of the
  plain condition: `RoundTrips.InvertedReads`. A node of one condition is
  printed without parentheses and comes back as the condition:
  `RoundTrips.SingleNodeLost`.
- A group behind an operator is no node of its own: what stands in front of it
  becomes one, with an empty condition at its end; the conditions of a negated
  group join the node in front of it: `NestedQueries.GroupPlace`,
  `NestedQueries.GroupAfterTerm`. Otherwise no condition is lost or moved:
  `NestedQueries.NestedKeeps`.
- A float with more than eight digits after the point asks for another number:
  `MongoLaws.CondExact`.
- Resetting the retention of a blob postpones its deletion exactly when the
  entry is not in the list, which keeps the old deadline otherwise:
  `RetentionLaws.ResetExact`.
- The draw 0 selects the first volume even when it has no free space:
  `VolumeLaws.DrawZero`.

## Model

| member | source | states |
|---|---|---|
| `QueryGrammar.GrammarWellFormed` | pkg/model/query/parser.go:66-1339 | the grammar has no left recursion and no repetition of something that matches nothing, so the recursive interpreter ends on every byte string |
| `Parsers.Parser.ParseRule` | pkg/model/query/parser.go:2415-2442 | ends on every input; moves the position exactly as recognition predicts, and not at all on failure; keeps the labels of the caller; every memo entry equals what parsing again there would recognize |
| `Parsers.Parser.ParseExpr` | pkg/model/query/parser.go:2444-2507 | the same for expressions, with and without memo table; without it the value, the labels and the node stack are those of the reference semantics |
| `Parsers.Parser.ParseSeqExpr` | pkg/model/query/parser.go:2809-2828 | matches all parts in order or none, and goes back to the start when a part fails |
| `Parsers.Parser.ParseChoiceExpr` | pkg/model/query/parser.go:2663-2685 | the first alternative that matches; effects of failed alternatives on the node stack stay |
| `Parsers.Parser.ParseNotExpr` | pkg/model/query/parser.go:2740-2756 | never moves the position |
| `Parsers.Parser.ParseAndExpr` | pkg/model/query/parser.go:2550-2564 | never moves the position |
| `Parsers.Parser.ParseZeroOrMoreExpr` | pkg/model/query/parser.go:2858-2874 | the loop ends and takes the longest run of matches |
| `Parsers.Parser.ParseOneOrMoreExpr` | pkg/model/query/parser.go:2758-2778 | the same, failing on an empty run |
| `Parsers.Parser.ParseZeroOrOneExpr` | pkg/model/query/parser.go:2876-2886 | always succeeds |
| `Parsers.Parser.ParseLitMatcher` | pkg/model/query/parser.go:2702-2722 | matches the literal code point by code point, restoring the position on a mismatch |
| `Parsers.Parser.ParseCharClassMatcher` | pkg/model/query/parser.go:2582-2646 | one code point in, or for inverted classes outside, the listed characters and ranges |
| `Parsers.Parser.ParseAnyMatcher` | pkg/model/query/parser.go:2566-2580 | one code point, unless the text has ended |
| `Parsers.Parser.ParseActionExpr` | pkg/model/query/parser.go:2509-2532 | the action runs exactly when its expression matched, on the matched text |
| `Parsers.Parser.ParseLabeledExpr` | pkg/model/query/parser.go:2687-2700 | binds the value in the label set of the enclosing rule |
| `Parsers.Parser.ParseRuleRefExpr` | pkg/model/query/parser.go:2792-2807 | as the rule it names |
| `Parsers.Parser.Read` | pkg/model/query/parser.go:2224-2240 | advances by one code point and notes malformed UTF-8 exactly when some code point read so far was malformed |
| `Utf8Laws.MalformedExact` | pkg/model/query/parser.go:2224-2240 | a byte is malformed exactly when the bytes of no code point, as RFC 3629, section 3, gives them, start there |
| `Utf8Laws.ValidExact` | pkg/model/query/parser.go:2224-2240 | a text is free of encoding errors exactly when it is the bytes of code points in a row |
| `Parsers.Parser.Restore` | pkg/model/query/parser.go:2243-2251 | goes back to a saved position |
| `Parsers.Parser.GetMemoized` | pkg/model/query/parser.go:2307-2317 | a hit is what was stored for this position and node |
| `Parsers.Parser.SetMemoized` | pkg/model/query/parser.go:2319-2329 | keeps the table right when the entry is right |
| `Parsers.Parser.RunAction` | pkg/model/query/parser.go:1341-1603 | each semantic action's effect on the node stack and its value |
| `PureRules.PureRun` | pkg/model/query/parser.go:1429-1531 | token and value rules never touch the node stack or the labels, whether they match or fail |
| `QueryRun.LookAhead` | pkg/model/query/parser.go:2550-2756 | looking ahead moves and binds nothing, but what the actions did to the stack meanwhile stays |
| `NodeStacks.NodeStack.Reset` | pkg/model/query/node_stack.go:27-31 | the stack is empty |
| `NodeStacks.NodeStack.Query` | pkg/model/query/node_stack.go:33-48 | the query built so far; the last condition is appended to the node |
| `NodeStacks.NodeStack.NewNode` | pkg/model/query/node_stack.go:50-69 | what becomes of the current node and condition |
| `NodeStacks.NodeStack.CurrentNode` | pkg/model/query/node_stack.go:71-77 | a node, made when there is none |
| `NodeStacks.NodeStack.NewCondition` | pkg/model/query/node_stack.go:79-97 | the current condition is appended before a fresh one starts |
| `NodeStacks.NodeStack.CurrentCondition` | pkg/model/query/node_stack.go:99-104 | a condition, made when there is none |
| `NodeStacks.StackKeeps` | pkg/model/query/node_stack.go:27-104 | no operation loses, makes up or moves a condition: the query has all of them in the order in which they were made |
| `QueryParse.FlatQueryParses` | pkg/model/query/parser.go:1352-1427 | every parenthesis-free query, with strings, words, numbers, date-times, windows and values without a field, parses to one node with its conditions in text order, each with its own operator, negation and the value its characters mean, or to a bare condition; a value without a field leaves an empty condition, or nothing at the start; the result is an error exactly when AND and OR are mixed, a number is malformed or too large, or the text is not UTF-8 |
| `QueryParse.ValueGives` | pkg/model/query/parser.go:1529-1531 | a quoted string, word, date-time or window keeps its characters; a number text has the number that its digits, point, exponent and dash mean, and is bad exactly when it has no such parts or is beyond the 64-bit floats |
| `QueryParse.BareForgotten` | README.md:321-323 | texts that differ only in the values that stand without a field give the same query |
| `Windows.WindowMatches` | pkg/model/query/parser.go:653-832 | a window of two numbers or of two date-times, with whitespace inside its brackets, is matched as a whole; a dash behind the tilde belongs to the window |
| `Unfielded.DateTimeUnbuilt` | pkg/model/query/parser.go:375-458 | no query starts with a date and time: it reads as a field name up to its first colon, with the minutes as the value |
| `Unfielded.WindowUnbuilt` | pkg/model/query/parser.go:415-439 | no query starts with a window |
| `NestedQueries.NestedParses` | pkg/model/query/parser.go:1341-1427 | every query with groups within groups at any depth, negated or not, parses to what the actions build in the order of the text; a closing parenthesis does nothing |
| `NestedQueries.NestedKeeps` | pkg/model/query/parser.go:1352-1427 | whatever the groups of a query of terms with fields or negations, the conditions of the result are those of the text in order, with an empty one added in front of each plain group behind an operator |
| `NestedQueries.GroupPlace` | pkg/model/query/parser.go:1394-1412 | a plain group inside a query puts everything in front of it into a node before its own conditions; a negated one adds its conditions to the node in front of it |
| `NestedQueries.GroupAfterTerm` | pkg/model/query/parser.go:1394-1412 | `term op (terms)` gives a node that starts with a node of the term and an empty condition, and with NOT in front of the group with the term itself |
| `GroupParse.GroupQueryParses` | pkg/model/query/parser.go:1394-1412 | the same for a flat query in one pair of parentheses, with any whitespace inside and outside; a single term gives a node without an operator, and a negation in front of the parentheses changes nothing |
| `Decimal.IntRoundTrip` | pkg/model/query/query.go:117-118 | a printed 64-bit integer reads as that number |
| `Decimal.FloatRoundTrip` | pkg/model/query/query.go:119-122 | a printed float up to the largest one reads as the value rounded to eight digits, without a range error |
| `Decimal.RoundedExact` | pkg/model/query/query.go:119-122 | exactly the multiples of 10^-8 are printed as they are |
| `Decimal.RoundedNearest` | pkg/model/query/query.go:119-122 | no multiple of 10^-8 is nearer to the float than the printed one, and of two as near the even one is printed |
| `Decimal.RangesExact` | pkg/model/query/parser.go:1529-1531 | the range of numbers that read as 64-bit floats, and that of the floats, as parts of 2^1024 |
| `Numerals.DigitsPlaces` | pkg/model/query/parser.go:1529-1531 | a digit text is its first digit times the power of ten of its place plus the rest |
| `Numerals.NumeralReads` | pkg/model/query/parser.go:1529-1531 | every text of digits with a point, an exponent and a dash reads as the number v for which v times 10 to the number of digits behind the point is the integer of all digits times the power of ten of the exponent, negative with the dash |
| `Numerals.ParseExact` | pkg/model/query/parser.go:1529-1531 | a text reads as a number exactly when it has these parts and is in range, and then as that number |
| `Numerals.TrailingZero` | pkg/model/query/parser.go:1529-1531 | a zero behind the digits after the point changes nothing |
| `QueryPrint.NodeString` | pkg/model/query/query.go:64-94 | the buffer loop writes the elements separated by the operator, in parentheses when there are several |
| `RoundTrips.ConditionReads` | pkg/model/query/query.go:96-125 | what the parser makes of a printed condition: the condition itself, the negated condition on the rest of the name when the name starts with NOT, an error when the name is NOT or the text is not UTF-8 |
| `RoundTrips.RoundTripExact` | pkg/model/query/query.go:96-125 | a condition comes back exactly when it is not inverted, its field name does not start with NOT and the text is UTF-8 |
| `RoundTrips.InvertedReads` | pkg/model/query/query.go:96-103 | a printed inverted condition reads as a node without an operator around the condition, which is no longer inverted |
| `RoundTrips.SingleNodeLost` | pkg/model/query/query.go:64-94 | a node of one condition never comes back from its text |
| `RoundTrips.NodeReads` | pkg/model/query/query.go:64-125 | a printed flat node parses to its operator and its conditions in order, names that start with NOT being read as negations |
| `RoundTrips.NodeUnread` | pkg/model/query/parser.go:1382-1386 | a node with the field name NOT anywhere prints as a text that is an error |
| `RoundTrips.NodeRoundTripExact` | pkg/model/query/query.go:64-125 | a flat node of at least two plain conditions comes back exactly when no field name starts with NOT and the text is UTF-8 |
| `NotNames.NotColonFails` | pkg/model/query/parser.go:1382-1386 | no expression starts with `NOT:`: the name is taken for a negation of nothing |
| `BuildAst.InputEnds` | pkg/model/query/parser.go:1341-1344 | a successful parse has read the whole text |
| `BuildAst.BuildAST` | internal/services/mongodb/mongodb.go:211-224 | the query of the reference semantics, or an error exactly when nothing matches, an action fails or the text is not UTF-8 |
| `Mongo.ToMongoQuery` | internal/services/mongodb/mongodb.go:304-310 | the filter text after a `#` |
| `Mongo.NodeToMdb` | internal/services/mongodb/mongodb.go:347-366 | the builder loop joins the elements with commas |
| `Mongo.ItemToMdb` | internal/services/mongodb/mongodb.go:368-380 | conditions and nodes alike |
| `MongoLaws.FilterReads` | internal/services/mongodb/mongodb.go:304-380 | the text of a query of any depth reads as exactly one JSON tree |
| `MongoLaws.CompareMeans` | internal/services/mongodb/mongodb.go:325-344 | the six comparison operators mean what the query operators mean |
| `MongoLaws.CondMeans` | internal/services/mongodb/mongodb.go:313-322 | a condition's filter is rejected exactly for an inverted bare value and otherwise selects the documents for which the condition with its float as printed holds |
| `MongoLaws.SelectsAll` | internal/services/mongodb/mongodb.go:347-353 | a node under AND asks for all its elements, another for some element |
| `MongoLaws.TranslationMeans` | internal/services/mongodb/mongodb.go:304-380 | text to tree to documents: the filter selects a document exactly when the query with its floats as printed does, and is rejected exactly when a bare value is inverted or a node is empty or has no operator, at any depth |
| `MongoLaws.TranslationExact` | internal/services/mongodb/mongodb.go:304-380 | without floats of more than eight digits after the point the filter selects exactly the documents the query selects |
| `MongoLaws.CondExact` | pkg/model/query/query.go:119-122 | a condition keeps its meaning over all documents exactly when its value has at most eight digits after the point |
| `QuoteLaws.CondReadable` | pkg/model/query/query.go:107-116 | the filter of an otherwise plain condition is JSON exactly when its string is neither empty nor a single quote |
| `QuoteLaws.NodeReadable` | internal/services/mongodb/mongodb.go:347-380 | the filter of a node is JSON exactly when no condition at any depth has such a string |
| `Lru.Oldest` | internal/services/fastcache/lrulist.go:155-163 | the first entry with the smallest access time |
| `Lru.OldestWithData` | internal/services/fastcache/lrulist.go:165-175 | the same among the entries with data in memory, or none |
| `Lru.HasIff` | internal/services/fastcache/lrulist.go:110-121 | in a sorted list the binary search finds an id exactly when some entry has it |
| `Lru.InsertedSorted` | internal/services/fastcache/lrulist.go:177-201 | inserting keeps the strict order and adds the entry's bytes to the sum |
| `Lru.WithoutSorted` | internal/services/fastcache/lrulist.go:137-153 | deleting keeps the order and takes the entry's bytes from the sum |
| `Lru.TrimmedOk` | internal/services/fastcache/lrulist.go:95-106 | the memory limit is met by dropping data only, the counter stays the exact sum, and the branch that resets it is never needed |
| `Lru.LRUList.Search` | internal/services/fastcache/lrulist.go:52-54 | the first entry whose id is not smaller |
| `Lru.LRUList.Add` | internal/services/fastcache/lrulist.go:38-46 | the shifted list is the sorted insertion |
| `Lru.LRUList.Update` | internal/services/fastcache/lrulist.go:49-60 | overwrites the entry of the same id, if there is one |
| `Lru.LRUList.Has` | internal/services/fastcache/lrulist.go:110-121 | whether there is an entry of the id |
| `Lru.LRUList.Get` | internal/services/fastcache/lrulist.go:123-134 | the entry, marked as used now |
| `Lru.LRUList.Delete` | internal/services/fastcache/lrulist.go:137-153 | the list without the entry, and its bytes subtracted |
| `Lru.LRUList.GetOldest` | internal/services/fastcache/lrulist.go:155-163 | the loop finds the oldest entry |
| `Lru.LRUList.GetOldestWithData` | internal/services/fastcache/lrulist.go:165-175 | the loop finds the oldest entry with data |
| `Lru.LRUList.HandleContrains` | internal/services/fastcache/lrulist.go:86-107 | names the entry to evict and drops data until the limit is met |
| `FastCaches.FastCache.constructor` | internal/services/fastcache/fastcache.go:57-100 | an empty, valid cache |
| `FastCaches.FastCache.HasBlob` | internal/services/fastcache/fastcache.go:240-250 | true exactly for the ids of the plain map |
| `FastCaches.FastCache.StoreBlob` | internal/services/fastcache/fastcache.go:142-175 | refuses empty and held ids; otherwise the eviction loop ends in the state of the model, which is valid |
| `FastCaches.FastCache.WriteBinFile` | internal/services/fastcache/fastcache.go:198-227 | the file, and its bytes when they are small |
| `FastCaches.FastCache.UpdateBlobDescription` | internal/services/fastcache/fastcache.go:178-196 | both ids have to be held; the entry written is the one of the description |
| `FastCaches.FastCache.GetBlobDescription` | internal/services/fastcache/fastcache.go:253-264 | the description in the plain map, or not found; the entry counts as used |
| `FastCaches.FastCache.RetrieveBlob` | internal/services/fastcache/fastcache.go:267-290 | the bytes in the plain map, from memory or from the file |
| `FastCaches.FastCache.DeleteBlob` | internal/services/fastcache/fastcache.go:313-332 | entry, bytes and file are gone; ids that do not pass the filter are refused |
| `FastCaches.FastCache.UpdateBloom` | internal/services/fastcache/fastcache.go:354-358 | the id passes the filter |
| `FastCaches.FastCache.RebuildBloomFilter` | internal/services/fastcache/fastcache.go:366-379 | the loop over the ids gives a filter that every entry passes |
| `CacheLaws.StoreEnds` | internal/services/fastcache/fastcache.go:163-172 | the eviction loop does not end exactly when the list is full, the new entry is its own candidate and its id does not pass the filter |
| `CacheLaws.LoopRuns` | internal/services/fastcache/fastcache.go:163-172 | in that case every round asks for one more eviction |
| `CacheLaws.LoopStops` | internal/services/fastcache/fastcache.go:163-172 | otherwise some round asks for none, and that is the result |
| `CacheLaws.StoreKeeps` | internal/services/fastcache/fastcache.go:142-175 | all invariants and both limits hold afterwards; the map has the new blob and lost at most one other |
| `CacheLaws.StoreEvictsOldest` | internal/services/fastcache/fastcache.go:157-174 | with a later access time than some entry the store ends, keeps the new blob, and whatever is evicted was used least recently |
| `CacheLaws.VictimIsNew` | internal/services/fastcache/lrulist.go:90-94 | when the candidate for eviction is the new entry itself |
| `CacheLaws.LimitCore` | internal/services/fastcache/lrulist.go:95-106 | meeting the memory limit changes no contents |
| `CacheLaws.DeleteKeeps` | internal/services/fastcache/fastcache.go:313-332 | a delete removes exactly its id from the map |
| `CacheLaws.TouchProtects` | internal/services/fastcache/lrulist.go:123-134 | a blob just read is not the next to be evicted while another was used earlier |
| `CacheRuns.UpdateKeeps` | internal/services/fastcache/fastcache.go:178-196 | an update with the blob's own id changes exactly its description |
| `CacheRuns.UpdateOtherExact` | internal/services/fastcache/fastcache.go:189-193 | with another id the invariants survive exactly when the memory data fits the other file and length |
| `CacheRuns.StepRefines` | internal/services/fastcache/fastcache.go:142-332 | every call keeps all invariants and the refinement |
| `CacheRuns.RunRefines` | internal/services/fastcache/fastcache.go:142-379 | after any run of calls a hit gives the description and the bytes last stored under that id |
| `CacheRuns.DeletedMisses` | internal/services/fastcache/fastcache.go:313-332 | a deleted id misses until it is stored again |
| `CacheRuns.RunExact` | internal/services/fastcache/fastcache.go:142-379 | as long as there is room for every store nothing is forgotten |
| `CacheRuns.RebuildExact` | internal/services/fastcache/fastcache.go:366-379 | after a rebuild an id passes the filter exactly when it is held or is a false positive |
| `CacheUse.StartRecorded` | internal/services/fastcache/fastcache.go:57-100 | an empty cache is a start for such records |
| `CacheUse.StoreEvicts` | internal/services/fastcache/fastcache.go:157-174 | with the time of the last use of every held id written beside the cache, the new blob at the time of its own store, a store evicts only an id of which no other was used earlier |
| `CacheUse.RunEvicts` | internal/services/fastcache/fastcache.go:142-290 | so it is for every store after any run of calls, the uses being the stores, updates, descriptions and fetches of the run |
| `CacheUse.RunSmall` | internal/services/fastcache/fastcache.go:198-227 | after any run only contents below the size limit are in memory, and they are those of the file |
| `CacheUse.StoreInMemory` | internal/services/fastcache/fastcache.go:198-227 | the entry of a store within the memory limit: its time, its description, and the contents exactly if they are small and could be read back |
| `SimpleFile.BlobStorage.HasBlob` | internal/services/simplefile/simplefileblobstorage.go:79-90 | binary and description are there |
| `SimpleFile.BlobStorage.GetBlobDescription` | internal/services/simplefile/simpleblobv2.go:53-76 | from memory first, then from the file |
| `SimpleFile.BlobStorage.RetrieveBlob` | internal/services/simplefile/simpleblobv2.go:90-111 | the binary |
| `SimpleFile.BlobStorage.StoreBlob` | internal/services/simplefile/simpleblobv2.go:113-137 | a wrong length removes the files and is an error; otherwise binary, description and its copy in memory are written |
| `SimpleFile.BlobStorage.DeleteFiles` | internal/services/simplefile/simpleblobv2.go:169-186 | stops at the first file that is missing |
| `SimpleFile.BlobStorage.DeleteBlob` | internal/services/simplefile/simplefileblobstorage.go:116-125 | forgets the description and removes the files |
| `SimpleFile.BlobStorage.UpdateBlobDescription` | internal/services/simplefile/simpleblobv2.go:79-88 | writes file and memory |
| `SimpleFile.BlobStorage.GetRetention` | internal/services/simplefile/simpleblobv2.go:228-245 | the retention file |
| `SimpleFile.BlobStorage.AddRetention` | internal/services/simplefile/simplefileblobstorage.go:178-186 | the description with the entry's times |
| `SimpleFile.BlobStorage.ResetRetention` | internal/services/simplefile/simplefileblobstorage.go:193-201 | the retention counts from now |
| `SimpleFile.StoreEffect` | internal/services/simplefile/simpleblobv2.go:113-137 | the blob is there with exactly these bytes, or refused and absent; other ids are untouched |
| `SimpleFile.DeleteEffect` | internal/services/simplefile/simpleblobv2.go:169-186 | the bytes are gone whatever is reported; other ids are untouched |
| `SimpleFile.UpdateEffect` | internal/services/simplefile/simpleblobv2.go:79-88 | an update replaces the description of one id, in memory and in the file, and nothing else |
| `SimpleFile.DescriptionStays` | internal/services/simplefile/simpleblobv2.go:53-76 | a description just written outlives the loss of its file, and a restart |
| `SimpleFile.NoEmptyBlob` | internal/services/simplefile/simplefileblobstorage.go:79-90 | the empty id is never reported |
| `SimpleFile.RetentionEffect` | internal/services/simplefile/simplefileblobstorage.go:178-186 | a retention entry keeps the creation date and the names of the description and takes its times from the call |
| `SimpleFile.ResetEffect` | internal/services/simplefile/simplefileblobstorage.go:193-201 | a reset changes the base of the entry and nothing else |
| `MainStorages.MainStorage.StoreBlob` | internal/services/business/mainstorage.go:54-99 | refuses ids the primary has; stores, backs up now or later, and starts a cache task |
| `MainStorages.MainStorage.BackupFile` | internal/services/business/mainstorage.go:183-204 | copies what the primary yields when the backup does not have the blob |
| `MainStorages.MainStorage.CacheFile` | internal/services/business/mainstorage.go:147-169 | caches what the primary yields, also when the read fails |
| `MainStorages.MainStorage.CacheFileByID` | internal/services/business/mainstorage.go:129-145 | looks the description up first |
| `MainStorages.MainStorage.RestoreFile` | internal/services/business/mainstorage.go:207-231 | copies back what the backup has and starts a cache task |
| `MainStorages.MainStorage.RunTask` | internal/services/business/mainstorage.go:81-94 | one pending task runs as one step |
| `MainStorages.MainStorage.HasBlob` | internal/services/business/mainstorage.go:253-272 | cache, primary, then backup, which starts a restore |
| `MainStorages.MainStorage.GetBlobDescription` | internal/services/business/mainstorage.go:275-295 | the tenant's own cache hit, the primary, then the backup |
| `MainStorages.MainStorage.RetrieveBlob` | internal/services/business/mainstorage.go:298-321 | the same for the bytes |
| `MainStorages.MainStorage.RetrieveFromCache` | internal/services/business/mainstorage.go:324-337 | a hit only for the tenant's own description |
| `MainStorages.MainStorage.DeleteBlob` | internal/services/business/mainstorage.go:340-364 | primary first, then backup and cache |
| `MainStorages.MainStorage.UpdateBlobDescription` | internal/services/business/mainstorage.go:102-127 | primary, backup now or later, cache |
| `MainCalls.StoreExists` | internal/services/business/mainstorage.go:55-61 | a store is refused as a duplicate exactly when the primary has the id, and then changes nothing at all |
| `MainCalls.StoreRefused` | internal/services/business/mainstorage.go:62-80 | otherwise it is refused exactly for a wrong promised length; then backup, cache, tasks and all other ids are untouched and the id is absent |
| `MainCalls.StoreTaken` | internal/services/business/mainstorage.go:62-99 | and else the primary has exactly the bytes, under the description with id and length filled in |
| `MainCalls.UpdateShows` | internal/services/business/mainstorage.go:102-127 | after an update the id is described as given, from the own hit or the primary; bytes and the descriptions of other ids are unchanged |
| `MainCalls.UpdateReaches` | internal/services/business/mainstorage.go:107-119 | the backup describes it so, at once or when its task runs |
| `MainCalls.CheckExact` | internal/services/business/mainstorage.go:253-272 | a blob is reported exactly when cache, primary or backup has it, and never for the empty id |
| `MainCalls.DescribeExact` | internal/services/business/mainstorage.go:275-295 | the description of the primary comes before that of the backup, and there is an error exactly when neither has one |
| `MainCalls.EmptyId` | internal/services/business/mainstorage.go:275-337 | the empty id is never looked up in the cache |
| `MainCalls.DeleteExact` | internal/services/business/mainstorage.go:340-364 | a delete succeeds exactly when the primary has both files; then primary, cache and, unless that failed, backup have no bytes of it; all other ids are as before |
| `MainCalls.ReadCaches` | internal/services/business/mainstorage.go:129-169 | reading a blob from the primary puts it into the cache when the task of the read has run |
| `MainCalls.TasksKeep` | internal/services/business/mainstorage.go:129-231 | no task takes or changes a blob that the backup has, but for the description that an update task writes |
| `MainCalls.CacheKeeps` | internal/services/business/mainstorage.go:129-169 | no task changes a cached entry |
| `MainInv.CopiedOk` | internal/services/business/mainstorage.go:183-231 | a copy never puts other bytes into a store: the length check refuses what a lost source yields |
| `MainInv.ActedOk` | internal/services/business/mainstorage.go:54-364 | every call, task, loss and eviction keeps both stores of the tenant as first stored |
| `MainRuns.CacheEffect` | internal/services/business/mainstorage.go:129-169 | what each action does to the shared cache |
| `MainRuns.StepExact` | internal/services/business/mainstorage.go:54-364 | with any number of tenants the invariant over all copies survives a step exactly when it is neither a fill from a primary that lost a non-empty blob nor an update of another tenant's entry with other bytes |
| `MainLaws.RunKeepsCopies` | internal/services/business/mainstorage.go:54-364 | over every run in which no blob is lost or deleted while a cache task for it is pending, and no foreign cached description is overwritten, all copies everywhere hold the bytes first stored |
| `MainLaws.StartOk` | internal/services/business/mainstorage.go:36-41 | empty stores satisfy the invariant |
| `MainLaws.RetrieveExact` | internal/services/business/mainstorage.go:298-337 | while all copies agree, a read gives the bytes first stored exactly when some tier the tenant may read holds the blob; otherwise an error with a backup, and no error and no bytes without |
| `MainLaws.DescribeOwn` | internal/services/business/mainstorage.go:275-295 | while all copies agree, a description is always the tenant's own |
| `Isolation.StartApart` | internal/services/business/mainstorage.go:36-41 | empty stores are such a start |
| `Isolation.StepApart` | internal/services/business/mainstorage.go:54-364 | every cache entry keeps the bytes of the tenant it names, or none, over a step exactly when the step does not put a description over bytes of another tenant |
| `Isolation.RunIsolated` | internal/services/business/mainstorage.go:275-337 | after any run of any number of tenants without such updates, with deletes and losses at any time, bytes that a tenant reads are its own and so are the descriptions it is shown |
| `MainLaws.CheckForeign` | internal/services/business/mainstorage.go:253-258 | an id the tenant never stored is reported exactly when the cache holds it for another tenant |
| `TaskLaws.DeleteGone` | internal/services/business/mainstorage.go:340-364 | a successful delete leaves the bytes in neither store, unless deleting the copy failed |
| `TaskLaws.RunStaysGone` | internal/services/business/mainstorage.go:183-231 | afterwards no interleaving of calls and pending tasks brings a non-empty blob back to primary or backup |
| `TaskLaws.LateBackup` | internal/services/business/mainstorage.go:183-204 | a backup after the delete succeeds exactly when no length was promised |
| `TaskLaws.LateFill` | internal/services/business/mainstorage.go:147-169 | a cache task after the delete makes reads succeed with no bytes |
| `TaskLaws.StoreSpreads` | internal/services/business/mainstorage.go:63-94 | a stored blob is in the primary, in the backup at once or when its task runs, and in the cache when its task runs, with its bytes |
| `TaskLaws.ReadHeals` | internal/services/business/mainstorage.go:207-321 | asking for a blob whose binary the primary has lost, whatever is left of its descriptions, answers from the backup and starts a restore, after which the primary has the bytes first stored again; a description that is left is answered without a restore |
| `RetentionList.Later` | internal/services/retentionmanager/singleretentionmanager.go:129-131 | the first entry with a later deadline |
| `RetentionList.SingleRetentionManager.PushToList` | internal/services/retentionmanager/singleretentionmanager.go:123-138 | duplicates and entries beyond the bound are ignored; on overflow two entries are cut off; the list stays sorted, distinct and bounded |
| `RetentionList.SingleRetentionManager.Search` | internal/services/retentionmanager/singleretentionmanager.go:129-131 | binary search for the first later deadline |
| `RetentionList.SingleRetentionManager.InsertAt` | internal/services/retentionmanager/singleretentionmanager.go:141-148 | shifting and overwriting is insertion |
| `RetentionList.SingleRetentionManager.RemoveEntry` | internal/services/retentionmanager/singleretentionmanager.go:86-101 | takes out the entry, or the first one when there is none |
| `RetentionList.SingleRetentionManager.ProcessRetention` | internal/services/retentionmanager/singleretentionmanager.go:61-84 | asks for the deletion of exactly the listed entries that are due, once each and in order, and leaves exactly the rest |
| `RetentionList.DueExact` | pkg/model/retentionentry.go:14-19 | an entry is due exactly when more than its retention times 60000 milliseconds have passed since its base, or since its creation when it has none |
| `RetentionList.SingleRetentionManager.RefreshRetention` | internal/services/retentionmanager/singleretentionmanager.go:103-121 | pushes all stored entries in walk order |
| `RetentionList.SingleRetentionManager.AddRetention` | internal/services/retentionmanager/singleretentionmanager.go:164-177 | pushes an entry with a retention once it is stored |
| `RetentionList.PushedOk` | internal/services/retentionmanager/singleretentionmanager.go:123-138 | a push keeps the list sorted, distinct and bounded |
| `RetentionList.PushKeeps` | internal/services/retentionmanager/singleretentionmanager.go:132-137 | an entry that a push drops or rejects is preceded by size minus one others |
| `RetentionLaws.PushesKeep` | internal/services/retentionmanager/singleretentionmanager.go:123-148 | after any pushes the entries due first, size minus one of them, are in the list |
| `RetentionLaws.ProcessDrains` | internal/services/retentionmanager/singleretentionmanager.go:61-84 | a run takes away at least one expired entry and nothing that is not due |
| `RetentionLaws.RoundOk` | internal/services/retentionmanager/singleretentionmanager.go:61-121 | after a refresh some expired entry heads the list, if any is stored |
| `RetentionLaws.DrainEnds` | internal/services/retentionmanager/singleretentionmanager.go:61-121 | after as many rounds as expired entries, plus one, none is stored any more, and nothing not yet due is gone |
| `RetentionLaws.OneNeverDrains` | internal/services/retentionmanager/singleretentionmanager.go:132-137 | with size one, two stored entries that every refresh walks the later one first are never deleted, in any number of rounds at any times |
| `RetentionLaws.ZeroNeverDrains` | internal/services/retentionmanager/singleretentionmanager.go:132-137 | with size zero or less nothing stored is ever deleted |
| `RetentionLaws.DrainsExact` | internal/services/retentionmanager/singleretentionmanager.go:61-138 | whatever is stored, listed and walked, enough rounds delete all expired entries, exactly when the size is two or more |
| `RetentionLaws.ResetNumbers` | pkg/model/retentionentry.go:14-19 | an entry reset at a time is due exactly when its retention in minutes has passed since then |
| `RetentionLaws.ResetExact` | internal/services/retentionmanager/singleretentionmanager.go:123-202 | a reset postpones the request for deletion exactly when the entry is not in the list |
| `Migration.CopyBlob` | internal/services/migration/backup.go:66-106 | contents, description and retention entry are copied |
| `Migration.MigrateBckTnt` | internal/services/migration/backup.go:45-63 | walk and tasks interleaved in any way copy each missing id once |
| `Migration.RestoreContext.Restore` | internal/services/migration/restore.go:50-76 | copies each id the primary does not have, once, and is not running afterwards |
| `Migration.CopiedAllOk` | internal/services/migration/backup.go:66-106 | whatever the order, each copied id holds the source's blob and every other id is as before |
| `MigrationLaws.MigrateUnion` | internal/services/migration/backup.go:45-106 | the backup is the old backup plus exactly the missing blobs |
| `MigrationLaws.MigrateIdempotent` | internal/services/migration/backup.go:45-63 | a second migration changes nothing |
| `MigrationLaws.RestoreRoundTrip` | internal/services/migration/restore.go:50-124 | migrate, lose the primary, restore: every blob and every newly copied retention entry is back |
| `MigrationLaws.RetentionUnchanged` | internal/services/migration/restore.go:112-120 | an entry that fits its description is copied unchanged |
| `MigrationLaws.RetentionCopied` | internal/services/migration/restore.go:112-120 | field by field what a copied retention entry holds |
| `ReaderComp.CatchUp` | internal/utils/readercomp/readercomp.go:26-47 | reads on up to the other reader's block, or to the end of the stream |
| `ReaderComp.ReadBlocks` | internal/utils/readercomp/readercomp.go:16-47 | blocks of the same length unless one stream ends |
| `ReaderComp.Equal` | internal/utils/readercomp/readercomp.go:11-61 | ends, and without a failing read answers true exactly when the streams are the same, however the reads are cut; an error exactly when a read failed |
| `Volume.Manager.Measure` | internal/services/volume/manager.go:173-181 | the loop over the map sets every free per-mille and sums them, in any order |
| `Volume.Manager.Share` | internal/services/volume/manager.go:182-187 | the second loop sets every share |
| `Volume.Manager.CalculatePerMill` | internal/services/volume/manager.go:168-189 | every volume's free per-mille and its share of the sum |
| `Volume.Manager.SelectFree` | internal/services/volume/manager.go:191-207 | the first name in sorted order at which the running sum reaches the number |
| `Volume.SortedOnce` | internal/services/volume/manager.go:194-198 | the sorted order of the names is unique |
| `VolumeLaws.PerMillRange` | internal/services/volume/manager.go:177 | at most 1000, also when 64-bit arithmetic wraps around |
| `VolumeLaws.PerMillExact` | internal/services/volume/manager.go:177 | the per-mille of a volume is the floor of its free bytes times 1000 over its total |
| `VolumeLaws.ShareExact` | internal/services/volume/manager.go:182-187 | a selector is the floor of the volume's free per-mille times 1000 over their sum |
| `VolumeLaws.NoneFree` | internal/services/volume/manager.go:182-187 | with nothing free anywhere every selector stays as it was |
| `VolumeLaws.SelectorShares` | internal/services/volume/manager.go:168-189 | the selectors of n volumes sum to at most 1000 and more than 1000 - n, and grow with the free space |
| `VolumeLaws.HitsExactly` | internal/services/volume/manager.go:191-207 | within the sum each volume is selected exactly as often as its selector says |
| `VolumeLaws.FewMisses` | internal/services/volume/manager.go:191-212 | of the draws 0 to 999 at most n - 2 find no volume |
| `VolumeLaws.DrawZero` | internal/services/volume/manager.go:199-205 | the draw 0 selects the first volume |
| `OpsCoor.Operations.Append` | internal/services/opscoor/opscoor.go:60-65 | appends |
| `OpsCoor.Operations.Len` | internal/services/opscoor/opscoor.go:67-71 | the length |
| `OpsCoor.Operations.Remove` | internal/services/opscoor/opscoor.go:73-89 | swap-removes the operation, and reports whether it was there |
| `OpsCoor.SingleNodeOpsCoor.Prepare` | internal/services/opscoor/opscoor.go:103-133 | a new index, a new task, and the operation at the end of its id's list |
| `OpsCoor.SingleNodeOpsCoor.Step` | internal/services/opscoor/opscoor.go:124-131 | the phases of an operation's goroutine |
| `OpsCoor.SingleNodeOpsCoor.Count` | internal/services/opscoor/opscoor.go:136-143 | the length of the id's list |
| `OpsLaws.WithoutExact` | internal/services/opscoor/opscoor.go:73-89 | swap-removal drops exactly its own operation |
| `OpsLaws.RunOk` | internal/services/opscoor/opscoor.go:103-133 | over every interleaving indices are unique, each list holds exactly the operations not yet removed, and no callback runs twice |
| `OpsLaws.PrepareAdds` | internal/services/opscoor/opscoor.go:103-123 | a prepared operation has an index of its own and stands at the end of its id's list, all other lists being as before |
| `OpsLaws.RunFinishes` | internal/services/opscoor/opscoor.go:124-131 | over any run an operation has exactly as many steps left as before less those its own goroutine took, and is finished after four |
| `OpsLaws.CountIsLive` | internal/services/opscoor/opscoor.go:136-143 | the count is the number of operations prepared and not yet removed |
| `OpsLaws.AllDone` | internal/services/opscoor/opscoor.go:103-143 | when all goroutines are done every count is 0 and every callback ran exactly once |

## Left out

- BuildAst.BuildAST: with the memo table on, only recognition is stated, because a hit skips the semantic actions, so the query built may differ; the program parses without it.
- Parsers.Parser.GetMemoized: entries are kept by the shape of a node and not by its address, so equal nodes share an entry; every entry is right for both.
- Parsers.Parser.ParseCharClassMatcher: case-insensitive matching and Unicode classes, which the grammar does not use.
- Parsers.Parser.ParseLitMatcher: case-insensitive matching, which the grammar does not use.
- QueryParse.FlatQueryParses: a value that is not followed by whitespace, a closing parenthesis or the end.
- NestedQueries.NestedKeeps: values without a field and without a negation, which leave no condition at the start of a list.
- RoundTrips.NodeRoundTripExact: inverted conditions inside nodes, nodes within nodes, and strings with inner quotes.
- Decimal.FloatRoundTrip: floats are exact reals within the 64-bit range; rounding to binary is not modelled, and neither are infinities and `float32`.
- MongoLaws.TranslationMeans: field names and strings with quotes, backslashes or control characters, arrays and embedded documents, and names that start with `$`.
- QuoteLaws.NodeReadable: field names that start with a space, a brace or a comma.
- FastCaches.FastCache.StoreBlob: asks that the eviction loop ends, which `CacheLaws.StoreEnds` characterises, and excludes ids of one character, on which the file name builder panics; failures of the file system other than reading back are not modelled.
- FastCaches.FastCache.RebuildBloomFilter: one step, although the code notes that it is not atomic.
- SimpleFile.BlobStorage.UpdateBlobDescription: writing always succeeds; the missing directory of a blob that never existed is not modelled.
- SimpleFile.BlobStorage.StoreBlob: ids shorter than four characters, on which the path builder panics, partial writes, hashes, and the old file layout of version 1.
- MainStorages.MainStorage.StoreBlob: the index service, the retention manager, the tenant's own backup store and the size counters.
- MainStorages.MainStorage.DeleteBlob: the retention entry of the blob and the size counters.
- MainStorages.MainStorage.UpdateBlobDescription: the id in the call is the one in the description, and writing a description does not fail.
- TaskLaws.RunStaysGone: about the bytes; a description can come back by a later update, but no blob is present without its bytes.
- RetentionList.SingleRetentionManager.ProcessRetention: deadlines are unbounded integers; unsynchronised access to the list from several goroutines is not modelled.
- RetentionLaws.DrainEnds: blob ids are unique over all tenants, deletes succeed and no retention is reset between rounds.
- ReaderComp.Equal: a reader that gives nothing and no error for ever.
- Volume.Manager.SelectFree: `sort.Strings` is an insertion into a sorted list.
- OpsCoor.SingleNodeOpsCoor.Prepare: the type of an operation only decides the returned flag; the state strings that nothing reads are the phases.
- HTTP handlers, authorisation, metrics, the S3 store, the Bluge index, the drivers and encoders: calls into code that is not part of this model.
- `CheckBlob`, tenant size counters, multi-volume storage and its listing: they would only add easy members.
- Error texts, line and column counting, recovery and state blocks of the generated parser: diagnostic, or unused by this grammar.
