# Movie-analytics pipeline: a verified model of its core

The system is a distributed pipeline that answers five queries over a movie
dataset (movies, reviews, credits). A client reads CSV files, repairs the
Python-dict fields into JSON and streams batches to a gateway. Stages connected
by queues then process the batches: a preprocessor, production and year
filters, reducers, joiners and per-query final reducers. The gateway converts
the final results into records for the client. Deployment is generated by
`generate-compose.py`. Fault injection uses `kill-containers.py`, and
`compare_outputs.py` checks a run's output against expected results.

This project models the sequential logic of that system in Dafny:

- the compose generator, as a sequence of service records;
- the container-name whitelist and the output comparator;
- the batch-header EOF rule;
- the generic slice helpers;
- the preprocessor's record mapping and shard routing;
- the filter predicates and per-batch reducers;
- the final reducers' merges, top-K selection and session completion rule;
- the joiner's counters, join and controller session table;
- the gateway's result conversion;
- length-prefixed framing and the protocol headers;
- the client's text repair, field parsers and CSV record joining;
- the result-string formatting.

Code that updates state in place is modelled as classes with `modifies`
frames, and loops as methods with invariants, each proved against a
specification function. Pure code is modelled as functions and lemmas.

Shared modules:

- `Wrappers` holds `Option` and `Result`.
- `Machine` holds the fixed-width integer types and their wrap-around.
- `Text` holds trimming, joining, decimal formatting and parsing, and a generic separator scanner.
- `Records` holds the record types that travel between stages.

## Model

| member | source | states |
|---|---|---|
| Batches.Header.GetClientID | server/common/batch.go:18-20 | the client id returned is the header's ClientID, character for character |
| Batches.EofOnlyByTotal | server/common/batch.go:14-16 | a batch is EOF iff TotalWeight > 0; changing Weight, ClientID or Data never changes the answer, and pkg/models/Batch.go:15-17 agrees |
| Batches.MarkersAreNotEof | server/common/batch.go:5-16 | the unknown-total marker -1 and the gateway's cleanup marker -2 are never EOF |
| Utils.Filtered | server/common/utils.go:3-11 | the filtered sequence is never longer than its input |
| Utils.FilteredAppend | server/common/utils.go:3-11 | filtering distributes over concatenation, so input order is preserved |
| Utils.FilteredCount | server/common/utils.go:3-11 | an item occurs in the result as often as in the input if it satisfies the predicate, and never otherwise |
| Utils.FilteredMembers | server/common/utils.go:3-11 | x is in the result iff x is in the input and satisfies the predicate |
| Utils.FilteredAll | server/common/utils.go:3-11 | when every item satisfies the predicate, filtering returns the input unchanged |
| Utils.FilteredCongruent | server/common/utils.go:3-11 | two predicates that agree on every item filter the input alike |
| Utils.Filter | server/common/utils.go:3-11 | the loop returns exactly the items satisfying the predicate, in input order |
| Utils.FirstIndex | server/common/utils.go:13-20 | none iff no item satisfies the predicate; otherwise the index of a satisfying item before which none satisfies it |
| Utils.First | server/common/utils.go:13-20 | returns nothing iff no item satisfies the predicate, else the earliest satisfying item |
| Utils.Mapped | server/common/utils.go:22-28 | the result has the input's length and element k is the mapper applied to input k |
| Utils.MappedAppend | server/common/utils.go:22-28 | mapping distributes over concatenation |
| Utils.Map | server/common/utils.go:22-28 | the loop's result equals the element-wise mapping of the input |
| Utils.TotalAppend | server/common/utils.go:30-36 | the sum of a concatenation is the sum of the parts |
| Utils.TotalBounds | server/common/utils.go:30-36 | for non-negative elements each element is at most the sum |
| Utils.TotalNonNegative | server/common/utils.go:30-36 | the sum of non-negative elements is non-negative |
| Utils.Sum | server/common/utils.go:30-36 | the loop's accumulator equals the arithmetic sum of the elements |
| Utils.ConcatLength | server/common/utils.go:38-44 | the flattened length is the sum of the inner lengths |
| Utils.ConcatAppend | server/common/utils.go:38-44 | flattening distributes over concatenation of the outer sequence |
| Utils.ConcatMembers | server/common/utils.go:38-44 | x is in the flattening iff it is in some inner sequence |
| Utils.Flatten | server/common/utils.go:38-44 | the loop's result is the in-order concatenation of the inner sequences |
| ClientParser.RawPairs | client/utils/parser.go:17-61 | the quote-aware split of an input always yields at least one piece |
| ClientParser.SplitPairs | client/utils/parser.go:17-61 | the character loop with inQuote/quoteChar returns the trimmed, non-empty pieces between commas outside quotes, in order |
| ClientParser.ToggleQuote | client/utils/parser.go:25-36 | the quote state after a quote character is the one the splitting specification prescribes: outside quotes it opens a section of that kind, inside only the same kind closes it |
| ClientParser.QuotedRun | client/utils/parser.go:23-39 | inside a section opened by quote q, no character other than q changes the scanner state, so no comma there separates |
| ClientParser.QuotedSectionNotCut | client/utils/parser.go:23-50 | a section q…q free of q stays whole, quotes included, in the first piece |
| ClientParser.RawPairsJoin | client/utils/parser.go:23-51 | re-joining the untrimmed pieces with commas gives back the input, so nothing is lost or reordered |
| ClientParser.KeptPairsAppend | client/utils/parser.go:41-58 | trimming and dropping empties distributes over the piece sequence |
| ClientParser.KeptPairsMembers | client/utils/parser.go:41-58 | p is a returned pair iff p is non-empty and is the trimmed form of some piece |
| ClientParser.KeptPairsTrimmed | client/utils/parser.go:43-56 | every returned pair is non-empty with no leading or trailing space |
| ClientParser.TraverseSpec | client/utils/parser.go:80-103 | the pair loop succeeds iff every pair fixes; its output then has one entry per pair in order; otherwise it fails with the first failing pair's error |
| ClientParser.TrimQuotesLeft | client/utils/parser.go:89 | the result is a suffix of the input that does not start with ' |
| ClientParser.TrimQuotesRight | client/utils/parser.go:89 | the result is a prefix of the input that does not end with ' |
| ClientParser.FixJSONObject | client/utils/parser.go:64-107 | the loop over pairs returns exactly the specification function's result |
| ClientParser.FixObjectSpec | client/utils/parser.go:64-107 | errors unless the trimmed input is {…} of length ≥ 2; an empty body gives "{}"; otherwise success iff every pair contains ':', the error naming the first pair without one; success is always wrapped in { } |
| ClientParser.HasColon | client/utils/parser.go:81-84 | splitting at ':' finds a colon iff the pair contains one |
| ClientParser.ColonAfterName | client/utils/parser.go:81 | for a pair 'name': with a colon-free name, the first colon is right after the closing quote |
| ClientParser.UnquotedName | client/utils/parser.go:89 | trimming quotes from 'name' gives name back when name neither starts nor ends with ' |
| ClientParser.TrimSpaceOfQuoted | client/utils/parser.go:86-87 | a quoted text is unchanged by trimming spaces |
| ClientParser.QuotedKey | client/utils/parser.go:81-89 | for 'name':rest the split is after the key, the key is name and the value text is rest |
| ClientParser.FixPairAt | client/utils/parser.go:81-102 | a pair split at its first colon gives the quoted key, ": ", and the fixed value |
| ClientParser.PythonStringPair | client/utils/parser.go:81-102 | a Python pair 'name': 'text' becomes quote(name): quote(text) |
| ClientParser.QuotedValue | client/utils/parser.go:93-95 | a value in single quotes is re-quoted from its inner text |
| ClientParser.NoneValue | client/utils/parser.go:96-97 | a value that is none in any letter case becomes null |
| ClientParser.PythonNonePair | client/utils/parser.go:81-102 | a Python pair 'name': None becomes quote(name): null |
| ClientParser.BracedFrom | client/utils/parser.go:117-118 | every match the scanner for {[^}]*} returns is a { … } text with no inner } |
| ClientParser.BracedSlice | client/utils/parser.go:117 | a { followed by a } with no } in between delimits a match |
| ClientParser.NoObjectsIff | client/utils/parser.go:117-121 | the scanner finds no match iff no { occurs before some } |
| ClientParser.FixJSONArray | client/utils/parser.go:110-134 | the method returns exactly the specification function's result |
| ClientParser.FixMatches | client/utils/parser.go:123-130 | the loop fixes the matches in order and stops at the first error |
| ClientParser.FixMatchesOk | client/utils/parser.go:123-130 | fixing all matches succeeds iff every match is a fixable object |
| ClientParser.FixArraySpec | client/utils/parser.go:110-134 | success iff the trimmed input is […], contains a { before a }, and every match fixes; success is always wrapped in [ ] |
| ClientParser.ParseJSONToObject | client/utils/parser.go:137-154 | "" gives no object and no error; otherwise success iff the object repairs and decodes, and then an object is present |
| ClientParser.ParseJSONArray | client/utils/parser.go:157-178 | "" gives nil, "[]" gives an empty list; otherwise success iff the array repairs and decodes |
| ClientParser.SpacedEmptyArrayFails | client/utils/parser.go:157-164 | "[ ]" is not caught by the "[]" guard and fails with no objects found |
| ClientParser.ParseBoolOfPythonBool | client/utils/parser.go:181-190 | the Python spellings True/False and the lower-case spellings parse to their value |
| ClientParser.ParseBoolFolds | client/utils/parser.go:181-190 | whatever parses matches true or false letter by letter under simple case folding, which also accepts "falſe" |
| ClientParser.ParseUint | client/utils/parser.go:193-214 | a successful parse is below the width's limit, or 0 for "" |
| ClientParser.ParseUintOfNatToString | client/utils/parser.go:193-214 | the decimal form of n parses back to n when n fits the width, and errors otherwise |
| ClientParser.ParseUintWidths | client/utils/parser.go:193-214 | every uint32/uint64 value round-trips through its decimal form, and 2^32 and 2^64 are rejected |
| ClientParser.HasNaNValues | client/utils/parser.go:282-290 | holds iff some required column is "" or "NaN" |
| ClientSessions.FinishedMeaning | server/final-reducer/client_session.go:38-40 | with no positive EOF weight recorded a session is never finished; otherwise, while eofWeight × multiplier fits 32 bits, finished iff currentWeight equals that product |
| ClientSessions.FinishedSmallMultipliers | server/final-reducer/client_session.go:38-40 | with multiplier 1 finished iff currentWeight = eofWeight > 0; with multiplier 0 finished iff an EOF is recorded and no weight has arrived |
| ClientSessions.ClientSession.constructor | server/final-reducer/client_session.go:11-16 | a new session has the given id and multiplier, both weights 0, no data, and is not finished |
| ClientSessions.ClientSession.SetData | server/final-reducer/client_session.go:18-20 | replaces the data and nothing else |
| ClientSessions.ClientSession.GetData | server/final-reducer/client_session.go:22-24 | returns the value last stored by SetData |
| ClientSessions.ClientSession.AddCurrentWeight | server/final-reducer/client_session.go:26-28 | adds to currentWeight modulo 2^32 and changes no other field |
| ClientSessions.ClientSession.SetEofWeight | server/final-reducer/client_session.go:30-32 | overwrites eofWeight only |
| ClientSessions.ClientSession.GetEofWeight | server/final-reducer/client_session.go:34-36 | returns the recorded EOF weight |
| Communication.BigEndian32 | pkg/communication/communication.go:42-43 | the length prefix is exactly 4 bytes |
| Communication.Uint32OfBigEndian32 | pkg/communication/communication.go:43-72 | decoding a big-endian prefix gives back the encoded length |
| Communication.BigEndian32OfUint32 | pkg/communication/communication.go:43-72 | every 4-byte prefix is the encoding of the length it decodes to |
| Communication.UnframeFrame | pkg/communication/communication.go:41-78 | decoding a stream that starts with a frame yields the payload and leaves exactly the bytes after 4 + len |
| Communication.FrameUnframe | pkg/communication/communication.go:41-78 | every stream that decodes is a frame of the decoded payload followed by the rest |
| Communication.FillsNeedsBytes | pkg/communication/communication.go:18-24 | reading `want` bytes can only succeed if that many bytes are available |
| Communication.FillsWhenProgress | pkg/communication/communication.go:18-24 | if enough bytes are available and every read makes progress, enough reads fill the buffer |
| Communication.RecvAll | pkg/communication/communication.go:13-26 | succeeds iff the reads deliver `size` bytes before an error or a 0-byte read; it then returns exactly the next `size` bytes and consumes them; it never consumes more, and never writes |
| Communication.RewriteSend | pkg/communication/communication.go:28-39 | the retry loop as written uses at most the writes offered |
| Communication.SendAllAsWritten | pkg/communication/communication.go:28-39 | the loop as written, which passes the whole message to every Write, sends what that loop sends and consumes the writes it uses |
| Communication.RewriteStep | pkg/communication/communication.go:31-37 | one successful partial write of the loop as written resends the message's first n bytes, then continues |
| Communication.RewriteRepeatsPrefix | pkg/communication/communication.go:32 | two one-byte writes of [1, 2] put [1, 1] on the wire while reporting success |
| Communication.RewriteWholeWrite | pkg/communication/communication.go:28-39 | when the first write takes the whole message, the loop as written sends it once and succeeds |
| Communication.SendAll | pkg/communication/communication.go:28-39 | succeeds iff the writes accept the whole message; on success exactly the message is appended to the wire, on failure a proper prefix of it |
| Communication.SendFixedSize | pkg/communication/communication.go:41-50 | sends the 4-byte big-endian length followed by the data through SendAll as written, with exactly that loop's outcome; when the first write keeps the io.Writer contract it succeeds iff the writes accept the whole frame, and the wire then gains exactly that frame |
| Communication.ConformingWriteAgrees | pkg/communication/communication.go:28-39 | under the io.Writer contract (a write of fewer bytes than offered reports an error) the loop as written succeeds iff the writes accept the whole message, and then sends exactly the message |
| Communication.RecvMessage | pkg/communication/communication.go:64-85 | a success decodes the payload of the first frame and consumes exactly that frame; a stream holding no whole frame fails; nothing is written |
| CompareOutputs.Pieces | compare_outputs.py:28-37 | the bracket-aware comma split always has a last, possibly empty, current piece |
| CompareOutputs.TrimAll | compare_outputs.py:34-39 | one stripped piece per piece, in order |
| CompareOutputs.TrimAllSnoc | compare_outputs.py:34 | stripping pieces distributes over appending one more piece |
| CompareOutputs.SplitResults | compare_outputs.py:25-39 | the character loop over `current` and `in_brackets` returns exactly the specification's result list |
| CompareOutputs.ResultsOfPieces | compare_outputs.py:33-39 | the results are every stripped piece before the last, with interior empties kept; the last remainder is appended, stripped, only if non-empty |
| CompareOutputs.PiecesJoin | compare_outputs.py:28-37 | re-joining the pieces with commas gives back the stripped text, so brackets and characters are kept |
| CompareOutputs.ParseLine | compare_outputs.py:20-21 | a line is skipped iff it does not start with "Query" |
| CompareOutputs.ParsedLine | compare_outputs.py:21-39 | a parsed line has ": ", its query number is the second whitespace token before the first ": ", and its results are the split of the text after it |
| CompareOutputs.ParsedResults | compare_outputs.py:21-39 | the results a parsed line contributes are the split of the text after its first ": " |
| CompareOutputs.ParseLines | compare_outputs.py:20 | one outcome per line, in order |
| CompareOutputs.ParseActual | compare_outputs.py:19-40 | the line loop that fills the dictionary returns exactly the fold of the line outcomes |
| CompareOutputs.FailureSticks | compare_outputs.py:22-23 | once a line raises, later lines change nothing: the whole parse raises that error |
| CompareOutputs.LastLineWins | compare_outputs.py:40 | a query's entry holds the results of its last line |
| CompareOutputs.CollectKeys | compare_outputs.py:19-40 | a query has an entry iff some line for it was parsed |
| CompareOutputs.SameElements | compare_outputs.py:48-52 | the two sets are equal iff the two lists have the same members |
| CompareOutputs.Compare | compare_outputs.py:45-57 | matches iff both lists have the same members, ignoring order and duplicates; missing is expected − actual and extra is actual − expected; both lists are kept |
| CompareOutputs.MatchesIffNoDifference | compare_outputs.py:52-56 | matches holds iff nothing is missing and nothing is extra |
| CompareOutputs.Get | compare_outputs.py:45 | a query absent from the actual results compares against [] |
| CompareOutputs.CompareResults | compare_outputs.py:43-59 | the loop over expected queries fills one comparison per expected query, against that query's actual results or [] |
| Compose.Validate | generate-compose.py:162-173 | succeeds iff the keys clients, joiners, nodes and files are present and every files entry is a non-empty list, and then returns the configuration read from the input, whose nodes and files each name a key once; otherwise it names the first missing key in that order, or the first bad category with whether it is not a list or empty |
| Compose.EnvValue | generate-compose.py:64-78 | a variable is found iff some entry has that key, and the value found is that entry's |
| Compose.NodeEnvKeys | generate-compose.py:64-78 | JOINER_SHARDS is set iff the role is final-reducer, preprocessor or production-filter; JOINER_ID iff joiner; QUERY_NUM iff final-reducer; other roles get no extra variables |
| Compose.Replicas | generate-compose.py:99-107 | a role with count n yields max(n, 0) services |
| Compose.NodeServices | generate-compose.py:99-107 | the nodes loop yields one service per replica of every role |
| Compose.FinalReducers | generate-compose.py:110-117 | there are QUERY_AMNT − 1 = 4 final reducers |
| Compose.Joiners | generate-compose.py:120-127 | joiners = n yields max(n, 0) services |
| Compose.Lookup | generate-compose.py:133-135 | a key's value is found iff the key is present, and it is a value stored under that key; in a dict (no repeated key) it is the value of the one entry with that key |
| Compose.Store | generate-compose.py:157 | storing a value under a key, as json.load fills a dict, makes the key read that value and leaves every other key's value as it was |
| Compose.LookupCons | generate-compose.py:157 | looking up past one more entry in front finds that entry's value for its key and otherwise what the rest holds |
| Compose.StoreShape | generate-compose.py:157 | a new key is appended at the end; a key already present keeps its position, and no key moves |
| Compose.StoreKeepsDistinct | generate-compose.py:157 | storing into a dict leaves every key occurring once |
| Compose.DictOfLastWins | generate-compose.py:157 | in the object json.load builds, each key of the document reads its last value, and keys not in the document are absent |
| Compose.LastKeyIsNew | generate-compose.py:157 | in pairs with no repeated key, the last key does not occur among the earlier pairs |
| Compose.DictOfDistinct | generate-compose.py:157 | a document that repeats no key is read as its own pairs, in order |
| Compose.RepeatedCategoryLastWins | generate-compose.py:157-173 | a files category given twice, first empty and then with a file, is read with its second list only, so validation sees no empty list |
| Compose.CategoryFiles | generate-compose.py:133-135 | after validation, every category found has a non-empty list |
| Compose.ClientList | generate-compose.py:131-142 | one client service per client ordinal |
| Compose.CreateCompose | generate-compose.py:80-142 | the emitting loops return exactly the manifest: gateway, rabbitmq, node replicas, final reducers, joiners, clients |
| Compose.EmitNodes | generate-compose.py:99-107 | appends the replicas of every role in nodes order |
| Compose.EmitReplicas | generate-compose.py:100-107 | appends the replicas of one role in ordinal order |
| Compose.EmitFinalReducers | generate-compose.py:110-117 | appends final-reducer-q2..q5 in order |
| Compose.EmitJoiners | generate-compose.py:120-127 | appends joiner-1..joiner-n in order |
| Compose.EmitClients | generate-compose.py:131-142 | appends client1..clientN, or fails as a missing category does |
| Compose.Run | generate-compose.py:151-175 | fails with the first missing key, in the order clients, joiners, nodes, files, iff one is absent; otherwise fails at the first files entry that is not a list or is empty, with NotAFileList or EmptyList accordingly; otherwise returns the manifest of the configuration read from the input |
| ComposeProperties.AppendDiffers | generate-compose.py:101 | names with one prefix and different suffixes differ |
| ComposeProperties.OrdinalNamesDistinct | generate-compose.py:101-131 | names with one prefix and different decimal ordinals differ |
| ComposeProperties.EnvValueAfterBase | generate-compose.py:19-21 | looking up a role variable past the two RabbitMQ credentials finds the role's own entry |
| ComposeProperties.ReplicaNaming | generate-compose.py:99-107 | count ≤ 0 gives none; count 1 gives one service named as the role; count n > 1 gives role-1..role-n in order and never the bare role; names are pairwise distinct; every replica builds its role and depends on rabbitmq |
| ComposeProperties.ReplicaNamesDiffer | generate-compose.py:100-101 | two distinct replicas of a role have different names |
| ComposeProperties.ReplicaEnv | generate-compose.py:75-102 | every replica of preprocessor or production-filter has JOINER_SHARDS=joiners; other roles without special handling get only the base environment |
| ComposeProperties.FixedServices | generate-compose.py:88-96 | the gateway has no extra environment and depends on rabbitmq; rabbitmq depends on nothing |
| ComposeProperties.FinalReducerAt | generate-compose.py:68-117 | the reducer for q in 2..5 is named final-reducer-q<q> and has QUERY_NUM=q and JOINER_SHARDS=joiners |
| ComposeProperties.FinalReducerNamesDistinct | generate-compose.py:110-111 | the final reducers' names are pairwise distinct |
| ComposeProperties.JoinerAt | generate-compose.py:73-127 | joiner j is named joiner-<j>, with JOINER_ID=j and no JOINER_SHARDS |
| ComposeProperties.JoinerNamesDistinct | generate-compose.py:120-121 | joiners = 0 yields no joiner, and the joiners' names are pairwise distinct |
| ComposeProperties.JoinerNamesDiffer | generate-compose.py:120-121 | two distinct joiners have different names |
| ComposeProperties.ClientAt | generate-compose.py:131-142 | client c is named client<c>, depends on the gateway, and has CLI_ID=c and the files at index (c−1) mod list length |
| ComposeProperties.ClientNamesDistinct | generate-compose.py:131 | the clients' names are pairwise distinct |
| ComposeProperties.ClientsOk | generate-compose.py:131-135 | with no clients nothing is looked up; otherwise client emission fails iff the movies, reviews or credits category is absent |
| ComposeProperties.Offset | generate-compose.py:99-107 | each role's replicas start at an offset that leaves room for all of them |
| ComposeProperties.NodeServicesAt | generate-compose.py:99-107 | replica i of the k-th role sits at that role's offset plus i |
| ComposeProperties.TotalReplicasPrefix | generate-compose.py:99-100 | the replicas of a prefix of the roles never outnumber those of all roles |
| ComposeProperties.ManifestFails | generate-compose.py:131-135 | a validated configuration fails to generate iff it has clients and lacks the movies, reviews or credits category |
| ComposeProperties.ServersLayout | generate-compose.py:86-127 | the servers are, in order, gateway, rabbitmq, the roles' replicas in nodes order, the four final reducers, and the joiners |
| ComposeProperties.ManifestLayout | generate-compose.py:86-142 | a generated manifest is the servers followed by the clients, with the expected total count |
| Filters.PredicatesMeaning | server/production-filter/filter.go:209-223 | Q1 keeps a movie iff its countries contain both (AR, Argentina) and (ES, Spain) as whole values; Q1 implies Q3; a Q2 movie has exactly one country and is never a Q1 movie; the 2000s filter keeps exactly the years 2000..2009 (the year predicate is at server/year-filter/filter.go:133-135) |
| Filters.Year2000sWithinAfter2000s | server/year-filter/filter.go:133-139 | every movie the 2000s filter keeps, in any batch, the after-2000 filter keeps too |
| Filters.FilteredBatch | server/production-filter/filter.go:167-181 | the header is unchanged, so EOF status is kept, and an EOF batch's data passes through untouched |
| Filters.FilteredBatchKeeps | server/production-filter/filter.go:173-179 | in a data batch each movie the predicate keeps occurs as often as before, and every other movie is gone |
| Filters.FilterMessage | server/production-filter/filter.go:167-181 | fails iff the body does not decode; otherwise returns the filtered batch (the year filter, server/year-filter/filter.go:109-122, has the same shape) |
| Filters.ProcessQueryMessage | server/year-filter/filter.go:98-107 | an undecodable message is an error and sends nothing; otherwise exactly the filtered batch is sent |
| Filters.SendBatchToShards | server/production-filter/filter.go:192-208 | every shard 1..shards gets one batch with the original header, possibly empty, holding exactly the movies GetShard puts there, in order; other channels are untouched; there is no error result |
| FinalMerges.MergedCountriesKeys | server/final-reducer/final-reducer.go:161-163 | a country is in the merged map iff it was there before or some incoming entry names it |
| FinalMerges.MergedCountriesTotals | server/final-reducer/final-reducer.go:161-163 | a country's total is its previous total plus the sum of its incoming budgets, modulo 2^64 |
| FinalMerges.MergedCountriesLast | server/final-reducer/final-reducer.go:161-163 | one more entry adds its budget to its own country only |
| FinalMerges.PartialBudgetsAbsent | server/final-reducer/final-reducer.go:161-163 | a country named by no entry receives nothing |
| FinalMerges.MergedCountriesAppend | server/final-reducer/final-reducer.go:161-163 | merging two batches one after the other equals merging their concatenation, so batching does not matter |
| FinalMerges.MergeQ2 | server/final-reducer/final-reducer.go:161-163 | the loop over the batch performs exactly the specified merge |
| FinalMerges.FirstOfActor | server/final-reducer/final-reducer.go:219-221 | an actor's first entry exists iff some entry has that ActorID, and it is one of the entries |
| FinalMerges.MergedActorsKeys | server/final-reducer/final-reducer.go:219-226 | an actor is in the merged map iff it was there before or some incoming entry has its id |
| FinalMerges.MergedActorsEntry | server/final-reducer/final-reducer.go:219-226 | an actor's entry keeps the id and name of its existing entry, or of its first incoming entry, and its count is the previous count plus the incoming counts, modulo 2^32 |
| FinalMerges.MergedActorsLast | server/final-reducer/final-reducer.go:219-226 | one more entry inserts a new actor as it is, or adds its count to an existing one, and changes no other actor |
| FinalMerges.PartialAmountsAbsent | server/final-reducer/final-reducer.go:219-226 | an actor with no entry receives nothing |
| FinalMerges.MergedActorsAppend | server/final-reducer/final-reducer.go:219-226 | merging two batches one after the other equals merging their concatenation |
| FinalMerges.MergeQ4 | server/final-reducer/final-reducer.go:219-226 | the loop over the batch performs exactly the specified merge |
| FinalReducer.Absorb | server/final-reducer/final-reducer.go:124-131 | one message merges its data into the session, adds its Weight, and records TotalWeight if it is EOF |
| FinalReducer.CompletedNeedsEof | server/final-reducer/final-reducer.go:128-139 | a session can only complete on an EOF message or after one |
| FinalReducer.ReceivedAllWeight | server/final-reducer/final-reducer.go:127 | a session's weight is the sum of its messages' weights modulo 2^32 |
| FinalReducer.ReceivedAllEof | server/final-reducer/final-reducer.go:128-131 | a session keeps its multiplier, and its EOF weight is the total of its last EOF message, or 0 |
| FinalReducer.FinishedWhenAllWeightArrived | server/final-reducer/final-reducer.go:124-142 | after an EOF, barring overflow, a session finishes iff its weights add up to the last EOF total times its multiplier |
| FinalReducer.WeightsNonNegative | server/final-reducer/final-reducer.go:127 | the summed weights are never negative |
| FinalReducer.WeightsAreU32 | server/final-reducer/final-reducer.go:127 | one weight per message, each the message's header Weight |
| FinalReducer.LastEof | server/final-reducer/final-reducer.go:128-131 | the index of an EOF message after which none is EOF |
| FinalReducer.ReceivedAllCountries | server/final-reducer/final-reducer.go:147-166 | a query 2 session holds the merge of all budgets it received, however they were batched |
| FinalReducer.ReceivedAllActors | server/final-reducer/final-reducer.go:205-229 | a query 4 session holds the merge of all actor counts it received, however they were batched |
| FinalReducer.QueryMultiplierMeaning | server/final-reducer/final-reducer.go:151-241 | a query 2 or 5 session finishes when its weight reaches the EOF total; a query 3 or 4 session when it reaches the total times the number of joiner shards |
| FinalReducer.Service.constructor | server/final-reducer/final-reducer.go:112-145 | a reducer starts with no sessions and no answers |
| FinalReducer.Service.SessionFor | server/final-reducer/final-reducer.go:149-153 | returns the client's existing session, or creates, stores and returns a fresh one; other sessions and the answers are unchanged |
| FinalReducer.Service.ReceiveMessage | server/final-reducer/final-reducer.go:117-142 | an undecodable message changes nothing; otherwise the client's session absorbs it, and if it is then finished its data is answered and the session deleted, else the session is kept updated |
| GatewayResults.QueryItem.QueryId | pkg/models/Results.go:69-73 | each record type answers a query in 1..5 |
| GatewayResults.MovieToQResult | server/gateway/results.go:8-21 | query 1, one (Title, Genres) item per movie in order, and Last iff the batch is EOF |
| GatewayResults.Top5CountriesToQResult | server/gateway/results.go:23-36 | query 2, one country item per entry in order, and Last |
| GatewayResults.CountriesRoundTrip | server/gateway/results.go:23-36 | reading the country items back gives the input entries: nothing is lost or reordered |
| GatewayResults.BestAndWorstToQResult | server/gateway/results.go:38-61 | query 3, Last, and a single item whose best and worst carry the input movies' ids and titles |
| GatewayResults.Top10ActorsToQResult | server/gateway/results.go:63-77 | query 4, one item per actor in order, and Last |
| GatewayResults.ActorsRoundTrip | server/gateway/results.go:63-77 | reading the actor items back gives the input actors with ActorID, name and count |
| GatewayResults.SentimentToQResult | server/gateway/results.go:79-91 | query 5, Last, and exactly one item holding the two averages |
| Joiner.LastTotal | server/joiner/service.go:31-54 | the expectation after some headers is the starting one or the TotalWeight of one of the EOF headers |
| Joiner.NotifiedAllCounts | server/joiner/service.go:51-67 | after a run of headers, the received count is the start plus the data headers' weights modulo 2^32, and the expectation is the last EOF total |
| Joiner.CompleteMeaning | server/joiner/service.go:44-72 | with the initial expectation -1 a stream counts as complete only at 0xFFFFFFFF received; with a non-negative expectation, iff received equals it |
| Joiner.StreamComplete | server/joiner/service.go:51-72 | a fresh stream closed by an EOF is complete iff, barring overflow, the data weights add up to the EOF total |
| Joiner.InitialNotReady | server/joiner/service.go:18-72 | a new service has neither all movies nor is done |
| Joiner.Headers | server/joiner/service.go:30-38 | one header per batch, in order |
| Joiner.SavedAllMeaning | server/joiner/service.go:30-38 | saving a run of movie batches appends their data in order, counts them like notifications, and leaves reviews and credits untouched |
| Joiner.JoinReviewMembers | server/joiner/service.go:90-102 | a review joins to exactly one record (ID, Title, Rating) per stored movie whose ID matches |
| Joiner.JoinedMembers | server/joiner/service.go:85-102 | the join holds exactly the records of a review and a stored movie with matching IDs |
| Joiner.JoinedAppend | server/joiner/service.go:85-88 | the join of concatenated reviews is the concatenation of the joins, so review order is kept |
| Joiner.JoinedNoMovies | server/joiner/service.go:85-102 | with no stored movies the join is empty |
| Joiner.FilteredCreditsMeaning | server/joiner/service.go:104-115 | a credit is kept iff its MovieId is a stored movie's ID, as often as it occurs |
| Joiner.JoinerService.constructor | server/joiner/service.go:18-28 | a new service has zero counters, every expectation at -1, and no movies |
| Joiner.JoinerService.SaveMovies | server/joiner/service.go:30-38 | an EOF batch only sets the movie expectation; a data batch appends its data and adds its Weight |
| Joiner.JoinerService.GetMovies | server/joiner/service.go:40-42 | returns the stored movies |
| Joiner.JoinerService.NotifyCredit | server/joiner/service.go:51-58 | sets the credit expectation on EOF, else adds Weight to the credits received, and changes nothing else |
| Joiner.JoinerService.NotifyReview | server/joiner/service.go:60-67 | sets the review expectation on EOF, else adds Weight to the reviews received, and changes nothing else |
| Joiner.JoinerService.QueriesMatchState | server/joiner/service.go:44-72 | AllMoviesReceived holds iff received movies equal uint32 of the expectation; IsDone iff both reviews and credits match theirs |
| Joiner.JoinerService.Join | server/joiner/service.go:85-102 | returns the join of the reviews with the stored movies |
| Joiner.JoinerService.FilterCredits | server/joiner/service.go:104-115 | returns the credits of stored movies, in order |
| JoinerControl.Cleaned | server/joiner/controller.go:214-220 | the session is dropped iff it is done, and otherwise kept as it is |
| JoinerControl.ReplayedStateAppend | server/joiner/controller.go:106-114 | replaying two runs of batches equals replaying one then the other |
| JoinerControl.ReplayedSentAppend | server/joiner/controller.go:106-114 | the output of a replay of two runs is the first run's output, then the second's |
| JoinerControl.ReplayedSends | server/joiner/controller.go:106-114 | a replay emits one batch per stored batch, in stored order, each with its stored header |
| JoinerControl.ReplayedKeepsMovies | server/joiner/controller.go:106-114 | a replay never changes the stored movies, except that a session deleted when done comes back empty |
| JoinerControl.ReplayedJoinsKnownMovies | server/joiner/controller.go:106-114 | every record a replay emits comes from a movie stored before the replay |
| JoinerControl.LateBatchIsReplayedLast | server/joiner/controller.go:102-114 | a batch stored last is replayed last |
| JoinerControl.ReplayStep | server/joiner/controller.go:110-113 | replaying one more batch joins it against the state the earlier ones left |
| JoinerControl.JoinerController.constructor | server/joiner/controller.go:116-124 | a controller starts with no sessions, no stored batches, reviews and credits closed, and nothing sent |
| JoinerControl.JoinerController.GetSession | server/joiner/controller.go:206-212 | returns the existing session, or creates, stores and returns a fresh one; nothing else changes |
| JoinerControl.JoinerController.CleanSession | server/joiner/controller.go:214-220 | deletes the client's session iff it is done; otherwise the table is unchanged |
| JoinerControl.JoinerController.StoreReviewBatch | server/joiner/controller.go:102-104 | appends the batch to that client's stored list, creating it if needed; nothing else changes |
| JoinerControl.JoinerController.JoinReviewBatch | server/joiner/controller.go:85-100 | notifies the session of the header and emits the join of the batch with the same header |
| JoinerControl.JoinerController.JoinStoredReviewBatches | server/joiner/controller.go:106-114 | empties the client's buffer, then replays its batches in stored order, cleaning after each; other clients are untouched |
| JoinerControl.JoinerController.ReceiveMovies | server/joiner/controller.go:130-147 | an undecodable message changes nothing; otherwise the movies are saved, and once all movies are in, reviews open and the stored reviews are replayed |
| JoinerControl.JoinerController.ReceiveReviews | server/joiner/controller.go:149-172 | a batch arriving before all movies is stored and not joined; otherwise it is joined, emitted with its header, and the session cleaned |
| JoinerControl.JoinerController.ReceiveCredits | server/joiner/controller.go:174-200 | the session is notified, the credits of stored movies are emitted with the same header, and the session cleaned |
| KillContainers.AnyMatch | kill-containers.py:23-24 | holds iff some pattern matches the name |
| KillContainers.IsWhitelisted | kill-containers.py:9-24 | holds iff some whitelist pattern matches the name |
| KillContainers.PatternShape | kill-containers.py:11-24 | a pattern `prefix\d+$` matches iff the name is the prefix followed by one or more ASCII digits, optionally followed by one newline |
| KillContainers.FirstLetterExcludes | kill-containers.py:9-18 | a name starting with a letter no pattern starts with is not whitelisted |
| KillContainers.ShortExcludes | kill-containers.py:11-18 | a name no longer than a pattern's prefix does not match it |
| KillContainers.NotWhitelisted | kill-containers.py:9-18 | gateway, rabbitmq and client<c> are never whitelisted |
| KillContainers.DiffersAt | kill-containers.py:24 | a name that differs from a prefix at some position does not match it, since matching is anchored at the start |
| KillContainers.BareRoleNotWhitelisted | kill-containers.py:9-18 | a single-replica role name such as preprocessor is not whitelisted |
| KillContainers.AnchoredAtStart | kill-containers.py:12-24 | final-reducer-1 matches nothing, and the reducer pattern never matches a final-reducer name |
| KillContainers.OrdinalMatches | kill-containers.py:11-18 | a prefix followed by a decimal ordinal matches that prefix's pattern |
| KillContainers.GeneratedNamesWhitelisted | kill-containers.py:11-13 | every joiner and final reducer the generator names is whitelisted (the names come from generate-compose.py:110-127) |
| KillContainers.ReplicasWhitelisted | kill-containers.py:14-17 | every numbered replica of a whitelisted role is whitelisted (the replicas come from generate-compose.py:99-107) |
| Listings.Listing | server/reducer/reducer.go:200-203 | ranging over a map lists each entry once, in some order |
| Listings.PairedListsCountries | server/reducer/reducer.go:200-203 | a country list built pairwise from such a listing lists the map |
| Listings.ListsCountriesEntries | server/reducer/reducer.go:200-203 | such a list has one element per entry, holds every entry, and repeats no country |
| Machine.AddU32 | server/final-reducer/client_session.go:27 | uint32 addition: the sum when it fits, else the sum minus 2^32 |
| Machine.AddU64 | server/final-reducer/final-reducer.go:162 | uint64 addition: the sum when it fits, else the sum minus 2^64 |
| Machine.U32OfI32 | server/final-reducer/client_session.go:39 | uint32 of an int32: unchanged if non-negative, else plus 2^32 |
| Machine.U32OfNat | pkg/communication/communication.go:43 | uint32 of a length below 2^32 is that length |
| MoviesReading.JoinFrom | client/utils/reader.go:80-99 | joining never uses more rows than remain; a joined record has at least the expected fields; a record already long enough is returned unchanged with no row read |
| MoviesReading.JoinRecords | client/utils/reader.go:80-99 | the loop that overwrites the last field and appends the next row's other fields returns the specified record, or an error when a read fails; it consumes exactly the rows the join used |
| MoviesReading.JoinCons | client/utils/reader.go:90 | joining a first field with the rest puts one separator between them |
| MoviesReading.JoinConcat | client/utils/reader.go:90-95 | joining a concatenation puts one separator at the seam |
| MoviesReading.MergeText | client/utils/reader.go:90-95 | merging a row into the record reads as the record's line, a space, then the row's line |
| MoviesReading.JoinFromText | client/utils/reader.go:83-96 | a joined record's line is the original line followed by every row it used, each after a space: the split lines are glued back |
| MoviesReading.JoinFromKeeps | client/utils/reader.go:83-96 | joining keeps every field before the last unchanged and only extends the last one |
| MoviesReading.SuffixTrans | client/utils/reader.go:54-84 | reading only ever consumes rows from the front |
| MoviesReading.RecordMovieSpec | client/utils/reader.go:64-77 | after a record is read the reader is not finished and the outcome is a movie or an error, never end of input; only rows from the front are consumed |
| MoviesReading.NextMovieSpec | client/utils/reader.go:47-78 | a finished reader returns nothing and stays as it is; the outcome is nothing iff the reader was finished or at end of input, which finishes it; otherwise at least one row is consumed |
| MoviesReading.LongRecordNotJoined | client/utils/reader.go:65-77 | a record with at least the header's field count reads no more rows and is parsed as it is |
| MoviesReading.MovieReadsAgrees | client/utils/reader.go:47-78 | the movie step as a function value agrees with the movie step everywhere |
| MoviesReading.MovieReadsReads | client/utils/reader.go:47-78 | the movie step has the properties the batch loop relies on |
| MoviesReading.BatchFrom | client/utils/reader.go:107-120 | a batch holds at most batchSize movies |
| MoviesReading.AfterNothing | client/utils/reader.go:108 | a batch that starts from no movies is unchanged |
| MoviesReading.ShortBatchFinishes | client/utils/reader.go:109-116 | a batch shorter than requested leaves the reader finished |
| MoviesReading.FinishedBatchIsEmpty | client/utils/reader.go:50-120 | a finished reader yields an empty batch and stays as it is |
| MoviesReading.BatchConsumes | client/utils/reader.go:107-120 | reading a batch only consumes rows from the front |
| MoviesReading.BatchUnfold | client/utils/reader.go:109-118 | a batch step: an error discards the movies read so far, end of input stops with them, a movie is appended and the loop continues |
| MoviesReading.MoviesReader.constructor | client/utils/reader.go:22-45 | a new reader is not finished and keeps its CSV reader, batch size and header fields |
| MoviesReading.MoviesReader.ReadMovie | client/utils/reader.go:47-78 | returns exactly the specified movie step, with the header's field count as the expected length, and leaves the reader in the specified state |
| MoviesReading.MoviesReader.ReadMovies | client/utils/reader.go:107-120 | the bounded loop returns exactly the specified batch and leaves the reader in the specified state |
| Preprocessor.MakeEOFBatch | server/preprocessor/preprocessor.go:221-229 | Weight 0, TotalWeight as given, no data and no client id; it is EOF iff the total is positive |
| Preprocessor.MakeBatchMsg | server/preprocessor/preprocessor.go:231-239 | Weight and TotalWeight from the arguments, the data unchanged, and no client id |
| Preprocessor.ToMovie | server/preprocessor/parsing.go:13-26 | the ID is the decimal form of the raw ID; title, year, genres, countries, budget, overview and revenue are copied |
| Preprocessor.MovieIdsDistinct | server/preprocessor/parsing.go:13 | distinct raw IDs give distinct movie IDs |
| Preprocessor.ToReview | server/preprocessor/parsing.go:38-46 | ID is UserID, and MovieID and Rating are copied |
| Preprocessor.ToActor | server/preprocessor/parsing.go:61-64 | the actor ID is the decimal form of the cast member's ID, and the name is copied |
| Preprocessor.ToCredit | server/preprocessor/parsing.go:57-70 | MovieId is copied and the actors are the cast in order; crew is dropped |
| Preprocessor.PreprocessMovies | server/preprocessor/parsing.go:9-32 | the loop returns the specified movies batch |
| Preprocessor.PreprocessReviews | server/preprocessor/parsing.go:34-51 | the loop returns the specified reviews batch |
| Preprocessor.PreprocessCredits | server/preprocessor/parsing.go:53-76 | the loop returns the specified credits batch |
| Preprocessor.CastToActors | server/preprocessor/parsing.go:58-65 | the inner loop maps each cast member to an actor, in order |
| Preprocessor.PreprocessedShape | server/preprocessor/parsing.go:9-76 | one output record per raw record, in order; each header copies Weight and TotalWeight only |
| Preprocessor.DivideBatchInShards | server/preprocessor/preprocessor.go:241-253 | exactly `shards` batches; batch i carries the input header and exactly the items GetShard sends to i + 1, in order |
| Preprocessor.MissingShard | server/preprocessor/preprocessor.go:263-282 | no shard id is reported iff every id in 1..shards has a channel; otherwise the first id without one |
| Preprocessor.SentUpToStep | server/preprocessor/preprocessor.go:274-284 | sending shard id's payload extends what was sent to the shards before it |
| Preprocessor.SentWhenStopped | server/preprocessor/preprocessor.go:257-286 | stopping at the first missing channel, or after the last shard, leaves the channels as specified |
| Preprocessor.SendBatchMap | server/preprocessor/preprocessor.go:257-286 | reports the first shard without a channel, if any; every shard before it has been sent its payload, and nothing after it |
| Preprocessor.SendEofToShards | server/preprocessor/preprocessor.go:258-271 | the EOF branch sends the batch itself to shards 1..shards in order, stopping at a missing channel |
| Preprocessor.EofSentToEveryShard | server/preprocessor/preprocessor.go:258-271 | with all channels present, an EOF batch is sent unchanged and undivided once to every shard, and other channels are untouched |
| Preprocessor.DataSentByBucket | server/preprocessor/preprocessor.go:273-285 | a data batch sends shard id its bucket id, with the original header; when GetShard lies in 1..shards, the buckets together hold exactly the input items |
| Preprocessor.MoviesPayload | server/preprocessor/preprocessor.go:163-168 | the payload is EOF iff the raw batch is, and an EOF payload is empty with Weight 0 |
| Preprocessor.ShardIds | server/preprocessor/preprocessor.go:42-63 | the shard ids are exactly 1..shards |
| Preprocessor.Preprocessor.constructor | server/preprocessor/preprocessor.go:42-63 | a new preprocessor has four empty movie queues and an empty queue for each shard 1..shards for reviews and credits |
| Preprocessor.Preprocessor.PreprocessBatch | server/preprocessor/preprocessor.go:155-219 | a movies batch is sent to all four movie queues; reviews are routed by MovieID and credits by MovieId, with a missing-channel error; an undecodable body or unknown type is an error and changes nothing |
| Protocol.DataBatchNeverEof | pkg/communication/protocol.go:25-32 | a data batch carries the data, has TotalWeight -1 so is never EOF, and its Weight is the data's length |
| Protocol.EofBatchShape | pkg/communication/protocol.go:10-16 | an EOF batch is empty with Weight 0, and is EOF iff the total it announces is positive |
| Protocol.SendData | pkg/communication/protocol.go:25-38 | the connection carries what SendAll as written sends for the frame of the encoded data batch, with that outcome; under the io.Writer contract a success appends exactly that frame |
| Protocol.SendBatchEOF | pkg/communication/protocol.go:10-23 | the connection carries what SendAll as written sends for the frame of the encoded EOF batch, with that outcome; under the io.Writer contract a success appends exactly that frame |
| Protocol.UnmarshalSlice | pkg/communication/protocol.go:86-97 | fails iff decoding fails; otherwise the copy loop returns exactly the decoded items |
| Protocol.RecvQueryResults | pkg/communication/protocol.go:99-136 | nil items give the query id with no items; an id outside 1..5 is an unknown-query error; otherwise it succeeds iff the items decode, a JSON `null` decoding to the empty list, keeping the query id |
| Protocol.QueryEofRoundTrip | pkg/communication/protocol.go:52-136 | the end marker, whose nil items travel as JSON `null`, is received for a query 1..5 as the same id with an empty list, which IsQueryEof takes for the end; for any other id it is an unknown-query error |
| Protocol.QueryResultsRoundTrip | pkg/communication/protocol.go:66-140 | results sent for a query 1..5 are received unchanged whenever decoding inverts encoding, and IsQueryEof takes them for the end of the query iff the list is empty |
| Protocol.EmptyResultsEndQuery | pkg/communication/protocol.go:52-140 | an empty results list and the end marker of the same query are received as the same value, so the receiver cannot tell them apart |
| Ranking.Swapped | server/final-reducer/final-reducer.go:338-340 | swapping two neighbours is a permutation that exchanges them and keeps every other position |
| Ranking.SwapKeepsOrder | server/final-reducer/final-reducer.go:338-340 | moving a larger item left past a smaller one keeps the insertion invariant |
| Ranking.InsertionDone | server/final-reducer/final-reducer.go:338-340 | when the moving item meets one at least as large, the prefix is in descending order |
| Ranking.SortDescending | server/final-reducer/final-reducer.go:338-392 | the array ends in descending key order and is a permutation of what it held |
| Ranking.InsertLeft | server/final-reducer/final-reducer.go:338-340 | inserting item i into the sorted prefix extends the sorted prefix by one, as a permutation |
| Ranking.DroppedAreSmaller | server/final-reducer/final-reducer.go:350-402 | in a descending sequence, an item left out of the first k has a key no larger than the k-th |
| Ranking.PadWithLast | server/final-reducer/final-reducer.go:342-400 | the result keeps the input as its prefix and repeats its last item until it has k items |
| Ranking.PaddedSortedIsTopK | server/final-reducer/final-reducer.go:338-350 | the first k of a sorted and padded permutation of the items are a top-k of the items |
| Ranking.SortedPrefixIsTopK | server/final-reducer/final-reducer.go:350-402 | with at least k items, the sorted prefix of length k is a top-k |
| Ranking.PaddedIsTopK | server/final-reducer/final-reducer.go:342-350 | with fewer than k items, the padded sorted sequence is a top-k |
| Ranking.TopK | server/final-reducer/final-reducer.go:333-350 | sorting, padding with the last item and taking k returns a top-k: k items in descending order, all from the input, with every left-out item no larger than the last |
| Ranking.TopKMembers | server/final-reducer/final-reducer.go:342-350 | every item of a top-k comes from the input |
| Ranking.TopKOmitted | server/final-reducer/final-reducer.go:350-402 | with at least k items, an item outside the top-k ranks no higher than the k-th |
| Ranking.TopKDistinct | server/final-reducer/final-reducer.go:350-402 | with at least k distinct items, the top-k has no repeats |
| Ranking.DistinctCount | server/final-reducer/final-reducer.go:333-336 | an item occurs at most once in a sequence without repeats |
| Ranking.CountryEntries | server/final-reducer/final-reducer.go:333-336 | one entry per country, each with its budget, and no country twice |
| Ranking.CalculateTop5Countries | server/final-reducer/final-reducer.go:327-351 | no countries give an empty top; otherwise five entries in descending budget order, each a country with its budget; with five or more countries they are distinct and every left-out country's budget is at most the fifth's |
| Ranking.TopCountries | server/final-reducer/final-reducer.go:327-351 | a top-5 of the listed countries names real countries with their budgets, and with five or more they are distinct and dominate the rest |
| Ranking.CalculateTop10Actors | server/final-reducer/final-reducer.go:379-403 | no actors give an empty top; otherwise ten entries in descending movie count, each an actor's entry; with ten or more, entries are distinct by actor and every left-out actor has at most the tenth's count |
| Ranking.TopActors | server/final-reducer/final-reducer.go:379-403 | a top-10 of the listed actors is made of actors' entries, distinct when there are ten or more, and dominating the rest |
| Reducer.CountryTotalsAreSums | server/reducer/reducer.go:191-199 | a country is in the totals iff some movie names it, and its total is the sum of its budgets modulo 2^64 |
| Reducer.CountryTotalsKeys | server/reducer/reducer.go:193-198 | the totals' keys are exactly the countries the movies name |
| Reducer.CountryTotalsValues | server/reducer/reducer.go:198 | each total is the wrapped sum of the budgets of that country's movies; a missing country has no budget |
| Reducer.SumByCountry | server/reducer/reducer.go:192-199 | fails iff some movie has more than one production country, naming such a movie; otherwise returns the per-country totals |
| Reducer.ReduceQ2 | server/reducer/reducer.go:191-209 | the same error case; otherwise the batch keeps its header and lists every country total once |
| Reducer.CountedEntries | server/reducer/reducer.go:213-255 | a key is counted iff some item has it; its count is its number of occurrences modulo 2^32 and its entry is built from its first item |
| Reducer.RatingCountsStep | server/reducer/reducer.go:214-225 | one review adds a fresh entry with count 1, or increments the existing count with 32-bit wrap-around |
| Reducer.ActorCountsStep | server/reducer/reducer.go:243-254 | one actor adds a fresh entry with count 1, or increments the existing count with 32-bit wrap-around |
| Reducer.RatingCountsMeaning | server/reducer/reducer.go:211-231 | a movie has an entry iff it was reviewed; the entry keeps its id, the first review's title and the wrapped number of reviews |
| Reducer.ActorCountsMeaning | server/reducer/reducer.go:239-259 | an actor has an entry iff they appear; the entry keeps their id, the first appearance's name and the wrapped number of appearances |
| Reducer.ReduceQ3 | server/reducer/reducer.go:211-237 | the batch keeps its header and lists the per-movie review counts, one entry per movie |
| Reducer.CountActors | server/reducer/reducer.go:242-255 | the inner loop over a credit's actors extends the counts to cover those actors |
| Reducer.ReduceQ4 | server/reducer/reducer.go:239-265 | the batch keeps its header and lists the per-actor appearance counts over every credit, one entry per actor |
| Reducer.SentimentTallyCounts | server/reducer/reducer.go:270-283 | the positive and negative counts are the numbers of movies with that sentiment and a non-zero budget and revenue, modulo 2^32 |
| Reducer.ReduceQ5 | server/reducer/reducer.go:267-299 | the batch keeps its header and holds exactly one tally, that of its movies |
| Reducer.ReduceMessage | server/reducer/reducer.go:166-180 | no error iff the body decodes and reduces; then the reduced value, otherwise the zero value with a decoding error, or the reducer's own error wrapped |
| ResultModels.GenreNames | pkg/models/Results.go:22-27 | one name per genre, in order |
| ResultModels.Q1MovieString | pkg/models/Results.go:20-30 | the loop that appends each name and a ", " before all but the last builds exactly the Q1 line |
| ResultModels.Q1GenreList | pkg/models/Results.go:20-30 | the Q1 line starts with the title header, is that header and "]" when there are no genres, continues with the first genre otherwise, and ends with "]" |
| ResultModels.JoinStartsWithFirst | pkg/models/Results.go:22-27 | a join starts with its first part |
| ResultModels.LinesOpenWithQueryId | pkg/models/Results.go:20-72 | each of the Q1 to Q4 lines starts with "Query d: " where d is its query id |
| ResultModels.ComparatorReadsHead | compare_outputs.py:21-39 | a line that starts with "Query d: " is read by the comparator as query d with the rest of the line as its results |
| ResultModels.HeadSeparator | compare_outputs.py:22 | in a "Query d: " line the first ": " is at position 7 |
| ResultModels.HeadWords | compare_outputs.py:23 | "Query d" splits into the words "Query" and d |
| ResultModels.TailWord | compare_outputs.py:23 | " d" splits into the single word d |
| ResultModels.ComparatorFilesResults | pkg/models/Results.go:20-72 | every Q1 to Q4 line the client writes is read by the comparator under its own query id |
| Sharding.BucketIsFiltered | server/preprocessor/preprocessor.go:245-250 | a shard's bucket is the filter of the batch by any predicate that agrees with "goes to this shard" |
| Sharding.BucketCount | server/preprocessor/preprocessor.go:245-250 | an item occurs in its own shard's bucket as often as in the batch, and not in other buckets |
| Sharding.BucketsSnoc | server/preprocessor/preprocessor.go:245-250 | one more item adds it to the union of buckets 1..n iff its shard is in 1..n |
| Sharding.BucketsPartition | server/preprocessor/preprocessor.go:241-253 | when every item's shard is in 1..shards, the buckets together are exactly the batch's items |
| Sharding.EmptyBuckets | server/preprocessor/preprocessor.go:241-253 | an empty batch has empty buckets |
| Sharding.LandsInOwnBucket | server/preprocessor/preprocessor.go:245-250 | an item is in a bucket iff it is in the batch and its shard is that bucket's |
| Text.TrimLeft | client/utils/parser.go:43 | strips only leading whitespace, in the Unicode sense of the language at hand, and the result does not start with any |
| Text.TrimLeftSuffix | client/utils/parser.go:43 | trimming on the left leaves a suffix |
| Text.TrimRight | client/utils/parser.go:43 | strips only trailing whitespace, in the Unicode sense of the language at hand, leaves a prefix, and the result does not end with any |
| Text.TrimSpaceInfix | client/utils/parser.go:43-87 | TrimSpace returns the infix left after removing leading and trailing whitespace (Go's unicode.IsSpace or Python's str.isspace), starting and ending with a non-space |
| Text.JoinSnoc | client/utils/parser.go:105-133 | joining one more part adds the separator and that part at the end |
| Text.DigitChar | server/preprocessor/parsing.go:13 | the character is a digit whose value is d |
| Text.NatToString | server/preprocessor/parsing.go:13-62 | decimal digits only, with no leading zero |
| Text.IntToString | server/preprocessor/parsing.go:13-62 | the decimal form, preceded by "-" for a negative number |
| Text.DigitsValueOfNatToString | server/preprocessor/parsing.go:13 | reading back the decimal form gives the number |
| Text.NatToStringInjective | server/preprocessor/parsing.go:13 | distinct numbers have distinct decimal forms |
| Text.ParseDigits | client/utils/parser.go:197-209 | succeeds iff the text is all digits and is not empty, with their decimal value |
| Text.ParseInt | compare_outputs.py:23 | an optional sign followed by ASCII digits is read as that number; an accepted text is of that form |
| Text.ParseIntOfIntToString | compare_outputs.py:23 | reading a number's decimal form gives the number back |
| Text.WordLength | compare_outputs.py:23 | the length of the leading run of characters that str.isspace rejects |
| Text.Fields | compare_outputs.py:23 | every field of str.split() is a non-empty run with no character str.isspace accepts |
| Text.ToLower | client/utils/parser.go:96 | same length, each ASCII letter lower-cased and every other character unchanged; for the only comparison that uses it (`== "none"`) this decides exactly as Go's Unicode `strings.ToLower`, since no non-ASCII rune lower-cases to n, o or e |
| Text.IndexOf | compare_outputs.py:22 | the first position at or after from where the separator occurs, or none when it never does |
| Text.Segments | client/utils/parser.go:23-57 | the splitting of a text at separators the state allows: never empty |
| Text.JoinSegments | client/utils/parser.go:23-57 | gluing the segments back with the separator gives the text again |
| Text.SegmentsSepFree | client/utils/parser.go:23-50 | the first segment is a prefix of the text |
| Text.SegmentsStep | client/utils/parser.go:41-50 | one character either closes the current segment, at an allowed separator, or extends it |
| Text.ScanSegments | client/utils/parser.go:23-57 | the character-by-character scan from any position completes the segments started so far |
| Text.ScanFromStart | client/utils/parser.go:23-57 | a scan from the start computes exactly the segments |

## Left out

- Floating point: the rating sums and averages of query 3, the profit ratios and their averages of query 5, `parseFloat32`, the `float32` casts and `Q5Avg.String` are not modelled; query 3 keeps the counts and query 5 keeps the two counts, because real numbers cannot model IEEE rounding faithfully.
- Reducer.ReduceQ3: states the review counts and titles only; the rating sum per movie is a float and is left out.
- Reducer.ReduceQ5: states the positive and negative counts only; the profit-ratio sums are floats and are left out.
- RabbitMQ, Go channels, goroutines and `context` cancellation are not modelled; queues are sequences of sent messages, and the goroutines that join stored review batches run one after another in the model.
- JSON encoding and decoding (`json.Marshal`, `json.Unmarshal`) are parameters: an encoder function and a decoder returning an `Option`; the JSON text itself is not modelled.
- `strconv.Quote` is a parameter of the parser model, because Go's quoting rules for every code point are outside this model.
- `time.Parse` and `Year()` are not modelled: a movie's release year is a field of the record.
- The shard function `GetShard` is a parameter, because its hash is not part of this model; the properties that need it in range state so.
- `parseMovie` (turning a CSV record into a raw movie) is a parameter of the reader model, because its field conversions are floats, dates and JSON.
- `encoding/csv` is modelled as a sequence of already-split records (`MoviesReading.CsvReader`), each non-empty as csv returns them, or a read error; quoting inside the CSV file is not modelled.
- MoviesReading.MoviesReader.constructor: takes the header fields as an argument; reading the header row at creation and its error path are not modelled.
- MoviesReading.JoinRecords: a read error while joining consumes the failing read, as the source's reader does; nothing else about a broken reader is modelled.
- File and console I/O of the Python scripts (reading result files, printing the comparison, writing docker-compose.yaml) are not modelled; the scripts' functions take and return values.
- Docker, `subprocess` calls and the random choice of containers in the killer script are not modelled; only which names the whitelist protects is.
- KillContainers.PatternShape: `\d` is modelled as the ASCII digits, because container names are ASCII; Python's `\d` on a str pattern compiled without `re.ASCII` also matches the decimal digits of other scripts (Unicode category Nd), so a name such as "joiner-" followed by an Arabic-Indic digit is whitelisted by the script and not by the model.
- KillContainers.IsWhitelisted: inherits the ASCII `\d` of PatternShape; names whose ordinal uses non-ASCII decimal digits are not whitelisted in the model.
- KillContainers.AnyMatch: inherits the ASCII `\d` of PatternShape.
- Compose.Validate: the configuration is assumed well-typed: `clients` and `joiners` are integers, `nodes` is an object of integer counts, `files` is an object, and no value is JSON `null`. The script only checks that the keys are present and that every files entry is a non-empty list; a `null`, string, float or boolean count, or a `nodes` that is not an object, passes that check and then raises TypeError or AttributeError while the manifest is built (or, for `true`, counts as 1). The model cannot represent those documents, and a `null` value reads as an absent key.
- Compose.Run: the same well-typed assumption as Compose.Validate; the TypeError and AttributeError paths of `create_compose` on ill-typed values are not modelled.
- Strings are sequences of characters, not UTF-8 bytes; `strings.ToLower` is modelled on ASCII letters, which is all "none" comparisons need. Whitespace is Unicode whitespace as each language defines it: Go's `unicode.IsSpace` for `strings.TrimSpace`, Python's `str.isspace` (which also counts U+001C..U+001F) for `strip` and `split`.
- Text.ParseInt: reads an optional sign and ASCII digits; Python's `int()` also accepts single underscores between digits and the decimal digits of other scripts, which are not modelled.
- Communication.SendAll: states the loop with `message[written:]`, the intended behaviour; the model's senders use the loop as written (SendAllAsWritten), and promise exactly the frame only when the connection keeps the io.Writer contract.
- Communication.RecvAll: the buffer is a sequence extended by each chunk, not a preallocated slice filled in place.
- Utils.Sum: sums unbounded integers; the 64-bit wrap-around of the source's sum is not modelled, because no caller sums values near that range.
- ClientParser.HasNaNValues: requires a record of more than 20 fields, since the source indexes the title column (20) without a check and would panic on a shorter one.
- Go map iteration order is left open: reducers and final reducers are stated as "lists each entry once" rather than as a fixed order.
- Ranking.CalculateTop5Countries: the order among equal budgets is left open, because `sort.Slice` is not stable.
- Ranking.CalculateTop10Actors: the order among equal counts is left open, because `sort.Slice` is not stable.
- Conn.Read and Conn.Write model the operating system's partial reads and writes as a script of step sizes; they describe the environment, not the source.
- The Go source does not all fit together, and the model follows each file as written: `Results.go` declares result types that differ from those the gateway builds; the user client calls `SendQueryResults` with two arguments against three declared; the joiner controller calls `session.Join` and `GetClientId`, which are not the declared names.
- JoinerControl.ReceiveReviews: a session that was cleaned and then receives a replayed batch is created again, empty, as the source does; the gate on reviews is global to the controller, not per client, as written.
- ClientParser.ParseBool: accepts every spelling `strings.EqualFold` accepts, so the long s (U+017F) reads as an s in "False", as in the source.
- ClientParser.FixJSONArray: the object pattern is not aware of quotes, as in the source's regular expression, so a brace inside a quoted string is matched too.
- ClientParser.ParseJSONArray: the text "[ ]" fails to decode, as written (see SpacedEmptyArrayFails).

## Findings

| source | as written | input that shows it | evidently intended | confidence | as-written member | corrected member |
|---|---|---|---|---|---|---|
| pkg/communication/communication.go:28-39 | every write passes the whole message again, not the part still unsent | a message [1, 2] over a connection whose writes each take one byte and report no error sends [1, 1] and reports success; io.Writer forbids a write that returns fewer bytes than offered without an error, so the defect is latent with a conforming connection (ConformingWriteAgrees) | write `message[written:]` so that the bytes go out once, in order | low, not executed | Communication.RewriteRepeatsPrefix | Communication.SendAll |
