# MirrorLake assistant and sensor pipeline — a Dafny model

This project models the parts of the MirrorLake digital-twin assistant that carry
their own logic. Each source file has one Dafny module:

- **SelfRag** (`self_rag.dfy`) is the Self-RAG question-answering graph.
  - Its nodes are retrieve, generate, check_helpfulness and rewrite. They act on a
    state of query, ordered context and answer.
  - Three routers decide the next node:
    - document relevance parses a score out of the judging model's reply and applies the
      threshold of 7;
    - hallucination routes on the judging model's raw text;
    - helpfulness compares the judging model's Score with 1.
  - The edge table is a function, and the graph runs for a bounded number of node
    executions (see "Left out").
  - The retriever and the LLM calls are oracle functions. Each one is given the index
    of the node execution that calls it.
- **AgenticRag** (`agentic_rag.dfy`) is the simpler loop retrieve → generate →
  answer-length check → fallback → retrieve. It also models the prompt that generate
  builds.
- **SensorServer** (`sensor_server.dfy`) is the FastAPI sensor server.
  - The three tables are `seq` fields of the class `SensorStore`. The POST endpoints are
    methods that append to them, and a failed detection batch rolls back.
  - The GET endpoints are functions over the rows: filter by sensor, order by creation
    time, limit to `count`.
  - Tags are stored joined by "," and read back split on ",". A detection's bbox is
    stored as x1, y1, x2, y2 and read back as a list.
- **ResourceWrapper** (`resource_wrapper.dfy`) is the MCP tool layer that turns
  gateway data into readable text.
  - The data is a JSON value datatype. Python's `get`, `str`, slicing, `len`, iteration
    and `join` are modelled on it, including the exceptions they raise.
  - The list_* tools are a loop that appends one block per record. They are proved equal
    to a formatting function.
  - The get_*_data tools are functions that number the items one per line.
- **ChatClient** (`chat_client.dfy`) is the chat front end.
  - It rebuilds the LLM message list from the positional chat history.
  - It calls the agent graph, which is an oracle here.
  - It appends the question and the reply to the history it keeps.
- **RtspDetection** (`rtsp_detection.dfy`) is the zone detector.
  - The mouse callback draws zones.
  - Detections are filtered to person and car, and numbered.
  - Each detection gets its box centre and the first zone holding that centre (9999
    when no zone holds it), and is filed under "object<n>".
- **RtspCarEmbedding** (`rtsp_car_embedding.dfy`) is the car cropper. Every car is
  cropped once for every zone holding its centre. It also builds the crop and result
  file names.
- **Documents** (`documents.dfy`) holds the retrieved document and its page contents,
  shared by both RAG graphs.
- **Text** (`text.dfy`) holds the Python string builtins the others rely on.

Where a comment in the source disagrees with its code, the model follows the code:
- answer_check's comment says an answer of 10 characters or more ends the run, but the
  code needs more than 10;
- check_hallucination is described as classifying answers, but any reply other than the
  two exact labels has no route, so the run stops with an error (`NoRoute`).

## Model

| member | source | states |
|---|---|---|
| SelfRag.RewriteNode | llm_rag/self_rag.py:183-188 | rewrite replaces the query with the LLM's text and always empties context and answer, whatever they held |
| Documents.PageContents | llm_rag/self_rag.py:149 | the hallucination judge receives every document's page content, one per document, in context order (agentic_rag.py:45 builds its context block from the same list) |
| SelfRag.SkipSpaces | llm_rag/self_rag.py:124 | the `\s*` part of the pattern consumes the whole whitespace run, stopping at the first non-space or the end |
| SelfRag.SkipDigits | llm_rag/self_rag.py:124 | the `(\d+)` group is greedy: it takes the whole digit run, stopping at the first non-digit or the end |
| SelfRag.FirstMatch | llm_rag/self_rag.py:124 | re.search returns a position at or after the start where the pattern `"Score":\s*(\d+)` matches |
| SelfRag.FirstMatchIsLeftmost | llm_rag/self_rag.py:124 | the match found is the leftmost one: no earlier position matches, and "no match" means no position matches |
| SelfRag.ScoreDigits | llm_rag/self_rag.py:125 | the captured group is a non-empty run of decimal digits |
| SelfRag.RelevanceScore | llm_rag/self_rag.py:121-125 | a dict reply gives its Score entry, and a missing Score raises KeyError; a text reply gives the first matched number, or 1 when nothing matches |
| SelfRag.CheckDocRelevance | llm_rag/self_rag.py:116-130 | the verdict is 'relevant' exactly when the parsed score is at least 7 and 'irrelevant' otherwise, with no clamping to 1..10; a parse failure propagates |
| SelfRag.CheckHelpfulnessGrader | llm_rag/self_rag.py:157-164 | 'helpful' exactly when Score equals 1 and 'unhelpful' for any other Score; a reply without Score raises KeyError |
| SelfRag.RunNode | llm_rag/self_rag.py:35-188 | retrieve keeps the query, stores the retrieved documents in order and clears the answer; generate keeps query and context and stores the completion; check_helpfulness changes nothing; rewrite sets the new query and empties context and answer |
| SelfRag.EdgeTable | llm_rag/self_rag.py:197-222 | the run ends only after an irrelevant retrieval or a helpful answer; relevant goes to generate, hallucinated back to generate, not hallucinated to the helpfulness gate, unhelpful to rewrite, and rewrite always to retrieve |
| SelfRag.Execute | llm_rag/self_rag.py:197-232 | a run visits at most its budget of nodes and starts with the visit to its first node; a run that stops for lack of budget has used all of it |
| SelfRag.TraceFollowsWiring | llm_rag/self_rag.py:197-222 | every run is a path of the graph: each visit's input is the previous node's output, and each step is the edge the table routes to |
| SelfRag.QueryChangesOnlyThroughRewrite | llm_rag/self_rag.py:183-188 | along a run the query changes only on the rewrite step, which also empties context and answer; the gate passes its state on untouched; regeneration keeps query and context |
| SelfRag.IrrelevantEndsWithoutGenerating | llm_rag/self_rag.py:198-205 | a retrieval scored below 7 ends the run right there with the retrieved context and an empty answer, and generate is never visited |
| SelfRag.RelevantReachesGenerate | llm_rag/self_rag.py:198-205 | a retrieval scored 7 or more leads straight to generate on the retrieved context |
| SelfRag.UnparseableScoreIsIrrelevant | llm_rag/self_rag.py:124-130 | a text reply with no match parses as 1 and is judged irrelevant |
| SelfRag.ScoreRoundTrip | llm_rag/self_rag.py:124-125 | a reply written in the requested format (text without a double quote, the key, whitespace, the digits of n, then text not starting with a digit) parses back to exactly n |
| SelfRag.HallucinatedRegenerates | llm_rag/self_rag.py:206-213 | a "hallucinated" verdict re-enters generate with the same query and context |
| SelfRag.UnknownGroundingLabelHasNoRoute | llm_rag/self_rag.py:147-152 | any text from the judging model other than the two exact labels stops the run with no route out of generate |
| SelfRag.UnhelpfulRewritesThenRetrieves | llm_rag/self_rag.py:214-222 | an unhelpful answer goes to rewrite and then to retrieve, with the rewritten query and empty context and answer |
| SelfRag.HelpfulFinishes | llm_rag/self_rag.py:214-221 | a helpful answer ends the run, returning the gate's state unchanged |
| SelfRag.PersistentHallucinationNeverEnds | llm_rag/self_rag.py:206-213 | there is no retry bound: if the judging model always says "hallucinated", the run regenerates on the same query and context until any budget is spent |
| SelfRag.UnhelpfulRoute | llm_rag/self_rag.py:197-222 | when retrievals are relevant, answers are grounded and answers are unhelpful, every node routes on to the next node of the rewrite cycle |
| SelfRag.PersistentUnhelpfulnessNeverEnds | llm_rag/self_rag.py:214-222 | the rewrite cycle is unbounded too: under persistent relevant, grounded and unhelpful verdicts, no budget is enough to finish |
| SelfRag.FuelMonotone | llm_rag/self_rag.py:225-232 | a run that ended before its budget ran out ends identically with any larger budget |
| SelfRag.FinishedOnlyAtGates | llm_rag/self_rag.py:197-222 | a finished run ended at one of the two END edges: right after retrieve with an empty answer, or at the helpfulness gate, whose state it returns |
| SelfRag.RegenerateOnceThenSucceed | llm_rag/self_rag.py:197-232 | relevant, then hallucinated, then grounded and helpful: the run calls generate exactly twice and finishes with the second answer |
| AgenticRag.AnswerCheck | llm_rag/agentic_rag.py:58-63 | "sufficient" exactly when the answer is longer than 10 characters, "insufficient" otherwise (so exactly 10 is insufficient) |
| AgenticRag.RunNode | llm_rag/agentic_rag.py:31-69 | no node changes the query; retrieve and fallback store the retrieved documents and clear the answer; generate keeps the context and stores the completion of the prompt |
| AgenticRag.Execute | llm_rag/agentic_rag.py:78-95 | a run visits at most its budget of nodes, starts with the visit to its first node, and uses its whole budget when it runs out |
| AgenticRag.FallbackIsRetrieve | llm_rag/agentic_rag.py:66-69 | fallback is exactly retrieve on the unchanged state, so a retry searches with the same query |
| AgenticRag.PromptHoldsContextInOrder | llm_rag/agentic_rag.py:45-52 | the prompt holds every page content, in context order, at its offset after the prompt head, separated by blank lines |
| AgenticRag.QueryNeverChanges | llm_rag/agentic_rag.py:31-69 | every visit of a run, and the final state, carries the caller's query |
| AgenticRag.RoutesAlongTheCycle | llm_rag/agentic_rag.py:78-87 | every verdict has a route: generate ends on a long answer, and every other step goes to the next node of retrieve → generate → fallback |
| AgenticRag.FinishesOnlyOnLongAnswer | llm_rag/agentic_rag.py:80-87 | a run never fails, and it finishes only right after generate with an answer longer than 10 characters |
| AgenticRag.RunIsTheCycle | llm_rag/agentic_rag.py:78-87 | the visits follow the cycle retrieve → generate → fallback → retrieve, from wherever the run starts |
| AgenticRag.ShortAnswersNeverEnd | llm_rag/agentic_rag.py:80-87 | there is no retry counter: if every answer has at most 10 characters, the loop runs until any budget is spent |
| AgenticRag.LongFirstAnswerFinishes | llm_rag/agentic_rag.py:78-95 | a first answer longer than 10 characters finishes the run after retrieve and generate, with the retrieved context and that answer |
| SensorServer.Filter | server/server.py:178-181 | the filtered rows are exactly the rows satisfying the condition, each as often as in the table |
| SensorServer.SortBy | server/server.py:169 | ordering gives a sorted permutation of the rows |
| SensorServer.GetSensorInfo | server/server.py:146-162 | one view per stored sensor, carrying its identifier, name, owner and description unchanged and its tags split back on "," |
| SensorServer.TagsRoundTrip | server/server.py:111 | tags read back as registered when there is at least one tag and no tag contains a comma |
| SensorServer.EmptyTagsReadBackAsEmptyString | server/server.py:158 | a sensor registered with no tags reads back with the single tag "" |
| SensorServer.CommaInTagSplitsIt | server/server.py:158 | a tag holding a comma reads back as two tags |
| SensorServer.OfSensor | server/server.py:179 | exactly the rows of the given sensor, each as often as in the table |
| SensorServer.SortNewestFirst | server/server.py:169 | ordering by created_at descending permutes the rows into newest-first order |
| SensorServer.ReadAllData | server/server.py:165-171 | every stored reading, newest first |
| SensorServer.ReadSensorData | server/server.py:174-183 | exactly the sensor's readings, each as often as stored, newest first |
| SensorServer.SensorDataInRange | server/server.py:186-202 | exactly the sensor's readings with start <= created_at <= end, both bounds inclusive, oldest first |
| SensorServer.RecentSensorData | server/server.py:205-218 | a count that is not positive is refused; otherwise the first min(count, n) entries of the sensor's newest-first listing, all of that sensor |
| SensorServer.RecentAreTheNewest | server/server.py:209-215 | no reading of the sensor left out of the recent list is newer than the oldest reading in it |
| SensorServer.ViewOf | server/server.py:279-287 | the reported bbox always has four entries |
| SensorServer.BboxRoundTrip | server/server.py:230-233 | reading a stored detection back gives the first four bbox entries, so a four-entry bbox round-trips exactly, with its label and confidence |
| SensorServer.StageDetections | server/server.py:225-235 | one row per detection, in order, with consecutive ids; any bbox shorter than four entries fails the batch with IndexError |
| SensorServer.DetectionsOf | server/server.py:274 | exactly the detections of the given sensor, each as often as stored |
| SensorServer.SortDetectionsNewestFirst | server/server.py:275 | ordering by created_at descending permutes the detections into newest-first order |
| SensorServer.NewestDetections | server/server.py:272-278 | exactly the sensor's detections, newest first |
| SensorServer.Views | server/server.py:279-287 | one view per row, in row order |
| SensorServer.GetRtspDetections | server/server.py:268-289 | a count that is not positive is refused; otherwise the view of each of the sensor's min(count, n) newest detections, in order |
| SensorServer.SensorStore.constructor | server/server.py:42-95 | the three tables start empty and the store invariant holds |
| SensorServer.SensorStore.RegisterSensor | server/server.py:98-121 | appends one row with the tags comma-joined and reports its id; a duplicate identifier is refused and nothing is stored; the other tables are untouched; sensor identifiers stay unique |
| SensorServer.SensorStore.CreateSensorData | server/server.py:126-143 | appends one reading with data["temperature"] and data["humidity"] and reports its id; a missing key raises KeyError for the first missing one and stores nothing |
| SensorServer.SensorStore.ReceiveRtspDetections | server/server.py:221-242 | appends one row per detection in order and reports how many; a failing batch is rolled back, so no row of it persists; the other tables are untouched |
| SensorServer.RegisteredSensorIsListed | server/server.py:98-162 | after registering, the sensor is listed last with the identifier, name, owner, description and tags it was registered with, when there is at least one tag and none holds a comma |
| ResourceWrapper.Lookup | mcp_server/mcp_mirrorlake_resource_wrapper.py:44 | a key is found exactly when some entry has it, and the value found belongs to such an entry |
| ResourceWrapper.Get | mcp_server/mcp_mirrorlake_resource_wrapper.py:44 | `get` works only on an object (anything else raises AttributeError) and gives the stored value or the default |
| ResourceWrapper.SliceTo | mcp_server/mcp_mirrorlake_resource_wrapper.py:47 | slicing keeps the first k characters of a string or items of a list, and raises on anything else |
| ResourceWrapper.Len | mcp_server/mcp_mirrorlake_resource_wrapper.py:47 | len is defined for strings, lists and objects and gives their size |
| ResourceWrapper.Chars | mcp_server/mcp_mirrorlake_resource_wrapper.py:122 | iterating a string yields its characters one by one |
| ResourceWrapper.Keys | mcp_server/mcp_mirrorlake_resource_wrapper.py:122 | iterating an object yields its keys in order |
| ResourceWrapper.Iterate | mcp_server/mcp_mirrorlake_resource_wrapper.py:122 | strings, lists and objects can be iterated: a list yields its items, an object its keys and a string its characters; anything else raises "'<type>' object is not iterable" |
| ResourceWrapper.Strings | mcp_server/mcp_mirrorlake_resource_wrapper.py:49 | the strings of an all-string list, position by position |
| ResourceWrapper.JoinItems | mcp_server/mcp_mirrorlake_resource_wrapper.py:49 | join succeeds on a list of strings, fails on a list holding a non-string, and fails on a value that cannot be iterated |
| ResourceWrapper.Field | mcp_server/mcp_mirrorlake_resource_wrapper.py:44-48 | a missing key shows its default ('-' for text, 0 for counts); a present key shows its value |
| ResourceWrapper.Shortened | mcp_server/mcp_mirrorlake_resource_wrapper.py:47 | a description shows its first `limit` characters, followed by "..." exactly when it is longer than the limit; a missing one shows '-' |
| ResourceWrapper.Capped | mcp_server/mcp_mirrorlake_resource_wrapper.py:49 | a tag list shows at most its first `cap` tags joined by ", ", then a space, then "...더 있음" exactly when there are more than `cap` |
| ResourceWrapper.Joined | mcp_server/mcp_mirrorlake_resource_wrapper.py:193 | a list field is shown in full, joined by ", ", and a missing one shows as empty |
| ResourceWrapper.DatePart | mcp_server/mcp_mirrorlake_resource_wrapper.py:50 | a timestamp is cut to its first ten characters, and a missing one shows '-' |
| ResourceWrapper.Location | mcp_server/mcp_mirrorlake_resource_wrapper.py:46 | lat and lng show '-' when there is no location, and a location that is not an object raises |
| ResourceWrapper.Block | mcp_server/mcp_mirrorlake_resource_wrapper.py:42-52 | a record that is not an object fails at its first `get` |
| ResourceWrapper.RenderAll | mcp_server/mcp_mirrorlake_resource_wrapper.py:42-52 | all blocks render exactly when every record renders, one block per record in order; otherwise the first failing record's error is reported |
| ResourceWrapper.FormatList | mcp_server/mcp_mirrorlake_resource_wrapper.py:33-56 | a caught exception becomes "[예외 발생] ..."; a non-list gives the "[오류]" message; an empty list gives the "none registered" message; otherwise the header followed by the blocks, or the crash message of the first record that fails |
| ResourceWrapper.ListRecords | mcp_server/mcp_mirrorlake_resource_wrapper.py:33-56 | the loop that appends one block per record computes exactly the formatted listing |
| ResourceWrapper.RenderKeepsError | mcp_server/mcp_mirrorlake_resource_wrapper.py:42-52 | once a record fails, every longer prefix of the records fails with that record's error |
| ResourceWrapper.ListShowsRecordsInOrder | mcp_server/mcp_mirrorlake_resource_wrapper.py:41-53 | when every record renders, each record's block appears in the answer right after the header and the blocks before it |
| ResourceWrapper.FirstFailureDecides | mcp_server/mcp_mirrorlake_resource_wrapper.py:42-56 | the first record that fails to render decides the answer |
| ResourceWrapper.NonObjectRecordCrashesList | mcp_server/mcp_mirrorlake_resource_wrapper.py:42-56 | a record that is not an object, after records that all render, makes the tool answer with that record's `get` error |
| ResourceWrapper.Summary | mcp_server/mcp_mirrorlake_resource_wrapper.py:122 | whatever the value yields (a list's items, an object's keys, a string's characters) becomes one line "i. item" per element, numbered from 1 and joined by newlines; a value that cannot be iterated fails with the iteration error |
| ResourceWrapper.Summarize | mcp_server/mcp_mirrorlake_resource_wrapper.py:113-126 | an exception is a crash; an object with "error" gives "[<error>] <failure>"; other falsy data gives the no-data message; any other data gives the title, a blank line and one numbered line per element it yields (items, keys or characters), or the crash of iterating it |
| ResourceWrapper.LineHasNoBreak | mcp_server/mcp_mirrorlake_resource_wrapper.py:122 | a numbered line holds no line break when the item's text holds none |
| ResourceWrapper.SummaryLinesSplitBack | mcp_server/mcp_mirrorlake_resource_wrapper.py:122 | the summary splits back on newlines into exactly the numbered lines, one per item, when no item's text holds a line break |
| ResourceWrapper.GetSensorData | mcp_server/mcp_mirrorlake_resource_wrapper.py:111-126 | get_sensor_data follows the shared summary shape with its own failure, no-data and title texts |
| ResourceWrapper.GetDoData | mcp_server/mcp_mirrorlake_resource_wrapper.py:128-143 | get_do_data follows the shared summary shape with its own texts |
| ResourceWrapper.GetSensorDataTime | mcp_server/mcp_mirrorlake_resource_wrapper.py:145-158 | get_sensor_data_time follows the shared summary shape, its title naming the period |
| ResourceWrapper.GetDoDataTime | mcp_server/mcp_mirrorlake_resource_wrapper.py:160-173 | get_do_data_time follows the shared summary shape, its title naming the period |
| ResourceWrapper.GetSimulationDataTime | mcp_server/mcp_mirrorlake_resource_wrapper.py:224-236 | get_simulation_data_time follows the shared summary shape, its title naming the period |
| ResourceWrapper.GetSimulationData | mcp_server/mcp_mirrorlake_resource_wrapper.py:202-221 | the error check adds the message; only an empty object is "no data"; any list, even an empty one, a string and a non-empty object without "error" go to the numbered lines of what they yield; a value that cannot be iterated is a crash |
| ResourceWrapper.ObjectIsNumberedByKeys | mcp_server/mcp_mirrorlake_resource_wrapper.py:122 | get_sensor_data on an object without "error" numbers the object's keys, one line each |
| ResourceWrapper.StringIsNumberedByCharacters | mcp_server/mcp_mirrorlake_resource_wrapper.py:217 | get_simulation_data on a string numbers its characters, one line each |
| ResourceWrapper.EmptyListIsNoDataOnlyForSensors | mcp_server/mcp_mirrorlake_resource_wrapper.py:210-218 | an empty list is "no data" for get_sensor_data but a title over nothing for get_simulation_data |
| ResourceWrapper.NoneIsNoDataOnlyForSensors | mcp_server/mcp_mirrorlake_resource_wrapper.py:210-221 | None is "no data" for get_sensor_data but a "not iterable" crash for get_simulation_data |
| ChatClient.AtPosition | mcp_server/gradio_langgraph_mcp_sse_client.py:58-61 | a history entry becomes a human message at an even position and an AI message at an odd one, with its content |
| ChatClient.ConversationIsUnique | mcp_server/gradio_langgraph_mcp_sse_client.py:57-62 | there is exactly one message list for a given system prompt, history and question |
| ChatClient.BuildMessages | mcp_server/gradio_langgraph_mcp_sse_client.py:57-62 | the system prompt first, every history entry by position in order, the new question last, so len(history) + 2 messages |
| ChatClient.PositionMatchesRole | mcp_server/gradio_langgraph_mcp_sse_client.py:58-61 | on a history the page built (alternating user and assistant), each entry becomes the message kind of its role |
| ChatClient.TrailingEntryIsAQuestion | mcp_server/gradio_langgraph_mcp_sse_client.py:58-62 | with an odd-length history, the last entry is sent as a question, so two questions end the list |
| ChatClient.ChatHistory.constructor | mcp_server/gradio_langgraph_mcp_sse_client.py:123 | the page's chat history starts empty |
| ChatClient.ChatHistory.QueryAgent | mcp_server/gradio_langgraph_mcp_sse_client.py:56-77 | sends the rebuilt message list; the history grows by exactly the question and the reply (the last message's content, or "[에러] " and the error), earlier entries unchanged, and stays alternating; returns the history and "" |
| RtspDetection.CornersAreInside | rtsp_dectection/rtsp_detection.py:22-29 | the test is inclusive: all four corners of a zone lie inside it |
| RtspDetection.ReversedZoneIsEmpty | rtsp_dectection/rtsp_detection.py:22-29 | a zone stored right-to-left or bottom-to-top holds no point |
| RtspDetection.ZoneEditor.constructor | rtsp_dectection/rtsp_detection.py:16-20 | not drawing, anchor at (-1, -1), no zones |
| RtspDetection.ZoneEditor.DrawRectangle | rtsp_dectection/rtsp_detection.py:32-45 | a press records the anchor; a release appends the zone from the anchor to the release point, in drag order; moves change no state |
| RtspDetection.ReleaseWithoutPress | rtsp_dectection/rtsp_detection.py:19-44 | a release with no press before it stores a zone anchored at (-1, -1) |
| RtspDetection.Kept | rtsp_dectection/rtsp_detection.py:102-105 | no more detections than the frame has, each with a listed label |
| RtspDetection.KeptCounts | rtsp_dectection/rtsp_detection.py:102-105 | each detection with a listed label is kept as often as it occurs in the frame, any other not at all |
| RtspDetection.KeptAppend | rtsp_dectection/rtsp_detection.py:102-105 | the kept detections of two stretches of the frame are those of the first followed by those of the second |
| RtspDetection.KeptInFrameOrder | rtsp_dectection/rtsp_detection.py:102-109 | a listed detection at frame position j is the kept element numbered one past the detections kept before j, so object numbers follow frame order |
| RtspDetection.Midpoint | rtsp_dectection/rtsp_detection.py:109 | the centre of a box lies within the box on each axis |
| RtspDetection.FirstContaining | rtsp_dectection/rtsp_detection.py:110-116 | the zone found holds the point and no earlier zone does; when none is found, no zone holds it |
| RtspDetection.FirstZone | rtsp_dectection/rtsp_detection.py:110-116 | the loop with its break computes the first zone holding the point, or 9999 |
| RtspDetection.GridIndexMeaning | rtsp_dectection/rtsp_detection.py:110-116 | with fewer than 10000 zones, 9999 means exactly that no zone holds the centre, and any other index names a zone that does |
| RtspDetection.ReversedZoneIsNeverReported | rtsp_dectection/rtsp_detection.py:110-116 | a zone dragged backwards is never reported |
| RtspDetection.ObjectKeysAreDistinct | rtsp_dectection/rtsp_detection.py:126 | different counters give different keys |
| RtspDetection.NextKeyIsNew | rtsp_dectection/rtsp_detection.py:105-126 | the next counter value gives a key not used so far, and the key set grows by exactly that key |
| RtspDetection.KeyIsNotReused | rtsp_dectection/rtsp_detection.py:126 | an earlier key differs from the next one |
| RtspDetection.FrameRecords | rtsp_dectection/rtsp_detection.py:100-126 | the payload's keys are exactly object1 .. objectN for the N kept detections, and objectK holds the K-th one's box, label, score, centre and grid index |
| RtspCarEmbedding.CropsOf | rtsp_dectection/rtsp_car_embedding.py:93-97 | a car's crops are one per zone holding its centre, in zone order, each carrying the car's number and box |
| RtspCarEmbedding.CropsOfCoverZones | rtsp_dectection/rtsp_car_embedding.py:93-97 | every zone holding the car's centre gives a crop; there is no break |
| RtspCarEmbedding.ZoneCrops | rtsp_dectection/rtsp_car_embedding.py:93-97 | the inner loop over all zones computes the car's crops |
| RtspCarEmbedding.FrameCrops | rtsp_dectection/rtsp_car_embedding.py:85-97 | the frame loop gives the crops of the cars, numbered from 1 in frame order |
| RtspCarEmbedding.CropsLieInTheirZones | rtsp_dectection/rtsp_car_embedding.py:93-97 | every crop is taken for a zone that holds its car's centre, and carries that car's number and box |
| RtspCarEmbedding.EveryHoldingZoneIsCropped | rtsp_dectection/rtsp_car_embedding.py:93-97 | a car whose centre lies in k zones is cropped once per zone |
| RtspCarEmbedding.UncroppedCarsStillCount | rtsp_dectection/rtsp_car_embedding.py:89-90 | the car number counts cars outside every zone too: when the first car lies outside all zones, no crop is numbered 1 |
| RtspCarEmbedding.CropsAreDistinct | rtsp_dectection/rtsp_car_embedding.py:93-97 | no two crops of a frame share a zone and a car number |
| RtspCarEmbedding.SearchResult | rtsp_dectection/rtsp_car_embedding.py:110 | the reply's search_result, or "unknown" when it has none |
| RtspCarEmbedding.NumberedIsUnique | rtsp_dectection/rtsp_car_embedding.py:96 | a number and an underscore in front of the rest read back uniquely |
| RtspCarEmbedding.JpgNumberIsUnique | rtsp_dectection/rtsp_car_embedding.py:96 | a number followed by ".jpg" reads back uniquely |
| RtspCarEmbedding.CropPathIdentifiesCrop | rtsp_dectection/rtsp_car_embedding.py:96 | a crop file name car_<zone>_<car>.jpg determines the zone and the car number |
| RtspCarEmbedding.ResultPathIdentifiesCrop | rtsp_dectection/rtsp_car_embedding.py:113 | a result file name determines the zone, the car number and the search result |
| RtspCarEmbedding.CropFilesAreDistinct | rtsp_dectection/rtsp_car_embedding.py:96 | within one frame no crop file overwrites another |
| RtspCarEmbedding.ResultFile | rtsp_dectection/rtsp_car_embedding.py:98-118 | a result file is written exactly when the embedding gave a vector and the service replied, and it is named after the search result |
| RtspCarEmbedding.MissingResultIsUnknown | rtsp_dectection/rtsp_car_embedding.py:110-113 | a reply without search_result names the file car_<zone>_<car>_unknown.jpg |
| Text.Take | mcp_server/mcp_mirrorlake_resource_wrapper.py:47 | `s[:k]` is a prefix of length min(k, len(s)) |
| Text.Split | server/server.py:158 | splitting gives at least one piece and no piece holds the separator |
| Text.SplitJoin | server/server.py:111 | splitting undoes joining when there is at least one part and no part holds the separator |
| Text.JoinAt | llm_rag/agentic_rag.py:45 | every part appears in the joined string at its offset, in order |
| Text.NatToString | rtsp_dectection/rtsp_detection.py:126 | `str(n)` of a natural number is a non-empty run of digits |
| Text.DigitsOfNat | llm_rag/self_rag.py:125 | `int` of the digits of `str(n)` gives back n |
| Text.NatToStringInjective | rtsp_dectection/rtsp_car_embedding.py:96 | different numbers have different decimal renderings |

## Left out

- The LLM, retriever, vector store, embedding model, prompt templates and agent graph
  are oracle functions, each given the index of the call. Their text, their
  nondeterminism and their network access are not modelled.
- LangGraph's executor is replaced by the edge table and a step function with a
  budget (`fuel`). A run that uses its budget ends as `OutOfFuel`. The source sets no
  bound of its own. LangGraph's default recursion limit, which raises an error after
  25 steps, is not modelled, and neither is the chat client's `recursion_limit` of 50.
- SelfRag.RelevanceScore: `\s` and `\d` are modelled as ASCII whitespace and ASCII
  digits. Python's are Unicode-aware.
- SelfRag.RelevanceScore: `int(response['Score'])` on a dict takes the Score as an
  integer. A Score that is a string or a float, and the ValueError it could raise, are
  not modelled.
- The prompt that check_doc_relevance sends, and its request for a 1..10 score, are
  not modelled. Only what is done with the reply is.
- SensorServer: the SQL column width limits, the database's id sequence and its gaps,
  and the order of rows with equal created_at are not modelled. The model orders
  equal timestamps in one fixed way.
- SensorServer: created_at is an integer timestamp given as a parameter, not the clock.
  The database session, commit and refresh are not modelled. `post_object` and
  `save_rtsp_car_data` are not part of this model.
- GetSensorInfo: `db.query(SensorInfo).all()` has no ORDER BY, so the database may
  list the sensors in any order. The model lists them in insertion order, and
  RegisteredSensorIsListed relies on that order.
- SensorServer.SensorStore.CreateSensorData: readings are modelled as numbers. A
  non-numeric temperature or humidity, which the database would refuse, is not.
- SensorServer.SensorStore.RegisterSensor: only the unique identifier is checked.
  Other database errors (null fields, over-long strings) are not modelled.
- ResourceWrapper: a float is shown as a fixed text. Python's float formatting, repr's
  escaping of quotes and control characters, and objects with duplicate keys are not
  modelled.
- SliceTo: slicing an object raises "unhashable type: 'slice'", the message of Python
  3.11 and earlier. From Python 3.12 on, the same slice raises a KeyError whose text is
  `slice(None, k, None)`; that message is not modelled.
- ResourceWrapper: `self_rag_tool` and the gateway module behind the fetches
  (`mcp_mirrorlake_server_sse.py`) are not part of this model. The fetch result is a
  parameter.
- ChatClient: the Gradio layout, async/await and the timestamped log lines are not
  modelled.
- RtspDetection: video capture, DETR inference, drawing, display, the HTTP post of the
  payload and its JSON envelope `{'data': send}` are not modelled.
- RtspDetection: the mouse callback's registration is commented out in the source.
  DrawRectangle models the callback itself.
- RtspDetection: reading the zones from grid.txt is not modelled. The zones are a
  parameter.
- RtspDetection.FrameRecords: box coordinates and scores are exact. `round(x, 2)` and
  `round(score, 3)` are not modelled.
- RtspCarEmbedding: image cropping with `int()` truncation, image writes, the
  embedding pipeline and the HTTP request are not modelled. Only the file names and
  the outcome of the search are.
- RtspCarEmbedding: the counter n restarts with every frame, so later frames overwrite
  earlier crop files. Only distinctness within one frame is stated.
- RtspCarEmbedding.SearchResult: the search result is a string. A non-string value in
  the reply is not modelled.
- The print statements and logging in every file are left out.
